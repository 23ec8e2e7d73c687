# AegisAI gateway: the request, billing and delivery protocol

A Dafny model of how the AegisAI gateway accepts, routes, bills and reports AI requests, and proofs of what that
protocol keeps while many gateways, cancellers, outbox relays, Kafka consumers and evaluation workers interleave,
crash and see their messages again. `dafny verify dfyconfig.toml` checks the project.

Every component is modelled twice, in the form the source has it:

- **step functions** say what one critical section, transaction, script or message does to the shared state, with
  every input it does not control (clock, random identifiers, provider behaviour, lost connections, broker faults)
  as an explicit argument;
- **classes and methods** are the source's own objects, loops and in-place updates, each proved equal to its step
  function or to a run of steps.

Runs are sequences of such steps in any order. A process that takes no further step has crashed, so every theorem
about all runs covers a crash at every point.

| file | what it models |
|---|---|
| `Base.dfy`, `Budget.dfy`, `Request.dfy` | sums over tables, exact cost and admission, the request state machine and its histories |
| `Memory.dfy`, `Postgres.dfy`, `Store.dfy` | the two stores, call by call, and exclusive finalisation on both |
| `Router.dfy`, `RouterRace.dfy`, `Breaker.dfy` | selection, prices, orderings, leases, and the circuit breaker |
| `Gateway.dfy`, `Execute.dfy` | one submission as a machine, and `execute` as the program that takes its steps |
| `Protocol.dfy`, `Ownership.dfy`, `Cluster.dfy` | the inductive invariant of any number of submissions and cancellers |
| `Guarantees.dfy`, `PolicySafety.dfy`, `BudgetSafety.dfy`, `OutboxAgreement.dfy` | what follows for clients, for tenant policies, for budgets and for the outbox |
| `Exits.dfy`, `Walk.dfy` | what a submission leaves behind when it returns, exactly when, and concrete runs for each way it can go wrong |
| `Outbox.dfy`, `Consumer.dfy`, `Replay.dfy` | relays with expiring claims, the log, consumer groups, the deduplicating transaction |
| `Pipeline.dfy`, `PipelineInvariant.dfy`, `Delivery.dfy`, `Recovery.dfy`, `BudgetLag.dfy` | the whole chain in one state: billing conservation, no loss, exclusive claims, recovery, budgets behind a lagging ledger |
| `RateLimit.dfy` | the two Redis scripts, permits, and bounds over windows and time |
| `Evaluation.dfy` | evaluation jobs, the work, retry and dead queues, and deliveries |

## Reading the model

- **Atomic steps.** A store call is one critical section (in-memory store) or one committed transaction (SQL store).
  `Fault` adds a connection that breaks before the commit, or after it with the caller none the wiser. The unique
  constraints are those of migrations/000001_initial.up.sql:137, 161, 170, 195, 229 and 271. docs/failure-modes.md:18
  speaks of a serializable transaction for reservations; the code uses READ COMMITTED with a lock on the tenant's
  limits row (internal/persistence/postgres.go:344-350), and the model follows the code.
- **Identifiers.** New identifiers come from outside; one that collides with an existing row is answered as an error.
  An outbox row is identified by its position, and its immutable columns (`events`) are kept apart from the columns
  relays update (`rows`).
- **Numbers.** Costs, prices, limits and amounts are int64 values; sums are exact integers, wrapped explicitly where
  the source adds in int64 (`Wrap`) and checked for range where SQL would refuse them (`InRange`).
- **Time.** Outbox claims count microseconds, rate limits and breakers milliseconds. The start of a month or a day is
  a parameter of a reservation. A transaction's `now()` may be any time up to the present.
- **Providers** are any sequence of chunks followed by usage or an error; the canonical hash and the principal are
  opaque values.
- **Policies.** Tenant policies do not change during a run; `SetTenantPolicy` (internal/persistence/memory.go:50-54) and
  updates of the policy tables are not modelled. The rate limits a policy carries are a parameter of a submission.
- **Consumers.** The Kafka group and the consumer name of the deduplication markers are one value here;
  cmd/audit-consumer/main.go:32 passes two.
- **Claims that do not hold as one would state them.** The SQL store's budget is no hard limit:
  `BudgetLag.LagLetsSpendingPassTheLimit` spends it any number of times, although docs/data-model.md:41 says the same
  remainder cannot be spent twice; `BudgetLag.ReservationsRespectLimitsUpToLag` gives the bound that does hold and
  `BudgetLag.LagBoundIsTight` attains it. `execute` can return with its request open or its reservation active:
  `Exits.CleanExit` gives the guards of the run that decide it, `LeakingRuns.EveryTroubleHappens` a run for each. A
  breaker does not bound live probes: `BreakerLeases.LimitPassedExactlyWhen` says exactly when its limit can be passed.
  Weighted rotation is not fair on a 64-bit counter throughout: `RouterFairness.FairExactlyWhen` says in which windows
  it is. A usage fact that fails validation is never delivered (`Recovery.StuckBillHappens`: the service accepts the empty
  correlation identifier that the HTTP middleware rules out); `Recovery.RecoverableExactlyWhenValid` is exact. A concurrency slot is lost once
  its holder outlives the time to live (`RateLimitRuns.SlowHolderIsForgotten`), and a COMPLETED evaluation job may
  become FAILED (`EvaluationRuns.CompletedCanBeLost`).
- **An assumption.** internal/rabbitmq/rabbitmq.go:124-132 does not match confirmations to messages; the model takes
  a publication that returns no error as enqueued.

## Model

| member | source | states |
|---|---|---|
| `Budget.CostMicroUSD` | internal/budget/budget.go:14-32 | the result is the least whole number of micro-USD that covers the exact price; it is refused exactly for a negative argument or a value outside int64 |
| `Budget.CostMonotone` | internal/budget/budget.go:14-32 | fewer tokens at lower prices never cost more, rounding included, and stay computable |
| `Budget.CanReserve` | internal/budget/budget.go:35-46 | admission without an intermediate overflow decides exactly limit = 0 or committed + active + requested ≤ limit over unbounded integers; negative inputs are told apart |
| `Lifecycle.TerminalIsDeadEnd` | internal/request/request.go:25-37 | a state is final exactly when the transition table gives no way out of it |
| `Lifecycle.HistoryIsPath` | internal/request/request.go:25-44 | over any run of legal steps the distinct states of a request form a path of the transition table, of at most five states |
| `Lifecycle.FinalRowFrozen` | internal/persistence/postgres.go:175-305 | a final row keeps its state, response, cost and flags in every later state of the run |
| `Lifecycle.OneFinaliser` | internal/persistence/postgres.go:214-305 | at most one step of a run takes a given request from open to final |
| `Stores.EveryCallIsLegal` | internal/persistence/memory.go:66-224 | every call on either store, with any arguments and any connection fault, changes rows only along the transition table and never moves an index entry |
| `Stores.FinaliserClosesOpenRow` | internal/persistence/memory.go:131-184 | a finalising call that reports success found its own request open and left it final |
| `Stores.ExclusiveFinalisation` | internal/persistence/postgres.go:214-305 | under any interleaving of calls at most one finalising call per request succeeds, and every later row is the one it wrote |
| `Stores.StoredHistoryIsPath` | internal/persistence/postgres.go:175-305 | in any run of calls on either store, with any faults, a stored request stays stored and its distinct states form a path of the transition table, of at most five states |
| `Stores.SlotsAreInjective` | internal/persistence/memory.go:66-84 | two tenants and keys share an idempotency slot only if they are equal (for the joined in-memory key: when no tenant contains a NUL) |
| `Stores.SlotIsSharedExactlyWithNul` | internal/persistence/memory.go:69-76 | the in-memory slot of a tenant and key is shared with another pair exactly when one of them contains a NUL |
| `MemoryStore.Memory.CreateOrGetRequest` | internal/persistence/memory.go:66-84 | is the create-or-get step: one row per slot, the same slot with another hash is a conflict |
| `MemoryStore.Memory.TransitionRequest` | internal/persistence/memory.go:96-112 | is the conditional transition step, with its three error cases in the source's order |
| `MemoryStore.Memory.StartAttempt` | internal/persistence/memory.go:114-129 | records a new attempt number once |
| `MemoryStore.Memory.CompleteRequest` | internal/persistence/memory.go:131-150 | completes an IN_PROGRESS row and marks the attempt; a missing attempt map is the source's nil-map panic |
| `MemoryStore.Memory.FailAttempt` | internal/persistence/memory.go:152-168 | fails the row only when final and IN_PROGRESS |
| `MemoryStore.Memory.CancelRequest` | internal/persistence/memory.go:170-184 | cancels an open row and refuses a final one |
| `MemoryStore.Memory.ReserveBudget` | internal/persistence/memory.go:196-208 | admits against used plus active reservations of the tenant and overwrites the request's reservation |
| `MemoryStore.Memory.ReconcileBudget` | internal/persistence/memory.go:214-224 | drops the reservation and adds the actual cost on every call, with wrap-around |
| `MemoryStore.SumMap` | internal/persistence/memory.go:245-253 | the accumulating int64 loop, in any visiting order, returns the wrapped exact sum of the tenant's reservations |
| `PostgresStore.Postgres.CreateOrGetRequest` | internal/persistence/postgres.go:72-132 | is the committed transaction: unique (tenant, key), conflict on another hash, one accepted fact per new row |
| `PostgresStore.Postgres.TransitionRequest` | internal/persistence/postgres.go:175-187 | is the conditional UPDATE, refusing illegal transitions first |
| `PostgresStore.Postgres.StartAttempt` | internal/persistence/postgres.go:189-212 | inserts a unique attempt and its selected fact, or nothing |
| `PostgresStore.Postgres.CompleteRequest` | internal/persistence/postgres.go:214-256 | attempt, row and two facts commit together, and roll back together when the row is no longer IN_PROGRESS |
| `PostgresStore.Postgres.FailAttempt` | internal/persistence/postgres.go:258-291 | a final failure commits row and fact together; a non-final one only touches the attempt |
| `PostgresStore.Postgres.CancelRequest` | internal/persistence/postgres.go:293-305 | closes an open row without a fact |
| `PostgresStore.Postgres.ReserveBudget` | internal/persistence/postgres.go:341-385 | reads ledger and active reservations of month and day and inserts at most one reservation per request |
| `PostgresStore.Postgres.RejectBudget` | internal/persistence/postgres.go:387-404 | turns a VALIDATED row into BUDGET_REJECTED with its fact |
| `PostgresStore.Postgres.ReconcileBudget` | internal/persistence/postgres.go:406-418 | settles only an active reservation, recording actual and released amounts |
| `PostgresStore.SqlSum` | internal/persistence/postgres.go:360-374 | a SUM visited in any order is the sum of the selected column |
| `PostgresStore.Postgres.ProcessKafkaEvent` | internal/persistence/audit.go:15-63 | marker, audit row and ledger row commit together; a duplicate commits nothing new, a refused event rolls back |
| `GatewayService.AskBackend` | internal/gateway/service.go:85-211 | each store call of `execute` on either implementation, with a connection lost before or after the commit, is one step of the abstract store |
| `GatewaySpec.PromptEstimate` | internal/gateway/service.go:270-276 | the estimate is the least number of four-character tokens that covers all message content |
| `GatewayService.EstimatePromptTokens` | internal/gateway/service.go:270-276 | the accumulating loop computes that estimate |
| `GatewayService.Relay` | internal/gateway/service.go:220-231 | the chunks handed on are exactly those that fit the bound, their concatenation is the kept content, and the partial flag tells whether there is any |
| `GatewayService.CallProvider` | internal/gateway/service.go:213-235 | the completion, the partial flag and what the emitter saw, for any chunks followed by usage or an error |
| `GatewaySpec.NothingDroppedWhenItFits` | internal/gateway/service.go:220-231 | a stream within the size bound is kept whole |
| `GatewayService.Submission.Create` | internal/gateway/service.go:93-104 | create or find the request; a found one is replayed, as pending unless COMPLETED with a response |
| `GatewayService.Submission.Validate` | internal/gateway/service.go:105-112 | validate and load the policy; without a policy the request fails |
| `GatewayService.Submission.AskLimiter` | internal/gateway/service.go:237-256 | the limiter object grants a slot for each bucket, or is left with every slot already taken given back; as many permits are in hand as slots were granted |
| `GatewayService.Submission.Admit` | internal/gateway/service.go:119-124 | admission through the limiter: with all permits in hand the call goes on, otherwise the slots are back, the request fails and the call returns |
| `GatewayService.Submission.ReleaseAll` | internal/gateway/service.go:310-316 | the deferred release gives every permit in hand back, once |
| `GatewayService.Submission.Price` | internal/gateway/service.go:114-135 | the reservation is the cost of the estimates at the highest permitted prices; no route fails the request, an invalid cost returns at once |
| `GatewayService.Submission.Book` | internal/gateway/service.go:136-141 | reserve, or reject exactly when the budget is exceeded |
| `GatewayService.Submission.Route` | internal/gateway/service.go:142-147 | the two transitions to IN_PROGRESS, each of which may be lost to a cancellation |
| `GatewayService.Submission.Pick` | internal/gateway/service.go:152-159 | the lease the router object gives is one of the machine's picks and takes one unit of one provider; without one nothing is taken |
| `GatewayService.Submission.StartOne` | internal/gateway/service.go:152-164 | select a provider not tried before at the router and record the attempt, or report the lease and leave the router's capacity as it was |
| `GatewayService.Submission.TryOne` | internal/gateway/service.go:166-202 | one provider call and what follows from it; on every path the lease is reported and the router's capacity is as before the attempt |
| `GatewayService.Submission.TakeIn` | internal/gateway/service.go:166-175 | price the reported usage at the leased prices |
| `GatewayService.Submission.Finish` | internal/gateway/service.go:176-185 | store the response, report the lease, then settle the reservation at the actual cost |
| `GatewayService.Submission.Recover` | internal/gateway/service.go:187-201 | record the failed attempt, final unless it may be retried with nothing handed over and attempts left |
| `GatewayService.Submission.Serve` | internal/gateway/service.go:149-211 | the failover loop ends, and without an answer fails the request once and refunds the reservation |
| `GatewayService.Submission.Execute` | internal/gateway/service.go:85-211 | from any store, with cancellations landing between any two steps, the structured program takes exactly the steps of the machine until it halts and returns the exit it halted with; the router's capacity is as it was and every slot taken at the limiter was granted and given back |
| `GatewayServiceRuns.ExecuteIsARun` | internal/gateway/service.go:85-211 | such a call, with the cancellations around it, is one of the cluster runs all invariants below speak of |
| `Protocol.StepIsLocal` | internal/gateway/service.go:85-256 | every step of a submission keeps its counts, distinct provider names, one-stream rule, lease accounting and price cover |
| `Protocol.HonestCostFits` | internal/gateway/service.go:114-135 | usage within the estimates never costs more than the reservation, whatever provider was leased |
| `Cluster.StepFits` | internal/gateway/service.go:85-211 | after every step of its own a submission fits the row, reservation and attempts it owns, on either store and under faults |
| `Cluster.EveryActionKeeps` | internal/gateway/service.go:85-264 | each submission, step, cancellation or background write keeps the cluster invariant |
| `Cluster.Invariant` | internal/gateway/service.go:85-264 | the invariant holds after every sequence of actions by any number of submissions and cancellers, crashes included, on either store |
| `Guarantees.OneCreator` | internal/gateway/service.go:93-104 | of any number of racing submissions with one tenant and key, at most one creates the request |
| `Guarantees.EveryRowHasItsCreator` | internal/gateway/service.go:93-104 | every stored request is owned by the submission that created it, unless a connection broke during that creation |
| `Guarantees.ExactlyOneCreatorInMemory` | internal/persistence/memory.go:66-84 | in memory every stored request has exactly one creator, which submitted its tenant, key and hash |
| `Guarantees.ProviderCallsBounded` | internal/gateway/service.go:149-202 | all of them together begin at most MaxAttempts provider calls, returned or not, with pairwise distinct provider names |
| `Guarantees.EveryLifeIsAPath` | internal/request/request.go:25-44 | in every run of the cluster a stored request stays stored and its distinct states form a path of the transition table, of at most five states |
| `Guarantees.OtherPayloadConflicts` | internal/persistence/postgres.go:99-122 | once a key is taken, the same key with another hash gets a conflict at every later time and changes nothing |
| `Guarantees.CompletedIsReplayed` | internal/gateway/service.go:93-104 | after completion every identical submission gets the stored response, calls no provider and changes nothing |
| `Guarantees.StreamingSafety` | internal/gateway/service.go:166-235 | all content ever handed to a request's emitter comes from one attempt within the bound; COMPLETED stores exactly it, FAILED flags partial exactly when there is some |
| `Exits.NothingHeldOnReturn` | internal/gateway/service.go:85-256 | on every return path each lease taken was reported exactly once, and as many permits were released as were granted |
| `Exits.GuardDecides` | internal/gateway/service.go:105-211 | an undisturbed step of a submission leads to a return that can leave something behind exactly when the guard of that return holds in the store, the inputs and the provider's answer as they stand |
| `Exits.CancelledExactlyByCancel` | internal/persistence/postgres.go:293-305 | a row is CANCELLED exactly when some cancellation in the run found it open |
| `Exits.CleanExit` | internal/gateway/service.go:105-211 | when none of its connections breaks, a submission leaves its reservation exactly if an attempt could not be started, a usage could not be priced or its row was found cancelled, and its request open exactly if nobody cancelled it and the estimate or a usage could not be priced, the reservation was refused or an attempt could not be started |
| `Exits.UndisturbedReturnIsClean` | internal/gateway/service.go:105-211 | with no cancellation of the request, no broken connection, computable costs, a listed provider and an answerable reservation, the request is final on return and nothing is reserved |
| `MemoryExits.OnlyNegativeLimitsAreRefused` | internal/persistence/memory.go:196-208 | in memory, with no overrun booked, a reservation is refused otherwise than by the budget exactly for a negative limit |
| `MemoryExits.HonestUsageIsPriced` | internal/budget/budget.go:14-32 | non-negative usage within the estimates has a price at every provider that can be leased |
| `MemoryExits.InputsDecideCleanExit` | internal/gateway/service.go:105-211 | in memory, with sound prices and honest usage, a clean exit is decided by inputs: a computable estimate and a non-negative limit suffice when nobody cancels |
| `LeakingRuns.RoutingLostHappens` | internal/gateway/service.go:142-147 | a run in which a cancellation between reservation and routing leaves the reservation active |
| `LeakingRuns.CompletionLostHappens` | internal/gateway/service.go:177-180 | a run in which a cancellation before the completion leaves the reservation active |
| `LeakingRuns.FailureLostHappens` | internal/gateway/service.go:187-192 | a run in which a cancellation before the failure is recorded leaves the reservation active |
| `LeakingRuns.StartLostHappens` | internal/gateway/service.go:160-163 | a run in which a provider missing from the providers table leaves the request open and the reservation active |
| `LeakingRuns.UsageInvalidHappens` | internal/gateway/service.go:170-175 | a run in which a negative usage leaves the request open and the reservation active |
| `LeakingRuns.CostInvalidHappens` | internal/gateway/service.go:132-135 | a run in which an estimate beyond int64 leaves the request open |
| `LeakingRuns.ReserveFailedHappens` | internal/gateway/service.go:136-141 | an in-memory run in which a negative limit leaves the request open |
| `LeakingRuns.EveryTroubleHappens` | internal/gateway/service.go:105-211 | every return that can leave a request open or a reservation active does so in some run from an unused store |
| `Exits.CancelBeforeRoutingLeaks` | internal/gateway/service.go:142-147 | in every run, a submission that finds its row cancelled between reservation and routing returns with the reservation still active |
| `PolicySafety.OnlyPermittedProvidersAreCalled` | internal/gateway/service.go:108-164 | in every run each provider any submission ever began to call serves the model, data classification and allow-list of the policy the submission loaded, which is the one stored for its tenant |
| `BudgetSafety.LimitHolds` | internal/persistence/memory.go:196-224 | in every in-memory run used plus active reservations stay within the limit plus the booked overruns, with no wrap-around |
| `BudgetSafety.HonestRunsNeverOverrun` | internal/gateway/service.go:114-182 | with reported usage within the estimates no settled cost runs over its reservation |
| `BudgetSafety.HardLimit` | internal/persistence/memory.go:196-224 | with usage within the estimates, used plus active reservations never exceed the non-zero limit under any interleaving of submissions and cancels |
| `OutboxAgreement.CommitKeepsAgreement` | internal/persistence/postgres.go:123-404 | every call `execute` or a canceller makes keeps outbox and tables in agreement |
| `OutboxAgreement.OutboxAgreesWithTables` | internal/persistence/postgres.go:123-404 | in every reachable state: one accepted fact per request, one selected per attempt, one completed and one usage fact with the stored cost exactly when COMPLETED, one budget fact exactly when BUDGET_REJECTED, at most one failed fact and only when FAILED, one SUCCEEDED attempt exactly when COMPLETED |
| `RouterSpec.HighestPricesDominate` | internal/routing/router.go:165-192 | no permitted provider is dearer than the highest prices |
| `RouterSpec.HighestPricesIgnoreExclusions` | internal/routing/router.go:165-192 | the highest prices do not depend on which providers were tried, so one reservation covers every failover |
| `RouterSpec.HighestPricesAttained` | internal/routing/router.go:165-192 | each highest price is zero or the price of a permitted provider |
| `RouterSpec.StableSortIsStable` | internal/routing/router.go:231-239 | the sorted orderings ascend by key and keep the original order among equal keys |
| `RouterSpec.Order` | internal/routing/router.go:231-257 | every ordering is a permutation of the eligible list |
| `RouterSpec.TryEach` | internal/routing/router.go:139-160 | walking the ordering takes one free slot of a listed provider, or leaves semaphores and counters as they were |
| `RouterFairness.EachLeadsItsWeight` | internal/routing/router.go:240-255 | over any full turn of sequence values below 2^63 each entry is placed first exactly as often as its weight |
| `RouterFairness.LeadsOfAnyWindow` | internal/routing/router.go:240-255 | in any window of sequence values up to 2^64 an entry leads its turns below 2^63, and the first entry leads all of the rest |
| `RouterFairness.FairExactlyWhen` | internal/routing/router.go:240-255 | a window of W values up to 2^64 is fair to every entry exactly when there is one entry, or it ends by 2^63, or it crosses 2^63 and the remainders from there on stay within the first entry's weight |
| `RouterFairness.FairnessEndsAt2To63` | internal/routing/router.go:240-255 | a window that lies from 2^63 on is fair exactly for a list of one entry; every later entry never leads in it |
| `RouterStore.Router.Select` | internal/routing/router.go:103-160 | a lease comes from a provider that passes policy, health, breaker and capacity; without one semaphores and counters stay as they were |
| `RouterStore.Router.QuoteHighest` | internal/routing/router.go:165-192 | the accumulating loop computes the highest prices, or reports that nothing is permitted |
| `RouterStore.Router.OrderEntries` | internal/routing/router.go:231-257 | sorts or rotates as specified and advances the sequence only for the weighted rotation |
| `RouterStore.Router.Success` | internal/routing/router.go:195-209 | reports once: slot and counter return, the breaker closes |
| `RouterStore.Router.Failure` | internal/routing/router.go:211-220 | reports once: slot and counter return, the breaker counts a retryable failure and otherwise only releases |
| `RouterStore.Router.Release` | internal/routing/router.go:222-229 | only the first release gives the slot back |
| `RouterRace.CapacityConserved` | internal/routing/router.go:103-229 | across interleaved half-finished selects and repeated reports, each semaphore holds exactly its unreleased leases and never exceeds its capacity |
| `RouterRace.AgreeWhenQuiet` | internal/routing/router.go:103-229 | with no operation mid-step semaphore, outstanding counter and live leases agree |
| `RouterRace.ReleaseNeverBlocks` | internal/routing/router.go:222-229 | the receive of a release never finds its semaphore empty |
| `RouterRace.EveryLeaseIsPermitted` | internal/routing/router.go:103-160 | in every interleaving of half-finished selects, health changes and reports, each lease satisfies the policy filter of its own select, which gets at most one |
| `Breaker.CircuitBreaker.TryAllow` | internal/circuitbreaker/breaker.go:54-74 | is the allow step, turning half-open first when the pause is over |
| `Breaker.CircuitBreaker.OnFailure` | internal/circuitbreaker/breaker.go:85-104 | the in-place filter keeps exactly the failures after the cutoff and trips at the threshold |
| `Breaker.CircuitBreaker.OnSuccess` | internal/circuitbreaker/breaker.go:76-83 | closes and forgets all failures |
| `Breaker.CircuitBreaker.OnRelease` | internal/circuitbreaker/breaker.go:106-112 | gives back a probe only while half-open with one out |
| `Breaker.CircuitBreaker.Observe` | internal/circuitbreaker/breaker.go:115-122 | shows half-open for an expired open circuit without changing it |
| `BreakerRuns.WindowIsExact` | internal/circuitbreaker/breaker.go:76-103 | with nondecreasing times the list filtered in place is the window over the full failure history since the last success, half-open failures excluded |
| `BreakerRuns.OpensExactlyAtThreshold` | internal/circuitbreaker/breaker.go:85-103 | a closed circuit opens exactly when that window reaches the threshold |
| `BreakerRuns.ClosedIsBelowThreshold` | internal/circuitbreaker/breaker.go:54-128 | closed means fewer failures than the threshold, no probe is out unless half-open, and never more than the limit |
| `BreakerRuns.NoEarlyAllow` | internal/circuitbreaker/breaker.go:54-128 | after opening at T nothing is allowed before T plus the pause unless a success intervenes |
| `BreakerRuns.ProbesBounded` | internal/circuitbreaker/breaker.go:54-112 | within one half-open episode grants minus effective returns equal the active count and never exceed the probe limit |
| `BreakerLeases.CircuitIsARun` | internal/circuitbreaker/breaker.go:54-128 | asks and the first report of each named lease drive the same breaker as the run lemmas above |
| `BreakerLeases.LiveProbes` | internal/circuitbreaker/breaker.go:54-112 | in every run of named leases that each report once, the probes really out while half-open are the active count plus the returns of leases from other episodes less the own returns that found the count at zero |
| `BreakerLeases.LimitPassedExactlyWhen` | internal/circuitbreaker/breaker.go:106-112 | from any half-open state more probes than allowed can get out in the same episode exactly when a lease of another episode is unreported or has given back a probe it never took |
| `BreakerLeases.LiveProbesBounded` | internal/circuitbreaker/breaker.go:54-112 | in one episode at most the allowed probes and as many more as leases were unreported when it began are out |
| `BreakerLeases.OldLeaseReturnsProbe` | internal/circuitbreaker/breaker.go:106-112 | a run in which a lease from before the trip gives back a probe it never took, so two probes are out although one is allowed |
| `OutboxStore.Repository.Oldest` | internal/outbox/outbox.go:34-47 | finds the oldest claimable unlocked row not picked yet, or tells there is none |
| `OutboxStore.Repository.Claim` | internal/outbox/outbox.go:34-61 | claims distinct claimable unlocked rows, oldest first and all of them unless the limit is reached, and stamps exactly those |
| `OutboxStore.Repository.SetPublished` | internal/outbox/outbox.go:63-69 | marks a row only for the worker that still holds its claim |
| `OutboxStore.Repository.SetFailed` | internal/outbox/outbox.go:71-77 | releases a row for a later time only for the worker that still holds its claim |
| `OutboxStore.Topic.Write` | internal/kafka/kafka.go:31-52 | an invalid event is never written; a written one may still be reported as failed |
| `OutboxStore.Relay.Deliver` | internal/outbox/outbox.go:123-132 | publish one row, then mark it as the publication went; only a failed published mark stops the batch |
| `OutboxStore.Relay.RunBatch` | internal/outbox/outbox.go:118-134 | the batch is one whole run of the relay machine, from query to nothing in hand, under any broker and database faults |
| `PipelineInvariant.RelayStepFits` | internal/outbox/outbox.go:34-134 | every relay step keeps marked rows in the log, log entries equal to outbox rows, and claims no later than the clock |
| `ConsumerStore.Consumer.Assign` | internal/kafka/consumer.go:30-36 | a newly assigned partition is read from the committed offset, or from the first one |
| `ConsumerStore.Consumer.Consume` | internal/kafka/consumer.go:40-64 | one round: the offset is committed only after the effects, and any error ends the member |
| `ConsumerStore.Consumer.Run` | internal/kafka/consumer.go:38-67 | the loop is a run of the consumer machine and stops early only by an error or an empty partition |
| `Replay.DeliveryIsTraced` | internal/persistence/audit.go:15-63 | after any coherent deliveries markers, audit and ledger are the old rows plus exactly the rows of each new acceptable fact |
| `Replay.DeliveryDependsOnTheSet` | internal/persistence/audit.go:15-63 | the projected tables depend only on the set of facts delivered, not on order or repetition |
| `Replay.ReplayEquivalence` | internal/persistence/audit.go:15-63 | folding over deliveries with duplicates equals folding over first occurrences |
| `Delivery.LogReplaysOnce` | internal/kafka/consumer.go:38-67 | any sequence of deliveries drawn from a reachable log replays like its first occurrences |
| `PipelineInvariant.ChargeKeepsBalance` | internal/persistence/postgres.go:214-256 | a completion adds the same cost to the completed side and to the pending side |
| `PipelineInvariant.ProjectKeepsBalance` | internal/persistence/audit.go:42-58 | what the ledger gains the pending facts lose |
| `PipelineInvariant.EveryTurnFits` | internal/outbox/outbox.go:118-134 | each turn of a gateway, canceller, evaluator, relay, consumer or the clock keeps the delivery invariant |
| `PipelineInvariant.AlwaysFits` | internal/kafka/consumer.go:38-67 | the delivery invariant holds after every sequence of turns, with crashes, expired claims, duplicate publication and redelivery |
| `Delivery.BillingConservation` | internal/persistence/postgres.go:214-256 | in every run, for every tenant and start time, completed cost equals the ledger total plus the cost of usage facts not yet projected |
| `Delivery.ChargedOnceAndOnlyIfCompleted` | internal/persistence/audit.go:42-58 | every ledger row charges a COMPLETED request its stored cost at its completion time, and no request has two |
| `Delivery.PendingMeansUnprocessed` | internal/persistence/audit.go:24-58 | a usage fact is pending exactly while no consumer has its marker |
| `Delivery.DrainedMeansSettled` | internal/kafka/consumer.go:38-67 | once all rows are published and one group has read every partition, the ledger equals the completed cost |
| `Delivery.PublishedIsInLog` | internal/outbox/outbox.go:118-134 | a row with published_at set is in the log |
| `Delivery.CommittedIsProjected` | internal/kafka/consumer.go:38-67 | every message below a committed offset has its marker, audit row and, for usage, ledger row |
| `Delivery.UnpublishedComesBack` | internal/outbox/outbox.go:34-47 | whatever became of earlier claims, an unpublished row is claimable again after at most the claim lifetime |
| `Delivery.LargeBatchTakesAll` | internal/outbox/outbox.go:34-47 | a batch larger than the table takes every claimable row nobody has locked |
| `Delivery.ClaimIsExclusive` | internal/outbox/outbox.go:34-77 | until a claim expires or its own worker marks the row, no other relay obtains it, over any run |
| `Delivery.GatewaysRunAsBefore` | internal/gateway/service.go:85-264 | the gateway part of every world is a cluster run with background writes, so all cluster guarantees hold here too |
| `Recovery.OpenRowsAreABatch` | internal/outbox/outbox.go:34-47 | once the claim lifetime has passed, everything unpublished is a batch one relay may claim |
| `Recovery.AlwaysRecoverable` | internal/outbox/outbox.go:118-134 | from every reachable world with well-formed facts, whatever crashed, some continuation publishes every row, brings a consumer group to the end of the log and makes every tenant's ledger equal its completed cost |
| `Recovery.InvalidFactIsStuck` | internal/kafka/kafka.go:31-52 | a fact that fails validation is published in no continuation, and a usage fact of that kind is charged in none |
| `Recovery.StuckBillHappens` | internal/events/event.go:41-44 | a request submitted with an empty correlation identifier completes, and in no continuation is its usage fact published or charged |
| `Recovery.RecoverableExactlyWhenValid` | internal/outbox/outbox.go:118-134 | a continuation that publishes every row and brings a group to the end of the log exists exactly when every fact so far is well formed |
| `BudgetLag.ReservationsRespectLimitsUpToLag` | internal/persistence/postgres.go:341-385 | right after every granted reservation, for month and day, completed plus reserved cost is at most the non-zero limit plus completed cost not in the ledger |
| `BudgetLag.LagBoundIsTight` | internal/persistence/postgres.go:341-385 | the bound is attained: for every n a reachable world right after a granted reservation has n limits completed and pending and one more limit reserved |
| `BudgetLag.ReconciliationAccountsForAll` | internal/persistence/postgres.go:406-418 | a settled reservation splits into actual and released cost |
| `BudgetLag.SettledStays` | internal/persistence/postgres.go:406-418 | a reservation that is no longer active never changes again |
| `BudgetLag.ReconciledAtMostOnce` | internal/persistence/postgres.go:406-418 | each reservation is reconciled at most once in any run |
| `BudgetLag.LagLetsSpendingPassTheLimit` | internal/persistence/postgres.go:360-374 | for every n some reachable world has completed n requests of one tenant that each cost its whole monthly limit: the hard limit does not hold for this store |
| `RateLimitStore.Limiter.TryAllow` | internal/ratelimit/redis.go:78-99 | is the admission script with its input checks; a permit comes back exactly when allowed |
| `RateLimitStore.Permit.Release` | internal/ratelimit/redis.go:102-110 | only the first release runs the release script, whether or not it gets through |
| `RateLimitRuns.MinuteWindowIsBounded` | internal/ratelimit/redis.go:44-58 | every minute window stays within the request and token limits of its bucket; a bucket with a negative limit admits nothing |
| `RateLimitRuns.AnyMinuteIsBounded` | internal/ratelimit/redis.go:44-58 | no span of sixty seconds admits more than twice the request limit |
| `RateLimitRuns.ConcurrencyIsBounded` | internal/ratelimit/redis.go:44-67 | while every permit is held for less than its time to live, no bucket executes more than its maximum, despite key expiry and lost releases |
| `RateLimitRuns.SlowHolderIsForgotten` | internal/ratelimit/redis.go:51-56 | the condition is needed: a permit held for its whole time to live has its slot given away |
| `Admission.Admit` | internal/gateway/service.go:237-256 | a permit for every bucket, or a refusal that gives back exactly the slots already taken |
| `Admission.ReleasePermits` | internal/gateway/service.go:310-316 | every permit is released, each script applied once in order |
| `Admission.ReturnUndoesSlot` | internal/ratelimit/redis.go:44-67 | returning a slot in time restores its counter |
| `Admission.StaySettlesSlots` | internal/gateway/service.go:237-256 | a stay whose slots were granted, held for less than their time to live and released by scripts that got through leaves the counter of every bucket as it was found |
| `Admission.ReturnKeepsQuota` | internal/ratelimit/redis.go:44-67 | it does not restore the window's request and token quota |
| `EvaluationSpec.AverageInRange` | internal/persistence/evaluation.go:187-199 | scores between 0 and 1000 average to a score the table accepts |
| `EvaluationStore.EvaluationTable.CreateOrGetEvaluation` | internal/persistence/evaluation.go:47-75 | one job per tenant and key, only for a COMPLETED request; another hash is a conflict |
| `EvaluationStore.EvaluationTable.MarkEvaluationQueued` | internal/persistence/evaluation.go:121-124 | queues only a pending or failed job |
| `EvaluationStore.EvaluationTable.MarkEvaluationRunning` | internal/persistence/evaluation.go:126-129 | counts a try of a job that is not finished |
| `EvaluationStore.EvaluationTable.CompleteEvaluation` | internal/persistence/evaluation.go:182-220 | the loop averages scores, adds durations and joins outcomes; result, status and fact commit together and an existing result stays |
| `EvaluationStore.EvaluationTable.FailEvaluation` | internal/persistence/evaluation.go:222-243 | marks the job failed or dead-lettered whatever its status, announcing only the permanent case |
| `EvaluationStore.Worker.Process` | internal/rabbitmq/rabbitmq.go:223-258 | one delivery takes the steps of the machine and is settled in at most six |
| `EvaluationStore.Worker.Retry` | internal/rabbitmq/rabbitmq.go:260-273 | buries a command without attempts left, otherwise hands a copy to the retry queue before acknowledging |
| `EvaluationStore.Service.Submit` | internal/evaluationjob/service.go:49-75 | without a request identifier or a job type nothing is done; otherwise record first, then publish, then mark, with the answer of every failure point |
| `EvaluationStore.Service.Retry` | internal/evaluationjob/service.go:85-102 | republishes only failed, dead-lettered or pending jobs |
| `EvaluationRuns.NoCommandIsLost` | internal/rabbitmq/rabbitmq.go:223-273 | every confirmed command has a committed result or a copy queued, in flight, waiting for retry or dead-lettered, under crashes and redelivery |
| `EvaluationRuns.AttemptsStayBelow` | internal/rabbitmq/rabbitmq.go:260-273 | every message anywhere has Attempt below maxAttempts |
| `EvaluationRuns.RetryHopDescends` | internal/rabbitmq/rabbitmq.go:260-273 | each retry hop strictly decreases the attempts left |
| `EvaluationRuns.ResultIsForever` | internal/persistence/evaluation.go:205-208 | a result row is never overwritten or removed |
| `EvaluationRuns.CompletedMeansResult` | internal/persistence/evaluation.go:205-215 | a COMPLETED job has its result row |
| `EvaluationRuns.CompletedIsLeftExactlyByFailure` | internal/persistence/evaluation.go:233-236 | a job leaves COMPLETED exactly when a delivery of it records a failure, and keeps its result |
| `EvaluationRuns.CompletedCanBeLost` | internal/rabbitmq/rabbitmq.go:251-273 | a concrete run in which a lost answer turns a COMPLETED job into a FAILED one with a result |

## Left out

- HTTP handlers, SSE writing, middleware, problem responses, health checks and every `cmd/` main: I/O and wiring.
- API keys, hashing and `ChatInput.Validate` (internal/request/request.go:63-94): the principal and a validated input with its hash are given.
- The HTTP provider adapter and JSON coding; only the retryable and partial rules of internal/provider/provider.go:73-83 are kept.
- Client libraries of PostgreSQL, Redis, Kafka and RabbitMQ: transaction atomicity, row locks, atomic scripts, an append-only log and ack or nack are the step semantics.
- The latency EWMA as a floating-point value: the router sorts by an integer latency key.
- Evaluators, masking and findings: a result is a score, a duration and an outcome.
- Back-off jitter, metrics, tracing, logging, configuration, deployment files and load tests.
- Read-only queries (`GetRequest`, `ListEvaluations`) and API-key lookup, which only add easy members.
- GatewayService.Submission.Execute: calls the limiter and the router objects; provider answers, clocks and faults are parameters, and of everything other processes may do only cancellations land between its steps. Full interleaving is the machine of `Gateway.dfy` in `Cluster.dfy`.
- Admission.Admit: takes a Redis error for a refusal that leaves the counters alone; a script that ran although its answer was lost is not modelled.
- RouterStore.Router.Select: is one step here; its interleaving with other selects, health changes and reports is the subject of `RouterRace.dfy`, on counters instead of channels and with any order and breaker answers.
- RateLimitRuns.MinuteWindowIsBounded: reads the clock and runs the script as one step, with limits that do not change.
- ConsumerStore.Consumer.Run: is bounded by a number of rounds, where the source loops until its context ends.
- EvaluationRuns.NoCommandIsLost: speaks of publications confirmed to the evaluation API and takes a confirmation to mean the message was enqueued.
- Recovery.AlwaysRecoverable: gives a continuation that settles every bill; that the scheduler eventually takes it (fairness, lost wake-ups) is not modelled.
