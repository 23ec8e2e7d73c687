/** One submission (internal/gateway/service.go `execute`) as a machine whose steps other goroutines may interleave with. */
module GatewaySpec {
  import opened Base
  import opened Budget
  import opened Request
  import opened RouterSpec
  import opened Stores
  import P = PostgresSpec

  datatype Setup = Setup(providers: seq<Entry>, maxAttempts: nat, defaultMaxTokens: nat, maxStreamBytes: nat,
                         strategy: Strategy, limited: bool)

  datatype Input = Input(tenant: string, key: string, hash: string, model: string, messages: seq<string>,
                         maxTokens: nat, stream: bool)

  function Characters(messages: seq<string>): nat {
    if messages == [] then 0 else Characters(messages[..|messages| - 1]) + |messages[|messages| - 1]|
  }

  /** The fewest tokens of four characters that cover the prompt. */
  function PromptEstimate(messages: seq<string>): (tokens: nat)
    ensures 4 * (tokens - 1) < Characters(messages) <= 4 * tokens
  {
    (Characters(messages) + 3) / 4
  }

  function CompletionLimit(c: Setup, i: Input): nat {
    if i.maxTokens == 0 then c.defaultMaxTokens else i.maxTokens
  }

  // Provider calls

  datatype CallError = ProviderError(category: string, retryable: bool, partial: bool) | Canceled | DeadlineExceeded
                     | Network(timeout: bool) | NoEligibleProvider | Other

  function IsRetryable(e: CallError): bool {
    match e
    case ProviderError(_, retryable, partial) => retryable && !partial
    case Network(timeout) => timeout
    case _ => false
  }

  function ErrorCategory(e: CallError): string {
    match e
    case ProviderError(category, _, _) => category
    case Canceled => "cancelled"
    case DeadlineExceeded => "deadline_exceeded"
    case _ => "provider_unavailable"
  }

  datatype Ending = Finish(content: string, usage: Usage) | Abort(error: CallError)

  /** What a provider does in one call: any chunks, then usage or an error. */
  datatype Script = Script(chunks: seq<string>, ending: Ending)

  datatype CallResult = Completion(content: string, usage: Usage) | CallFailed(error: CallError)

  /** The content that passed the size bound, in order: each chunk passed was handed to the emitter. */
  function Passed(max: nat, chunks: seq<string>): (content: string)
    ensures |content| <= max
  {
    if chunks == [] then "" else
      var before, chunk := Passed(max, chunks[..|chunks| - 1]), chunks[|chunks| - 1];
      if |before| + |chunk| > max then before else before + chunk
  }

  function Join(parts: seq<string>): string {
    if parts == [] then "" else Join(parts[..|parts| - 1]) + parts[|parts| - 1]
  }

  /** When everything fits, what passed is the whole stream. */
  lemma {:induction false} NothingDroppedWhenItFits(max: nat, chunks: seq<string>)
    requires |Join(chunks)| <= max
    ensures Passed(max, chunks) == Join(chunks)
  {
    if chunks != [] {
      NothingDroppedWhenItFits(max, chunks[..|chunks| - 1]);
    }
  }

  function Delivered(c: Setup, i: Input, script: Script): (s: string) {
    if i.stream then Passed(c.maxStreamBytes, script.chunks) else ""
  }

  function CallOutcome(c: Setup, i: Input, script: Script): CallResult {
    match script.ending
    case Abort(e) => CallFailed(e)
    case Finish(content, usage) => Completion(if i.stream then Delivered(c, i, script) else content, usage)
  }

  // The machine

  /** The return statement a submission left through. */
  datatype Exit =
    | CreateFailed(error: Error) | Replayed(id: Id, record: Record, pending: bool)
    | ValidationLost | PolicyFailed | RateLimited | NoRoute | CostInvalid
    | BudgetDenied | ReserveFailed | RoutingLost
    | StartLost | UsageInvalid | CompletionLost | FailureLost
    | Succeeded(response: Response) | Exhausted

  datatype Pc =
    | Creating | Validating | LoadingPolicy | Abandoning(why: Exit) | Admitting | Refusing(next: nat) | Pricing
    | Reserving | Rejecting | ToRouting | ToInProgress
    | Selecting | Starting | Calling
    | Completing(response: Response, cost: int64) | Settling(response: Response, cost: int64)
    | FailingAttempt(error: CallError, retryable: bool, partial: bool) | Waiting
    | FinalFailing(error: CallError) | Refunding
    | Returning(exit: Exit, next: nat) | Halted(exit: Exit)

  /** The return statement was reached; what is left is the deferred release. */
  predicate Ended(pc: Pc) {
    pc.Returning? || pc.Halted?
  }

  /** The input and what was computed from it, with the providers called, what each call handed to the emitter and what was handed over in all. */
  datatype Job = Job(input: Input, policy: Policy, reserved: int64, excluded: set<string>, tried: seq<string>,
                     streams: seq<string>, handed: string)

  /** How many permits the slice in hand holds, and how many were ever granted and released. */
  datatype Tickets = Tickets(held: nat, granted: nat, released: nat)

  /** The local variables, with a count of the leases taken and given back. */
  datatype Proc = Proc(pc: Pc, job: Job, owner: bool, id: Id, attempt: nat,
                       lease: Option<Entry>, taken: nat, returned: nat, tickets: Tickets, clean: bool)

  function Submitted(i: Input): Proc {
    Proc(Creating, Job(i, Policy("", None, 0, 0), 0, {}, [], [], ""), false, 0, 0, None, 0, 0, Tickets(0, 0, 0), true)
  }

  /** One bucket for the tenant and one for the API key, when there is a limiter. */
  function Buckets(c: Setup): nat {
    if c.limited then 2 else 0
  }

  /** Everything a step may depend on that the submission does not control. */
  datatype Choice = Choice(ctx: Context, fault: P.Fault, admitted: bool, pick: nat, script: Script,
                           interrupted: Option<CallError>, month: Time, day: Time)

  predicate AsksStore(pc: Pc) {
    !(pc.Admitting? || pc.Refusing? || pc.Pricing? || pc.Selecting? || pc.Calling? || pc.Waiting? || Ended(pc))
  }

  function LeasedName(p: Proc): string {
    if p.lease.Some? then p.lease.value.name else ""
  }

  function CallOf(p: Proc, ch: Choice): Call
    requires AsksStore(p.pc)
  {
    var i := p.job.input;
    match p.pc
    case Creating => Create(i.tenant, i.key, i.hash, i.model)
    case Validating => Transition(i.tenant, p.id, Received, Validated)
    case LoadingPolicy => LoadPolicy(i.tenant, i.model)
    case Abandoning(_) => Transition(i.tenant, p.id, Validated, Failed)
    case Reserving => Reserve(i.tenant, p.id, p.job.reserved, ch.month, ch.day)
    case Rejecting => Reject(i.tenant, p.id, p.job.reserved)
    case ToRouting => Transition(i.tenant, p.id, Validated, Routing)
    case ToInProgress => Transition(i.tenant, p.id, Routing, InProgress)
    case Starting => Start(i.tenant, p.id, p.attempt, LeasedName(p), i.model)
    case Completing(response, cost) => Complete(i.tenant, p.id, p.attempt, response, cost)
    case Settling(_, cost) => Reconcile(p.id, cost)
    case FailingAttempt(e, retryable, partial) =>
      Fail(i.tenant, p.id, p.attempt, ErrorCategory(e), retryable, partial, !retryable)
    case FinalFailing(e) => Fail(i.tenant, p.id, 0, ErrorCategory(e), false, false, true)
    case Refunding => Reconcile(p.id, 0)
  }

  /** Leaving through any return starts the deferred release of the permits in hand. */
  function Halt(p: Proc, exit: Exit): Proc {
    p.(pc := Returning(exit, 0))
  }

  /** The outcome of the lease in hand is reported. */
  function Reported(p: Proc): Proc {
    p.(lease := None, returned := p.returned + 1)
  }

  /** Continue after a store call. */
  function Resume(p: Proc, reply: Reply): Proc
    requires AsksStore(p.pc)
  {
    match p.pc
    case Creating =>
      (match reply
       case Created(id) => p.(pc := Validating, owner := true, id := id)
       case Existing(id, record) => Halt(p, Replayed(id, record, !(record.response.Some? && record.state == Completed)))
       case Err(e) => Halt(p, CreateFailed(e))
       case _ => Halt(p, CreateFailed(Unavailable)))
    case Validating => if reply == Done then p.(pc := LoadingPolicy) else Halt(p, ValidationLost)
    case LoadingPolicy =>
      if reply.PolicyIs? then p.(pc := Admitting, job := p.job.(policy := reply.policy)) else p.(pc := Abandoning(PolicyFailed))
    case Abandoning(why) => Halt(p, why)
    case Reserving =>
      if reply == Done then p.(pc := ToRouting)
      else if reply == Err(Exceeded) then p.(pc := Rejecting)
      else Halt(p, ReserveFailed)
    case Rejecting => Halt(p, BudgetDenied)
    case ToRouting => if reply == Done then p.(pc := ToInProgress) else Halt(p, RoutingLost)
    case ToInProgress => if reply == Done then p.(pc := Selecting, attempt := 1) else Halt(p, RoutingLost)
    case Starting =>
      if reply == Done then p.(pc := Calling, job := p.job.(tried := p.job.tried + [LeasedName(p)])) else Halt(Reported(p), StartLost)
    case Completing(response, cost) =>
      if reply == Done then Reported(p).(pc := Settling(response, cost)) else Halt(Reported(p), CompletionLost)
    case Settling(response, _) => Halt(p, Succeeded(response))
    case FailingAttempt(_, retryable, _) =>
      if reply != Done then Halt(p, FailureLost) else if retryable then p.(pc := Waiting) else p.(pc := Refunding)
    case FinalFailing(_) => p.(pc := Refunding)
    case Refunding => Halt(p, Exhausted)
  }

  function SelectionOf(c: Setup, p: Proc): Selection {
    Selection(p.job.input.model, p.job.policy.classification, p.job.policy.allowed, p.job.excluded, c.strategy)
  }

  /** Highest prices over permitted providers, then the cost of the estimates at those prices. */
  function Priced(c: Setup, p: Proc): Proc {
    match HighestPrices(c.providers, SelectionOf(c, p))
    case None => p.(pc := Abandoning(NoRoute))
    case Some((input, output)) =>
      match CostMicroUSD(PromptEstimate(p.job.input.messages), CompletionLimit(c, p.job.input), input, output)
      case None => Halt(p, CostInvalid)
      case Some(amount) => p.(pc := Reserving, job := p.job.(reserved := amount))
  }

  /** Select may give any provider the selection permits, or none, depending on the router's state. */
  function Selected(c: Setup, p: Proc, pick: nat): Proc {
    if pick < |c.providers| && Selectable(c.providers[pick], SelectionOf(c, p)) then
      p.(pc := Starting, lease := Some(c.providers[pick]), taken := p.taken + 1,
         job := p.job.(excluded := p.job.excluded + {c.providers[pick].name}))
    else p.(pc := FinalFailing(NoEligibleProvider))
  }

  function ResponseFor(p: Proc, content: string, usage: Usage): Response {
    Response(p.id, p.job.input.model, content, usage)
  }

  function CostFor(p: Proc, outcome: CallResult): Option<int64> {
    match outcome
    case Completion(_, usage) => CostMicroUSD(usage.prompt, usage.completion, LeasedPrices(p).0, LeasedPrices(p).1)
    case CallFailed(_) => None
  }

  function AfterCall(c: Setup, p: Proc, handed: string, outcome: CallResult, cost: Option<int64>): Proc {
    var p' := p.(job := p.job.(streams := p.job.streams + [handed], handed := p.job.handed + handed));
    match outcome
    case Completion(content, usage) =>
      if cost.None? then Halt(Reported(p'), UsageInvalid)
      else p'.(pc := Completing(ResponseFor(p, content, usage), cost.value))
    case CallFailed(e) =>
      Reported(p').(pc := FailingAttempt(e, IsRetryable(e) && |handed| == 0 && p.attempt < c.maxAttempts, |handed| > 0))
  }

  function Called(c: Setup, p: Proc, script: Script): Proc {
    var outcome := CallOutcome(c, p.job.input, script);
    AfterCall(c, p, Delivered(c, p.job.input, script), outcome, CostFor(p, outcome))
  }

  function LeasedPrices(p: Proc): (int64, int64) {
    if p.lease.Some? then (p.lease.value.inputPrice, p.lease.value.outputPrice) else (0, 0)
  }

  /** One bucket after the other, until all have granted a permit or one refuses. */
  function Admitted(c: Setup, p: Proc, granted: bool): Proc {
    if p.tickets.held >= Buckets(c) then p.(pc := Pricing)
    else if granted then p.(tickets := p.tickets.(held := p.tickets.held + 1, granted := p.tickets.granted + 1))
    else p.(pc := Refusing(0))
  }

  /** The loop over the permits in hand: one release a step, then on. */
  function Release(p: Proc, next: nat, again: Pc, done: Proc): Proc {
    if next < p.tickets.held then p.(pc := again, tickets := p.tickets.(released := p.tickets.released + 1)) else done
  }

  /** Continue without the store: admission, pricing, routing, the provider call, the back-off, the deferred release. */
  function Proceed(c: Setup, p: Proc, ch: Choice): Proc
    requires !AsksStore(p.pc)
  {
    match p.pc
    case Admitting => Admitted(c, p, ch.admitted)
    case Refusing(next) =>
      Release(p, next, Refusing(next + 1), p.(pc := Abandoning(RateLimited), tickets := p.tickets.(held := 0)))
    case Pricing => Priced(c, p)
    case Selecting => Selected(c, p, ch.pick)
    case Calling => Called(c, p, ch.script)
    case Waiting =>
      if ch.interrupted.Some? then p.(pc := FinalFailing(ch.interrupted.value)) else p.(pc := Selecting, attempt := p.attempt + 1)
    case Returning(exit, next) => Release(p, next, Returning(exit, next + 1), p.(pc := Halted(exit)))
    case Halted(_) => p
  }

  /** One step of one submission: a store call, or a step that touches no shared table. */
  ghost function Step(c: Setup, s: Store, p: Proc, ch: Choice): (r: (Store, Proc)) {
    if AsksStore(p.pc) then
      var (s', reply) := Ask(s, CallOf(p, ch), ch.ctx, ch.fault);
      var p' := Resume(p, reply);
      (s', p'.(clean := p'.clean && (s.InMemory? || ch.fault == P.NoFault)))
    else (s, Proceed(c, p, ch))
  }
}
