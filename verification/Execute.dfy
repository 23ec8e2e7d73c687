/** `execute` as the program it is (internal/gateway/service.go), proved to take the steps of the machine. */
module GatewayService {
  import opened Base
  import opened Budget
  import opened Request
  import opened RouterSpec
  import opened RouterStore
  import opened RateLimitStore
  import L = RateLimitSpec
  import A = Admission
  import opened Stores
  import opened GatewaySpec
  import opened MemoryStore
  import opened PostgresStore
  import M = MemorySpec
  import P = PostgresSpec

  const NO_POLICY := Policy("", None, 0, 0)

  /** Either implementation of the store interface. */
  datatype Backend = InMemoryBackend(memory: Memory) | SqlBackend(postgres: Postgres)
  {
    function Objects(): set<object> {
      match this case InMemoryBackend(memory) => {memory} case SqlBackend(postgres) => {postgres}
    }

    ghost function View(): Store
      reads Objects()
    {
      match this case InMemoryBackend(memory) => InMemory(memory.View()) case SqlBackend(postgres) => Sql(postgres.tables)
    }
  }

  method AskMemory(memory: Memory, call: Call, ctx: Context) returns (reply: Reply)
    modifies memory
    ensures (memory.View(), reply) == M.Apply(old(memory.View()), call, ctx)
  {
    match call
    case Create(_, _, _, _) => reply := memory.CreateOrGetRequest(call, ctx);
    case Transition(tenant, id, from, to) => reply := memory.TransitionRequest(tenant, id, from, to, ctx);
    case LoadPolicy(tenant, _) => reply := if tenant in memory.policies then PolicyIs(memory.policies[tenant]) else Err(ModelForbidden);
    case Reserve(_, _, _, _, _) => reply := memory.ReserveBudget(call, ctx);
    case Reject(tenant, id, _) => reply := memory.TransitionRequest(tenant, id, Validated, BudgetRejected, ctx);
    case Start(_, _, _, _, _) => reply := memory.StartAttempt(call, ctx);
    case Complete(_, _, _, _, _) => reply := memory.CompleteRequest(call, ctx);
    case Fail(_, _, _, _, _, _, _) => reply := memory.FailAttempt(call, ctx);
    case Cancel(tenant, id) => reply := memory.CancelRequest(tenant, id, ctx);
    case Reconcile(id, actual) => reply := memory.ReconcileBudget(id, actual, ctx);
  }

  method AskPostgres(postgres: Postgres, call: Call, ctx: Context) returns (reply: Reply)
    modifies postgres
    ensures (postgres.tables, reply) == P.Commit(old(postgres.tables), call, ctx)
  {
    match call
    case Create(_, _, _, _) => reply := postgres.CreateOrGetRequest(call, ctx);
    case Transition(tenant, id, from, to) => reply := postgres.TransitionRequest(tenant, id, from, to, ctx);
    case LoadPolicy(tenant, model) =>
      var db := postgres.tables;
      reply := if (tenant, model) in db.models && tenant in db.policies then PolicyIs(db.policies[tenant]) else Err(ModelForbidden);
    case Reserve(_, _, _, _, _) => reply := postgres.ReserveBudget(call, ctx);
    case Reject(_, _, _) => reply := postgres.RejectBudget(call, ctx);
    case Start(_, _, _, _, _) => reply := postgres.StartAttempt(call, ctx);
    case Complete(_, _, _, _, _) => reply := postgres.CompleteRequest(call, ctx);
    case Fail(_, _, _, _, _, _, _) => reply := postgres.FailAttempt(call, ctx);
    case Cancel(tenant, id) => reply := postgres.CancelRequest(tenant, id, ctx);
    case Reconcile(id, actual) => reply := postgres.ReconcileBudget(id, actual, ctx);
  }

  method AskBackend(backend: Backend, call: Call, ctx: Context, fault: P.Fault) returns (reply: Reply)
    modifies backend.Objects()
    ensures (backend.View(), reply) == Ask(old(backend.View()), call, ctx, fault)
  {
    match backend
    case InMemoryBackend(memory) => reply := AskMemory(memory, call, ctx);
    case SqlBackend(postgres) =>
      reply := Err(Unavailable);
      if fault != P.BeforeCommit {
        reply := AskPostgres(postgres, call, ctx);
      }
      if fault == P.AfterCommit {
        reply := Err(Unavailable);
      }
  }

  // Pieces

  method EstimatePromptTokens(messages: seq<string>) returns (tokens: nat)
    ensures tokens == PromptEstimate(messages)
  {
    var characters := 0;
    for k := 0 to |messages|
      invariant characters == Characters(messages[..k])
    {
      assert messages[..k + 1][..k] == messages[..k];
      characters := characters + |messages[k]|;
    }
    assert messages[..|messages|] == messages;
    tokens := (characters + 3) / 4;
  }

  /** The chunks that pass the size bound are kept and handed on, in order. */
  method Relay(max: nat, chunks: seq<string>) returns (content: string, partial: bool, emitted: seq<string>)
    ensures content == Passed(max, chunks) && |content| <= max
    ensures partial <==> |content| > 0
    ensures Join(emitted) == content
  {
    content, partial, emitted := "", false, [];
    for k := 0 to |chunks|
      invariant content == Passed(max, chunks[..k]) && (partial <==> |content| > 0) && Join(emitted) == content
    {
      assert chunks[..k + 1][..k] == chunks[..k];
      var chunk := chunks[k];
      if |content| + |chunk| <= max {
        if chunk != "" {
          partial := true;
          content := content + chunk;
        }
        assert (emitted + [chunk])[..|emitted|] == emitted;
        emitted := emitted + [chunk];
      }
    }
    assert chunks[..|chunks|] == chunks;
  }

  method CallProvider(c: Setup, input: Input, script: Script) returns (result: CallResult, partial: bool, handed: string)
    ensures result == CallOutcome(c, input, script)
    ensures handed == Delivered(c, input, script) && (partial <==> |handed| > 0)
  {
    partial, handed := false, "";
    if input.stream {
      var emitted;
      handed, partial, emitted := Relay(c.maxStreamBytes, script.chunks);
    }
    match script.ending
    case Abort(e) => result := CallFailed(e);
    case Finish(content, usage) => result := Completion(if input.stream then handed else content, usage);
  }

  // The steps of one submission, with cancellations landing between them

  datatype Deed = Own(choice: Choice) | Meddle(tenant: string, id: Id, ctx: Context, fault: P.Fault)

  ghost function Walk(c: Setup, s: Store, p: Proc, deeds: seq<Deed>): (Store, Proc) {
    if deeds == [] then (s, p) else
      var (s', p') := Walk(c, s, p, deeds[..|deeds| - 1]);
      match deeds[|deeds| - 1]
      case Own(ch) => Step(c, s', p', ch)
      case Meddle(tenant, id, ctx, fault) => (Ask(s', Cancel(tenant, id), ctx, fault).0, p')
  }

  /** What the process becomes when a store call returns. */
  ghost function Resumed(s: Store, p: Proc, reply: Reply, ch: Choice): Proc
    requires AsksStore(p.pc)
  {
    var p' := Resume(p, reply);
    p'.(clean := p'.clean && (s.InMemory? || ch.fault == P.NoFault))
  }

  lemma WalkAsks(c: Setup, s0: Store, p0: Proc, deeds: seq<Deed>, ch: Choice, s: Store, p: Proc, s': Store, reply: Reply)
    requires (s, p) == Walk(c, s0, p0, deeds) && AsksStore(p.pc) && (s', reply) == Ask(s, CallOf(p, ch), ch.ctx, ch.fault)
    ensures (s', Resumed(s, p, reply, ch)) == Walk(c, s0, p0, deeds + [Own(ch)])
  {
    assert (deeds + [Own(ch)])[..|deeds|] == deeds;
  }

  lemma WalkMoves(c: Setup, s0: Store, p0: Proc, deeds: seq<Deed>, ch: Choice, s: Store, p: Proc)
    requires (s, p) == Walk(c, s0, p0, deeds) && !AsksStore(p.pc)
    ensures (s, Proceed(c, p, ch)) == Walk(c, s0, p0, deeds + [Own(ch)])
  {
    assert (deeds + [Own(ch)])[..|deeds|] == deeds;
  }

  lemma WalkMeddles(c: Setup, s0: Store, p0: Proc, deeds: seq<Deed>, d: Deed, s: Store, p: Proc)
    requires (s, p) == Walk(c, s0, p0, deeds) && d.Meddle?
    ensures (Ask(s, Cancel(d.tenant, d.id), d.ctx, d.fault).0, p) == Walk(c, s0, p0, deeds + [d])
  {
    assert (deeds + [d])[..|deeds|] == deeds;
  }

  lemma ProceedKeepsInput(c: Setup, p: Proc, ch: Choice)
    requires !AsksStore(p.pc)
    ensures Proceed(c, p, ch).job.input == p.job.input
    ensures !p.pc.Admitting? && !p.pc.Refusing? && !p.pc.Returning? ==> Proceed(c, p, ch).tickets == p.tickets
  {
  }

  lemma ResumeKeepsInput(s: Store, p: Proc, reply: Reply, ch: Choice)
    requires AsksStore(p.pc)
    ensures var p' := Resumed(s, p, reply, ch);
      p'.job.input == p.job.input && p'.tickets == p.tickets && p' == Resume(p, reply).(clean := p'.clean)
  {
  }

  lemma PricedIs(c: Setup, p: Proc, prices: (int64, int64), cost: Option<int64>)
    requires HighestPrices(c.providers, SelectionOf(c, p)) == Some(prices)
    requires cost == CostMicroUSD(PromptEstimate(p.job.input.messages), CompletionLimit(c, p.job.input), prices.0, prices.1)
    ensures Priced(c, p) == match cost
                            case None => Halt(p, CostInvalid)
                            case Some(amount) => p.(pc := Reserving, job := p.job.(reserved := amount))
  {
  }

  lemma CalledIs(c: Setup, p: Proc, ch: Choice, handed: string, result: CallResult, cost: Option<int64>)
    requires p.pc.Calling?
    requires handed == Delivered(c, p.job.input, ch.script) && result == CallOutcome(c, p.job.input, ch.script)
    requires result.Completion? ==> cost == CostMicroUSD(result.usage.prompt, result.usage.completion, LeasedPrices(p).0, LeasedPrices(p).1)
    requires result.CallFailed? ==> cost == None
    ensures Proceed(c, p, ch) == AfterCall(c, p, handed, result, cost)
  {
  }

  /** What the world does around one step: the choices no object here makes, and who cancels what before it. */
  datatype Weather = Weather(choice: Choice, cancels: seq<Deed>, reached: bool, millis: int)

  /** The slots one submission took, and when it took and gave back each. */
  datatype Stay = Stay(taken: nat, times: seq<Time>, releasing: seq<Time>, reached: seq<bool>)

  /** One call of `execute`, with the limiter and the router it uses. `clock` counts its steps. */
  class Submission {
    const config: Setup
    const backend: Backend
    const router: Router
    const limiter: Limiter?
    const limits: L.Limits
    const apiKey: string
    const input: Input
    const weather: nat -> Weather
    ghost const origin: Store
    var clock: nat
    ghost var store: Store
    ghost var proc: Proc
    ghost var deeds: seq<Deed>

    constructor (config: Setup, backend: Backend, router: Router, limiter: Limiter?, limits: L.Limits, apiKey: string, input: Input, weather: nat -> Weather)
      requires config.limited <==> limiter != null
      ensures this.config == config && this.backend == backend && this.router == router && this.limiter == limiter
      ensures this.limits == limits && this.apiKey == apiKey && this.input == input && this.weather == weather
      ensures Tracks() && proc == Submitted(input) && deeds == [] && origin == backend.View()
    {
      this.config, this.backend, this.router, this.limiter, this.limits := config, backend, router, limiter, limits;
      this.apiKey, this.input, this.weather := apiKey, input, weather;
      origin, clock, store, proc, deeds := backend.View(), 0, backend.View(), Submitted(input), [];
    }

    /** The store and the ghost process are where the machine is after what was done so far. */
    ghost predicate Tracks()
      reads this, backend.Objects()
    {
      && this !in backend.Objects() && router !in backend.Objects() && Client() !! backend.Objects()
      && (config.limited <==> limiter != null)
      && proc.job.input == input && store == backend.View()
      && (store, proc) == Walk(config, origin, Submitted(input), deeds)
    }

    /** Every unit of capacity is where it was. */
    ghost predicate Idle(base: Pool)
      reads router
    {
      && router.Valid() && router.providers == config.providers
      && router.pool.occupied == base.occupied && router.pool.outstanding == base.outstanding
    }

    /** One unit of one provider is out, on this lease. */
    ghost predicate Leased(lease: Lease, base: Pool)
      reads router, lease
    {
      && router.Valid() && router.providers == config.providers && !lease.released && lease !in backend.Objects()
      && lease.entry < |config.providers| && |base.occupied| == |base.outstanding| == |config.providers|
      && router.pool.occupied == base.occupied[lease.entry := base.occupied[lease.entry] + 1]
      && router.pool.outstanding == base.outstanding[lease.entry := base.outstanding[lease.entry] + 1]
      && lease.inputPrice == config.providers[lease.entry].inputPrice && lease.outputPrice == config.providers[lease.entry].outputPrice
    }

    function Client(): set<object> {
      if limiter == null then {} else {limiter.client}
    }

    /** The limiter's counters; there are none without a limiter. */
    ghost function Counters(): L.Cells
      reads Client()
    {
      if limiter == null then map[] else limiter.client.cells
    }

    function BucketNames(): seq<string> {
      if limiter == null then [] else ["tenant:" + input.tenant, "key:" + apiKey]
    }

    function Estimate(): int {
      PromptEstimate(input.messages) + CompletionLimit(config, input)
    }

    /** Cancellations by others that land before the next step. */
    method Meanwhile()
      requires Tracks()
      modifies this`store, this`deeds, backend.Objects()
      ensures Tracks()
    {
      var cancels := weather(clock).cancels;
      for k := 0 to |cancels|
        invariant Tracks()
      {
        if cancels[k].Meddle? {
          WalkMeddles(config, origin, Submitted(input), deeds, cancels[k], store, proc);
          var _ := AskBackend(backend, Cancel(cancels[k].tenant, cancels[k].id), cancels[k].ctx, cancels[k].fault);
          store, deeds := backend.View(), deeds + [cancels[k]];
        }
      }
    }

    method AskStore(call: Call) returns (reply: Reply)
      requires Tracks() && AsksStore(proc.pc) && call == CallOf(proc, weather(clock).choice)
      modifies this, backend.Objects()
      ensures Tracks() && clock == old(clock) + 1
      ensures proc == Resume(old(proc), reply).(clean := proc.clean) && proc.tickets == old(proc.tickets)
    {
      Meanwhile();
      var ch := weather(clock).choice;
      ghost var s := backend.View();
      reply := AskBackend(backend, call, ch.ctx, ch.fault);
      WalkAsks(config, origin, Submitted(input), deeds, ch, s, proc, backend.View(), reply);
      ResumeKeepsInput(s, proc, reply, ch);
      store, proc, deeds := backend.View(), Resumed(s, proc, reply, ch), deeds + [Own(ch)];
      clock := clock + 1;
    }

    /** A step that leaves the store alone; what the router and the limiter decide is filled in. */
    method Move(ghost admitted: bool, ghost pick: nat)
      requires Tracks() && !AsksStore(proc.pc)
      modifies this, backend.Objects()
      ensures Tracks() && clock == old(clock) + 1
      ensures proc == Proceed(config, old(proc), weather(old(clock)).choice.(admitted := admitted, pick := pick))
      ensures !old(proc).pc.Admitting? && !old(proc).pc.Refusing? && !old(proc).pc.Returning? ==> proc.tickets == old(proc.tickets)
    {
      Meanwhile();
      ghost var ch := weather(clock).choice.(admitted := admitted, pick := pick);
      WalkMoves(config, origin, Submitted(input), deeds, ch, store, proc);
      ProceedKeepsInput(config, proc, ch);
      proc, deeds := Proceed(config, proc, ch), deeds + [Own(ch)];
      clock := clock + 1;
    }

    /** Where the process is and what its local variables hold. */
    ghost predicate At(pc: Pc, id: Id, policy: Policy, reserved: int64, excluded: set<string>, attempt: nat)
      reads this
    {
      && proc.pc == pc && proc.id == id && proc.attempt == attempt
      && proc.job.policy == policy && proc.job.reserved == reserved && proc.job.excluded == excluded
    }

    /** Create the request, or find the one that already has its key. */
    method Create() returns (exit: Option<Exit>, id: Id)
      requires Tracks() && proc == Submitted(input)
      modifies this, backend.Objects()
      ensures Tracks() && proc.tickets == old(proc.tickets)
      ensures match exit case Some(e) => proc.pc == Returning(e, 0) case None => At(Validating, id, NO_POLICY, 0, {}, 0)
    {
      id := 0;
      var reply := AskStore(Call.Create(input.tenant, input.key, input.hash, input.model));
      match reply
      case Created(newId) => exit, id := None, newId;
      case Existing(found, record) =>
        var answered := record.response.Some? && record.state == Completed;
        exit := Some(Replayed(found, record, !answered));
      case Err(e) => exit := Some(CreateFailed(e));
      case _ => exit := Some(CreateFailed(Unavailable));
    }

    /** Validate the request and load the tenant's policy. */
    method Validate(id: Id) returns (exit: Option<Exit>, policy: Policy)
      requires Tracks() && At(Validating, id, NO_POLICY, 0, {}, 0)
      modifies this, backend.Objects()
      ensures Tracks() && proc.tickets == old(proc.tickets)
      ensures match exit case Some(e) => proc.pc == Returning(e, 0) case None => At(Admitting, id, policy, 0, {}, 0)
    {
      policy := NO_POLICY;
      var reply := AskStore(Transition(input.tenant, id, Received, Validated));
      if reply != Done {
        return Some(ValidationLost), policy;
      }
      reply := AskStore(LoadPolicy(input.tenant, input.model));
      if !reply.PolicyIs? {
        var _ := AskStore(Transition(input.tenant, id, Validated, Failed));
        return Some(PolicyFailed), policy;
      }
      return None, reply.policy;
    }

    // Admission

    /** The clock readings and release outcomes of the next steps. */
    function TimesFrom(k: nat, n: nat): (r: seq<Time>)
      reads this
      ensures |r| == n
    {
      seq(n, i requires 0 <= i < n => weather(k + i).choice.ctx.now)
    }

    function ReachedFrom(k: nat, n: nat): (r: seq<bool>)
      reads this
      ensures |r| == n
    {
      seq(n, i requires 0 <= i < n => weather(k + i).reached)
    }

    ghost predicate StayFits(stay: Stay) {
      stay.taken <= |BucketNames()| == |stay.times| == |stay.releasing| == |stay.reached|
    }

    /** Every slot of the stay was granted by the counters as they stood. */
    ghost predicate Earned(before: L.Cells, stay: Stay) {
      StayFits(stay) && A.GrantsFirst(before, BucketNames(), limits, Estimate(), stay.times, stay.taken)
    }

    /** The counters once a stay's slots are taken, and once they are given back. */
    ghost function Taken(cells: L.Cells, stay: Stay): L.Cells
      requires StayFits(stay)
    {
      A.Granted(cells, BucketNames(), limits, Estimate(), stay.times, stay.taken)
    }

    ghost function GivenBack(cells: L.Cells, stay: Stay): L.Cells
      requires StayFits(stay)
    {
      A.Returned(Taken(cells, stay), BucketNames(), stay.releasing, stay.reached, stay.taken)
    }

    /** A permit in hand for each slot taken, none of them released. */
    ghost predicate InHand(permits: seq<Permit>)
      reads permits
    {
      && (limiter == null ==> permits == []) && (limiter != null ==> A.Fresh(limiter.client, BucketNames(), permits))
      && (forall k :: 0 <= k < |permits| ==> permits[k] !in backend.Objects())
    }

    /** The machine's steps for as many grants, and then either on or, after as many releases, out. */
    method Follow(id: Id, policy: Policy, granted: nat, ok: bool)
      requires Tracks() && At(Admitting, id, policy, 0, {}, 0) && proc.tickets == Tickets(0, 0, 0)
      requires granted <= Buckets(config) && (ok <==> granted == Buckets(config))
      modifies this, backend.Objects()
      ensures Tracks() && At(if ok then Pricing else Abandoning(RateLimited), id, policy, 0, {}, 0)
      ensures proc.tickets.held == if ok then granted else 0
    {
      for k := 0 to granted
        invariant Tracks() && At(Admitting, id, policy, 0, {}, 0) && proc.tickets == Tickets(k, k, 0)
      {
        Move(true, 0);
      }
      Move(ok, 0);
      if !ok {
        FollowRefusal(id, policy, granted);
      }
    }

    method FollowRefusal(id: Id, policy: Policy, granted: nat)
      requires Tracks() && At(Refusing(0), id, policy, 0, {}, 0) && proc.tickets.held == granted
      modifies this, backend.Objects()
      ensures Tracks() && At(Abandoning(RateLimited), id, policy, 0, {}, 0) && proc.tickets.held == 0
    {
      for k := 0 to granted
        invariant Tracks() && At(Refusing(k), id, policy, 0, {}, 0) && proc.tickets.held == granted
      {
        Move(true, 0);
      }
      Move(true, 0);
    }

    /** Slots are taken at the limiter one bucket after the other; a refusal gives back those already taken. */
    method AskLimiter() returns (permits: seq<Permit>, ok: bool, granted: nat, ghost stay: Stay)
      requires config.limited <==> limiter != null
      modifies Client()
      ensures Earned(old(Counters()), stay) && stay.taken == granted <= Buckets(config) && (ok <==> granted == Buckets(config))
      ensures |permits| == (if ok then granted else 0) && InHand(permits) && forall k :: 0 <= k < |permits| ==> fresh(permits[k])
      ensures Counters() == if ok then Taken(old(Counters()), stay) else GivenBack(old(Counters()), stay)
    {
      var n := |BucketNames()|;
      var times, releasing, reached := TimesFrom(clock, n), TimesFrom(clock + n, n), ReachedFrom(clock + n, n);
      permits, ok, granted := [], true, 0;
      if limiter != null {
        permits, ok, granted := A.Admit(limiter, BucketNames(), limits, Estimate(), times, releasing, reached);
      }
      stay := Stay(granted, times, releasing, reached);
    }

    /** On with as many slots, or out with a failed request. */
    method Advance(id: Id, policy: Policy, granted: nat, ok: bool) returns (exit: Option<Exit>)
      requires Tracks() && At(Admitting, id, policy, 0, {}, 0) && proc.tickets == Tickets(0, 0, 0)
      requires granted <= Buckets(config) && (ok <==> granted == Buckets(config))
      modifies this, backend.Objects()
      ensures Tracks() && Counters() == old(Counters()) && (exit.None? <==> ok) && proc.tickets.held == (if ok then granted else 0)
      ensures match exit case Some(e) => proc.pc == Returning(e, 0) case None => At(Pricing, id, policy, 0, {}, 0)
    {
      Follow(id, policy, granted, ok);
      if ok {
        return None;
      }
      var _ := AskStore(Transition(input.tenant, id, Validated, Failed));
      return Some(RateLimited);
    }

    /** Rate limits; a refused request fails. */
    method Admit(id: Id, policy: Policy) returns (exit: Option<Exit>, permits: seq<Permit>, ghost stay: Stay)
      requires Tracks() && At(Admitting, id, policy, 0, {}, 0) && proc.tickets == Tickets(0, 0, 0)
      modifies this, backend.Objects(), Client()
      ensures Tracks() && Earned(old(Counters()), stay) && |permits| == proc.tickets.held && forall k :: 0 <= k < |permits| ==> fresh(permits[k])
      ensures match exit
              case Some(e) => proc.pc == Returning(e, 0) && permits == []
              case None => At(Pricing, id, policy, 0, {}, 0) && |permits| == stay.taken && InHand(permits)
      ensures Counters() == if exit.None? then Taken(old(Counters()), stay) else GivenBack(old(Counters()), stay)
    {
      var ok, granted;
      permits, ok, granted, stay := AskLimiter();
      exit := Advance(id, policy, granted, ok);
    }

    /** Every permit in hand is released, once. */
    method ReleaseAll(permits: seq<Permit>, ghost stay: Stay) returns (ghost left: Stay)
      requires |permits| == stay.taken && StayFits(stay) && InHand(permits)
      modifies Client(), permits
      ensures StayFits(left) && left == stay.(releasing := left.releasing, reached := left.reached)
      ensures forall k :: 0 <= k < |permits| ==> permits[k].released
      ensures Counters() == A.Returned(old(Counters()), BucketNames(), left.releasing, left.reached, left.taken)
    {
      var n := |BucketNames()|;
      var releasing, reached := TimesFrom(clock, n), ReachedFrom(clock, n);
      if limiter != null {
        A.ReleasePermits(limiter.client, BucketNames(), permits, releasing, reached);
      }
      left := stay.(releasing := releasing, reached := reached);
    }

    /** The machine's steps for as many releases. */
    method RunDeferred(exit: Exit, n: nat)
      requires Tracks() && proc.pc == Returning(exit, 0) && proc.tickets.held == n
      modifies this, backend.Objects()
      ensures Tracks() && proc.pc == Halted(exit)
    {
      for k := 0 to n
        invariant Tracks() && proc.pc == Returning(exit, k) && proc.tickets.held == n
      {
        Move(true, 0);
      }
      Move(true, 0);
    }

    // Before routing

    /** The price of the worst case, at the highest prices of any permitted provider. */
    method Price(id: Id, policy: Policy) returns (exit: Option<Exit>, reserved: int64)
      requires Tracks() && At(Pricing, id, policy, 0, {}, 0) && router.providers == config.providers
      modifies this, backend.Objects()
      ensures Tracks() && proc.tickets == old(proc.tickets)
      ensures match exit case Some(e) => proc.pc == Returning(e, 0) case None => At(Reserving, id, policy, reserved, {}, 0)
    {
      var tokens := EstimatePromptTokens(input.messages);
      var completion := if input.maxTokens == 0 then config.defaultMaxTokens else input.maxTokens;
      var prices := router.QuoteHighest(Selection(input.model, policy.classification, policy.allowed, {}, config.strategy));
      if prices.None? {
        Move(true, 0);
        var _ := AskStore(Transition(input.tenant, id, Validated, Failed));
        return Some(NoRoute), 0;
      }
      var cost := CostMicroUSD(tokens, completion, prices.value.0, prices.value.1);
      PricedIs(config, proc, prices.value, cost);
      Move(true, 0);
      return if cost.None? then Some(CostInvalid) else None, if cost.None? then 0 else cost.value;
    }

    /** Reserve the budget, or reject the request. */
    method Book(id: Id, policy: Policy, reserved: int64) returns (exit: Option<Exit>)
      requires Tracks() && At(Reserving, id, policy, reserved, {}, 0)
      modifies this, backend.Objects()
      ensures Tracks() && proc.tickets == old(proc.tickets)
      ensures match exit case Some(e) => proc.pc == Returning(e, 0) case None => At(ToRouting, id, policy, reserved, {}, 0)
    {
      var now := weather(clock).choice;
      var reply := AskStore(Reserve(input.tenant, id, reserved, now.month, now.day));
      if reply == Err(Exceeded) {
        var _ := AskStore(Reject(input.tenant, id, reserved));
        return Some(BudgetDenied);
      }
      return if reply == Done then None else Some(ReserveFailed);
    }

    /** Hand the request to routing. */
    method Route(id: Id, policy: Policy, reserved: int64) returns (exit: Option<Exit>)
      requires Tracks() && At(ToRouting, id, policy, reserved, {}, 0)
      modifies this, backend.Objects()
      ensures Tracks() && proc.tickets == old(proc.tickets)
      ensures match exit case Some(e) => proc.pc == Returning(e, 0) case None => At(Selecting, id, policy, reserved, {}, 1)
    {
      var reply := AskStore(Transition(input.tenant, id, Validated, Routing));
      if reply != Done {
        return Some(RoutingLost);
      }
      reply := AskStore(Transition(input.tenant, id, Routing, InProgress));
      return if reply == Done then None else Some(RoutingLost);
    }

    // One attempt

    /** A lease that is reported gives its unit back. */
    method ReportFailure(lease: Lease, retryable: bool, ghost base: Pool)
      requires Leased(lease, base)
      modifies router, lease
      ensures Idle(base) && lease.released
    {
      router.Failure(lease, retryable, weather(clock).choice.ctx.now);
    }

    method ReportSuccess(lease: Lease, ghost base: Pool)
      requires Leased(lease, base)
      modifies router, lease
      ensures Idle(base) && lease.released
    {
      router.Success(lease, weather(clock).millis);
    }

    /** A lease from the router is one of the machine's picks, and no lease is none of them. */
    method Pick(id: Id, policy: Policy, reserved: int64, excluded: set<string>, attempt: nat, ghost base: Pool) returns (lease: Option<Lease>)
      requires Tracks() && At(Selecting, id, policy, reserved, excluded, attempt) && Idle(base)
      modifies this, backend.Objects(), router
      ensures Tracks() && proc.tickets == old(proc.tickets)
      ensures match lease
              case None => Idle(base) && At(FinalFailing(NoEligibleProvider), id, policy, reserved, excluded, attempt)
              case Some(l) =>
                && fresh(l) && Leased(l, base) && proc.lease == Some(config.providers[l.entry])
                && At(Starting, id, policy, reserved, excluded + {config.providers[l.entry].name}, attempt)
    {
      var selection := Selection(input.model, policy.classification, policy.allowed, excluded, config.strategy);
      lease := router.Select(selection, weather(clock).choice.ctx.now);
      Move(true, if lease.None? then |config.providers| else lease.value.entry);
    }

    /** Select a provider that has not been tried and record the attempt. */
    method StartOne(id: Id, policy: Policy, reserved: int64, excluded: set<string>, attempt: nat, ghost base: Pool)
      returns (next: Next, lease: Option<Lease>)
      requires Tracks() && At(Selecting, id, policy, reserved, excluded, attempt) && Idle(base)
      modifies this, backend.Objects(), router
      ensures Tracks() && proc.tickets == old(proc.tickets)
      ensures match next
              case Over(e) => proc.pc == Returning(e, 0) && Idle(base)
              case GiveUp(e) => At(FinalFailing(e), id, policy, reserved, excluded, attempt) && Idle(base)
              case Again =>
                && lease.Some? && fresh(lease.value) && Leased(lease.value, base) && proc.lease == Some(config.providers[lease.value.entry])
                && At(Calling, id, policy, reserved, excluded + {config.providers[lease.value.entry].name}, attempt)
              case Finalized => false
    {
      lease := Pick(id, policy, reserved, excluded, attempt, base);
      if lease.None? {
        return GiveUp(NoEligibleProvider), lease;
      }
      var reply := AskStore(Start(input.tenant, id, attempt, config.providers[lease.value.entry].name, input.model));
      if reply != Done {
        ReportFailure(lease.value, false, base);
        return Over(StartLost), lease;
      }
      return Again, lease;
    }

    /** The provider answered: store the response, report the lease, settle the reservation. */
    method Finish(id: Id, policy: Policy, reserved: int64, excluded: set<string>, attempt: nat, response: Response, cost: int64, lease: Lease, ghost base: Pool)
      returns (exit: Exit)
      requires Tracks() && At(Completing(response, cost), id, policy, reserved, excluded, attempt) && Leased(lease, base)
      modifies this, backend.Objects(), router, lease
      ensures Tracks() && proc.tickets == old(proc.tickets) && proc.pc == Returning(exit, 0) && Idle(base)
    {
      var reply := AskStore(Complete(input.tenant, id, attempt, response, cost));
      if reply != Done {
        ReportFailure(lease, false, base);
        return CompletionLost;
      }
      ReportSuccess(lease, base);
      var _ := AskStore(Reconcile(id, cost));
      return Succeeded(response);
    }

    /** The provider failed: record it, and back off if the attempt may be repeated. */
    method Recover(id: Id, policy: Policy, reserved: int64, excluded: set<string>, attempt: nat, error: CallError, retryable: bool, partial: bool)
      returns (next: Next)
      requires Tracks() && At(FailingAttempt(error, retryable, partial), id, policy, reserved, excluded, attempt)
      modifies this, backend.Objects()
      ensures Tracks() && proc.tickets == old(proc.tickets)
      ensures match next
              case Over(e) => proc.pc == Returning(e, 0)
              case GiveUp(e) => At(FinalFailing(e), id, policy, reserved, excluded, attempt)
              case Again => At(Selecting, id, policy, reserved, excluded, attempt + 1)
              case Finalized => At(Refunding, id, policy, reserved, excluded, attempt)
      ensures next.Again? ==> retryable
    {
      var reply := AskStore(Fail(input.tenant, id, attempt, ErrorCategory(error), retryable, partial, !retryable));
      if reply != Done {
        return Over(FailureLost);
      }
      if !retryable {
        return Finalized;
      }
      next := BackOff(id, policy, reserved, excluded, attempt);
    }

    /** Wait before the next attempt, unless the caller goes away. */
    method BackOff(id: Id, policy: Policy, reserved: int64, excluded: set<string>, attempt: nat) returns (next: Next)
      requires Tracks() && At(Waiting, id, policy, reserved, excluded, attempt)
      modifies this, backend.Objects()
      ensures Tracks() && proc.tickets == old(proc.tickets)
      ensures match next
              case GiveUp(e) => At(FinalFailing(e), id, policy, reserved, excluded, attempt)
              case Again => At(Selecting, id, policy, reserved, excluded, attempt + 1)
              case _ => false
    {
      var interrupted := weather(clock).choice.interrupted;
      Move(true, 0);
      return if interrupted.Some? then GiveUp(interrupted.value) else Again;
    }

    /** Call the leased provider and act on what it did; the lease is reported once on every path. */
    method TryOne(id: Id, policy: Policy, reserved: int64, excluded: set<string>, attempt: nat, lease: Lease, ghost base: Pool) returns (next: Next)
      requires Tracks() && At(Calling, id, policy, reserved, excluded, attempt)
      requires Leased(lease, base) && proc.lease == Some(config.providers[lease.entry])
      modifies this, backend.Objects(), router, lease
      ensures Tracks() && proc.tickets == old(proc.tickets) && Idle(base)
      ensures match next
              case Over(e) => proc.pc == Returning(e, 0)
              case GiveUp(e) => At(FinalFailing(e), id, policy, reserved, excluded, attempt)
              case Again => attempt < config.maxAttempts && At(Selecting, id, policy, reserved, excluded, attempt + 1)
              case Finalized => At(Refunding, id, policy, reserved, excluded, attempt)
    {
      var result, partial, handed := CallProvider(config, input, weather(clock).choice.script);
      var cost := TakeIn(lease, result, handed, base);
      match result
      case Completion(content, usage) =>
        if cost.None? {
          ReportFailure(lease, false, base);
          return Over(UsageInvalid);
        }
        var exit := Finish(id, policy, reserved, excluded, attempt, Response(id, input.model, content, usage), cost.value, lease, base);
        next := Over(exit);
      case CallFailed(error) => next := Missed(id, policy, reserved, excluded, attempt, error, partial, lease, base);
    }

    /** The provider gave no answer: report the lease, then record the failure. */
    method Missed(id: Id, policy: Policy, reserved: int64, excluded: set<string>, attempt: nat, error: CallError, partial: bool, lease: Lease, ghost base: Pool)
      returns (next: Next)
      requires Tracks() && Leased(lease, base)
      requires At(FailingAttempt(error, IsRetryable(error) && !partial && attempt < config.maxAttempts, partial), id, policy, reserved, excluded, attempt)
      modifies this, backend.Objects(), router, lease
      ensures Tracks() && proc.tickets == old(proc.tickets) && Idle(base)
      ensures match next
              case Over(e) => proc.pc == Returning(e, 0)
              case GiveUp(e) => At(FinalFailing(e), id, policy, reserved, excluded, attempt)
              case Again => attempt < config.maxAttempts && At(Selecting, id, policy, reserved, excluded, attempt + 1)
              case Finalized => At(Refunding, id, policy, reserved, excluded, attempt)
    {
      var retryable := IsRetryable(error) && !partial && attempt < config.maxAttempts;
      ReportFailure(lease, retryable, base);
      next := Recover(id, policy, reserved, excluded, attempt, error, retryable, partial);
    }

    /** Take in what the provider did, with the price of the usage it reports. */
    method TakeIn(lease: Lease, result: CallResult, ghost handed: string, ghost base: Pool) returns (cost: Option<int64>)
      requires Tracks() && proc.pc == Calling && Leased(lease, base) && proc.lease == Some(config.providers[lease.entry])
      requires result == CallOutcome(config, input, weather(clock).choice.script) && handed == Delivered(config, input, weather(clock).choice.script)
      modifies this, backend.Objects()
      ensures Tracks() && proc.tickets == old(proc.tickets) && proc == AfterCall(config, old(proc), handed, result, cost)
    {
      ghost var p, ch := proc, weather(clock).choice.(admitted := true, pick := 0);
      Move(true, 0);
      cost := if result.Completion? then CostMicroUSD(result.usage.prompt, result.usage.completion, lease.inputPrice, lease.outputPrice) else None;
      CalledIs(config, p, ch, handed, result, cost);
    }

    /** The failover loop, and the closing failure and refund when it ends without an answer. */
    method Serve(id: Id, policy: Policy, reserved: int64, ghost base: Pool) returns (exit: Exit)
      requires Tracks() && At(Selecting, id, policy, reserved, {}, 1) && config.maxAttempts > 0 && Idle(base)
      modifies this, backend.Objects(), router
      ensures Tracks() && proc.tickets == old(proc.tickets) && proc.pc == Returning(exit, 0) && Idle(base)
    {
      var excluded: set<string>, attempt, next := {}, 1, Again;
      while next.Again?
        invariant Tracks() && attempt <= config.maxAttempts && proc.tickets == old(proc.tickets) && Idle(base)
        invariant match next
                  case Over(e) => proc.pc == Returning(e, 0)
                  case GiveUp(e) => At(FinalFailing(e), id, policy, reserved, excluded, attempt)
                  case Again => At(Selecting, id, policy, reserved, excluded, attempt)
                  case Finalized => At(Refunding, id, policy, reserved, excluded, attempt)
        decreases config.maxAttempts - attempt, next.Again?
      {
        var lease;
        next, lease := StartOne(id, policy, reserved, excluded, attempt, base);
        if next.Again? {
          excluded := excluded + {config.providers[lease.value.entry].name};
          next := TryOne(id, policy, reserved, excluded, attempt, lease.value, base);
          if next.Again? {
            attempt := attempt + 1;
          }
        }
      }
      if next.Over? {
        return next.exit;
      }
      exit := Close(id, policy, reserved, excluded, attempt, next);
    }

    /** Record the failure if no attempt did, and give the reservation back. */
    method Close(id: Id, policy: Policy, reserved: int64, excluded: set<string>, attempt: nat, next: Next) returns (exit: Exit)
      requires Tracks()
      requires match next
               case GiveUp(e) => At(FinalFailing(e), id, policy, reserved, excluded, attempt)
               case Finalized => At(Refunding, id, policy, reserved, excluded, attempt)
               case _ => false
      modifies this, backend.Objects()
      ensures Tracks() && proc.tickets == old(proc.tickets) && proc.pc == Returning(exit, 0)
    {
      if next.GiveUp? {
        var _ := AskStore(Fail(input.tenant, id, 0, ErrorCategory(next.error), false, false, true));
      }
      var _ := AskStore(Reconcile(id, 0));
      return Exhausted;
    }

    // The whole call

    /** Everything after admission, with the permits in hand. */
    method Attend(id: Id, policy: Policy, ghost base: Pool) returns (exit: Exit)
      requires Tracks() && At(Pricing, id, policy, 0, {}, 0) && config.maxAttempts > 0 && Idle(base)
      modifies this, backend.Objects(), router
      ensures Tracks() && proc.tickets == old(proc.tickets) && proc.pc == Returning(exit, 0) && Idle(base)
    {
      var left, reserved := Price(id, policy);
      if left.Some? {
        return left.value;
      }
      left := Book(id, policy, reserved);
      if left.Some? {
        return left.value;
      }
      left := Route(id, policy, reserved);
      if left.Some? {
        return left.value;
      }
      exit := Serve(id, policy, reserved, base);
    }

    /** Everything before admission. */
    method Begin() returns (exit: Option<Exit>, id: Id, policy: Policy)
      requires Tracks() && proc == Submitted(input)
      modifies this, backend.Objects()
      ensures Tracks() && proc.tickets == Tickets(0, 0, 0)
      ensures match exit case Some(e) => proc.pc == Returning(e, 0) case None => At(Admitting, id, policy, 0, {}, 0)
    {
      policy := NO_POLICY;
      exit, id := Create();
      if exit.None? {
        exit, policy := Validate(id);
      }
    }

    /** Everything behind admission, and the deferred release. */
    method Admitted(id: Id, policy: Policy, permits: seq<Permit>, ghost stay: Stay, ghost base: Pool) returns (exit: Exit, ghost left: Stay)
      requires Tracks() && At(Pricing, id, policy, 0, {}, 0) && config.maxAttempts > 0 && Idle(base)
      requires |permits| == proc.tickets.held == stay.taken && StayFits(stay) && InHand(permits)
      modifies this, backend.Objects(), router, Client(), permits
      ensures Tracks() && proc.pc == Halted(exit) && Idle(base)
      ensures StayFits(left) && left == stay.(releasing := left.releasing, reached := left.reached)
      ensures Counters() == A.Returned(old(Counters()), BucketNames(), left.releasing, left.reached, left.taken)
    {
      exit := Attend(id, policy, base);
      left := ReleaseAll(permits, stay);
      RunDeferred(exit, |permits|);
    }

    /**
     * The whole call: from any store and with any cancellations in between, it takes the machine's steps until it halts
     * and returns what it halted with; every lease is back at the router and every slot was given back to the limiter.
     */
    method Execute() returns (exit: Exit, ghost stay: Stay)
      requires Tracks() && proc == Submitted(input) && config.maxAttempts > 0 && Idle(router.pool)
      modifies this, backend.Objects(), router, Client()
      ensures Tracks() && proc.pc == Halted(exit) && Idle(old(router.pool))
      ensures Earned(old(Counters()), stay) && Counters() == GivenBack(old(Counters()), stay)
    {
      var left, id, policy := Begin();
      if left.Some? {
        RunDeferred(left.value, 0);
        ghost var n := |BucketNames()|;
        return left.value, Stay(0, TimesFrom(0, n), TimesFrom(0, n), ReachedFrom(0, n));
      }
      var permits;
      left, permits, stay := Admit(id, policy);
      if left.Some? {
        RunDeferred(left.value, 0);
        return left.value, stay;
      }
      exit, stay := Admitted(id, policy, permits, stay, old(router.pool));
    }
  }

  /** How one turn of the failover loop ends. */
  datatype Next = Over(exit: Exit) | GiveUp(error: CallError) | Finalized | Again
}

/** A call of `execute` is one of the runs the invariants speak of. */
module GatewayServiceRuns {
  import opened Request
  import opened Stores
  import opened GatewaySpec
  import opened GatewayService
  import Cluster

  function ActionOf(d: Deed): Cluster.Action {
    match d
    case Own(ch) => Cluster.Run(0, ch)
    case Meddle(tenant, id, ctx, fault) => Cluster.CancelBy(tenant, id, ctx, fault)
  }

  ghost function Alone(input: Input, deeds: seq<Deed>): seq<Cluster.Action> {
    if deeds == [] then [Cluster.Submit(input)] else Alone(input, deeds[..|deeds| - 1]) + [ActionOf(deeds[|deeds| - 1])]
  }

  ghost predicate IsAlone(sys: Cluster.Sys, at: (Store, Proc)) {
    sys.store == at.0 && sys.procs == [at.1]
  }

  lemma OneMore(c: Setup, s: Store, actions: seq<Cluster.Action>, a: Cluster.Action)
    ensures Cluster.After(c, s, actions + [a]) == Cluster.Next(c, Cluster.After(c, s, actions), a)
  {
    assert (actions + [a])[..|actions|] == actions;
  }

  ghost function Performed(c: Setup, at: (Store, Proc), d: Deed): (Store, Proc) {
    match d
    case Own(ch) => Step(c, at.0, at.1, ch)
    case Meddle(tenant, id, ctx, fault) => (Ask(at.0, Cancel(tenant, id), ctx, fault).0, at.1)
  }

  lemma OnlyOneRuns(c: Setup, sys: Cluster.Sys, at: (Store, Proc), d: Deed)
    requires IsAlone(sys, at)
    ensures IsAlone(Cluster.Next(c, sys, ActionOf(d)), Performed(c, at, d))
  {
  }

  /** What one call does, and what is done to it, is a run of a cluster with one submission. */
  lemma {:induction false} ExecuteIsARun(c: Setup, s: Store, input: Input, deeds: seq<Deed>)
    ensures IsAlone(Cluster.After(c, s, Alone(input, deeds)), Walk(c, s, Submitted(input), deeds))
  {
    if deeds == [] {
      OneMore(c, s, [], Cluster.Submit(input));
    } else {
      var init, d := deeds[..|deeds| - 1], deeds[|deeds| - 1];
      ExecuteIsARun(c, s, input, init);
      OneMore(c, s, Alone(input, init), ActionOf(d));
      OnlyOneRuns(c, Cluster.After(c, s, Alone(input, init)), Walk(c, s, Submitted(input), init), d);
    }
  }
}
