/** What every step of a submission keeps, whatever the store answers and whoever else runs. */
module Protocol {
  import opened Base
  import opened Budget
  import opened Request
  import opened RouterSpec
  import opened Stores
  import opened GatewaySpec
  import M = MemorySpec
  import P = PostgresSpec

  // Local variables

  predicate BeforeLoop(pc: Pc) {
    || pc.Creating? || pc.Validating? || pc.LoadingPolicy? || pc.Abandoning? || pc.Admitting? || pc.Refusing? || pc.Pricing?
    || pc.Reserving? || pc.Rejecting? || pc.ToRouting? || pc.ToInProgress?
  }

  predicate Leasing(pc: Pc) {
    pc.Starting? || pc.Calling? || pc.Completing?
  }

  /** States from which another provider may still be called. */
  predicate MayCallAgain(pc: Pc) {
    BeforeLoop(pc) || pc.Selecting? || pc.Starting? || pc.Calling? || pc.Waiting? || pc.FinalFailing? || (pc.FailingAttempt? && pc.retryable)
  }

  ghost predicate Distinct(names: seq<string>) {
    forall i, j :: 0 <= i < j < |names| ==> names[i] != names[j]
  }

  /** How many calls were begun at each point of the loop; all but one in progress have a stream. */
  ghost predicate Numbers(c: Setup, p: Proc) {
    && |p.job.tried| <= p.attempt <= c.maxAttempts
    && |p.job.tried| == |p.job.streams| + (if p.pc.Calling? then 1 else 0)
    && (BeforeLoop(p.pc) ==> p.attempt == 0 && p.job.excluded == {})
    && (p.pc.Selecting? || p.pc.Starting? ==> |p.job.tried| == p.attempt - 1)
    && (p.pc.Calling? || p.pc.Completing? || p.pc.Settling? || p.pc.FailingAttempt? || p.pc.Waiting? ==> |p.job.tried| == p.attempt > 0)
    && (p.pc.Waiting? || (p.pc.FailingAttempt? && p.pc.retryable) ==> p.attempt < c.maxAttempts)
  }

  /** Only the creator of a request goes past creation. */
  ghost predicate Roles(p: Proc) {
    && (!p.owner ==> p.attempt == 0 && (p.pc.Creating? || (Ended(p.pc) && (p.pc.exit.CreateFailed? || p.pc.exit.Replayed?))))
    && (p.owner ==> !p.pc.Creating? && (Ended(p.pc) ==> !p.pc.exit.CreateFailed? && !p.pc.exit.Replayed?))
    && (p.pc.Abandoning? ==> p.pc.why in {PolicyFailed, RateLimited, NoRoute})
  }

  ghost predicate Counts(c: Setup, p: Proc) {
    Numbers(c, p) && Roles(p)
  }

  ghost predicate Names(p: Proc) {
    && Distinct(p.job.tried)
    && (forall n :: n in p.job.tried ==> n in p.job.excluded)
    && (p.pc.Starting? ==> LeasedName(p) !in p.job.tried && LeasedName(p) in p.job.excluded)
  }

  /** At most the last attempt handed anything to the emitter, and never more than the bound. */
  ghost predicate OneStream(max: nat, job: Job) {
    && (forall i :: 0 <= i < |job.streams| ==> |job.streams[i]| <= max)
    && (forall i :: 0 <= i < |job.streams| - 1 ==> |job.streams[i]| == 0)
    && (if job.streams == [] then job.handed == "" else job.handed == job.streams[|job.streams| - 1])
  }

  ghost predicate Streams(c: Setup, p: Proc) {
    && OneStream(c.maxStreamBytes, p.job)
    && (MayCallAgain(p.pc) ==> |p.job.handed| == 0)
    && (!p.job.input.stream ==> |p.job.handed| == 0)
    && (p.pc.Completing? || p.pc.Settling? ==> p.job.input.stream ==> p.pc.response.content == p.job.handed)
    && (p.pc.FailingAttempt? ==> (p.pc.partial <==> |p.job.handed| > 0))
  }

  /** Every lease taken is given back exactly once, at the latest on return. */
  ghost predicate Leases(c: Setup, p: Proc) {
    && (p.lease.Some? <==> Leasing(p.pc))
    && p.taken == p.returned + (if p.lease.Some? then 1 else 0)
    && (p.lease.Some? ==> p.lease.value in c.providers && Permitted(p.lease.value, SelectionOf(c, p)))
  }

  /** Every permit granted is in hand or was released, once: by the refusal, or by the deferred loop up to its next index. */
  predicate Permits(c: Setup, p: Proc) {
    var t := p.tickets;
    && t.held <= Buckets(c)
    && match p.pc
       case Creating | Validating | LoadingPolicy => t == Tickets(0, 0, 0)
       case Admitting => t.released == 0 && t.granted == t.held
       case Refusing(next) => t.released == next <= t.held == t.granted
       case Returning(_, next) => next <= t.held && t.granted == t.released + t.held - next
       case Halted(_) => t.granted == t.released
       case _ => t.granted == t.released + t.held
  }

  predicate WithinEstimates(c: Setup, p: Proc, u: Usage) {
    u.prompt <= PromptEstimate(p.job.input.messages) && u.completion <= CompletionLimit(c, p.job.input)
  }

  predicate Priced'(pc: Pc) {
    !(pc.Creating? || pc.Validating? || pc.LoadingPolicy? || pc.Abandoning? || pc.Admitting? || pc.Refusing? || pc.Pricing? || Ended(pc))
  }

  ghost predicate ReservationCovers(c: Setup, p: Proc, prices: (int64, int64)) {
    && HighestPrices(c.providers, SelectionOf(c, p)) == Some(prices)
    && CostMicroUSD(PromptEstimate(p.job.input.messages), CompletionLimit(c, p.job.input), prices.0, prices.1) == Some(p.job.reserved)
  }

  /** The reservation is the cost of the estimates at the highest prices, and covers any honest usage. */
  ghost predicate Prices(c: Setup, p: Proc) {
    && p.job.reserved >= 0
    && (Priced'(p.pc) ==> exists prices :: ReservationCovers(c, p, prices))
    && (p.pc.Completing? || p.pc.Settling? ==>
          && p.pc.cost >= 0 && p.pc.response.usage.prompt >= 0 && p.pc.response.usage.completion >= 0
          && (WithinEstimates(c, p, p.pc.response.usage) ==> p.pc.cost <= p.job.reserved))
  }

  ghost predicate Local(c: Setup, p: Proc) {
    Counts(c, p) && Names(p) && Streams(c, p) && Leases(c, p) && Permits(c, p) && Prices(c, p)
  }

  lemma SubmittedIsLocal(c: Setup, i: Input)
    ensures Local(c, Submitted(i))
  {
  }

  /** A step never changes what the reservation was computed from. */
  lemma SamePrices(c: Setup, p: Proc, p': Proc)
    requires Priced'(p.pc) && Prices(c, p)
    requires p'.job.input == p.job.input && p'.job.policy == p.job.policy && p'.job.reserved == p.job.reserved
    ensures exists prices :: ReservationCovers(c, p', prices)
  {
    var prices :| ReservationCovers(c, p, prices);
    HighestPricesIgnoreExclusions(c.providers, SelectionOf(c, p), p'.job.excluded);
    assert SelectionOf(c, p') == SelectionOf(c, p).(excluded := p'.job.excluded);
    assert ReservationCovers(c, p', prices);
  }

  /** A reply touches nothing that was computed, called or handed over, except that it may bring the policy or begin a call. */
  predicate SameWork(p: Proc, p': Proc) {
    && p'.taken == p.taken && p'.tickets == p.tickets
    && (|| p'.job == p.job
        || (p.pc.LoadingPolicy? && p'.job == p.job.(policy := p'.job.policy))
        || (p.pc.Starting? && p'.pc.Calling? && p'.job == p.job.(tried := p.job.tried + [LeasedName(p)])))
  }

  /** Where a reply can lead. */
  predicate Moved(p: Proc, p': Proc) {
    && !p'.pc.Starting? && !p'.pc.Completing? && !p'.pc.FailingAttempt? && !p'.pc.Refusing? && !p'.pc.Halted?
    && (p'.pc.Admitting? ==> p.pc.LoadingPolicy?)
    && (p'.pc.LoadingPolicy? ==> p.pc.Validating?) && (p'.pc.Validating? ==> p.pc.Creating?) && !p'.pc.Creating?
    && (p'.pc.Returning? ==> p'.pc.next == 0)
    && (p'.pc.Calling? ==> p.pc.Starting?)
    && (p'.pc.Settling? ==> p.pc.Completing? && p'.pc.response == p.pc.response && p'.pc.cost == p.pc.cost)
    && (MayCallAgain(p'.pc) ==> MayCallAgain(p.pc))
    && (Priced'(p'.pc) ==> Priced'(p.pc))
  }

  predicate LeaseMoved(p: Proc, p': Proc) {
    || (p'.lease == p.lease && p'.returned == p.returned && (Leasing(p'.pc) <==> Leasing(p.pc)) && (Leasing(p.pc) ==> p'.job.policy == p.job.policy))
    || (Leasing(p.pc) && !Leasing(p'.pc) && p'.lease == None && p'.returned == p.returned + 1)
  }

  lemma ResumeKeepsWork(p: Proc, reply: Reply, clean: bool)
    requires AsksStore(p.pc)
    ensures SameWork(p, Resume(p, reply).(clean := clean))
  {
  }

  lemma ResumeMoves(p: Proc, reply: Reply, clean: bool)
    requires AsksStore(p.pc)
    ensures Moved(p, Resume(p, reply).(clean := clean))
  {
  }

  lemma ResumeMovesLease(p: Proc, reply: Reply, clean: bool)
    requires AsksStore(p.pc)
    ensures LeaseMoved(p, Resume(p, reply).(clean := clean))
  {
  }

  lemma ResumeCounts(c: Setup, p: Proc, reply: Reply, clean: bool)
    requires c.maxAttempts > 0 && Counts(c, p) && AsksStore(p.pc)
    ensures Counts(c, Resume(p, reply).(clean := clean))
  {
    ResumeNumbers(c, p, reply, clean);
    ResumeRoles(c, p, reply, clean);
  }

  lemma ResumeEarlyNumbers(c: Setup, p: Proc, reply: Reply, clean: bool)
    requires c.maxAttempts > 0 && Counts(c, p) && AsksStore(p.pc) && BeforeLoop(p.pc)
    ensures Numbers(c, Resume(p, reply).(clean := clean))
  {
  }

  lemma ResumeLateNumbers(c: Setup, p: Proc, reply: Reply, clean: bool)
    requires Counts(c, p) && AsksStore(p.pc) && !BeforeLoop(p.pc)
    ensures Numbers(c, Resume(p, reply).(clean := clean))
  {
  }

  lemma ResumeNumbers(c: Setup, p: Proc, reply: Reply, clean: bool)
    requires c.maxAttempts > 0 && Counts(c, p) && AsksStore(p.pc)
    ensures Numbers(c, Resume(p, reply).(clean := clean))
  {
    if BeforeLoop(p.pc) {
      ResumeEarlyNumbers(c, p, reply, clean);
    } else {
      ResumeLateNumbers(c, p, reply, clean);
    }
  }

  lemma ResumeRoles(c: Setup, p: Proc, reply: Reply, clean: bool)
    requires Counts(c, p) && AsksStore(p.pc)
    ensures Roles(Resume(p, reply).(clean := clean))
  {
  }

  lemma MovedNames(p: Proc, p': Proc)
    requires SameWork(p, p') && Moved(p, p') && LeaseMoved(p, p') && Names(p) && p.pc != Calling
    ensures Names(p')
  {
  }

  lemma MovedStreams(c: Setup, p: Proc, p': Proc)
    requires SameWork(p, p') && Moved(p, p') && Streams(c, p)
    ensures Streams(c, p')
  {
  }

  lemma MovedPermits(c: Setup, p: Proc, p': Proc)
    requires SameWork(p, p') && Moved(p, p') && Permits(c, p) && AsksStore(p.pc)
    ensures Permits(c, p')
  {
  }

  lemma MovedLeases(c: Setup, p: Proc, p': Proc)
    requires SameWork(p, p') && Moved(p, p') && LeaseMoved(p, p') && Leases(c, p)
    ensures Leases(c, p')
  {
    if p'.lease.Some? {
      assert SelectionOf(c, p') == SelectionOf(c, p);
    }
  }

  /** Any reply of any store keeps the local invariant. */
  lemma ResumeIsLocal(c: Setup, p: Proc, reply: Reply, p': Proc)
    requires c.maxAttempts > 0 && Local(c, p) && AsksStore(p.pc)
    requires p' == Resume(p, reply).(clean := p'.clean)
    ensures Local(c, p')
  {
    ResumeKeepsWork(p, reply, p'.clean);
    ResumeMoves(p, reply, p'.clean);
    ResumeMovesLease(p, reply, p'.clean);
    ResumeCounts(c, p, reply, p'.clean);
    MovedNames(p, p');
    MovedStreams(c, p, p');
    MovedLeases(c, p, p');
    MovedPermits(c, p, p');
    if Priced'(p'.pc) {
      SamePrices(c, p, p');
    }
  }

  lemma SelectedIsLocal(c: Setup, p: Proc, pick: nat)
    requires Local(c, p) && p.pc.Selecting?
    ensures Local(c, Selected(c, p, pick))
  {
    SamePrices(c, p, Selected(c, p, pick));
  }

  lemma HonestCostFits(c: Setup, p: Proc, usage: Usage, cost: int64)
    requires Local(c, p) && p.pc.Calling? && WithinEstimates(c, p, usage)
    requires CostMicroUSD(usage.prompt, usage.completion, LeasedPrices(p).0, LeasedPrices(p).1) == Some(cost)
    ensures cost <= p.job.reserved
  {
    var prices :| ReservationCovers(c, p, prices);
    var k :| 0 <= k < |c.providers| && c.providers[k] == p.lease.value;
    HighestPricesDominate(c.providers, SelectionOf(c, p), k);
    CostMonotone(usage.prompt, usage.completion, LeasedPrices(p).0, LeasedPrices(p).1,
                 PromptEstimate(p.job.input.messages), CompletionLimit(c, p.job.input), prices.0, prices.1);
  }

  /** While nothing was handed over, one more call's stream becomes the whole of it. */
  lemma OneStreamExtends(max: nat, job: Job, job': Job, handed: string)
    requires OneStream(max, job) && |job.handed| == 0 && |handed| <= max
    requires job'.streams == job.streams + [handed] && job'.handed == job.handed + handed
    ensures OneStream(max, job') && job'.handed == handed
  {
    assert job.handed + handed == handed;
  }

  lemma AfterCallStreams(c: Setup, p: Proc, handed: string, outcome: CallResult, cost: Option<int64>)
    requires Streams(c, p) && p.pc.Calling? && |handed| <= c.maxStreamBytes
    requires !p.job.input.stream ==> |handed| == 0
    requires outcome.Completion? && p.job.input.stream ==> outcome.content == handed
    ensures Streams(c, AfterCall(c, p, handed, outcome, cost))
  {
    OneStreamExtends(c.maxStreamBytes, p.job, AfterCall(c, p, handed, outcome, cost).job, handed);
  }

  lemma AfterCallNames(c: Setup, p: Proc, handed: string, outcome: CallResult, cost: Option<int64>)
    requires Counts(c, p) && Names(p) && p.pc.Calling?
    ensures var p' := AfterCall(c, p, handed, outcome, cost); Counts(c, p') && Names(p')
  {
  }

  lemma AfterCallPermits(c: Setup, p: Proc, handed: string, outcome: CallResult, cost: Option<int64>)
    requires Permits(c, p) && p.pc.Calling?
    ensures Permits(c, AfterCall(c, p, handed, outcome, cost))
  {
  }

  lemma AfterCallLeases(c: Setup, p: Proc, handed: string, outcome: CallResult, cost: Option<int64>)
    requires Leases(c, p) && p.pc.Calling?
    ensures Leases(c, AfterCall(c, p, handed, outcome, cost))
  {
    assert SelectionOf(c, AfterCall(c, p, handed, outcome, cost)) == SelectionOf(c, p);
  }

  lemma AfterCallPrices(c: Setup, p: Proc, handed: string, outcome: CallResult, cost: Option<int64>)
    requires Prices(c, p) && p.pc.Calling?
    requires outcome.Completion? && cost.Some? ==>
      && cost.value >= 0 && outcome.usage.prompt >= 0 && outcome.usage.completion >= 0
      && (WithinEstimates(c, p, outcome.usage) ==> cost.value <= p.job.reserved)
    ensures Prices(c, AfterCall(c, p, handed, outcome, cost))
  {
    var p' := AfterCall(c, p, handed, outcome, cost);
    if Priced'(p'.pc) {
      SamePrices(c, p, p');
    }
  }

  lemma CalledIsLocal(c: Setup, p: Proc, script: Script)
    requires Local(c, p) && p.pc.Calling?
    ensures Local(c, Called(c, p, script))
  {
    var handed, outcome := Delivered(c, p.job.input, script), CallOutcome(c, p.job.input, script);
    var cost := CostFor(p, outcome);
    if outcome.Completion? && cost.Some? && WithinEstimates(c, p, outcome.usage) {
      HonestCostFits(c, p, outcome.usage, cost.value);
    }
    AfterCallStreams(c, p, handed, outcome, cost);
    AfterCallNames(c, p, handed, outcome, cost);
    AfterCallLeases(c, p, handed, outcome, cost);
    AfterCallPrices(c, p, handed, outcome, cost);
    AfterCallPermits(c, p, handed, outcome, cost);
  }

  lemma PricedIsLocal(c: Setup, p: Proc)
    requires Local(c, p) && p.pc.Pricing?
    ensures Local(c, Priced(c, p))
  {
    var p' := Priced(c, p);
    if p'.pc.Reserving? {
      assert SelectionOf(c, p') == SelectionOf(c, p);
      assert ReservationCovers(c, p', HighestPrices(c.providers, SelectionOf(c, p)).value);
    }
  }

  /** Admission and the release loops move permits and nothing else. */
  predicate TicketMove(p: Proc, p': Proc) {
    && p' == p.(pc := p'.pc, tickets := p'.tickets)
    && (|| (p.pc.Admitting? && (p'.pc.Admitting? || p'.pc.Refusing? || p'.pc.Pricing?))
        || (p.pc.Refusing? && (p'.pc.Refusing? || p'.pc == Abandoning(RateLimited)))
        || (p.pc.Returning? && Ended(p'.pc) && p'.pc.exit == p.pc.exit))
  }

  predicate MovesTickets(pc: Pc) {
    pc.Admitting? || pc.Refusing? || pc.Returning?
  }

  lemma TicketsMove(c: Setup, p: Proc, ch: Choice)
    requires MovesTickets(p.pc)
    ensures TicketMove(p, Proceed(c, p, ch)) && (Permits(c, p) ==> Permits(c, Proceed(c, p, ch)))
  {
  }

  lemma TicketMoveIsLocal(c: Setup, p: Proc, p': Proc)
    requires Local(c, p) && Permits(c, p') && TicketMove(p, p')
    ensures Local(c, p')
  {
  }

  lemma WaitIsLocal(c: Setup, p: Proc, ch: Choice)
    requires Local(c, p) && p.pc.Waiting?
    ensures Local(c, Proceed(c, p, ch))
  {
    SamePrices(c, p, Proceed(c, p, ch));
  }

  lemma ProceedIsLocal(c: Setup, p: Proc, ch: Choice)
    requires Local(c, p) && !AsksStore(p.pc)
    ensures Local(c, Proceed(c, p, ch))
  {
    if MovesTickets(p.pc) {
      TicketsMove(c, p, ch);
      TicketMoveIsLocal(c, p, Proceed(c, p, ch));
    } else {
      match p.pc
      case Pricing => PricedIsLocal(c, p);
      case Selecting => SelectedIsLocal(c, p, ch.pick);
      case Calling => CalledIsLocal(c, p, ch.script);
      case Waiting => WaitIsLocal(c, p, ch);
      case _ =>
    }
  }

  lemma StepIsLocal(c: Setup, s: Store, p: Proc, ch: Choice)
    requires c.maxAttempts > 0 && Local(c, p)
    ensures Local(c, Step(c, s, p, ch).1)
  {
    if AsksStore(p.pc) {
      var reply := Ask(s, CallOf(p, ch), ch.ctx, ch.fault).1;
      ResumeIsLocal(c, p, reply, Step(c, s, p, ch).1);
    } else {
      ProceedIsLocal(c, p, ch);
    }
  }
}
