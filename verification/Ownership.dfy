/** How a submission and the rows it owns stay in step, on either store and under faults and cancellations. */
module Ownership {
  import opened Base
  import opened Budget
  import opened Request
  import opened Stores
  import opened GatewaySpec
  import opened Protocol
  import M = MemorySpec
  import P = PostgresSpec

  // The request row

  predicate ExitFits(exit: Exit, s: State) {
    match exit
    case ValidationLost | RoutingLost | CompletionLost | FailureLost => s == Cancelled
    case PolicyFailed | RateLimited | NoRoute | Exhausted => s in {Failed, Cancelled}
    case BudgetDenied => s in {BudgetRejected, Cancelled}
    case CostInvalid | ReserveFailed => s in {Validated, Cancelled}
    case StartLost | UsageInvalid => s in {InProgress, Cancelled}
    case Succeeded(_) => s == Completed
    case CreateFailed(_) | Replayed(_, _, _) => true
  }

  predicate EndFits(clean: bool, exit: Exit, r: Record) {
    && (exit.Succeeded? ==> r.state == Completed && r.response == Some(exit.response))
    && (clean ==> ExitFits(exit, r.state))
  }

  /** The durable state a submission may find its own request in. */
  predicate StateFits(p: Proc, r: Record) {
    match p.pc
    case Creating => true
    case Validating => r.state in {Received, Cancelled}
    case LoadingPolicy | Abandoning(_) | Admitting | Refusing(_) | Pricing | Reserving | Rejecting | ToRouting => r.state in {Validated, Cancelled}
    case ToInProgress => r.state in {Routing, Cancelled}
    case Selecting | Starting | Calling | Completing(_, _) | FailingAttempt(_, _, _) | Waiting | FinalFailing(_) =>
      r.state in {InProgress, Cancelled}
    case Settling(response, cost) => r.state == Completed && r.response == Some(response) && r.cost == cost
    case Refunding => r.state in {Failed, Cancelled} || (!p.clean && r.state == InProgress)
    case Returning(exit, _) => EndFits(p.clean, exit, r)
    case Halted(exit) => EndFits(p.clean, exit, r)
  }

  /** A stored response and a partial flag agree with what reached the emitter. */
  predicate StreamFits(p: Proc, r: Record) {
    && (r.response.Some? <==> r.state == Completed)
    && (r.state == Completed && p.job.input.stream ==> r.response.value.content == p.job.handed)
    && (r.state == Failed ==> (r.partial <==> |p.job.handed| > 0))
    && (r.state !in {Completed, Failed} ==> !r.partial)
    && (r.state == Completed ==> !MayCallAgain(p.pc))
  }

  predicate RowFits(p: Proc, r: Record) {
    && r.tenant == p.job.input.tenant && r.key == p.job.input.key && r.hash == p.job.input.hash
    && StateFits(p, r) && StreamFits(p, r)
  }

  predicate Applies(r: Record, call: Call) {
    match call
    case Transition(_, _, from, _) => r.state == from
    case Reject(_, _, _) => r.state == Validated
    case Complete(_, _, _, _, _) => r.state == InProgress
    case Fail(_, _, _, _, _, _, final) => final ==> r.state == InProgress
    case Cancel(_, _) => !Terminal(r.state)
    case _ => true
  }

  predicate Wrote(r: Record, r': Record, call: Call) {
    && r'.tenant == r.tenant && r'.key == r.key && r'.hash == r.hash
    && match call
       case Transition(_, _, _, to) => r'.state == to && r'.response == r.response && r'.partial == r.partial
       case Reject(_, _, _) => r'.state == BudgetRejected && r'.response == r.response && r'.partial == r.partial
       case Complete(_, _, _, response, cost) =>
         r'.state == Completed && r'.response == Some(response) && r'.cost == cost && r'.partial == r.partial
       case Fail(_, _, _, _, _, partial, final) =>
         if final then r'.state == Failed && r'.partial == partial && r'.response == r.response else r' == r
       case Cancel(_, _) => r'.state == Cancelled && r'.response == r.response && r'.partial == r.partial
       case _ => r' == r
  }

  /** The calls that write the request row. */
  predicate RowCall(call: Call) {
    call.Transition? || call.Reject? || call.Complete? || call.Fail? || call.Cancel?
  }

  /** No connection is lost during the call. */
  predicate Quiet(s: Store, fault: P.Fault) {
    s.InMemory? || fault == P.NoFault
  }

  /** What a row call does to its row: all of it or nothing, and success tells which unless the connection broke. */
  predicate RowEffect(r: Record, r': Record, call: Call, reply: Reply, quiet: bool) {
    && (r' == r || (Applies(r, call) && Wrote(r, r', call)))
    && (RowCall(call) && reply == Done ==> Applies(r, call) && Wrote(r, r', call))
    && (RowCall(call) && quiet ==> (reply == Done <==> Applies(r, call)))
    && (quiet && reply != Done ==> r' == r)
  }

  /** Calls as `execute` makes them: a legal transition, a computable cost, an attempt already started. */
  predicate WellFormed(s: Store, call: Call) {
    && (call.Transition? ==> CanTransition(call.from, call.to))
    && (call.Complete? ==> call.cost >= 0 && call.response.usage.prompt >= 0 && call.response.usage.completion >= 0)
    && (call.Complete? && s.InMemory? ==> call.id in s.mem.attempts)
  }

  lemma OwnRowInMemory(m: M.Mem, call: Call, ctx: Context, id: Id)
    requires WellFormed(InMemory(m), call) && id in m.core.requests
    requires RowCall(call) ==> call.id == id && m.core.Holds(call.tenant, id)
    ensures var (m', reply) := M.Apply(m, call, ctx);
      id in m'.core.requests && RowEffect(m.core.requests[id], m'.core.requests[id], call, reply, true)
  {
  }

  lemma RowCallInSql(db: P.Db, call: Call, ctx: Context, id: Id)
    requires WellFormed(Sql(db), call) && RowCall(call) && call.id == id && db.core.Holds(call.tenant, id)
    ensures var (db', reply) := P.Commit(db, call, ctx);
      id in db'.core.requests && RowEffect(db.core.requests[id], db'.core.requests[id], call, reply, true)
  {
  }

  lemma OtherCallInSql(db: P.Db, call: Call, ctx: Context, id: Id)
    requires id in db.core.requests && !RowCall(call)
    ensures var (db', reply) := P.Commit(db, call, ctx);
      id in db'.core.requests && RowEffect(db.core.requests[id], db'.core.requests[id], call, reply, true)
  {
  }

  lemma OwnRowInSql(db: P.Db, call: Call, ctx: Context, id: Id)
    requires WellFormed(Sql(db), call) && id in db.core.requests
    requires RowCall(call) ==> call.id == id && db.core.Holds(call.tenant, id)
    ensures var (db', reply) := P.Commit(db, call, ctx);
      id in db'.core.requests && RowEffect(db.core.requests[id], db'.core.requests[id], call, reply, true)
  {
    if RowCall(call) {
      RowCallInSql(db, call, ctx, id);
    } else {
      OtherCallInSql(db, call, ctx, id);
    }
  }

  lemma OwnRow(s: Store, call: Call, ctx: Context, fault: P.Fault, id: Id)
    requires WellFormed(s, call) && id in s.Core().requests
    requires RowCall(call) ==> call.id == id && s.Core().Holds(call.tenant, id)
    ensures var (s', reply) := Ask(s, call, ctx, fault);
      id in s'.Core().requests && RowEffect(s.Core().requests[id], s'.Core().requests[id], call, reply, Quiet(s, fault))
  {
    match s
    case InMemory(m) => OwnRowInMemory(m, call, ctx, id);
    case Sql(db) => OwnRowInSql(db, call, ctx, id);
  }

  lemma ResumeFitsEarlyState(p: Proc, ch: Choice, reply: Reply, r: Record, r': Record, quiet: bool)
    requires Roles(p) && p.owner && AsksStore(p.pc) && BeforeLoop(p.pc) && StateFits(p, r)
    requires RowEffect(r, r', CallOf(p, ch), reply, quiet)
    ensures StateFits(Resume(p, reply).(clean := p.clean && quiet), r')
  {
  }

  lemma ResumeFitsLateState(p: Proc, ch: Choice, reply: Reply, r: Record, r': Record, quiet: bool)
    requires p.owner && AsksStore(p.pc) && !BeforeLoop(p.pc) && StateFits(p, r)
    requires RowEffect(r, r', CallOf(p, ch), reply, quiet)
    ensures StateFits(Resume(p, reply).(clean := p.clean && quiet), r')
  {
  }

  lemma ResumeFitsState(c: Setup, p: Proc, ch: Choice, reply: Reply, r: Record, r': Record, quiet: bool)
    requires Counts(c, p) && p.owner && AsksStore(p.pc) && StateFits(p, r)
    requires RowEffect(r, r', CallOf(p, ch), reply, quiet)
    ensures StateFits(Resume(p, reply).(clean := p.clean && quiet), r')
  {
    if BeforeLoop(p.pc) {
      ResumeFitsEarlyState(p, ch, reply, r, r', quiet);
    } else {
      ResumeFitsLateState(p, ch, reply, r, r', quiet);
    }
  }

  lemma ResumeFitsStream(c: Setup, p: Proc, ch: Choice, reply: Reply, r: Record, r': Record, p': Proc)
    requires Counts(c, p) && Streams(c, p) && p.owner && AsksStore(p.pc) && StateFits(p, r) && StreamFits(p, r)
    requires SameWork(p, p') && Moved(p, p')
    requires r' == r || (Applies(r, CallOf(p, ch)) && Wrote(r, r', CallOf(p, ch)))
    requires r'.state == Completed ==> !MayCallAgain(p'.pc)
    ensures StreamFits(p', r')
  {
  }

  /** The submission's next state fits the row its call left behind. */
  lemma ResumeFitsRow(c: Setup, p: Proc, ch: Choice, reply: Reply, r: Record, r': Record, quiet: bool)
    requires Local(c, p) && p.owner && AsksStore(p.pc) && RowFits(p, r)
    requires RowEffect(r, r', CallOf(p, ch), reply, quiet)
    ensures RowFits(Resume(p, reply).(clean := p.clean && quiet), r')
  {
    var p' := Resume(p, reply).(clean := p.clean && quiet);
    ResumeKeepsWork(p, reply, p'.clean);
    ResumeMoves(p, reply, p'.clean);
    ResumeFitsState(c, p, ch, reply, r, r', quiet);
    assert r'.state == Completed ==> !MayCallAgain(p'.pc);
    ResumeFitsStream(c, p, ch, reply, r, r', p');
  }

  lemma CallFitsRow(c: Setup, p: Proc, handed: string, outcome: CallResult, cost: Option<int64>, r: Record)
    requires Streams(c, p) && p.pc.Calling? && RowFits(p, r)
    ensures RowFits(AfterCall(c, p, handed, outcome, cost), r)
  {
  }

  lemma PricedFitsRow(c: Setup, p: Proc, r: Record)
    requires p.pc.Pricing? && RowFits(p, r)
    ensures RowFits(Priced(c, p), r)
  {
    var p' := Priced(c, p);
    assert p' == p.(pc := p'.pc, job := p'.job);
    assert p'.job == p.job.(reserved := p'.job.reserved);
  }

  lemma TicketMoveFitsRow(p: Proc, p': Proc, r: Record)
    requires TicketMove(p, p') && RowFits(p, r)
    ensures RowFits(p', r)
  {
  }

  /** Steps without the store leave the row alone, and still fit it. */
  lemma ProceedFitsRow(c: Setup, p: Proc, ch: Choice, r: Record)
    requires Local(c, p) && p.owner && !AsksStore(p.pc) && RowFits(p, r)
    ensures RowFits(Proceed(c, p, ch), r)
  {
    if MovesTickets(p.pc) {
      TicketsMove(c, p, ch);
      TicketMoveFitsRow(p, Proceed(c, p, ch), r);
    } else {
      match p.pc
      case Calling =>
        var outcome := CallOutcome(c, p.job.input, ch.script);
        CallFitsRow(c, p, Delivered(c, p.job.input, ch.script), outcome, CostFor(p, outcome), r);
      case Pricing => PricedFitsRow(c, p, r);
      case _ =>
    }
  }

  /** A cancellation by anyone else is something every submission is prepared for. */
  lemma CancelFitsRow(p: Proc, r: Record, r': Record)
    requires RowFits(p, r) && p.owner && !p.pc.Creating?
    requires r' == r || (!Terminal(r.state) && Wrote(r, r', Cancel(r.tenant, 0)))
    ensures RowFits(p, r')
  {
  }

  // The reservation

  predicate NotYetReserved(pc: Pc) {
    pc.Validating? || pc.LoadingPolicy? || pc.Abandoning? || pc.Admitting? || pc.Refusing? || pc.Pricing? || pc.Reserving? || pc.Rejecting?
  }

  /** The returns that leave the reservation behind. */
  predicate Leaks(exit: Exit) {
    exit in {RoutingLost, StartLost, UsageInvalid, CompletionLost, FailureLost}
  }

  predicate HoldFits(p: Proc, held: Option<int64>, blank: bool) {
    && (NotYetReserved(p.pc) ==> blank && held == None)
    && (!NotYetReserved(p.pc) && !p.pc.Creating? && !Ended(p.pc) ==> held == Some(p.job.reserved))
    && (Ended(p.pc) && p.clean ==> held == if Leaks(p.pc.exit) then Some(p.job.reserved) else None)
  }

  predicate HoldEffect(held: Option<int64>, blank: bool, held': Option<int64>, blank': bool, call: Call, reply: Reply, quiet: bool) {
    && (!quiet ==> reply == Err(Unavailable))
    && if call.Reserve? then
      && (blank && reply == Done ==> held' == Some(call.amount))
      && (quiet && reply != Done ==> held' == held && blank' == blank)
    else if call.Reconcile? then
      held.Some? && held.value >= 0 && call.actual >= 0 && quiet ==> held' == None
    else held' == held && blank' == blank
  }

  lemma OwnHoldInMemory(m: M.Mem, call: Call, ctx: Context, id: Id)
    requires id in m.core.requests && (call.Reserve? || call.Reconcile? ==> call.id == id)
    ensures var (m', reply) := M.Apply(m, call, ctx);
      HoldEffect(InMemory(m).Held(id), InMemory(m).Unreserved(id), InMemory(m').Held(id), InMemory(m').Unreserved(id), call, reply, true)
  {
  }

  lemma OwnHoldInSql(db: P.Db, call: Call, ctx: Context, fault: P.Fault, id: Id)
    requires id in db.core.requests && (call.Reserve? || call.Reconcile? ==> call.id == id)
    ensures var (db', reply) := P.Apply(db, call, ctx, fault);
      HoldEffect(Sql(db).Held(id), Sql(db).Unreserved(id), Sql(db').Held(id), Sql(db').Unreserved(id), call, reply, fault == P.NoFault)
  {
  }

  lemma OwnHold(s: Store, call: Call, ctx: Context, fault: P.Fault, id: Id)
    requires id in s.Core().requests
    requires call.Reserve? || call.Reconcile? ==> call.id == id
    ensures var (s', reply) := Ask(s, call, ctx, fault);
      HoldEffect(s.Held(id), s.Unreserved(id), s'.Held(id), s'.Unreserved(id), call, reply, Quiet(s, fault))
  {
    match s
    case InMemory(m) => OwnHoldInMemory(m, call, ctx, id);
    case Sql(db) => OwnHoldInSql(db, call, ctx, fault, id);
  }

  lemma ResumeFitsHold(c: Setup, p: Proc, ch: Choice, reply: Reply, held: Option<int64>, blank: bool, held': Option<int64>, blank': bool, quiet: bool)
    requires Counts(c, p) && Prices(c, p) && p.owner && AsksStore(p.pc) && HoldFits(p, held, blank)
    requires HoldEffect(held, blank, held', blank', CallOf(p, ch), reply, quiet)
    ensures HoldFits(Resume(p, reply).(clean := p.clean && quiet), held', blank')
  {
  }

  lemma ProceedFitsHold(c: Setup, p: Proc, ch: Choice, held: Option<int64>, blank: bool)
    requires p.owner && !AsksStore(p.pc) && HoldFits(p, held, blank)
    ensures HoldFits(Proceed(c, p, ch), held, blank)
  {
    if MovesTickets(p.pc) { TicketsMove(c, p, ch); }
    match p.pc
    case Calling =>
      var outcome := CallOutcome(c, p.job.input, ch.script);
      assert Called(c, p, ch.script) == AfterCall(c, p, Delivered(c, p.job.input, ch.script), outcome, CostFor(p, outcome));
    case _ =>
  }

  // The attempts

  type Attempts = map<(Id, nat), P.Attempt>

  /** Attempts are numbered from one, and the one SUCCEEDED attempt exists exactly when the request is COMPLETED. */
  ghost predicate TriesFit(p: Proc, completed: bool, a: Attempts) {
    && (forall n: nat :: (p.id, n) in a ==>
          && 0 < n <= p.attempt && a[(p.id, n)].tenant == p.job.input.tenant
          && (a[(p.id, n)].status == P.Succeeded ==> completed && n == p.attempt))
    && (completed ==> (p.id, p.attempt) in a && a[(p.id, p.attempt)].status == P.Succeeded)
    && (p.pc.Selecting? || p.pc.Starting? ==> (p.id, p.attempt) !in a)
    && (p.pc.Calling? || p.pc.Completing? || p.pc.FailingAttempt? ==> (p.id, p.attempt) in a && a[(p.id, p.attempt)].status == P.Started)
  }

  predicate TriesEffect(a: Attempts, a': Attempts, call: Call, reply: Reply, completed: bool, completed': bool) {
    match call
    case Start(tenant, id, number, provider, _) =>
      var started := a[(id, number) := P.Attempt(tenant, provider, P.Started, 0)];
      completed' == completed && (a' == a || (a' == started && number > 0)) && (reply == Done ==> a' == started && number > 0)
    case Complete(tenant, id, number, _, cost) =>
      || (a' == a && completed' == completed && reply != Done)
      || (!completed && completed' && a' == P.SetAttempt(a, id, number, tenant, P.Succeeded, cost))
    case Fail(tenant, id, number, _, _, _, _) =>
      completed' == completed && (a' == a || a' == P.SetAttempt(a, id, number, tenant, P.Broken, 0))
    case _ => a' == a && completed' == completed
  }

  predicate IsCompleted(db: P.Db, id: Id) {
    id in db.core.requests && db.core.requests[id].state == Completed
  }

  lemma AttemptCallTries(db: P.Db, call: Call, ctx: Context, id: Id)
    requires id in db.core.requests && (call.Start? || call.Complete? || call.Fail?) && call.id == id
    ensures var (db', reply) := P.Commit(db, call, ctx);
      TriesEffect(db.attempts, db'.attempts, call, reply, IsCompleted(db, id), IsCompleted(db', id))
  {
  }

  lemma OtherCallKeepsAttempts(db: P.Db, call: Call, ctx: Context)
    requires !call.Start? && !call.Complete? && !call.Fail?
    ensures P.Commit(db, call, ctx).0.attempts == db.attempts
  {
  }

  lemma OtherCallKeepsCompleted(db: P.Db, call: Call, ctx: Context, id: Id)
    requires id in db.core.requests && !call.Start? && !call.Complete? && !call.Fail?
    requires call.Transition? ==> call.to != Completed && call.from != Completed
    ensures IsCompleted(P.Commit(db, call, ctx).0, id) == IsCompleted(db, id)
  {
  }

  lemma OtherCallTries(db: P.Db, call: Call, ctx: Context, id: Id)
    requires id in db.core.requests && !call.Start? && !call.Complete? && !call.Fail?
    requires call.Transition? ==> call.to != Completed && call.from != Completed
    ensures var (db', reply) := P.Commit(db, call, ctx);
      TriesEffect(db.attempts, db'.attempts, call, reply, IsCompleted(db, id), IsCompleted(db', id))
  {
    OtherCallKeepsAttempts(db, call, ctx);
    OtherCallKeepsCompleted(db, call, ctx, id);
  }

  lemma OwnTriesCommitted(db: P.Db, call: Call, ctx: Context, id: Id)
    requires id in db.core.requests
    requires !call.Create? && !call.LoadPolicy? ==> call.id == id
    requires call.Transition? ==> call.to != Completed && call.from != Completed
    ensures var (db', reply) := P.Commit(db, call, ctx);
      TriesEffect(db.attempts, db'.attempts, call, reply, IsCompleted(db, id), IsCompleted(db', id))
  {
    if call.Start? || call.Complete? || call.Fail? {
      AttemptCallTries(db, call, ctx, id);
    } else {
      OtherCallTries(db, call, ctx, id);
    }
  }

  lemma OwnTries(db: P.Db, call: Call, ctx: Context, fault: P.Fault, id: Id)
    requires id in db.core.requests
    requires !call.Create? && !call.LoadPolicy? ==> call.id == id
    requires call.Transition? ==> call.to != Completed && call.from != Completed
    ensures var (db', reply) := P.Apply(db, call, ctx, fault);
      TriesEffect(db.attempts, db'.attempts, call, reply, IsCompleted(db, id), IsCompleted(db', id))
  {
    OwnTriesCommitted(db, call, ctx, id);
  }

  lemma ResumeFitsEarlyTries(c: Setup, p: Proc, ch: Choice, reply: Reply, a: Attempts, a': Attempts, completed: bool, completed': bool, clean: bool)
    requires Counts(c, p) && p.owner && AsksStore(p.pc) && BeforeLoop(p.pc) && TriesFit(p, completed, a)
    requires TriesEffect(a, a', CallOf(p, ch), reply, completed, completed')
    ensures TriesFit(Resume(p, reply).(clean := clean), completed', a')
  {
  }

  lemma ResumeFitsLateTries(c: Setup, p: Proc, ch: Choice, reply: Reply, a: Attempts, a': Attempts, completed: bool, completed': bool, clean: bool)
    requires Counts(c, p) && p.owner && AsksStore(p.pc) && !BeforeLoop(p.pc) && TriesFit(p, completed, a)
    requires TriesEffect(a, a', CallOf(p, ch), reply, completed, completed')
    ensures TriesFit(Resume(p, reply).(clean := clean), completed', a')
  {
  }

  lemma ResumeFitsTries(c: Setup, p: Proc, ch: Choice, reply: Reply, a: Attempts, a': Attempts, completed: bool, completed': bool, clean: bool)
    requires Counts(c, p) && p.owner && AsksStore(p.pc) && TriesFit(p, completed, a)
    requires TriesEffect(a, a', CallOf(p, ch), reply, completed, completed')
    ensures TriesFit(Resume(p, reply).(clean := clean), completed', a')
  {
    if BeforeLoop(p.pc) {
      ResumeFitsEarlyTries(c, p, ch, reply, a, a', completed, completed', clean);
    } else {
      ResumeFitsLateTries(c, p, ch, reply, a, a', completed, completed', clean);
    }
  }

  lemma ProceedFitsTries(c: Setup, p: Proc, ch: Choice, a: Attempts, completed: bool)
    requires Counts(c, p) && p.owner && !AsksStore(p.pc) && TriesFit(p, completed, a)
    requires p.pc.Waiting? ==> !completed
    ensures TriesFit(Proceed(c, p, ch), completed, a)
  {
    if MovesTickets(p.pc) { TicketsMove(c, p, ch); }
    match p.pc
    case Calling =>
      var outcome := CallOutcome(c, p.job.input, ch.script);
      assert Called(c, p, ch.script) == AfterCall(c, p, Delivered(c, p.job.input, ch.script), outcome, CostFor(p, outcome));
    case _ =>
  }
}
