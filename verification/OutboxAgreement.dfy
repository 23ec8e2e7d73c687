/** In every state the gateway can reach, the outbox says exactly what the tables say. */
module OutboxAgreement {
  import opened Base
  import opened Budget
  import opened Request
  import opened PostgresSpec
  import opened Stores
  import opened GatewaySpec
  import opened Ownership
  import opened Protocol
  import opened Cluster

  datatype Tag = AcceptedTag | SelectedTag(number: nat) | FinishedTag | UsageTag | FailedTag | BudgetTag | EvaluationTag

  function TagOf(f: Fact): Tag {
    match f
    case Accepted(_) => AcceptedTag
    case Selected(number, _) => SelectedTag(number)
    case Finished(_) => FinishedTag
    case UsageRecorded(_, _) => UsageTag
    case RequestFailed(_, _) => FailedTag
    case BudgetExceeded(_) => BudgetTag
    case EvaluationCompleted | EvaluationFailed(_) => EvaluationTag
  }

  /** How many facts of one kind the outbox holds about one request. */
  ghost function Facts(events: seq<Event>, id: Id, tag: Tag): nat {
    if events == [] then 0 else
      Facts(events[..|events| - 1], id, tag) + Bit(events[|events| - 1], id, tag)
  }

  function Bit(e: Event, id: Id, tag: Tag): nat {
    if e.aggregate == id && TagOf(e.fact) == tag then 1 else 0
  }

  lemma FactsAppend(events: seq<Event>, e: Event, id: Id, tag: Tag)
    ensures Facts(events + [e], id, tag) == Facts(events, id, tag) + Bit(e, id, tag)
  {
    assert (events + [e])[..|events|] == events;
  }

  function One(b: bool): nat { if b then 1 else 0 }

  /** The facts about one request, against its row and its attempts. */
  ghost predicate Agrees(events: seq<Event>, requests: map<Id, Record>, attempts: Attempts, id: Id) {
    && Facts(events, id, AcceptedTag) == One(id in requests)
    && (forall n: nat :: Facts(events, id, SelectedTag(n)) == One((id, n) in attempts))
    && Facts(events, id, FinishedTag) == One(id in requests && requests[id].state == Completed)
    && Facts(events, id, UsageTag) == One(id in requests && requests[id].state == Completed)
    && Facts(events, id, BudgetTag) == One(id in requests && requests[id].state == BudgetRejected)
    && Facts(events, id, FailedTag) <= One(id in requests && requests[id].state == Failed)
  }

  /** A completion or usage fact carries the stored cost. */
  ghost predicate CostAgrees(e: Event, requests: map<Id, Record>) {
    (e.fact.Finished? || e.fact.UsageRecorded?) ==>
      && e.aggregate in requests && requests[e.aggregate].state == Completed
      && requests[e.aggregate].cost == e.fact.cost && requests[e.aggregate].tenant == e.tenant
  }

  ghost predicate Agreement(db: Db) {
    && (forall id: nat :: AgreesOn(db, id))
    && (forall i :: 0 <= i < |db.events| ==> CostAgrees(db.events[i], db.core.requests))
    && (forall k :: k in db.attempts ==> k.0 in db.core.requests)
  }

  /** The transitions `execute` asks for; completion and rejection go through their own calls. */
  predicate GatewayCall(call: Call) {
    call.Transition? ==> call.to in {Validated, Failed, Routing, InProgress}
  }

  // Appending facts, table by table

  /** A new row with its accepted fact. */
  lemma AcceptedAgrees(events: seq<Event>, e: Event, requests: map<Id, Record>, r: Record, attempts: Attempts, id: Id)
    requires Agrees(events, requests, attempts, id) && e.fact.Accepted?
    requires e.aggregate !in requests && r.state == Received
    ensures Agrees(events + [e], requests[e.aggregate := r], attempts, id)
  {
    forall tag ensures Facts(events + [e], id, tag) == Facts(events, id, tag) + Bit(e, id, tag) {
      FactsAppend(events, e, id, tag);
    }
  }

  /** A new attempt with its selected fact. */
  lemma SelectedAgrees(events: seq<Event>, e: Event, requests: map<Id, Record>, attempts: Attempts, a: Attempt, id: Id)
    requires Agrees(events, requests, attempts, id) && e.fact.Selected? && (e.aggregate, e.fact.number) !in attempts
    ensures Agrees(events + [e], requests, attempts[(e.aggregate, e.fact.number) := a], id)
  {
    forall tag ensures Facts(events + [e], id, tag) == Facts(events, id, tag) + Bit(e, id, tag) {
      FactsAppend(events, e, id, tag);
    }
  }

  /** A row that becomes FAILED or BUDGET_REJECTED with its fact. */
  lemma ClosedAgrees(events: seq<Event>, e: Event, requests: map<Id, Record>, r: Record, attempts: Attempts, attempts': Attempts, id: Id)
    requires Agrees(events, requests, attempts, id) && attempts'.Keys == attempts.Keys
    requires e.aggregate in requests && !Terminal(requests[e.aggregate].state)
    requires (e.fact.RequestFailed? && r.state == Failed) || (e.fact.BudgetExceeded? && r.state == BudgetRejected)
    ensures Agrees(events + [e], requests[e.aggregate := r], attempts', id)
  {
    forall tag ensures Facts(events + [e], id, tag) == Facts(events, id, tag) + Bit(e, id, tag) {
      FactsAppend(events, e, id, tag);
    }
  }

  /** A row that becomes COMPLETED with its two facts. */
  lemma CompletedAgrees(events: seq<Event>, e: Event, u: Event, requests: map<Id, Record>, r: Record, attempts: Attempts, attempts': Attempts, id: Id)
    requires Agrees(events, requests, attempts, id) && attempts'.Keys == attempts.Keys
    requires e.aggregate == u.aggregate && e.aggregate in requests && !Terminal(requests[e.aggregate].state)
    requires e.fact.Finished? && u.fact.UsageRecorded? && r.state == Completed
    ensures Agrees(events + [e] + [u], requests[e.aggregate := r], attempts', id)
  {
    forall tag ensures Facts(events + [e] + [u], id, tag) == Facts(events, id, tag) + Bit(e, id, tag) + Bit(u, id, tag) {
      FactsAppend(events, e, id, tag);
      FactsAppend(events + [e], u, id, tag);
    }
  }

  /** A row that moves to a state with no fact of its own. */
  lemma SilentAgrees(events: seq<Event>, requests: map<Id, Record>, mine: Id, r: Record, attempts: Attempts, id: Id)
    requires Agrees(events, requests, attempts, id)
    requires mine in requests && (r == requests[mine] || (!Terminal(requests[mine].state) && r.state !in {Completed, BudgetRejected}))
    ensures Agrees(events, requests[mine := r], attempts, id)
  {
  }

  lemma SetAttemptKeys(attempts: Attempts, id: Id, number: nat, tenant: string, status: AttemptStatus, cost: int64)
    ensures SetAttempt(attempts, id, number, tenant, status, cost).Keys == attempts.Keys
  {
  }

  ghost predicate AgreesOn(db: Db, id: Id) {
    Agrees(db.events, db.core.requests, db.attempts, id)
  }

  lemma CreateAgrees(db: Db, call: Call, ctx: Context, id: Id)
    requires AgreesOn(db, id) && call.Create?
    ensures AgreesOn(CreateTx(db, call, ctx).0, id)
  {
    var db' := CreateTx(db, call, ctx).0;
    if db' != db {
      AcceptedAgrees(db.events, db'.events[|db.events|], db.core.requests, NewRecord(call), db.attempts, id);
    }
  }

  lemma StartAgrees(db: Db, call: Call, ctx: Context, id: Id)
    requires AgreesOn(db, id) && call.Start?
    ensures AgreesOn(StartTx(db, call, ctx).0, id)
  {
    var db' := StartTx(db, call, ctx).0;
    if db' != db {
      SelectedAgrees(db.events, db'.events[|db.events|], db.core.requests, db.attempts, db'.attempts[(call.id, call.number)], id);
    }
  }

  lemma CompleteAgrees(db: Db, call: Call, ctx: Context, id: Id)
    requires AgreesOn(db, id) && call.Complete?
    ensures AgreesOn(CompleteTx(db, call, ctx).0, id)
  {
    var db', n := CompleteTx(db, call, ctx).0, |db.events|;
    if db' != db {
      SetAttemptKeys(db.attempts, call.id, call.number, call.tenant, AttemptStatus.Succeeded, call.cost);
      CompletedAgrees(db.events, db'.events[n], db'.events[n + 1], db.core.requests, db'.core.requests[call.id],
                      db.attempts, db'.attempts, id);
    }
  }

  lemma FailAgrees(db: Db, call: Call, ctx: Context, id: Id)
    requires AgreesOn(db, id) && call.Fail?
    ensures AgreesOn(FailTx(db, call, ctx).0, id)
  {
    var db' := FailTx(db, call, ctx).0;
    SetAttemptKeys(db.attempts, call.id, call.number, call.tenant, Broken, 0);
    if |db'.events| > |db.events| {
      ClosedAgrees(db.events, db'.events[|db.events|], db.core.requests, db'.core.requests[call.id], db.attempts, db'.attempts, id);
    } else {
      assert db'.events == db.events && db'.core == db.core;
    }
  }

  lemma RejectAgrees(db: Db, call: Call, ctx: Context, id: Id)
    requires AgreesOn(db, id) && call.Reject?
    ensures AgreesOn(RejectTx(db, call, ctx).0, id)
  {
    var db' := RejectTx(db, call, ctx).0;
    if db' != db {
      ClosedAgrees(db.events, db'.events[|db.events|], db.core.requests, db'.core.requests[call.id], db.attempts, db.attempts, id);
    }
  }

  lemma MoveAgrees(db: Db, call: Call, ctx: Context, id: Id)
    requires AgreesOn(db, id) && GatewayCall(call) && (call.Transition? || call.Cancel?)
    ensures AgreesOn(Commit(db, call, ctx).0, id)
  {
    var db' := Commit(db, call, ctx).0;
    if db' != db {
      SilentAgrees(db.events, db.core.requests, call.id, db'.core.requests[call.id], db.attempts, id);
    }
  }

  lemma CommitAgrees(db: Db, call: Call, ctx: Context, id: Id)
    requires AgreesOn(db, id) && GatewayCall(call)
    ensures AgreesOn(Commit(db, call, ctx).0, id)
  {
    match call
    case Create(_, _, _, _) => CreateAgrees(db, call, ctx, id);
    case Start(_, _, _, _, _) => StartAgrees(db, call, ctx, id);
    case Complete(_, _, _, _, _) => CompleteAgrees(db, call, ctx, id);
    case Fail(_, _, _, _, _, _, _) => FailAgrees(db, call, ctx, id);
    case Reject(_, _, _) => RejectAgrees(db, call, ctx, id);
    case Transition(_, _, _, _) => MoveAgrees(db, call, ctx, id);
    case Cancel(_, _) => MoveAgrees(db, call, ctx, id);
    case _ =>
  }

  /** No call rewrites a completed row, and only a completion adds facts that carry a cost. */
  lemma CommitCosts(db: Db, call: Call, ctx: Context)
    requires Agreement(db)
    ensures var db' := Commit(db, call, ctx).0;
      forall i :: 0 <= i < |db'.events| ==> CostAgrees(db'.events[i], db'.core.requests)
  {
    var db' := Commit(db, call, ctx).0;
    CommitAppends(db, call, ctx);
    forall i | 0 <= i < |db'.events| ensures CostAgrees(db'.events[i], db'.core.requests) {
      if i < |db.events| {
        assert CostAgrees(db.events[i], db.core.requests) && db'.events[i] == db.events[i];
        if db.events[i].fact.Finished? || db.events[i].fact.UsageRecorded? { CompletedStays(db, call, ctx, db.events[i].aggregate); }
      }
    }
  }

  lemma CommitAppends(db: Db, call: Call, ctx: Context)
    ensures var db' := Commit(db, call, ctx).0;
      && |db.events| <= |db'.events| && db'.events[..|db.events|] == db.events
      && (forall i :: |db.events| <= i < |db'.events| ==> CostAgrees(db'.events[i], db'.core.requests))
  {
  }

  lemma CompletedStays(db: Db, call: Call, ctx: Context, id: Id)
    requires id in db.core.requests && db.core.requests[id].state == Completed
    ensures var requests' := Commit(db, call, ctx).0.core.requests; id in requests' && requests'[id] == db.core.requests[id]
  {
  }

  lemma CommitKeepsAgreement(db: Db, call: Call, ctx: Context)
    requires Agreement(db) && GatewayCall(call)
    ensures Agreement(Commit(db, call, ctx).0)
  {
    var db' := Commit(db, call, ctx).0;
    forall id: nat ensures AgreesOn(db', id) {
      CommitAgrees(db, call, ctx, id);
    }
    CommitCosts(db, call, ctx);
  }

  lemma {:induction false} EvaluationFactsAreNeutral(db: Db, events: seq<Event>, id: Id, tag: Tag)
    requires db.events <= events && tag != EvaluationTag
    requires forall i :: |db.events| <= i < |events| ==> EvaluationFact(events[i])
    ensures Facts(events, id, tag) == Facts(db.events, id, tag)
    decreases |events|
  {
    if |events| > |db.events| {
      EvaluationFactsAreNeutral(db, events[..|events| - 1], id, tag);
    } else {
      assert events == db.events;
    }
  }

  lemma BackgroundKeepsAgreement(db: Db, db': Db)
    requires Agreement(db) && SameGateway(db, db')
    ensures Agreement(db')
  {
    forall id: nat ensures AgreesOn(db', id) {
      assert AgreesOn(db, id);
      forall tag | tag != EvaluationTag ensures Facts(db'.events, id, tag) == Facts(db.events, id, tag) {
        EvaluationFactsAreNeutral(db, db'.events, id, tag);
      }
    }
  }

  lemma {:induction false} AlwaysAgrees(c: Setup, db: Db, actions: seq<Action>)
    requires Unused(Sql(db))
    ensures After(c, Sql(db), actions).store.Sql? && Agreement(After(c, Sql(db), actions).store.db)
  {
    if actions != [] {
      var init, a := actions[..|actions| - 1], actions[|actions| - 1];
      var sys := After(c, Sql(db), init);
      AlwaysAgrees(c, db, init);
      match a
      case Submit(_) =>
      case CancelBy(tenant, id, ctx, _) => CommitKeepsAgreement(sys.store.db, Cancel(tenant, id), ctx);
      case Background(db') => if SameGateway(sys.store.db, db') { BackgroundKeepsAgreement(sys.store.db, db'); }
      case Run(pid, ch) =>
        if pid < |sys.procs| && AsksStore(sys.procs[pid].pc) {
          CommitKeepsAgreement(sys.store.db, CallOf(sys.procs[pid], ch), ch.ctx);
        }
    }
  }

  predicate SucceededAt(attempts: Attempts, id: Id, n: nat) {
    (id, n) in attempts && attempts[(id, n)].status.Succeeded?
  }

  ghost predicate OneSuccess(attempts: Attempts, id: Id) {
    exists n: nat :: SucceededAt(attempts, id, n) && forall m: nat :: SucceededAt(attempts, id, m) ==> m == n
  }

  ghost predicate NoSuccess(attempts: Attempts, id: Id) {
    forall n: nat :: !SucceededAt(attempts, id, n)
  }

  /** After every run of submissions, cancellations, faults and background work, the outbox agrees with the tables. */
  lemma OutboxAgreesWithTables(c: Setup, db: Db, actions: seq<Action>, id: Id)
    requires c.maxAttempts > 0 && Unused(Sql(db))
    ensures var s := After(c, Sql(db), actions).store;
      && s.Sql? && AgreesOn(s.db, id)
      && (forall i :: 0 <= i < |s.db.events| ==> CostAgrees(s.db.events[i], s.db.core.requests))
      && (if IsCompleted(s.db, id) then OneSuccess(s.db.attempts, id) else NoSuccess(s.db.attempts, id))
  {
    AlwaysAgrees(c, db, actions);
    Invariant(c, Sql(db), actions);
    var sys := After(c, Sql(db), actions);
    if id in sys.store.db.core.requests {
      if i :| Owns(sys.procs, i, id) {
        assert ProcFits(c, sys.store, sys.procs[i]);
        assert IsCompleted(sys.store.db, id) ==> SucceededAt(sys.store.db.attempts, id, sys.procs[i].attempt);
      } else {
        assert Orphan(sys.store, id);
      }
    }
  }
}
