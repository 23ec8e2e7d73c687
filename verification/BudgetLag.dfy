/** What the SQL store's admission guarantees although the ledger it reads is filled later. */
module BudgetLag {
  import opened Base
  import opened Budget
  import opened Request
  import opened PostgresSpec
  import opened Stores
  import opened GatewaySpec
  import opened Pipeline
  import opened PipelineInvariant
  import opened Delivery
  import opened Walkthrough
  import Cluster

  /** One period of one tenant: what was completed, is reserved, is in the ledger and is not there yet. */
  datatype Period = Period(completed: int, held: int, ledger: int, pending: int)

  /**
   * Completed and reserved cost keep to a limit but for cost the ledger has not seen, and keep to it
   * altogether exactly when that cost fits in the room the ledger and the reservations leave.
   */
  predicate WithinLag(limit: int, p: Period) {
    limit != 0 ==>
      p.completed + p.held <= limit + p.pending && (p.completed + p.held <= limit <==> p.pending <= limit - p.ledger - p.held)
  }

  ghost function Month(db: Db, tenant: string, month: Time): Period {
    Period(Sum(CompletedCosts(db.core.requests, tenant, month)), Sum(HeldInMonth(db.reservations, tenant, month)),
           Sum(LedgerSince(db.projection, tenant, month)), Sum(PendingCosts(db.events, db.projection, tenant, month)))
  }

  ghost function Day(db: Db, tenant: string, day: Time): Period {
    Period(Sum(CompletedCosts(db.core.requests, tenant, day)), Sum(HeldOnDay(db.reservations, tenant, day)),
           Sum(LedgerSince(db.projection, tenant, day)), Sum(PendingCosts(db.events, db.projection, tenant, day)))
  }

  lemma MonthGrows(rs: map<Id, Reservation>, id: Id, row: Reservation)
    requires id !in rs && row.active
    ensures Sum(HeldInMonth(rs[id := row], row.tenant, row.month)) == Sum(HeldInMonth(rs, row.tenant, row.month)) + row.amount
  {
    var held := HeldInMonth(rs, row.tenant, row.month);
    assert HeldInMonth(rs[id := row], row.tenant, row.month) == held[id := row.amount];
    SumUpdate(held, id, row.amount);
  }

  lemma DayGrows(rs: map<Id, Reservation>, id: Id, row: Reservation)
    requires id !in rs && row.active
    ensures Sum(HeldOnDay(rs[id := row], row.tenant, row.day)) == Sum(HeldOnDay(rs, row.tenant, row.day)) + row.amount
  {
    var held := HeldOnDay(rs, row.tenant, row.day);
    assert HeldOnDay(rs[id := row], row.tenant, row.day) == held[id := row.amount];
    SumUpdate(held, id, row.amount);
  }

  /** What a granted reservation leaves: ledger and reservations of both periods within their limits. */
  lemma GrantedWithinLimits(db: Db, call: Call)
    requires call.Reserve? && ReserveTx(db, call).1 == Done
    ensures var db' := ReserveTx(db, call).0;
      && call.tenant in db.policies
      && db' == db.(reservations := db'.reservations)
      && (db.policies[call.tenant].monthly != 0 ==>
            Sum(LedgerSince(db.projection, call.tenant, call.month)) + Sum(HeldInMonth(db'.reservations, call.tenant, call.month))
              <= db.policies[call.tenant].monthly)
      && (db.policies[call.tenant].daily != 0 ==>
            Sum(LedgerSince(db.projection, call.tenant, call.day)) + Sum(HeldOnDay(db'.reservations, call.tenant, call.day))
              <= db.policies[call.tenant].daily)
  {
    if call.id !in db.reservations {
      var row := Reservation(call.tenant, call.month, call.day, call.amount, true, 0, 0);
      MonthGrows(db.reservations, call.id, row);
      DayGrows(db.reservations, call.id, row);
    }
  }

  /** Right after every granted reservation, for the month and for the day. */
  lemma ReservationsRespectLimitsUpToLag(c: Setup, w: World, call: Call, ctx: Context)
    requires Reachable(c, w) && call.Reserve?
    ensures w.sys.store.Sql?
    ensures var (db', reply) := Commit(Tables(w), call, ctx);
      reply == Done ==>
        && call.tenant in db'.policies
        && WithinLag(db'.policies[call.tenant].monthly, Month(db', call.tenant, call.month))
        && WithinLag(db'.policies[call.tenant].daily, Day(db', call.tenant, call.day))
  {
    ReachableFits(c, w);
    var db := Tables(w);
    assert Balanced(db.core.requests, db.events, db.projection, call.tenant, call.month);
    assert Balanced(db.core.requests, db.events, db.projection, call.tenant, call.day);
    if ReserveTx(db, call).1 == Done { GrantedWithinLimits(db, call); }
  }

  // Reconciliation

  /** A settled reservation splits into what was spent of it and what was given back. */
  lemma ReconciliationAccountsForAll(db: Db, id: Id, actual: int64)
    requires ReconcileTx(db, id, actual).1 == Done
    ensures var was, row := db.reservations[id], ReconcileTx(db, id, actual).0.reservations[id];
      && was.active && !row.active && row.amount == was.amount && row.actual == actual
      && (if actual <= was.amount then row.released + actual == was.amount else row.released == 0)
  {
  }

  ghost predicate Settled(w: World, id: Id) {
    w.sys.store.Sql? && id in Tables(w).reservations && !Tables(w).reservations[id].active
  }

  lemma CommitKeepsSettled(db: Db, call: Call, ctx: Context, id: Id)
    requires id in db.reservations && !db.reservations[id].active
    ensures var rs := Commit(db, call, ctx).0.reservations; id in rs && rs[id] == db.reservations[id]
  {
  }

  lemma ServeKeepsSettled(c: Setup, w: World, a: Cluster.Action, id: Id)
    requires Settled(w, id) && Timely(a, w.now)
    ensures var w' := Next(c, w, Serve(a)); Settled(w', id) && Tables(w').reservations[id] == Tables(w).reservations[id]
  {
    match a
    case CancelBy(tenant, i, ctx, _) => CommitKeepsSettled(Tables(w), Cancel(tenant, i), ctx, id);
    case Run(pid, ch) =>
      if pid < |w.sys.procs| && AsksStore(w.sys.procs[pid].pc) {
        CommitKeepsSettled(Tables(w), CallOf(w.sys.procs[pid], ch), ch.ctx, id);
      }
    case _ =>
  }

  /** A reservation that is no longer active never changes again. */
  lemma SettledStays(c: Setup, w: World, t: Turn, id: Id)
    requires Settled(w, id)
    ensures var w' := Next(c, w, t); Settled(w', id) && Tables(w').reservations[id] == Tables(w).reservations[id]
  {
    if t.Serve? && Timely(t.action, w.now) { ServeKeepsSettled(c, w, t.action, id); }
  }

  /** The worlds one run goes through. */
  ghost predicate Worlds(c: Setup, ws: seq<World>, turns: seq<Turn>) {
    |ws| == |turns| + 1 && forall j, k :: 0 <= j < k < |ws| && k == j + 1 ==> ws[k] == Next(c, ws[j], turns[j])
  }

  ghost predicate Reconciles(ws: seq<World>, k: nat, id: Id)
    requires k + 1 < |ws|
  {
    !Settled(ws[k], id) && Settled(ws[k + 1], id)
  }

  ghost predicate SettledStaysIn(ws: seq<World>, id: Id) {
    forall j, k :: 0 <= j < k < |ws| && k == j + 1 && Settled(ws[j], id) ==> Settled(ws[k], id)
  }

  lemma EveryTurnKeepsSettled(c: Setup, ws: seq<World>, turns: seq<Turn>, id: Id)
    requires Worlds(c, ws, turns)
    ensures SettledStaysIn(ws, id)
  {
    forall j, k | 0 <= j < k < |ws| && k == j + 1 && Settled(ws[j], id) ensures Settled(ws[k], id) {
      SettledStays(c, ws[j], turns[j], id);
    }
  }

  lemma {:induction false} SettledForGood(ws: seq<World>, j: nat, k: nat, id: Id)
    requires SettledStaysIn(ws, id) && j <= k < |ws| && Settled(ws[j], id)
    ensures Settled(ws[k], id)
  {
    if j < k {
      SettledForGood(ws, j, k - 1, id);
    }
  }

  /** Each reservation is reconciled at most once in any run. */
  lemma ReconciledAtMostOnce(c: Setup, ws: seq<World>, turns: seq<Turn>, j: nat, k: nat, id: Id)
    requires Worlds(c, ws, turns) && j < |turns| && k < |turns| && Reconciles(ws, j, id) && Reconciles(ws, k, id)
    ensures j == k
  {
    EveryTurnKeepsSettled(c, ws, turns, id);
    if j < k {
      SettledForGood(ws, j + 1, k, id);
    } else if k < j {
      SettledForGood(ws, k + 1, j, id);
    }
  }

  // The limit itself can be passed

  function TheirChoice(s: Shop, n: nat): Choice {
    ChoiceOf(s, n, Honestly(s))
  }

  /** The n-th submission and k of its steps. */
  function Life(s: Shop, n: nat, k: nat): seq<Turn>
    requires s.amount >= 0
  {
    if k == 0 then [Serve(Cluster.Submit(InputOf(s, n)))] else Life(s, n, k - 1) + [Serve(Cluster.Run(n, TheirChoice(s, n)))]
  }

  /** One whole life after the other: no relay and no consumer ever takes a turn. */
  function Spending(s: Shop, n: nat): seq<Turn>
    requires s.amount >= 0
  {
    if n == 0 then [] else Spending(s, n - 1) + Life(s, n - 1, 13)
  }

  ghost predicate Serving(w: World, n: nat, at: (Store, Proc)) {
    w.now == 0 && w.sys.store == at.0 && at.0.Sql? && |w.sys.procs| == n + 1 && w.sys.procs[n] == at.1
  }

  lemma ServedStep(c: Setup, w: World, n: nat, at: (Store, Proc), ch: Choice)
    requires Serving(w, n, at) && ch.ctx.now == 0
    ensures Serving(Next(c, w, Serve(Cluster.Run(n, ch))), n, Step(c, at.0, at.1, ch))
  {
  }

  lemma ServedSubmission(s: Shop, w: World, n: nat)
    requires s.amount >= 0 && w.now == 0 && w.sys.store.Sql? && |w.sys.procs| == n
    ensures Serving(Next(ConfigOf(s), w, Serve(Cluster.Submit(InputOf(s, n)))), n, From(s, Tables(w), n))
  {
  }

  /** The world k steps into the n-th life. */
  ghost function Lived(s: Shop, w: World, n: nat, k: nat): World
    requires s.amount >= 0
  {
    if k == 0 then Next(ConfigOf(s), w, Serve(Cluster.Submit(InputOf(s, n))))
    else Next(ConfigOf(s), Lived(s, w, n, k - 1), Serve(Cluster.Run(n, TheirChoice(s, n))))
  }

  lemma {:induction false} LifeIsLived(s: Shop, w: World, n: nat, k: nat)
    requires s.amount >= 0
    ensures Then(ConfigOf(s), w, Life(s, n, k)) == Lived(s, w, n, k)
  {
    var life := Life(s, n, k);
    if k == 0 {
      assert life[..0] == [];
    } else {
      LifeIsLived(s, w, n, k - 1);
      assert life[..|life| - 1] == Life(s, n, k - 1);
    }
  }

  lemma LivedIsAfter(s: Shop, db: Db, turns: seq<Turn>, n: nat, k: nat)
    requires s.amount >= 0
    ensures After(ConfigOf(s), db, turns + Life(s, n, k)) == Lived(s, After(ConfigOf(s), db, turns), n, k)
  {
    AfterThen(ConfigOf(s), db, turns, Life(s, n, k));
    LifeIsLived(s, After(ConfigOf(s), db, turns), n, k);
  }

  lemma {:induction false} LivedIsPlayed(s: Shop, w: World, n: nat, k: nat)
    requires s.amount >= 0 && w.now == 0 && w.sys.store.Sql? && |w.sys.procs| == n
    ensures Serving(Lived(s, w, n, k), n, Play(ConfigOf(s), From(s, Tables(w), n), TheirChoice(s, n), k))
  {
    if k == 0 {
      ServedSubmission(s, w, n);
    } else {
      LivedIsPlayed(s, w, n, k - 1);
      ServedStep(ConfigOf(s), Lived(s, w, n, k - 1), n, Play(ConfigOf(s), From(s, Tables(w), n), TheirChoice(s, n), k - 1), TheirChoice(s, n));
    }
  }

  lemma CompletedAdds(requests: map<Id, Record>, id: Id, r: Record, tenant: string)
    requires id !in requests && r.state == Completed && r.tenant == tenant && r.completedAt == 0
    ensures Sum(CompletedCosts(requests[id := r], tenant, 0)) == Sum(CompletedCosts(requests, tenant, 0)) + r.cost
  {
    var costs := CompletedCosts(requests, tenant, 0);
    assert CompletedCosts(requests[id := r], tenant, 0) == costs[id := r.cost];
    SumUpdate(costs, id, r.cost);
  }

  /** The tenant's limit is the cost of one request. */
  predicate Exact(s: Shop) {
    0 < s.amount == s.limit && s.outputPrice == 0 && s.listed
  }

  ghost predicate Spent(s: Shop, w: World, n: nat) {
    && w.now == 0 && w.sys.store.Sql? && |w.sys.procs| == n && Ready(s, Tables(w), n)
    && Sum(CompletedCosts(Tables(w).core.requests, s.tenant, 0)) == n * s.amount
  }

  lemma LifeCosts(s: Shop, db0: Db, db: Db, n: nat)
    requires Ready(s, db0, n) && Only(db0, db, n, PaidRow(s, n))
    ensures Sum(CompletedCosts(db.core.requests, s.tenant, 0)) == Sum(CompletedCosts(db0.core.requests, s.tenant, 0)) + s.amount
  {
    CompletedAdds(db0.core.requests, n, PaidRow(s, n), s.tenant);
  }

  lemma OneMoreLife(s: Shop, w: World, n: nat)
    requires Exact(s) && Spent(s, w, n)
    ensures Spent(s, Lived(s, w, n, 13), n + 1)
  {
    var w' := Lived(s, w, n, 13);
    LivedIsPlayed(s, w, n, 13);
    WalkToEnd(s, Tables(w), n, TheirChoice(s, n));
    ReadyAgain(s, Tables(w), Tables(w'), n);
    LifeCosts(s, Tables(w), Tables(w'), n);
    Distribute(n + 1, 1, s.amount);
  }

  lemma {:induction false} SpendingWorks(s: Shop, n: nat)
    requires Exact(s)
    ensures Spent(s, After(ConfigOf(s), Tables0(s), Spending(s, n)), n)
  {
    if n == 0 {
      FreshIsReady(s);
      assert CompletedCosts(Tables0(s).core.requests, s.tenant, 0) == map[];
    } else {
      SpendingWorks(s, n - 1);
      LivedIsAfter(s, Tables0(s), Spending(s, n - 1), n - 1, 13);
      OneMoreLife(s, After(ConfigOf(s), Tables0(s), Spending(s, n - 1)), n - 1);
    }
  }

  /**
   * While no relay and no consumer takes a turn the gateway reaches, for every n, a world where a tenant has completed
   * n requests that each cost its whole monthly limit.
   */
  lemma LagLetsSpendingPassTheLimit(s: Shop, n: nat)
    requires Exact(s)
    ensures var w := After(ConfigOf(s), Tables0(s), Spending(s, n));
      && Reachable(ConfigOf(s), w) && w.sys.store.Sql?
      && s.tenant in Tables(w).policies && Tables(w).policies[s.tenant].monthly == s.limit
      && Month(Tables(w), s.tenant, 0).completed == n * s.limit
  {
    SpendingWorks(s, n);
    assert Cluster.Unused(Sql(Tables0(s)));
  }

  lemma MonthWhileServing(s: Shop, db0: Db, db: Db, n: nat, r: Record)
    requires Ready(s, db0, n) && Midway(s, db0, db, n, r, true, false) && r.state != Completed
    ensures Sum(CompletedCosts(db.core.requests, s.tenant, 0)) == Sum(CompletedCosts(db0.core.requests, s.tenant, 0))
    ensures Sum(HeldInMonth(db.reservations, s.tenant, 0)) == s.amount && Sum(LedgerSince(db.projection, s.tenant, 0)) == 0
  {
    assert CompletedCosts(db.core.requests, s.tenant, 0) == CompletedCosts(db0.core.requests, s.tenant, 0);
    assert HeldInMonth(db0.reservations, s.tenant, 0) == map[];
    MonthGrows(db0.reservations, n, HoldFor(s));
    assert LedgerSince(db.projection, s.tenant, 0) == map[];
  }

  lemma OneMoreGrant(s: Shop, w: World, n: nat)
    requires Exact(s) && Spent(s, w, n)
    ensures var w' := Lived(s, w, n, 6);
      && w'.sys.store.Sql? && |w'.sys.procs| == n + 1 && w'.sys.procs[n].pc.ToRouting?
      && Sum(CompletedCosts(Tables(w').core.requests, s.tenant, 0)) == n * s.amount
      && Sum(HeldInMonth(Tables(w').reservations, s.tenant, 0)) == s.amount && Sum(LedgerSince(Tables(w').projection, s.tenant, 0)) == 0
  {
    LivedIsPlayed(s, w, n, 6);
    WalkToRouting(s, Tables(w), n, TheirChoice(s, n));
    MonthWhileServing(s, Tables(w), Tables(Lived(s, w, n, 6)), n, RowFor(s, n, Validated));
  }

  /** The lag bound is attained: with n limits' worth pending, the next request is still granted the whole limit. */
  lemma LagBoundIsTight(s: Shop, n: nat)
    requires Exact(s)
    ensures var w := After(ConfigOf(s), Tables0(s), Spending(s, n) + Life(s, n, 6));
      && Reachable(ConfigOf(s), w) && w.sys.store.Sql? && |w.sys.procs| == n + 1 && w.sys.procs[n].pc.ToRouting?
      && Month(Tables(w), s.tenant, 0) == Period(n * s.limit, s.limit, 0, n * s.limit)
  {
    SpendingWorks(s, n);
    LivedIsAfter(s, Tables0(s), Spending(s, n), n, 6);
    OneMoreGrant(s, After(ConfigOf(s), Tables0(s), Spending(s, n)), n);
    assert Cluster.Unused(Sql(Tables0(s)));
    BillingConservation(ConfigOf(s), After(ConfigOf(s), Tables0(s), Spending(s, n) + Life(s, n, 6)), s.tenant, 0);
  }
}
