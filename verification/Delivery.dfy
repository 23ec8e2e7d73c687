/** What the delivery chain promises in every run. */
module Delivery {
  import opened Base
  import opened Budget
  import opened Request
  import opened PostgresSpec
  import opened Stores
  import opened GatewaySpec
  import opened OutboxSpec
  import opened ConsumerSpec
  import opened Pipeline
  import opened PipelineInvariant
  import Cluster
  import Replay

  /** A world some run from an unused database leads to. */
  ghost predicate Reachable(c: Setup, w: World) {
    exists db, turns :: Cluster.Unused(Sql(db)) && w == After(c, db, turns)
  }

  lemma ReachableFits(c: Setup, w: World)
    requires Reachable(c, w)
    ensures WorldFits(w)
  {
    var db, turns :| Cluster.Unused(Sql(db)) && w == After(c, db, turns);
    AlwaysFits(c, db, turns);
  }

  // Billing

  /** Since any time, a tenant's completed cost is its ledger total plus the cost of usage facts not projected yet. */
  lemma BillingConservation(c: Setup, w: World, tenant: string, since: Time)
    requires Reachable(c, w)
    ensures w.sys.store.Sql?
    ensures Sum(CompletedCosts(Tables(w).core.requests, tenant, since))
         == Sum(LedgerSince(Tables(w).projection, tenant, since)) + Sum(PendingCosts(Tables(w).events, Tables(w).projection, tenant, since))
  {
    ReachableFits(c, w);
    assert Balanced(Tables(w).core.requests, Tables(w).events, Tables(w).projection, tenant, since);
  }

  ghost predicate Settles(requests: map<Id, Record>, tenant: string, row: LedgerRow) {
    && row.request in requests && requests[row.request].state == Completed && requests[row.request].tenant == tenant
    && requests[row.request].cost == row.cost && requests[row.request].completedAt == row.occurred
  }

  /** A ledger row charges a completed request its stored cost, and no request has two. */
  lemma ChargedOnceAndOnlyIfCompleted(c: Setup, w: World)
    requires Reachable(c, w)
    ensures w.sys.store.Sql?
    ensures var ledger := Tables(w).projection.ledger;
      && (forall k :: k in ledger ==> Settles(Tables(w).core.requests, k.0, ledger[k]))
      && (forall k, k' :: k in ledger && k' in ledger && ledger[k].request == ledger[k'].request ==> k == k')
  {
    ReachableFits(c, w);
    var db := Tables(w);
    forall k | k in db.projection.ledger ensures Settles(db.core.requests, k.0, db.projection.ledger[k]) {
      assert UsageFits(db.core.requests, db.events[k.1]);
    }
  }

  /** A usage fact is still pending exactly while no consumer has processed it. */
  lemma PendingMeansUnprocessed(c: Setup, w: World, i: EventId)
    requires Reachable(c, w)
    ensures w.sys.store.Sql?
    ensures i < |Tables(w).events| && Tables(w).events[i].fact.UsageRecorded? ==>
      (Pending(Tables(w).events, Tables(w).projection, i) <==> forall name :: (name, i) !in Tables(w).projection.markers)
  {
    ReachableFits(c, w);
    var db := Tables(w);
    if i < |db.events| && db.events[i].fact.UsageRecorded? && !Pending(db.events, db.projection, i) {
      assert i in db.projection.audit;
      var name :| (name, i) in db.projection.markers;
    }
  }

  /** Every outbox row is in the log and one group has read every partition to its end. */
  ghost predicate Drained(w: World, group: string)
    requires w.sys.store.Sql?
  {
    && (forall i :: 0 <= i < |Tables(w).rows| ==> Tables(w).rows[i].published)
    && (forall p :: p in w.log ==> OffsetOf(w.offsets, group, p) >= |w.log[p]|)
  }

  /** Once the chain is drained, the ledger is the completed cost. */
  lemma DrainedMeansSettled(c: Setup, w: World, group: string, tenant: string, since: Time)
    requires Reachable(c, w)
    ensures w.sys.store.Sql?
    ensures Drained(w, group) ==>
      Sum(CompletedCosts(Tables(w).core.requests, tenant, since)) == Sum(LedgerSince(Tables(w).projection, tenant, since))
  {
    ReachableFits(c, w);
    var db := Tables(w);
    if Drained(w, group) {
      forall i: nat | i < |db.events| ensures !Pending(db.events, db.projection, i) {
        assert RowFits(db.events, i, db.rows[i], w.log, w.now);
        var p :| p in w.log && Envelope(i, db.events[i]) in w.log[p];
        var k :| 0 <= k < |w.log[p]| && w.log[p][k] == Envelope(i, db.events[i]);
        assert ProcessedBelow(w.log, db.projection.markers, group, p, w.offsets[(group, p)]);
        assert (group, Messages(w.log, p)[k].id) in db.projection.markers;
      }
      assert PendingCosts(db.events, db.projection, tenant, since) == map[];
      assert Balanced(db.core.requests, db.events, db.projection, tenant, since);
    }
  }

  // No loss

  lemma PublishedIsInLog(c: Setup, w: World, i: EventId)
    requires Reachable(c, w)
    ensures w.sys.store.Sql?
    ensures i < |Tables(w).rows| && Tables(w).rows[i].published ==>
      i < |Tables(w).events| && InLog(w.log, Envelope(i, Tables(w).events[i]))
  {
    ReachableFits(c, w);
    if i < |Tables(w).rows| { assert RowFits(Tables(w).events, i, Tables(w).rows[i], w.log, w.now); }
  }

  ghost predicate Projected(p: Projection, group: string, env: Envelope) {
    && (group, env.id) in p.markers
    && env.id in p.audit && p.audit[env.id] == env.event
    && (env.event.fact.UsageRecorded? ==>
          (env.event.tenant, env.id) in p.ledger && p.ledger[(env.event.tenant, env.id)] == RowOf(env.event))
  }

  /** Below a committed offset every message has its marker, its audit row and, for usage, its ledger row. */
  lemma CommittedIsProjected(c: Setup, w: World, group: string, p: Partition, k: nat)
    requires Reachable(c, w) && k < OffsetOf(w.offsets, group, p)
    ensures w.sys.store.Sql? && k < |Messages(w.log, p)| && Projected(Tables(w).projection, group, Messages(w.log, p)[k])
  {
    ReachableFits(c, w);
    assert ProcessedBelow(w.log, Tables(w).projection.markers, group, p, w.offsets[(group, p)]);
    assert Known(Tables(w).events, w.log[p][k]);
  }

  /** Whatever became of earlier claims, an unpublished row is claimable again a minute from now at the latest. */
  lemma UnpublishedComesBack(c: Setup, w: World, i: EventId, at: Time)
    requires Reachable(c, w) && at > w.now + CLAIM_TTL
    ensures w.sys.store.Sql?
    ensures i < |Tables(w).rows| && !Tables(w).rows[i].published ==> Claimable(Tables(w).rows[i], at)
  {
    ReachableFits(c, w);
    if i < |Tables(w).rows| { assert RowFits(Tables(w).events, i, Tables(w).rows[i], w.log, w.now); }
  }

  lemma {:induction false} DistinctAreFew(picked: seq<EventId>, n: nat)
    requires forall k :: 0 <= k < |picked| ==> picked[k] < n
    requires forall j, k :: 0 <= j < k < |picked| ==> picked[j] != picked[k]
    ensures |picked| <= n
    decreases n
  {
    if |picked| > 0 {
      assert picked[0] < n;
      if n - 1 in picked {
        var k :| 0 <= k < |picked| && picked[k] == n - 1;
        DistinctAreFew(picked[..k] + picked[k + 1..], n - 1);
      } else {
        DistinctAreFew(picked, n - 1);
      }
    }
  }

  /** A relay whose batch is large enough takes every claimable row nobody else has locked. */
  lemma LargeBatchTakesAll(events: seq<Event>, rows: seq<RowState>, at: Time, limit: nat, locked: set<EventId>, picked: seq<EventId>, i: EventId)
    requires Batch(events, rows, at, limit, locked, picked) && limit > |rows| && Candidate(rows, at, locked, i)
    ensures i in picked
  {
    DistinctAreFew(picked, |rows|);
  }

  // Exclusive claims

  ghost function Then(c: Setup, w: World, turns: seq<Turn>): World {
    if turns == [] then w else Next(c, Then(c, w, turns[..|turns| - 1]), turns[|turns| - 1])
  }

  lemma {:induction false} AfterThen(c: Setup, db: Db, before: seq<Turn>, turns: seq<Turn>)
    ensures Then(c, After(c, db, before), turns) == After(c, db, before + turns)
  {
    if turns == [] {
      assert before + turns == before;
    } else {
      AfterThen(c, db, before, turns[..|turns| - 1]);
      assert (before + turns)[..|before + turns| - 1] == before + turns[..|turns| - 1];
    }
  }

  /** A relay of this name marks the row, either way. */
  predicate Releases(w: World, t: Turn, worker: string, i: EventId) {
    && t.RelayTurn? && t.r < |w.relays| && w.relays[t.r].worker == worker
    && w.relays[t.r].hand != [] && w.relays[t.r].hand[0].id == i && w.relays[t.r].stage != Sending
  }

  ghost predicate HeldBy(w: World, i: EventId, claim: Claim) {
    && w.sys.store.Sql? && i < |Tables(w).rows|
    && Tables(w).rows[i].claim == Some(claim) && !Tables(w).rows[i].published
  }

  lemma RelayLeavesClaim(events: seq<Event>, rows: seq<RowState>, log: Log, relay: RelayState, ch: RelayChoice, i: EventId, claim: Claim)
    requires i < |rows| && rows[i].claim == Some(claim) && !rows[i].published && ch.at <= claim.at + CLAIM_TTL
    requires relay.worker == claim.worker && relay.hand != [] && relay.stage != Sending ==> relay.hand[0].id != i
    ensures var rows' := RelayStep(events, rows, log, relay, ch).0; |rows'| == |rows| && rows'[i] == rows[i]
  {
  }

  lemma TurnKeepsClaim(c: Setup, w: World, t: Turn, i: EventId, claim: Claim)
    requires HeldBy(w, i, claim) && !Releases(w, t, claim.worker, i) && Next(c, w, t).now <= claim.at + CLAIM_TTL
    ensures HeldBy(Next(c, w, t), i, claim)
  {
    match t
    case Serve(a) => ServeKeepsClaim(c, w, a, i, claim);
    case RelayTurn(r, ch) =>
      if r < |w.relays| && ch.at <= w.now {
        RelayLeavesClaim(Tables(w).events, Tables(w).rows, w.log, w.relays[r], ch, i, claim);
      }
    case _ =>
  }

  lemma ServeKeepsClaim(c: Setup, w: World, a: Cluster.Action, i: EventId, claim: Claim)
    requires HeldBy(w, i, claim)
    ensures HeldBy(Next(c, w, Serve(a)), i, claim)
  {
    match a
    case CancelBy(tenant, id, ctx, _) => CommitGrows(Tables(w), Cancel(tenant, id), ctx, ctx.now);
    case Run(pid, ch) =>
      if pid < |w.sys.procs| && AsksStore(w.sys.procs[pid].pc) {
        CommitGrows(Tables(w), CallOf(w.sys.procs[pid], ch), ch.ctx, ch.ctx.now);
      }
    case _ =>
  }

  lemma ClockOnlyAdvances(c: Setup, w: World, t: Turn)
    ensures Next(c, w, t).now >= w.now
  {
  }

  /** Until its claim expires or its own worker marks it, nobody else obtains a claimed row. */
  lemma {:induction false} ClaimIsExclusive(c: Setup, w: World, turns: seq<Turn>, i: EventId, claim: Claim)
    requires HeldBy(w, i, claim) && Then(c, w, turns).now <= claim.at + CLAIM_TTL
    requires forall k :: 0 <= k < |turns| ==> !Releases(Then(c, w, turns[..k]), turns[k], claim.worker, i)
    ensures HeldBy(Then(c, w, turns), i, claim)
  {
    if turns != [] {
      var init := turns[..|turns| - 1];
      ClockOnlyAdvances(c, Then(c, w, init), turns[|turns| - 1]);
      forall k | 0 <= k < |init| ensures !Releases(Then(c, w, init[..k]), init[k], claim.worker, i) {
        assert init[..k] == turns[..k];
      }
      ClaimIsExclusive(c, w, init, i, claim);
      TurnKeepsClaim(c, Then(c, w, init), turns[|turns| - 1], i, claim);
    }
  }

  /** Deliveries drawn from the log agree on every fact, so replaying them is replaying first occurrences. */
  lemma LogReplaysOnce(c: Setup, w: World, ds: seq<Envelope>, p: Projection, consumer: string)
    requires Reachable(c, w) && forall k :: 0 <= k < |ds| ==> InLog(w.log, ds[k])
    ensures w.sys.store.Sql?
    ensures Replay.Deliver(Tables(w).core.requests, p, consumer, ds)
         == Replay.Deliver(Tables(w).core.requests, p, consumer, Replay.Firsts(ds))
  {
    ReachableFits(c, w);
    forall k | 0 <= k < |ds| ensures Known(Tables(w).events, ds[k]) {
      assert InLog(w.log, ds[k]);
      var q :| q in w.log && ds[k] in w.log[q];
      var j :| 0 <= j < |w.log[q]| && w.log[q][j] == ds[k];
    }
    Replay.ReplayEquivalence(Tables(w).core.requests, p, consumer, ds);
  }

  // The gateways of this world are the gateways of the other theorems

  lemma BackgroundIsAllowed(c: Setup, w: World, t: Turn)
    requires w.sys.store.Sql? && !t.Serve?
    ensures Next(c, w, t).sys == w.sys ||
            (Next(c, w, t).sys.store.Sql? && Next(c, w, t).sys == Cluster.Next(c, w.sys, Cluster.Background(Tables(Next(c, w, t)))))
  {
  }

  ghost predicate Gateways(c: Setup, db: Db, sys: Cluster.Sys) {
    exists actions :: sys == Cluster.After(c, Sql(db), actions)
  }

  lemma OneMoreAction(c: Setup, db: Db, sys: Cluster.Sys, a: Cluster.Action)
    requires Gateways(c, db, sys)
    ensures Gateways(c, db, Cluster.Next(c, sys, a))
  {
    var actions :| sys == Cluster.After(c, Sql(db), actions);
    assert (actions + [a])[..|actions|] == actions;
    assert Cluster.After(c, Sql(db), actions + [a]) == Cluster.Next(c, sys, a);
  }

  lemma OneMoreTurn(c: Setup, db: Db, w: World, t: Turn)
    requires w.sys.store.Sql? && Gateways(c, db, w.sys)
    ensures Gateways(c, db, Next(c, w, t).sys)
  {
    if t.Serve? {
      OneMoreAction(c, db, w.sys, t.action);
    } else {
      BackgroundIsAllowed(c, w, t);
      var w' := Next(c, w, t);
      if w'.sys != w.sys { OneMoreAction(c, db, w.sys, Cluster.Background(Tables(w'))); }
    }
  }

  /** Every world's gateway part is reached by a run of submissions, cancellations and background writes. */
  lemma {:induction false} GatewaysRunAsBefore(c: Setup, db: Db, turns: seq<Turn>)
    requires Cluster.Unused(Sql(db))
    ensures Gateways(c, db, After(c, db, turns).sys)
  {
    if turns == [] {
      assert Opening(db).sys == Cluster.After(c, Sql(db), []);
    } else {
      var init := turns[..|turns| - 1];
      GatewaysRunAsBefore(c, db, init);
      AlwaysFits(c, db, init);
      OneMoreTurn(c, db, After(c, db, init), turns[|turns| - 1]);
    }
  }
}
