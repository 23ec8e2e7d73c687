/** Every turn of the delivery chain keeps the books balanced and loses nothing. */
module PipelineInvariant {
  import opened Base
  import opened Budget
  import opened Request
  import opened PostgresSpec
  import opened Stores
  import opened GatewaySpec
  import Cluster
  import opened OutboxSpec
  import opened ConsumerSpec
  import opened OutboxAgreement
  import opened Pipeline

  // Growing the outbox

  ghost predicate NewRow(row: RowState, now: Time) {
    row.available <= now && row.claim.None? && !row.published
  }

  /** The outbox only grows, by unclaimed rows, and the projected tables are not touched. */
  ghost predicate Grows(db: Db, db': Db, now: Time) {
    && db.events <= db'.events && db.rows <= db'.rows && |db'.rows| - |db.rows| == |db'.events| - |db.events|
    && (forall i :: |db.rows| <= i < |db'.rows| ==> NewRow(db'.rows[i], now))
    && db'.projection == db.projection
  }

  lemma EmitGrows(db: Db, mid: Db, fact: Fact, id: Id, tenant: string, ctx: Context, now: Time)
    requires Grows(db, mid, now) && ctx.now <= now
    ensures Grows(db, mid.Emit(fact, id, tenant, ctx), now)
  {
  }

  lemma CommitGrows(db: Db, call: Call, ctx: Context, now: Time)
    requires ctx.now <= now
    ensures Grows(db, Commit(db, call, ctx).0, now)
  {
    match call
    case Create(_, _, _, _) => CreateGrows(db, call, ctx, now);
    case Start(_, _, _, _, _) => StartGrows(db, call, ctx, now);
    case Complete(_, _, _, _, _) => CompleteGrows(db, call, ctx, now);
    case Fail(_, _, _, _, _, _, _) => FailGrows(db, call, ctx, now);
    case Reject(_, _, _) => RejectGrows(db, call, ctx, now);
    case _ =>
  }

  lemma CreateGrows(db: Db, call: Call, ctx: Context, now: Time)
    requires ctx.now <= now && call.Create?
    ensures Grows(db, CreateTx(db, call, ctx).0, now)
  {
  }

  lemma StartGrows(db: Db, call: Call, ctx: Context, now: Time)
    requires ctx.now <= now && call.Start?
    ensures Grows(db, StartTx(db, call, ctx).0, now)
  {
  }

  lemma CompleteGrows(db: Db, call: Call, ctx: Context, now: Time)
    requires ctx.now <= now && call.Complete?
    ensures Grows(db, CompleteTx(db, call, ctx).0, now)
  {
    if db.core.HoldsIn(call.tenant, call.id, InProgress) {
      var mid := db.(attempts := SetAttempt(db.attempts, call.id, call.number, call.tenant, AttemptStatus.Succeeded, call.cost),
                     core := db.core.Put(call.id, CompletedRecord(db.core.requests[call.id], call, ctx.now)));
      EmitGrows(db, mid, Finished(call.cost), call.id, call.tenant, ctx, now);
      EmitGrows(db, mid.Emit(Finished(call.cost), call.id, call.tenant, ctx),
                UsageRecorded(call.response.usage, call.cost), call.id, call.tenant, ctx, now);
    }
  }

  lemma FailGrows(db: Db, call: Call, ctx: Context, now: Time)
    requires ctx.now <= now && call.Fail?
    ensures Grows(db, FailTx(db, call, ctx).0, now)
  {
  }

  lemma RejectGrows(db: Db, call: Call, ctx: Context, now: Time)
    requires ctx.now <= now && call.Reject?
    ensures Grows(db, RejectTx(db, call, ctx).0, now)
  {
  }

  lemma GrowingKeepsRows(db: Db, db': Db, log: Log, now: Time)
    requires Grows(db, db', now) && RowsFit(db.events, db.rows, log, now)
    ensures RowsFit(db'.events, db'.rows, log, now)
  {
    forall i: nat | i < |db'.rows| ensures RowFits(db'.events, i, db'.rows[i], log, now) {
      if i < |db.rows| { assert RowFits(db.events, i, db.rows[i], log, now); }
    }
  }

  lemma PrefixKeepsProjection(events: seq<Event>, events': seq<Event>, p: Projection)
    requires events <= events' && ProjectionFits(events, p)
    ensures ProjectionFits(events', p)
  {
  }

  // Charging

  /** One request becomes COMPLETED, together with the one usage fact that says so. */
  ghost predicate Charges(db: Db, db': Db, id: Id) {
    && id in db.core.requests && db.core.requests[id].state == InProgress
    && id in db'.core.requests && db'.core.requests == db.core.requests[id := db'.core.requests[id]]
    && |db'.events| == |db.events| + 2 && db.events <= db'.events && !db'.events[|db.events|].fact.UsageRecorded?
    && var u := db'.events[|db.events| + 1];
       u.fact.UsageRecorded? && u.aggregate == id && UsageFits(db'.core.requests, u)
  }

  predicate SameIfCompleted(requests: map<Id, Record>, requests': map<Id, Record>, id: Id) {
    (id in requests && requests[id].state == Completed) || (id in requests' && requests'[id].state == Completed) ==>
      id in requests && id in requests' && requests'[id] == requests[id]
  }

  /** No completed row changes or appears, and no usage fact is added. */
  ghost predicate NoCharge(db: Db, db': Db) {
    && (forall id :: SameIfCompleted(db.core.requests, db'.core.requests, id))
    && db.events <= db'.events && (forall i :: |db.events| <= i < |db'.events| ==> !db'.events[i].fact.UsageRecorded?)
  }

  lemma CommitMayCharge(db: Db, call: Call, ctx: Context)
    requires GatewayCall(call)
    ensures var db' := Commit(db, call, ctx).0; NoCharge(db, db') || (call.Complete? && Charges(db, db', call.id))
  {
    var db' := Commit(db, call, ctx).0;
    CommitGrows(db, call, ctx, ctx.now);
    if !call.Complete? {
      forall id ensures SameIfCompleted(db.core.requests, db'.core.requests, id) {
        UnchargedRow(db, call, ctx, id);
      }
      UnchargedFacts(db, call, ctx);
    }
  }

  lemma UnchargedRow(db: Db, call: Call, ctx: Context, id: Id)
    requires GatewayCall(call) && !call.Complete?
    ensures SameIfCompleted(db.core.requests, Commit(db, call, ctx).0.core.requests, id)
  {
  }

  lemma UnchargedFacts(db: Db, call: Call, ctx: Context)
    requires !call.Complete?
    ensures var db' := Commit(db, call, ctx).0; forall i :: |db.events| <= i < |db'.events| ==> !db'.events[i].fact.UsageRecorded?
  {
  }

  lemma NoChargeKeepsUsage(db: Db, db': Db)
    requires NoCharge(db, db') && UsageOnce(db.core.requests, db.events)
    ensures UsageOnce(db'.core.requests, db'.events)
  {
    forall i | 0 <= i < |db'.events| ensures UsageFits(db'.core.requests, db'.events[i]) {
      if i < |db.events| {
        assert UsageFits(db.core.requests, db.events[i]);
        assert SameIfCompleted(db.core.requests, db'.core.requests, db.events[i].aggregate);
      }
    }
  }

  lemma ChargeKeepsUsage(db: Db, db': Db, id: Id)
    requires Charges(db, db', id) && UsageOnce(db.core.requests, db.events)
    ensures UsageOnce(db'.core.requests, db'.events)
  {
    forall i | 0 <= i < |db'.events| ensures UsageFits(db'.core.requests, db'.events[i]) {
      if i < |db.events| { assert UsageFits(db.core.requests, db.events[i]); }
    }
    forall i, j | 0 <= i < j < |db'.events| && db'.events[i].fact.UsageRecorded? && db'.events[j].fact.UsageRecorded?
      ensures db'.events[i].aggregate != db'.events[j].aggregate
    {
      assert UsageFits(db.core.requests, db.events[i]);
    }
  }

  lemma SameCompleted(requests: map<Id, Record>, requests': map<Id, Record>, tenant: string, since: Time)
    requires forall id :: SameIfCompleted(requests, requests', id)
    ensures CompletedCosts(requests', tenant, since) == CompletedCosts(requests, tenant, since)
  {
    var costs, costs' := CompletedCosts(requests, tenant, since), CompletedCosts(requests', tenant, since);
    forall id ensures (id in costs' <==> id in costs) && (id in costs ==> costs'[id] == costs[id]) {
      assert SameIfCompleted(requests, requests', id);
    }
  }

  lemma NoChargeKeepsBalance(db: Db, db': Db, tenant: string, since: Time)
    requires NoCharge(db, db') && db'.projection == db.projection
    requires Balanced(db.core.requests, db.events, db.projection, tenant, since)
    ensures Balanced(db'.core.requests, db'.events, db'.projection, tenant, since)
  {
    SameCompleted(db.core.requests, db'.core.requests, tenant, since);
    assert PendingCosts(db'.events, db.projection, tenant, since) == PendingCosts(db.events, db.projection, tenant, since);
  }

  lemma CompletedGrows(requests: map<Id, Record>, id: Id, r: Record, tenant: string, since: Time)
    requires id in requests && requests[id].state != Completed && r.state == Completed
    ensures Sum(CompletedCosts(requests[id := r], tenant, since))
         == Sum(CompletedCosts(requests, tenant, since)) + if r.tenant == tenant && r.completedAt >= since then r.cost else 0
  {
    var costs := CompletedCosts(requests, tenant, since);
    if r.tenant == tenant && r.completedAt >= since {
      assert CompletedCosts(requests[id := r], tenant, since) == costs[id := r.cost];
      SumUpdate(costs, id, r.cost);
    } else {
      assert CompletedCosts(requests[id := r], tenant, since) == costs;
    }
  }

  lemma PendingGrows(events: seq<Event>, events': seq<Event>, p: Projection, tenant: string, since: Time)
    requires events <= events' && |events'| == |events| + 2 && LedgerFits(events, p)
    requires !events'[|events|].fact.UsageRecorded? && events'[|events| + 1].fact.UsageRecorded?
    ensures var u := events'[|events| + 1];
      Sum(PendingCosts(events', p, tenant, since))
        == Sum(PendingCosts(events, p, tenant, since)) + if u.tenant == tenant && u.occurred >= since then u.fact.cost else 0
  {
    var n: EventId, u := |events| + 1, events'[|events| + 1];
    var costs: map<EventId, int> := PendingCosts(events, p, tenant, since);
    assert forall i :: 0 <= i < |events| ==> events'[i] == events[i];
    assert (u.tenant, n) !in p.ledger;
    if u.tenant == tenant && u.occurred >= since {
      assert PendingCosts(events', p, tenant, since) == costs[n := u.fact.cost];
      SumUpdate(costs, n, u.fact.cost);
    } else {
      assert PendingCosts(events', p, tenant, since) == costs;
    }
  }

  /** A charge adds its cost to the completed side and to the pending side, or to neither. */
  lemma ChargeKeepsBalance(db: Db, db': Db, id: Id, tenant: string, since: Time)
    requires Charges(db, db', id) && db'.projection == db.projection && LedgerFits(db.events, db.projection)
    requires Balanced(db.core.requests, db.events, db.projection, tenant, since)
    ensures Balanced(db'.core.requests, db'.events, db'.projection, tenant, since)
  {
    CompletedGrows(db.core.requests, id, db'.core.requests[id], tenant, since);
    PendingGrows(db.events, db'.events, db.projection, tenant, since);
  }

  lemma GrowthFits(db: Db, db': Db, log: Log, now: Time, id: Id)
    requires DbFits(db, log, now) && Grows(db, db', now) && (NoCharge(db, db') || Charges(db, db', id))
    ensures DbFits(db', log, now)
  {
    GrowingKeepsRows(db, db', log, now);
    PrefixKeepsProjection(db.events, db'.events, db.projection);
    if NoCharge(db, db') {
      NoChargeKeepsUsage(db, db');
      forall tenant, since ensures Balanced(db'.core.requests, db'.events, db'.projection, tenant, since) {
        NoChargeKeepsBalance(db, db', tenant, since);
      }
    } else {
      ChargeKeepsUsage(db, db', id);
      forall tenant, since ensures Balanced(db'.core.requests, db'.events, db'.projection, tenant, since) {
        ChargeKeepsBalance(db, db', id, tenant, since);
      }
    }
  }

  // Relays

  ghost predicate LogGrows(log: Log, log': Log) {
    forall p :: Messages(log, p) <= Messages(log', p)
  }

  lemma StaysInLog(log: Log, log': Log, env: Envelope)
    requires LogGrows(log, log') && InLog(log, env)
    ensures InLog(log', env)
  {
    var p :| p in log && env in log[p];
    assert Messages(log, p) <= Messages(log', p);
  }

  lemma SendFits(events: seq<Event>, log: Log, env: Envelope, sent: Sent)
    requires LogFits(events, log) && Known(events, env)
    ensures var (log', ok) := Publish(log, env, sent); LogFits(events, log') && LogGrows(log, log') && (ok ==> InLog(log', env))
  {
    var (log', ok) := Publish(log, env, sent);
    if ok {
      assert env in log'[sent.partition];
    }
  }

  lemma LogGrowthKeepsRows(events: seq<Event>, rows: seq<RowState>, log: Log, log': Log, now: Time)
    requires RowsFit(events, rows, log, now) && LogGrows(log, log')
    ensures RowsFit(events, rows, log', now)
  {
    forall i: nat | i < |rows| ensures RowFits(events, i, rows[i], log', now) {
      assert RowFits(events, i, rows[i], log, now);
      if rows[i].published { StaysInLog(log, log', Envelope(i, events[i])); }
    }
  }

  lemma LogGrowthKeepsRelay(events: seq<Event>, log: Log, log': Log, relay: RelayState)
    requires RelayFits(events, log, relay) && LogGrows(log, log')
    ensures RelayFits(events, log', relay)
  {
    if relay.stage == Acked { StaysInLog(log, log', relay.hand[0]); }
  }

  lemma ClaimFits(events: seq<Event>, rows: seq<RowState>, log: Log, now: Time, worker: string, at: Time, picked: seq<EventId>)
    requires RowsFit(events, rows, log, now) && at <= now
    ensures RowsFit(events, Claimed(rows, worker, at, picked), log, now)
  {
    forall i: nat | i < |rows| ensures RowFits(events, i, Claimed(rows, worker, at, picked)[i], log, now) {
      assert RowFits(events, i, rows[i], log, now);
    }
  }

  lemma MarkFits(events: seq<Event>, rows: seq<RowState>, log: Log, now: Time, env: Envelope, worker: string, at: Time)
    requires RowsFit(events, rows, log, now) && Known(events, env) && at <= now
    ensures InLog(log, env) ==> RowsFit(events, MarkPublished(rows, env.id, worker), log, now)
    ensures RowsFit(events, MarkFailed(rows, env.id, worker, at), log, now)
  {
    forall i: nat | i < |rows|
      ensures InLog(log, env) ==> RowFits(events, i, MarkPublished(rows, env.id, worker)[i], log, now)
      ensures RowFits(events, i, MarkFailed(rows, env.id, worker, at)[i], log, now)
    {
      assert RowFits(events, i, rows[i], log, now);
    }
  }

  lemma RelayStepFits(events: seq<Event>, rows: seq<RowState>, log: Log, relay: RelayState, ch: RelayChoice, now: Time)
    requires RowsFit(events, rows, log, now) && LogFits(events, log) && RelayFits(events, log, relay) && ch.at <= now
    ensures var (rows', log', relay') := RelayStep(events, rows, log, relay, ch);
      RowsFit(events, rows', log', now) && LogFits(events, log') && RelayFits(events, log', relay') && LogGrows(log, log')
  {
    if relay.hand == [] {
      ClaimFits(events, rows, log, now, relay.worker, ch.at, ch.picked);
    } else {
      var env := relay.hand[0];
      SendFits(events, log, env, ch.sent);
      if relay.stage == Sending {
        LogGrowthKeepsRows(events, rows, log, Publish(log, env, ch.sent).0, now);
      } else {
        MarkFits(events, rows, log, now, env, relay.worker, ch.at);
      }
    }
  }

  // Consumers

  lemma BelowGrows(log: Log, log': Log, markers: set<(string, EventId)>, markers': set<(string, EventId)>, name: string, p: Partition, offset: nat)
    requires ProcessedBelow(log, markers, name, p, offset) && LogGrows(log, log') && markers <= markers'
    ensures ProcessedBelow(log', markers', name, p, offset)
  {
    assert Messages(log, p) <= Messages(log', p);
  }

  lemma GrowthKeepsOffsets(log: Log, log': Log, markers: set<(string, EventId)>, markers': set<(string, EventId)>, offsets: Offsets)
    requires OffsetsFit(log, markers, offsets) && LogGrows(log, log') && markers <= markers'
    ensures OffsetsFit(log', markers', offsets)
  {
    forall g, p | (g, p) in offsets ensures ProcessedBelow(log', markers', g, p, offsets[(g, p)]) {
      BelowGrows(log, log', markers, markers', g, p, offsets[(g, p)]);
    }
  }

  lemma GrowthKeepsMember(log: Log, log': Log, markers: set<(string, EventId)>, markers': set<(string, EventId)>, m: Member)
    requires MemberFits(log, markers, m) && LogGrows(log, log') && markers <= markers'
    ensures MemberFits(log', markers', m)
  {
    forall p | p in m.positions && ProcessedBelow(log, markers, m.name, p, m.positions[p])
      ensures ProcessedBelow(log', markers', m.name, p, m.positions[p])
    {
      BelowGrows(log, log', markers, markers', m.name, p, m.positions[p]);
    }
    match m.phase
    case Idle =>
    case Fetched(p, offset, _) =>
      BelowGrows(log, log', markers, markers', m.name, p, offset);
      assert Messages(log, p) <= Messages(log', p);
    case Processed(p, offset) => BelowGrows(log, log', markers, markers', m.name, p, offset + 1);
  }

  lemma AssignedFits(log: Log, markers: set<(string, EventId)>, offsets: Offsets, m: Member, p: Partition)
    requires OffsetsFit(log, markers, offsets) && MemberFits(log, markers, m)
    ensures MemberFits(log, markers, Assigned(m, offsets, p))
  {
    assert ProcessedBelow(log, markers, m.name, p, OffsetOf(offsets, m.name, p));
  }

  lemma ProjectMarks(requests: map<Id, Record>, p: Projection, name: string, env: Envelope)
    requires MarkersFit(p)
    ensures var (p', outcome) := Project(requests, p, name, env);
      MarkersFit(p') && p.markers <= p'.markers && (outcome != Refused ==> (name, env.id) in p'.markers)
  {
    var p' := Project(requests, p, name, env).0;
    if p' != p {
      forall i | i in p'.audit ensures exists n :: (n, i) in p'.markers {
        var n :| (n, i) in if i in p.audit then p.markers else p'.markers;
        assert (n, i) in p'.markers;
      }
    }
  }

  lemma ProjectAudits(requests: map<Id, Record>, events: seq<Event>, p: Projection, name: string, env: Envelope)
    requires AuditFits(events, p) && LedgerFits(events, p) && Known(events, env)
    ensures AuditFits(events, Project(requests, p, name, env).0)
  {
  }

  lemma ProjectCharges(requests: map<Id, Record>, events: seq<Event>, p: Projection, name: string, env: Envelope)
    requires LedgerFits(events, p) && Known(events, env)
    ensures LedgerFits(events, Project(requests, p, name, env).0)
  {
  }

  /** Projecting a known fact keeps the projected tables in step with the outbox. */
  lemma ProjectFits(requests: map<Id, Record>, events: seq<Event>, p: Projection, name: string, env: Envelope)
    requires ProjectionFits(events, p) && Known(events, env)
    ensures ProjectionFits(events, Project(requests, p, name, env).0)
  {
    ProjectMarks(requests, p, name, env);
    ProjectAudits(requests, events, p, name, env);
    ProjectCharges(requests, events, p, name, env);
  }

  /** What the ledger gains, the pending facts lose. */
  lemma ProjectKeepsBalance(requests: map<Id, Record>, events: seq<Event>, p: Projection, name: string, env: Envelope, tenant: string, since: Time)
    requires Known(events, env) && Balanced(requests, events, p, tenant, since)
    ensures Balanced(requests, events, Project(requests, p, name, env).0, tenant, since)
  {
    var p' := Project(requests, p, name, env).0;
    if p'.ledger != p.ledger {
      LedgerGains(events, p, p', env.id, tenant, since);
      PendingLoses(events, p, p', env.id, tenant, since);
    } else {
      assert LedgerSince(p', tenant, since) == LedgerSince(p, tenant, since);
      assert PendingCosts(events, p', tenant, since) == PendingCosts(events, p, tenant, since);
    }
  }

  lemma LedgerGains(events: seq<Event>, p: Projection, p': Projection, i: EventId, tenant: string, since: Time)
    requires Pending(events, p, i) && p'.ledger == p.ledger[(events[i].tenant, i) := RowOf(events[i])]
    ensures Sum(LedgerSince(p', tenant, since))
         == Sum(LedgerSince(p, tenant, since)) + if events[i].tenant == tenant && events[i].occurred >= since then events[i].fact.cost else 0
  {
    var ledger := LedgerSince(p, tenant, since);
    var k, cost := (events[i].tenant, i), events[i].fact.cost;
    if events[i].tenant == tenant && events[i].occurred >= since {
      assert LedgerSince(p', tenant, since) == ledger[k := cost];
      SumUpdate(ledger, k, cost);
    } else {
      assert LedgerSince(p', tenant, since) == ledger;
    }
  }

  lemma PendingLoses(events: seq<Event>, p: Projection, p': Projection, i: EventId, tenant: string, since: Time)
    requires Pending(events, p, i) && p'.ledger == p.ledger[(events[i].tenant, i) := RowOf(events[i])]
    ensures Sum(PendingCosts(events, p', tenant, since))
         == Sum(PendingCosts(events, p, tenant, since)) - if events[i].tenant == tenant && events[i].occurred >= since then events[i].fact.cost else 0
  {
    var pending: map<EventId, int> := PendingCosts(events, p, tenant, since);
    if events[i].tenant == tenant && events[i].occurred >= since {
      assert PendingCosts(events, p', tenant, since) == pending - {i};
      SumDelete(pending, i);
    } else {
      assert PendingCosts(events, p', tenant, since) == pending;
    }
  }

  lemma ProcessedOneMore(log: Log, markers: set<(string, EventId)>, name: string, p: Partition, offset: nat)
    requires ProcessedBelow(log, markers, name, p, offset)
    requires offset < |Messages(log, p)| && (name, Messages(log, p)[offset].id) in markers
    ensures ProcessedBelow(log, markers, name, p, offset + 1)
  {
  }

  lemma FetchFits(log: Log, markers: set<(string, EventId)>, m: Member, p: Partition)
    requires MemberFits(log, markers, m) && m.phase.Idle?
    ensures MemberFits(log, markers, FetchStep(log, m, p))
  {
  }

  lemma ProcessFits(log: Log, requests: map<Id, Record>, v: MemberView, ch: MemberChoice)
    requires v.member.phase.Fetched? && MarkersFit(v.projection) && MemberFits(log, v.projection.markers, v.member)
    ensures var v' := MemberStep(log, requests, v, ch);
      v.projection.markers <= v'.projection.markers && MemberFits(log, v'.projection.markers, v'.member)
  {
    var m, v' := v.member, MemberStep(log, requests, v, ch);
    var p, offset, env := m.phase.partition, m.phase.offset, m.phase.env;
    ProjectMarks(requests, v.projection, m.name, env);
    assert LogGrows(log, log);
    GrowthKeepsMember(log, log, v.projection.markers, v'.projection.markers, m);
    if v'.member.phase.Processed? {
      ProcessedOneMore(log, v'.projection.markers, m.name, p, offset);
    }
  }

  lemma CommitOffsetFits(log: Log, requests: map<Id, Record>, v: MemberView, ch: MemberChoice)
    requires v.member.phase.Processed? && MemberFits(log, v.projection.markers, v.member)
    requires OffsetsFit(log, v.projection.markers, v.offsets)
    ensures var v' := MemberStep(log, requests, v, ch);
      && v'.projection == v.projection && MemberFits(log, v.projection.markers, v'.member)
      && OffsetsFit(log, v.projection.markers, v'.offsets)
  {
  }

  // Turns

  lemma ProjectedDbFits(db: Db, log: Log, now: Time, name: string, env: Envelope)
    requires DbFits(db, log, now) && Known(db.events, env)
    ensures DbFits(db.(projection := Project(db.core.requests, db.projection, name, env).0), log, now)
  {
    ProjectFits(db.core.requests, db.events, db.projection, name, env);
    forall tenant, since
      ensures Balanced(db.core.requests, db.events, Project(db.core.requests, db.projection, name, env).0, tenant, since)
    {
      ProjectKeepsBalance(db.core.requests, db.events, db.projection, name, env, tenant, since);
    }
  }

  lemma MemberTurnFits(c: Setup, w: World, m: nat, ch: MemberChoice)
    requires WorldFits(w)
    ensures WorldFits(Next(c, w, MemberTurn(m, ch)))
  {
    if m < |w.members| {
      var db, member := Tables(w), w.members[m];
      var v := MemberView(db.projection, w.offsets, member);
      var v' := MemberStep(w.log, db.core.requests, v, ch);
      match member.phase
      case Idle => FetchFits(w.log, db.projection.markers, member, ch.partition);
      case Processed(_, _) => CommitOffsetFits(w.log, db.core.requests, v, ch);
      case Fetched(p, offset, env) =>
        ProcessFits(w.log, db.core.requests, v, ch);
        assert Known(db.events, env) by { assert w.log[p][offset] == env; }
        ProjectedDbFits(db, w.log, w.now, member.name, env);
        assert LogGrows(w.log, w.log);
        GrowthKeepsOffsets(w.log, w.log, db.projection.markers, v'.projection.markers, w.offsets);
        forall k | 0 <= k < |w.members| ensures MemberFits(w.log, v'.projection.markers, w.members[k]) {
          GrowthKeepsMember(w.log, w.log, db.projection.markers, v'.projection.markers, w.members[k]);
        }
    }
  }

  lemma RelayTurnFits(c: Setup, w: World, r: nat, ch: RelayChoice)
    requires WorldFits(w)
    ensures WorldFits(Next(c, w, RelayTurn(r, ch)))
  {
    if r < |w.relays| && ch.at <= w.now {
      var db := Tables(w);
      var (rows, log, relay) := RelayStep(db.events, db.rows, w.log, w.relays[r], ch);
      RelayStepFits(db.events, db.rows, w.log, w.relays[r], ch, w.now);
      GrowthKeepsOffsets(w.log, log, db.projection.markers, db.projection.markers, w.offsets);
      forall k | 0 <= k < |w.relays| ensures RelayFits(db.events, log, w.relays[k]) {
        LogGrowthKeepsRelay(db.events, w.log, log, w.relays[k]);
      }
      forall k | 0 <= k < |w.members| ensures MemberFits(log, db.projection.markers, w.members[k]) {
        GrowthKeepsMember(w.log, log, db.projection.markers, db.projection.markers, w.members[k]);
      }
    }
  }

  /** Whatever the gateways and the evaluation service add, the rest of the world does not notice. */
  lemma GrowthTurnFits(w: World, w': World, id: Id)
    requires WorldFits(w) && w'.sys.store.Sql? && w' == w.(sys := w'.sys)
    requires Grows(Tables(w), Tables(w'), w.now) && (NoCharge(Tables(w), Tables(w')) || Charges(Tables(w), Tables(w'), id))
    ensures WorldFits(w')
  {
    GrowthFits(Tables(w), Tables(w'), w.log, w.now, id);
  }

  lemma CommitTurnFits(w: World, w': World, call: Call, ctx: Context)
    requires WorldFits(w) && w'.sys.store.Sql? && w' == w.(sys := w'.sys) && GatewayCall(call) && ctx.now <= w.now
    requires Tables(w') == Tables(w) || Tables(w') == Commit(Tables(w), call, ctx).0
    ensures WorldFits(w')
  {
    CommitGrows(Tables(w), call, ctx, w.now);
    CommitMayCharge(Tables(w), call, ctx);
    if Tables(w') != Tables(w) {
      GrowthTurnFits(w, w', if call.Complete? then call.id else 0);
    }
  }

  lemma ServeFits(c: Setup, w: World, a: Cluster.Action)
    requires WorldFits(w) && Timely(a, w.now)
    ensures WorldFits(Next(c, w, Serve(a)))
  {
    var w' := Next(c, w, Serve(a));
    match a
    case Submit(_) =>
    case CancelBy(tenant, id, ctx, _) => CommitTurnFits(w, w', Cancel(tenant, id), ctx);
    case Run(pid, ch) =>
      if pid < |w.sys.procs| && AsksStore(w.sys.procs[pid].pc) {
        CommitTurnFits(w, w', CallOf(w.sys.procs[pid], ch), ch.ctx);
      }
  }

  lemma EvaluateFits(c: Setup, w: World, fact: Fact, aggregate: Id, tenant: string, ctx: Context)
    requires WorldFits(w)
    ensures WorldFits(Next(c, w, Evaluate(fact, aggregate, tenant, ctx)))
  {
    var w' := Next(c, w, Evaluate(fact, aggregate, tenant, ctx));
    if w' != w {
      EmitGrows(Tables(w), Tables(w), fact, aggregate, tenant, ctx, w.now);
      GrowthTurnFits(w, w', 0);
    }
  }

  lemma WaitFits(c: Setup, w: World, until: Time)
    requires WorldFits(w)
    ensures WorldFits(Next(c, w, Wait(until)))
  {
    var w' := Next(c, w, Wait(until));
    forall i: nat | i < |Tables(w).rows| ensures RowFits(Tables(w).events, i, Tables(w).rows[i], w.log, w'.now) {
      assert RowFits(Tables(w).events, i, Tables(w).rows[i], w.log, w.now);
    }
  }

  lemma EveryTurnFits(c: Setup, w: World, t: Turn)
    requires WorldFits(w)
    ensures WorldFits(Next(c, w, t))
  {
    match t
    case Wait(until) => WaitFits(c, w, until);
    case Serve(a) => if Timely(a, w.now) { ServeFits(c, w, a); }
    case Evaluate(fact, aggregate, tenant, ctx) => EvaluateFits(c, w, fact, aggregate, tenant, ctx);
    case RelayTurn(r, ch) => RelayTurnFits(c, w, r, ch);
    case Rebalance(m, p) =>
      if m < |w.members| { AssignedFits(w.log, Tables(w).projection.markers, w.offsets, w.members[m], p); }
    case MemberTurn(m, ch) => MemberTurnFits(c, w, m, ch);
    case _ =>
  }

  lemma OpeningFits(db: Db)
    requires Cluster.Unused(Sql(db))
    ensures WorldFits(Opening(db))
  {
    forall tenant, since ensures Balanced(db.core.requests, db.events, db.projection, tenant, since) {
      assert CompletedCosts(db.core.requests, tenant, since) == map[];
      assert LedgerSince(db.projection, tenant, since) == map[];
      assert PendingCosts(db.events, db.projection, tenant, since) == map[];
    }
  }

  /** In every run, with any number of gateways, relays and consumers, crashing and retrying at any step. */
  lemma {:induction false} AlwaysFits(c: Setup, db: Db, turns: seq<Turn>)
    requires Cluster.Unused(Sql(db))
    ensures WorldFits(After(c, db, turns))
  {
    if turns == [] {
      OpeningFits(db);
    } else {
      AlwaysFits(c, db, turns[..|turns| - 1]);
      EveryTurnFits(c, After(c, db, turns[..|turns| - 1]), turns[|turns| - 1]);
    }
  }
}
