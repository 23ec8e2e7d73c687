/** The whole delivery chain: gateways, relays, the log and consumer groups over one database, in any interleaving. */
module Pipeline {
  import opened Base
  import opened Budget
  import opened Request
  import opened PostgresSpec
  import opened Stores
  import opened GatewaySpec
  import opened Ownership
  import opened Cluster
  import opened OutboxSpec
  import opened ConsumerSpec
  import opened OutboxAgreement

  datatype World = World(sys: Sys, now: Time, log: Log, offsets: Offsets, relays: seq<RelayState>, members: seq<Member>)

  /** A process that takes no further turn has crashed; its successor starts with the same name. */
  datatype Turn =
    | Wait(until: Time)
    | Serve(action: Action)
    | Evaluate(fact: Fact, aggregate: Id, tenant: string, ctx: Context)
    | StartRelay(worker: string)
    | RelayTurn(r: nat, relaying: RelayChoice)
    | StartMember(name: string)
    | Rebalance(m: nat, partition: Partition)
    | MemberTurn(m: nat, consuming: MemberChoice)

  function Tables(w: World): Db
    requires w.sys.store.Sql?
  {
    w.sys.store.db
  }

  function WithTables(w: World, db: Db): World {
    w.(sys := w.sys.(store := Sql(db)))
  }

  /** A transaction's clock was read no later than now; background work has turns of its own. */
  predicate Timely(a: Action, now: Time) {
    match a
    case Submit(_) => true
    case Run(_, ch) => ch.ctx.now <= now
    case CancelBy(_, _, ctx, _) => ctx.now <= now
    case Background(_) => false
  }

  ghost function Next(c: Setup, w: World, t: Turn): World {
    if !w.sys.store.Sql? then w else
      var db := Tables(w);
      match t
      case Wait(until) => w.(now := if until > w.now then until else w.now)
      case Serve(a) => if Timely(a, w.now) then w.(sys := Cluster.Next(c, w.sys, a)) else w
      case Evaluate(fact, aggregate, tenant, ctx) =>
        if (fact.EvaluationCompleted? || fact.EvaluationFailed?) && ctx.now <= w.now
        then WithTables(w, db.Emit(fact, aggregate, tenant, ctx)) else w
      case StartRelay(worker) => w.(relays := w.relays + [RelayState(worker, [], Sending)])
      case RelayTurn(r, ch) =>
        if r >= |w.relays| || ch.at > w.now then w else
          var (rows, log, relay) := RelayStep(db.events, db.rows, w.log, w.relays[r], ch);
          WithTables(w, db.(rows := rows)).(log := log, relays := w.relays[r := relay])
      case StartMember(name) => w.(members := w.members + [Member(name, map[], Idle)])
      case Rebalance(m, p) => if m >= |w.members| then w else w.(members := w.members[m := Assigned(w.members[m], w.offsets, p)])
      case MemberTurn(m, ch) =>
        if m >= |w.members| then w else
          var v := MemberStep(w.log, db.core.requests, MemberView(db.projection, w.offsets, w.members[m]), ch);
          WithTables(w, db.(projection := v.projection)).(offsets := v.offsets, members := w.members[m := v.member])
  }

  function Opening(db: Db): World {
    World(Sys(Sql(db), [], map[]), 0, map[], map[], [], [])
  }

  ghost function After(c: Setup, db: Db, turns: seq<Turn>): World {
    if turns == [] then Opening(db) else Next(c, After(c, db, turns[..|turns| - 1]), turns[|turns| - 1])
  }

  // What holds in every world

  predicate Known(events: seq<Event>, env: Envelope) {
    env.id < |events| && env.event == events[env.id]
  }

  ghost predicate LogFits(events: seq<Event>, log: Log) {
    forall p, k :: p in log && 0 <= k < |log[p]| ==> Known(events, log[p][k]) && Valid(log[p][k].event)
  }

  /** A row is never claimed or held back further than the clock allows, and is in the log once marked. */
  ghost predicate RowFits(events: seq<Event>, i: EventId, row: RowState, log: Log, now: Time)
    requires i < |events|
  {
    && row.available <= now + RETRY_DELAY
    && (row.claim.Some? ==> row.claim.value.at <= now)
    && (row.published ==> InLog(log, Envelope(i, events[i])))
  }

  ghost predicate RowsFit(events: seq<Event>, rows: seq<RowState>, log: Log, now: Time) {
    |rows| == |events| && forall i: nat :: i < |rows| ==> RowFits(events, i, rows[i], log, now)
  }

  ghost predicate RelayFits(events: seq<Event>, log: Log, relay: RelayState) {
    && (forall k :: 0 <= k < |relay.hand| ==> Known(events, relay.hand[k]))
    && (relay.hand == [] ==> relay.stage == Sending)
    && (relay.stage == Acked ==> InLog(log, relay.hand[0]))
  }

  ghost predicate MarkersFit(p: Projection) {
    && (forall m :: m in p.markers ==> m.1 in p.audit)
    && (forall i :: i in p.audit ==> exists name :: (name, i) in p.markers)
  }

  ghost predicate AuditFits(events: seq<Event>, p: Projection) {
    forall i :: i in p.audit ==>
      && i < |events| && p.audit[i] == events[i] && Valid(events[i])
      && (events[i].fact.UsageRecorded? ==> (events[i].tenant, i) in p.ledger)
  }

  ghost predicate LedgerFits(events: seq<Event>, p: Projection) {
    forall k :: k in p.ledger ==>
      && k.1 in p.audit && k.1 < |events| && events[k.1].fact.UsageRecorded?
      && events[k.1].tenant == k.0 && p.ledger[k] == RowOf(events[k.1])
  }

  ghost predicate ProjectionFits(events: seq<Event>, p: Projection) {
    MarkersFit(p) && AuditFits(events, p) && LedgerFits(events, p)
  }

  /** Everything below an offset of a partition has been processed under this name. */
  ghost predicate ProcessedBelow(log: Log, markers: set<(string, EventId)>, name: string, p: Partition, offset: nat) {
    offset <= |Messages(log, p)| && forall k :: 0 <= k < offset ==> (name, Messages(log, p)[k].id) in markers
  }

  ghost predicate OffsetsFit(log: Log, markers: set<(string, EventId)>, offsets: Offsets) {
    forall g, p :: (g, p) in offsets ==> ProcessedBelow(log, markers, g, p, offsets[(g, p)])
  }

  ghost predicate MemberFits(log: Log, markers: set<(string, EventId)>, m: Member) {
    && (forall p :: p in m.positions ==>
          || ProcessedBelow(log, markers, m.name, p, m.positions[p])
          || (m.phase.Fetched? && m.phase.partition == p && m.positions[p] == m.phase.offset + 1))
    && (match m.phase
        case Idle => true
        case Fetched(p, offset, env) =>
          && ProcessedBelow(log, markers, m.name, p, offset)
          && offset < |Messages(log, p)| && Messages(log, p)[offset] == env
        case Processed(p, offset) => ProcessedBelow(log, markers, m.name, p, offset + 1))
  }

  /** A usage fact stands for one completed request, at its stored cost and completion time. */
  ghost predicate UsageFits(requests: map<Id, Record>, e: Event) {
    e.fact.UsageRecorded? ==>
      && Chargeable(requests, e)
      && requests[e.aggregate].state == Completed && requests[e.aggregate].cost == e.fact.cost
      && requests[e.aggregate].tenant == e.tenant && requests[e.aggregate].completedAt == e.occurred
  }

  ghost predicate UsageOnce(requests: map<Id, Record>, events: seq<Event>) {
    && (forall i :: 0 <= i < |events| ==> UsageFits(requests, events[i]))
    && (forall i, j :: 0 <= i < j < |events| && events[i].fact.UsageRecorded? && events[j].fact.UsageRecorded? ==>
          events[i].aggregate != events[j].aggregate)
  }

  // Money

  function CompletedCosts(requests: map<Id, Record>, tenant: string, since: Time): map<Id, int> {
    map id | id in requests && requests[id].tenant == tenant && requests[id].state == Completed && requests[id].completedAt >= since ::
      requests[id].cost
  }

  predicate Pending(events: seq<Event>, p: Projection, i: EventId) {
    i < |events| && events[i].fact.UsageRecorded? && (events[i].tenant, i) !in p.ledger
  }

  function PendingCosts(events: seq<Event>, p: Projection, tenant: string, since: Time): map<EventId, int> {
    map i: nat | i < |events| && Pending(events, p, i) && events[i].tenant == tenant && events[i].occurred >= since :: events[i].fact.cost
  }

  ghost predicate Balanced(requests: map<Id, Record>, events: seq<Event>, p: Projection, tenant: string, since: Time) {
    Sum(CompletedCosts(requests, tenant, since)) == Sum(LedgerSince(p, tenant, since)) + Sum(PendingCosts(events, p, tenant, since))
  }

  ghost predicate AllBalanced(requests: map<Id, Record>, events: seq<Event>, p: Projection) {
    forall tenant, since :: Balanced(requests, events, p, tenant, since)
  }

  ghost predicate DbFits(db: Db, log: Log, now: Time) {
    && RowsFit(db.events, db.rows, log, now)
    && ProjectionFits(db.events, db.projection)
    && UsageOnce(db.core.requests, db.events)
    && AllBalanced(db.core.requests, db.events, db.projection)
  }

  ghost predicate WorldFits(w: World) {
    && w.sys.store.Sql? && DbFits(Tables(w), w.log, w.now)
    && LogFits(Tables(w).events, w.log)
    && OffsetsFit(w.log, Tables(w).projection.markers, w.offsets)
    && (forall r :: 0 <= r < |w.relays| ==> RelayFits(Tables(w).events, w.log, w.relays[r]))
    && (forall m :: 0 <= m < |w.members| ==> MemberFits(w.log, Tables(w).projection.markers, w.members[m]))
  }
}
