/** Expiring claims over outbox rows and one relay's batch (internal/outbox/outbox.go), with the log it appends to. */
module OutboxSpec {
  import opened Base
  import opened Request
  import opened PostgresSpec

  /** Database timestamps, in microseconds. */
  const SECOND: Time := 1_000_000
  const CLAIM_TTL: Time := 60 * SECOND
  const RETRY_DELAY: Time := SECOND

  type Partition = nat

  /** One append-only sequence of messages per partition. */
  type Log = map<Partition, seq<Envelope>>

  function Messages(log: Log, p: Partition): seq<Envelope> {
    if p in log then log[p] else []
  }

  predicate InLog(log: Log, env: Envelope) {
    exists p :: p in log && env in log[p]
  }

  /** A row a relay may take at a given time. */
  predicate Claimable(row: RowState, at: Time) {
    !row.published && row.available <= at && (row.claim.None? || row.claim.value.at < at - CLAIM_TTL)
  }

  predicate Candidate(rows: seq<RowState>, at: Time, locked: set<EventId>, i: EventId) {
    i < |rows| && Claimable(rows[i], at) && i !in locked
  }

  /** A batch of distinct candidates, the oldest ones, and all of them unless the limit is reached. */
  ghost predicate Batch(events: seq<Event>, rows: seq<RowState>, at: Time, limit: nat, locked: set<EventId>, picked: seq<EventId>) {
    && |events| == |rows| && |picked| <= limit
    && (forall k :: 0 <= k < |picked| ==> Candidate(rows, at, locked, picked[k]))
    && (forall j, k :: 0 <= j < k < |picked| ==> picked[j] != picked[k])
    && (forall i: nat :: Candidate(rows, at, locked, i) && i !in picked ==>
          |picked| == limit && forall k :: 0 <= k < |picked| ==> events[picked[k]].occurred <= events[i].occurred)
  }

  function Taken(row: RowState, worker: string, at: Time): RowState {
    row.(claim := Some(Claim(worker, at)), tries := row.tries + 1)
  }

  function Claimed(rows: seq<RowState>, worker: string, at: Time, picked: seq<EventId>): (r: seq<RowState>)
    ensures |r| == |rows|
    ensures forall i :: 0 <= i < |rows| ==> r[i] == if i in picked then Taken(rows[i], worker, at) else rows[i]
  {
    seq(|rows|, i requires 0 <= i < |rows| => if i in picked then Taken(rows[i], worker, at) else rows[i])
  }

  predicate Owned(rows: seq<RowState>, i: EventId, worker: string) {
    i < |rows| && !rows[i].published && rows[i].claim.Some? && rows[i].claim.value.worker == worker
  }

  function MarkPublished(rows: seq<RowState>, i: EventId, worker: string): (r: seq<RowState>)
    ensures |r| == |rows|
  {
    if Owned(rows, i, worker) then rows[i := rows[i].(published := true, claim := None)] else rows
  }

  function MarkFailed(rows: seq<RowState>, i: EventId, worker: string, at: Time): (r: seq<RowState>)
    ensures |r| == |rows|
  {
    if Owned(rows, i, worker) then rows[i := rows[i].(claim := None, available := at + RETRY_DELAY)] else rows
  }

  function EnvelopesOf(events: seq<Event>, picked: seq<EventId>): (hand: seq<Envelope>)
    requires forall k :: 0 <= k < |picked| ==> picked[k] < |events|
    ensures |hand| == |picked|
    ensures forall k :: 0 <= k < |picked| ==> hand[k] == Envelope(picked[k], events[picked[k]])
  {
    seq(|picked|, k requires 0 <= k < |picked| => Envelope(picked[k], events[picked[k]]))
  }

  // One relay

  datatype Stage = Sending | Acked | Nacked

  /** The rows a relay still holds in its batch, and what became of the first one. */
  datatype RelayState = RelayState(worker: string, hand: seq<Envelope>, stage: Stage)

  /** A write may be lost, appended and acknowledged, or appended with the acknowledgement lost. */
  datatype Sent = Lost | Appended(partition: Partition, acked: bool)

  datatype RelayChoice = RelayChoice(at: Time, limit: nat, locked: set<EventId>, picked: seq<EventId>, sent: Sent, fault: Fault)

  function Append(log: Log, p: Partition, env: Envelope): Log {
    log[p := Messages(log, p) + [env]]
  }

  /** What a publish leaves in the log, and whether the relay hears of it. */
  function Publish(log: Log, env: Envelope, sent: Sent): (r: (Log, bool)) {
    if !Valid(env.event) || sent.Lost? then (log, false) else (Append(log, sent.partition, env), sent.acked)
  }

  /** What the relay holds after its batch query. */
  function Holding(relay: RelayState, events: seq<Event>, ch: RelayChoice): RelayState
    requires forall k :: 0 <= k < |ch.picked| ==> ch.picked[k] < |events|
  {
    relay.(hand := if ch.fault == NoFault then EnvelopesOf(events, ch.picked) else [], stage := Sending)
  }

  /** One step: the batch query, one write to the log, or one mark. A failed query or published mark ends the batch. */
  ghost function RelayStep(events: seq<Event>, rows: seq<RowState>, log: Log, relay: RelayState, ch: RelayChoice): (r: (seq<RowState>, Log, RelayState))
  {
    if relay.hand == [] then
      if !Batch(events, rows, ch.at, ch.limit, ch.locked, ch.picked) then (rows, log, relay)
      else (if ch.fault == BeforeCommit then rows else Claimed(rows, relay.worker, ch.at, ch.picked), log, Holding(relay, events, ch))
    else
      var env := relay.hand[0];
      var rest := relay.(hand := relay.hand[1..], stage := Sending);
      match relay.stage
      case Sending =>
        var (log', ok) := Publish(log, env, ch.sent);
        (rows, log', relay.(stage := if ok then Acked else Nacked))
      case Acked =>
        (if ch.fault == BeforeCommit then rows else MarkPublished(rows, env.id, relay.worker), log,
         if ch.fault == NoFault then rest else relay.(hand := [], stage := Sending))
      case Nacked =>
        (if ch.fault == BeforeCommit then rows else MarkFailed(rows, env.id, relay.worker, ch.at), log, rest)
  }

  datatype RelayView = RelayView(rows: seq<RowState>, log: Log, relay: RelayState)

  ghost function RelayRun(events: seq<Event>, v: RelayView, steps: seq<RelayChoice>): RelayView {
    if steps == [] then v else OneStep(events, RelayRun(events, v, steps[..|steps| - 1]), steps[|steps| - 1])
  }

  ghost function OneStep(events: seq<Event>, v: RelayView, ch: RelayChoice): RelayView {
    var (rows, log, relay) := RelayStep(events, v.rows, v.log, v.relay, ch);
    RelayView(rows, log, relay)
  }

  ghost function TwoSteps(events: seq<Event>, v: RelayView, send: RelayChoice, mark: RelayChoice): RelayView {
    OneStep(events, OneStep(events, v, send), mark)
  }

  /** Between the query and the last step something stays in hand. */
  ghost predicate Busy(events: seq<Event>, v: RelayView, steps: seq<RelayChoice>) {
    forall k :: 0 < k < |steps| ==> RelayRun(events, v, steps[..k]).relay.hand != []
  }

  /** A whole batch: the run starts with a query and ends the first time nothing is in hand again. */
  ghost predicate WholeBatch(events: seq<Event>, v: RelayView, steps: seq<RelayChoice>) {
    steps != [] && v.relay.hand == [] && Busy(events, v, steps) && RelayRun(events, v, steps).relay.hand == []
  }

  lemma RunGrows(events: seq<Event>, v: RelayView, steps: seq<RelayChoice>, ch: RelayChoice)
    requires Busy(events, v, steps) && (steps == [] || RelayRun(events, v, steps).relay.hand != [])
    ensures Busy(events, v, steps + [ch])
    ensures RelayRun(events, v, steps + [ch]) == OneStep(events, RelayRun(events, v, steps), ch)
  {
    var more := steps + [ch];
    assert more[..|steps|] == steps;
    assert forall k :: 0 < k < |steps| ==> more[..k] == steps[..k];
  }

  lemma RunGrowsTwice(events: seq<Event>, v: RelayView, steps: seq<RelayChoice>, send: RelayChoice, mark: RelayChoice)
    requires Busy(events, v, steps)
    requires var now := RelayRun(events, v, steps).relay; now.hand != [] && now.stage == Sending
    ensures Busy(events, v, steps + [send] + [mark])
    ensures RelayRun(events, v, steps + [send] + [mark]) == TwoSteps(events, RelayRun(events, v, steps), send, mark)
  {
    RunGrows(events, v, steps, send);
    RunGrows(events, v, steps + [send], mark);
  }
}

module OutboxStore {
  import opened Base
  import opened Request
  import opened PostgresSpec
  import opened PostgresStore
  import opened OutboxSpec

  /** The topic the relays write to. */
  class Topic {
    var log: Log

    constructor ()
      ensures log == map[]
    {
      log := map[];
    }

    /** Validated first, then written; `sent` is what the broker made of the write. */
    method Write(env: Envelope, sent: Sent) returns (acked: bool)
      modifies this
      ensures (log, acked) == Publish(old(log), env, sent)
    {
      if !Valid(env.event) || sent.Lost? {
        return false;
      }
      log := Append(log, sent.partition, env);
      return sent.acked;
    }
  }

  class Repository {
    const pool: Postgres

    constructor (pool: Postgres)
      ensures this.pool == pool
    {
      this.pool := pool;
    }

    /** The oldest candidate not picked yet. */
    method Oldest(at: Time, locked: set<EventId>, picked: seq<EventId>) returns (found: Option<EventId>)
      requires |pool.tables.events| == |pool.tables.rows|
      ensures found.None? ==> forall i: nat :: Candidate(pool.tables.rows, at, locked, i) ==> i in picked
      ensures found.Some? ==> Candidate(pool.tables.rows, at, locked, found.value) && found.value !in picked
      ensures found.Some? ==> forall i: nat :: Candidate(pool.tables.rows, at, locked, i) && i !in picked ==>
                                                pool.tables.events[found.value].occurred <= pool.tables.events[i].occurred
    {
      found := None;
      var db := pool.tables;
      for i := 0 to |db.rows|
        invariant found.None? ==> forall j: nat :: j < i && Candidate(db.rows, at, locked, j) ==> j in picked
        invariant found.Some? ==> Candidate(db.rows, at, locked, found.value) && found.value !in picked
        invariant found.Some? ==> forall j: nat :: j < i && Candidate(db.rows, at, locked, j) && j !in picked ==>
                                                   db.events[found.value].occurred <= db.events[j].occurred
      {
        if Candidate(db.rows, at, locked, i) && i !in picked
           && (found.None? || db.events[i].occurred < db.events[found.value].occurred) {
          found := Some(i);
        }
      }
    }

    /** One statement: pick a batch past locked rows, stamp it, return it. */
    method Claim(worker: string, limit: nat, at: Time, locked: set<EventId>) returns (claimed: seq<Envelope>, ghost picked: seq<EventId>)
      requires |pool.tables.events| == |pool.tables.rows|
      modifies pool
      ensures Batch(old(pool.tables).events, old(pool.tables).rows, at, limit, locked, picked)
      ensures claimed == EnvelopesOf(old(pool.tables).events, picked)
      ensures pool.tables == old(pool.tables).(rows := Claimed(old(pool.tables).rows, worker, at, picked))
    {
      var candidates: seq<EventId> := [];
      var more := true;
      while more && |candidates| < limit
        invariant |candidates| <= limit && pool.tables == old(pool.tables)
        invariant forall k :: 0 <= k < |candidates| ==> Candidate(pool.tables.rows, at, locked, candidates[k])
        invariant forall j, k :: 0 <= j < k < |candidates| ==> candidates[j] != candidates[k]
        invariant forall i: nat, k :: Candidate(pool.tables.rows, at, locked, i) && i !in candidates && 0 <= k < |candidates| ==>
                                      pool.tables.events[candidates[k]].occurred <= pool.tables.events[i].occurred
        invariant more || forall i: nat :: Candidate(pool.tables.rows, at, locked, i) ==> i in candidates
        decreases limit - |candidates|, more
      {
        var found := Oldest(at, locked, candidates);
        if found.None? {
          more := false;
        } else {
          candidates := candidates + [found.value];
        }
      }
      picked := candidates;
      claimed := EnvelopesOf(pool.tables.events, candidates);
      pool.tables := pool.tables.(rows := Claimed(pool.tables.rows, worker, at, candidates));
    }

    method SetPublished(id: EventId, worker: string)
      modifies pool
      ensures pool.tables == old(pool.tables).(rows := MarkPublished(old(pool.tables).rows, id, worker))
    {
      var rows := pool.tables.rows;
      if Owned(rows, id, worker) {
        pool.tables := pool.tables.(rows := rows[id := rows[id].(published := true, claim := None)]);
      }
    }

    method SetFailed(id: EventId, worker: string, at: Time)
      modifies pool
      ensures pool.tables == old(pool.tables).(rows := MarkFailed(old(pool.tables).rows, id, worker, at))
    {
      var rows := pool.tables.rows;
      if Owned(rows, id, worker) {
        pool.tables := pool.tables.(rows := rows[id := rows[id].(claim := None, available := at + RETRY_DELAY)]);
      }
    }
  }

  /** What the world does to the k-th step of a batch. */
  datatype Weather = Weather(at: Time, sent: Sent, fault: Fault)

  ghost predicate Follows(steps: seq<RelayChoice>, weather: nat -> Weather) {
    forall k :: 0 <= k < |steps| ==> Under(steps[k], weather(k))
  }

  predicate Under(ch: RelayChoice, w: Weather) {
    ch.at == w.at && ch.sent == w.sent && ch.fault == w.fault
  }

  lemma FollowsGrows(steps: seq<RelayChoice>, a: RelayChoice, b: RelayChoice, weather: nat -> Weather)
    requires Follows(steps, weather) && Under(a, weather(|steps|)) && Under(b, weather(|steps| + 1))
    ensures Follows(steps + [a] + [b], weather)
  {
  }

  class Relay {
    const repository: Repository
    const topic: Topic
    const worker: string
    const batchSize: nat

    constructor (repository: Repository, topic: Topic, worker: string, batchSize: int)
      ensures this.repository == repository && this.topic == topic && this.worker == worker
      ensures this.batchSize == if batchSize <= 0 then 100 else batchSize
    {
      this.repository, this.topic, this.worker := repository, topic, worker;
      this.batchSize := if batchSize <= 0 then 100 else batchSize;
    }

    ghost function View(hand: seq<Envelope>, stage: Stage): RelayView
      reads repository.pool, topic
    {
      RelayView(repository.pool.tables.rows, topic.log, RelayState(worker, hand, stage))
    }

    /** Claim, then publish and mark row by row; refused rows are released, a lost mark ends the batch. */
    method RunBatch(locked: set<EventId>, weather: nat -> Weather) returns (ok: bool, ghost steps: seq<RelayChoice>)
      requires |repository.pool.tables.events| == |repository.pool.tables.rows|
      modifies repository.pool, topic
      ensures repository.pool.tables == old(repository.pool.tables).(rows := repository.pool.tables.rows)
      ensures View([], Sending) == RelayRun(old(repository.pool.tables).events, old(View([], Sending)), steps)
      ensures WholeBatch(old(repository.pool.tables).events, old(View([], Sending)), steps)
      ensures steps[0].limit == batchSize && steps[0].locked == locked
      ensures Follows(steps, weather)
      ensures ok ==> steps[0].fault == NoFault && |steps| == 2 * |steps[0].picked| + 1
      ensures !ok ==> steps[|steps| - 1].fault != NoFault
    {
      ghost var events := repository.pool.tables.events;
      ghost var start := View([], Sending);
      var rows, queried, query := Query(locked, weather(0));
      steps := [query];
      RunGrows(events, start, [], query);
      if !queried {
        return false, steps;
      }
      ok, steps := Drain(rows, weather, events, start, query);
    }

    /** The loop over the rows in hand. */
    method Drain(rows: seq<Envelope>, weather: nat -> Weather, ghost events: seq<Event>, ghost start: RelayView, ghost query: RelayChoice)
      returns (ok: bool, ghost steps: seq<RelayChoice>)
      requires events == repository.pool.tables.events && Under(query, weather(0))
      requires View(rows, Sending) == RelayRun(events, start, [query])
      modifies repository.pool, topic
      ensures repository.pool.tables == old(repository.pool.tables).(rows := repository.pool.tables.rows)
      ensures View([], Sending) == RelayRun(events, start, steps) && Busy(events, start, steps)
      ensures Follows(steps, weather) && |steps| > 0 && steps[0] == query
      ensures if ok then |steps| == 2 * |rows| + 1 else steps[|steps| - 1].fault != NoFault
    {
      steps := [query];
      for next := 0 to |rows|
        invariant repository.pool.tables == old(repository.pool.tables).(rows := repository.pool.tables.rows)
        invariant |steps| == 2 * next + 1 && steps[0] == query && Busy(events, start, steps)
        invariant View(rows[next..], Sending) == RelayRun(events, start, steps)
        invariant Follows(steps, weather)
      {
        var publishing, marking := weather(2 * next + 1), weather(2 * next + 2);
        RunGrowsTwice(events, start, steps, Doing(publishing), Doing(marking));
        FollowsGrows(steps, Doing(publishing), Doing(marking), weather);
        steps := steps + [Doing(publishing)] + [Doing(marking)];
        ok := Deliver(rows[next], publishing, marking, rows[next..]);
        assert rows[next..][1..] == rows[next + 1..];
        if !ok {
          return;
        }
      }
      ok := true;
    }

    /** The batch query; nothing is in hand when its answer is lost. */
    method Query(locked: set<EventId>, w: Weather) returns (rows: seq<Envelope>, ok: bool, ghost query: RelayChoice)
      requires |repository.pool.tables.events| == |repository.pool.tables.rows|
      modifies repository.pool
      ensures repository.pool.tables == old(repository.pool.tables).(rows := repository.pool.tables.rows)
      ensures ok == (w.fault == NoFault) && |rows| == if ok then |query.picked| else 0
      ensures View(rows, Sending) == OneStep(old(repository.pool.tables).events, old(View([], Sending)), query)
      ensures query == RelayChoice(w.at, batchSize, locked, query.picked, w.sent, w.fault)
    {
      if w.fault == BeforeCommit {
        return [], false, RelayChoice(w.at, batchSize, locked, [], w.sent, w.fault);
      }
      ghost var picked;
      rows, picked := repository.Claim(worker, batchSize, w.at, locked);
      query := RelayChoice(w.at, batchSize, locked, picked, w.sent, w.fault);
      ok := w.fault == NoFault;
      if !ok {
        rows := [];
      }
    }

    /** One row: write it, then mark it as the write went. Only a failed published mark stops the batch. */
    method Deliver(row: Envelope, publishing: Weather, marking: Weather, ghost hand: seq<Envelope>) returns (ok: bool)
      requires hand != [] && hand[0] == row
      modifies repository.pool, topic
      ensures repository.pool.tables == old(repository.pool.tables).(rows := repository.pool.tables.rows)
      ensures !ok ==> marking.fault != NoFault
      ensures View(if ok then hand[1..] else [], Sending)
           == TwoSteps(old(repository.pool.tables).events, old(View(hand, Sending)), Doing(publishing), Doing(marking))
    {
      var acked := topic.Write(row, publishing.sent);
      if !acked {
        if marking.fault != BeforeCommit {
          repository.SetFailed(row.id, worker, marking.at);
        }
        return true;
      }
      if marking.fault != BeforeCommit {
        repository.SetPublished(row.id, worker);
      }
      return marking.fault == NoFault;
    }

    ghost function Doing(w: Weather): RelayChoice {
      RelayChoice(w.at, 0, {}, [], w.sent, w.fault)
    }
  }
}
