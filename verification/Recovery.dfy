/** Whatever has crashed, expired or been lost: from every reachable world some continuation settles every bill. */
module Recovery {
  import opened Base
  import opened Request
  import opened PostgresSpec
  import opened Stores
  import opened GatewaySpec
  import opened OutboxSpec
  import opened ConsumerSpec
  import opened Pipeline
  import opened PipelineInvariant
  import opened Delivery
  import opened Walkthrough
  import opened BudgetLag
  import Cluster

  ghost predicate Leads(c: Setup, w: World, w': World) {
    exists turns :: w' == Then(c, w, turns)
  }

  lemma Stay(c: Setup, w: World)
    ensures Leads(c, w, w)
  {
    assert w == Then(c, w, []);
  }

  lemma OneMore(c: Setup, w: World, w': World, t: Turn)
    requires Leads(c, w, w')
    ensures Leads(c, w, Next(c, w', t))
  {
    var turns :| w' == Then(c, w, turns);
    assert (turns + [t])[..|turns|] == turns;
    assert Next(c, w', t) == Then(c, w, turns + [t]);
  }

  lemma {:induction false} ThenThen(c: Setup, w: World, first: seq<Turn>, second: seq<Turn>)
    ensures Then(c, w, first + second) == Then(c, Then(c, w, first), second)
  {
    if second == [] {
      assert first + second == first;
    } else {
      ThenThen(c, w, first, second[..|second| - 1]);
      assert (first + second)[..|first + second| - 1] == first + second[..|second| - 1];
    }
  }

  lemma LeadsOn(c: Setup, w: World, w': World, w'': World)
    requires Leads(c, w, w') && Leads(c, w', w'')
    ensures Leads(c, w, w'')
  {
    var first :| w' == Then(c, w, first);
    var second :| w'' == Then(c, w', second);
    ThenThen(c, w, first, second);
  }

  lemma TakeTurn(c: Setup, start: World, w: World, t: Turn)
    requires Leads(c, start, w) && WorldFits(w)
    ensures Leads(c, start, Next(c, w, t)) && WorldFits(Next(c, w, t))
  {
    OneMore(c, start, w, t);
    EveryTurnFits(c, w, t);
  }

  /** The requests and the facts about them, which recovery does not touch. */
  predicate SameFacts(w: World, w': World) {
    && w.sys.store.Sql? && w'.sys.store.Sql?
    && Tables(w').core == Tables(w).core && Tables(w').events == Tables(w).events
  }

  ghost predicate AllValid(w: World)
    requires w.sys.store.Sql?
  {
    forall i :: 0 <= i < |Tables(w).events| ==> Valid(Tables(w).events[i])
  }

  // Publishing what is left

  function Open(rows: seq<RowState>, n: nat): (r: seq<EventId>)
    requires n <= |rows|
    ensures forall k :: 0 <= k < |r| ==> r[k] < n && !rows[r[k]].published
    ensures forall i: nat :: i < n && !rows[i].published ==> i in r
    ensures forall j, k :: 0 <= j < k < |r| ==> r[j] != r[k]
  {
    if n == 0 then [] else Open(rows, n - 1) + if rows[n - 1].published then [] else [n - 1]
  }

  const RESCUER := "recovery"

  /** The relay holds exactly the rows that are not published yet, all claimed by it. */
  ghost predicate Rescuing(w: World, r: nat) {
    && w.sys.store.Sql? && r < |w.relays| && w.relays[r].worker == RESCUER && w.relays[r].stage == Sending
    && var hand, rows := w.relays[r].hand, Tables(w).rows;
       && (forall k :: 0 <= k < |hand| ==> Owned(rows, hand[k].id, RESCUER))
       && (forall j, k :: 0 <= j < k < |hand| ==> hand[j].id != hand[k].id)
       && (forall i: nat :: i < |rows| && !rows[i].published ==> exists k :: 0 <= k < |hand| && hand[k].id == i)
  }

  /** Once the old claims have expired, everything unpublished is one batch. */
  lemma OpenRowsAreABatch(events: seq<Event>, rows: seq<RowState>, log: Log, now: Time)
    requires RowsFit(events, rows, log, now)
    ensures Batch(events, rows, now + CLAIM_TTL + 1, |rows| + 1, {}, Open(rows, |rows|))
  {
    var picked, at := Open(rows, |rows|), now + CLAIM_TTL + 1;
    DistinctAreFew(picked, |rows|);
    forall k | 0 <= k < |picked| ensures Candidate(rows, at, {}, picked[k]) {
      assert RowFits(events, picked[k], rows[picked[k]], log, now);
    }
  }

  lemma ClaimAll(c: Setup, w: World) returns (w': World, r: nat)
    requires WorldFits(w)
    ensures Leads(c, w, w') && WorldFits(w') && SameFacts(w, w') && Rescuing(w', r)
  {
    var rows, events := Tables(w).rows, Tables(w).events;
    var at, picked := w.now + CLAIM_TTL + 1, Open(rows, |rows|);
    r := |w.relays|;
    var waited := Next(c, w, Wait(at));
    var started := Next(c, waited, StartRelay(RESCUER));
    var ch := RelayChoice(at, |rows| + 1, {}, picked, Lost, NoFault);
    w' := Next(c, started, RelayTurn(r, ch));
    Stay(c, w);
    TakeTurn(c, w, w, Wait(at));
    TakeTurn(c, w, waited, StartRelay(RESCUER));
    TakeTurn(c, w, started, RelayTurn(r, ch));
    OpenRowsAreABatch(events, rows, w.log, w.now);
    BatchIsClaimed(c, started, r, ch);
    ClaimedAreRescued(w', r, rows, at, picked);
  }

  lemma BatchIsClaimed(c: Setup, w: World, r: nat, ch: RelayChoice)
    requires w.sys.store.Sql? && r < |w.relays| && w.relays[r].hand == [] && ch.at <= w.now && ch.fault == NoFault
    requires Batch(Tables(w).events, Tables(w).rows, ch.at, ch.limit, ch.locked, ch.picked)
    ensures var w' := Next(c, w, RelayTurn(r, ch));
      && SameFacts(w, w') && |w'.relays| == |w.relays|
      && w'.relays[r] == RelayState(w.relays[r].worker, EnvelopesOf(Tables(w).events, ch.picked), Sending)
      && Tables(w').rows == Claimed(Tables(w).rows, w.relays[r].worker, ch.at, ch.picked)
  {
  }

  lemma ClaimedAreRescued(w: World, r: nat, rows: seq<RowState>, at: Time, picked: seq<EventId>)
    requires w.sys.store.Sql? && r < |w.relays| && |Tables(w).events| == |rows| && picked == Open(rows, |rows|)
    requires w.relays[r] == RelayState(RESCUER, EnvelopesOf(Tables(w).events, picked), Sending)
    requires Tables(w).rows == Claimed(rows, RESCUER, at, picked)
    ensures Rescuing(w, r)
  {
    var hand := w.relays[r].hand;
    forall i: nat | i < |rows| && !Tables(w).rows[i].published ensures exists k :: 0 <= k < |hand| && hand[k].id == i {
      assert i in picked;
      var k :| 0 <= k < |picked| && picked[k] == i;
      assert hand[k].id == i;
    }
  }

  /** The first row in hand is written and marked. */
  lemma PublishFirst(c: Setup, w: World, r: nat) returns (w': World)
    requires WorldFits(w) && AllValid(w) && Rescuing(w, r) && w.relays[r].hand != []
    ensures Leads(c, w, w') && WorldFits(w') && SameFacts(w, w')
    ensures Rescuing(w', r) && |w'.relays[r].hand| == |w.relays[r].hand| - 1
  {
    var send := RelayChoice(w.now, 0, {}, [], Appended(0, true), NoFault);
    var sent := Next(c, w, RelayTurn(r, send));
    w' := Next(c, sent, RelayTurn(r, send));
    Stay(c, w);
    TakeTurn(c, w, w, RelayTurn(r, send));
    TakeTurn(c, w, sent, RelayTurn(r, send));
    assert RelayFits(Tables(w).events, w.log, w.relays[r]);
    assert Known(Tables(w).events, w.relays[r].hand[0]);
    FirstIsSent(c, w, r, send);
    FirstIsMarked(c, sent, r, send);
    MarkedStaysRescued(w, w', r);
  }

  lemma FirstIsSent(c: Setup, w: World, r: nat, ch: RelayChoice)
    requires w.sys.store.Sql? && r < |w.relays| && w.relays[r].hand != [] && w.relays[r].stage == Sending
    requires ch.at <= w.now && ch.sent == Appended(0, true) && Valid(w.relays[r].hand[0].event)
    ensures var w' := Next(c, w, RelayTurn(r, ch));
      && SameFacts(w, w') && |w'.relays| == |w.relays| && w'.now == w.now
      && w'.relays[r] == w.relays[r].(stage := Acked) && Tables(w').rows == Tables(w).rows
  {
  }

  lemma FirstIsMarked(c: Setup, w: World, r: nat, ch: RelayChoice)
    requires w.sys.store.Sql? && r < |w.relays| && w.relays[r].hand != [] && w.relays[r].stage == Acked
    requires ch.at <= w.now && ch.fault == NoFault
    ensures var w' := Next(c, w, RelayTurn(r, ch));
      && SameFacts(w, w') && |w'.relays| == |w.relays|
      && w'.relays[r] == w.relays[r].(hand := w.relays[r].hand[1..], stage := Sending)
      && Tables(w').rows == MarkPublished(Tables(w).rows, w.relays[r].hand[0].id, w.relays[r].worker)
  {
  }

  lemma MarkedStaysRescued(w: World, w': World, r: nat)
    requires Rescuing(w, r) && w.relays[r].hand != [] && w'.sys.store.Sql? && r < |w'.relays|
    requires w'.relays[r] == w.relays[r].(hand := w.relays[r].hand[1..])
    requires Tables(w').rows == MarkPublished(Tables(w).rows, w.relays[r].hand[0].id, RESCUER)
    ensures Rescuing(w', r)
  {
    var hand, hand', rows, rows' := w.relays[r].hand, w'.relays[r].hand, Tables(w).rows, Tables(w').rows;
    forall k | 0 <= k < |hand'| ensures Owned(rows', hand'[k].id, RESCUER) {
      assert hand'[k] == hand[k + 1] && hand[0].id != hand[k + 1].id;
      assert Owned(rows, hand[k + 1].id, RESCUER);
    }
    forall i: nat | i < |rows'| && !rows'[i].published ensures exists k :: 0 <= k < |hand'| && hand'[k].id == i {
      var k :| 0 <= k < |hand| && hand[k].id == i;
      assert k > 0 && hand'[k - 1].id == i;
    }
  }

  lemma {:induction false} PublishAll(c: Setup, w: World, r: nat) returns (w': World)
    requires WorldFits(w) && AllValid(w) && Rescuing(w, r)
    ensures Leads(c, w, w') && WorldFits(w') && SameFacts(w, w')
    ensures forall i :: 0 <= i < |Tables(w').rows| ==> Tables(w').rows[i].published
    decreases |w.relays[r].hand|
  {
    if w.relays[r].hand == [] {
      w' := w;
      Stay(c, w);
    } else {
      var next := PublishFirst(c, w, r);
      w' := PublishAll(c, next, r);
      LeadsOn(c, w, next, w');
    }
  }

  // Reading the log to its end

  /** An idle member of the group, while nothing but offsets and projected tables moves. */
  ghost predicate Reading(w: World, m: nat, group: string) {
    m < |w.members| && w.members[m].name == group && w.members[m].phase.Idle?
  }

  ghost predicate SameLog(w: World, w': World) {
    SameFacts(w, w') && w'.log == w.log && Tables(w').rows == Tables(w).rows
  }

  predicate AllRead(w: World, group: string, p: Partition) {
    OffsetOf(w.offsets, group, p) >= |Messages(w.log, p)|
  }

  ghost predicate SameOffsets(w: World, w': World, group: string, p: Partition) {
    forall q :: q != p ==> OffsetOf(w'.offsets, group, q) == OffsetOf(w.offsets, group, q)
  }

  /** A fact in the log is never refused. */
  lemma LogIsAcceptable(w: World, p: Partition, k: nat, projection: Projection, group: string)
    requires WorldFits(w) && k < |Messages(w.log, p)|
    ensures Project(Tables(w).core.requests, projection, group, Messages(w.log, p)[k]).1 != Refused
  {
    var env := w.log[p][k];
    assert Known(Tables(w).events, env) && Valid(env.event);
    assert UsageFits(Tables(w).core.requests, Tables(w).events[env.id]);
  }

  ghost predicate Positioned(w: World, m: nat, group: string, p: Partition) {
    && Reading(w, m, group) && p in w.members[m].positions
    && w.members[m].positions[p] == OffsetOf(w.offsets, group, p)
  }

  ghost function Thrice(c: Setup, w: World, t: Turn): World {
    Next(c, Next(c, Next(c, w, t), t), t)
  }

  lemma ThriceFits(c: Setup, w: World, t: Turn)
    requires WorldFits(w)
    ensures Leads(c, w, Thrice(c, w, t)) && WorldFits(Thrice(c, w, t))
  {
    Stay(c, w);
    TakeTurn(c, w, w, t);
    TakeTurn(c, w, Next(c, w, t), t);
    TakeTurn(c, w, Next(c, Next(c, w, t), t), t);
  }

  /** Fetch, process, commit. */
  lemma ThriceReads(c: Setup, w: World, m: nat, group: string, p: Partition, turn: Turn)
    requires WorldFits(w) && Positioned(w, m, group, p) && !AllRead(w, group, p) && turn == MemberTurn(m, MemberChoice(p, NoFault))
    ensures var w' := Thrice(c, w, turn);
      && SameLog(w, w') && Positioned(w', m, group, p) && SameOffsets(w, w', group, p)
      && OffsetOf(w'.offsets, group, p) == OffsetOf(w.offsets, group, p) + 1
  {
    var offset, fetched := OffsetOf(w.offsets, group, p), Next(c, w, turn);
    FetchedAt(c, w, m, group, p);
    LogIsAcceptable(w, p, offset, Tables(w).projection, group);
    ProcessedAt(c, fetched, m, group, p, offset);
    CommittedAt(c, Next(c, fetched, turn), m, group, p, offset);
  }

  lemma ReadOne(c: Setup, w: World, m: nat, group: string, p: Partition) returns (w': World)
    requires WorldFits(w) && Positioned(w, m, group, p) && !AllRead(w, group, p)
    ensures Leads(c, w, w') && WorldFits(w') && SameLog(w, w') && Positioned(w', m, group, p)
    ensures OffsetOf(w'.offsets, group, p) == OffsetOf(w.offsets, group, p) + 1 && SameOffsets(w, w', group, p)
  {
    var turn := MemberTurn(m, MemberChoice(p, NoFault));
    w' := Thrice(c, w, turn);
    ThriceFits(c, w, turn);
    ThriceReads(c, w, m, group, p, turn);
  }

  lemma FetchedAt(c: Setup, w: World, m: nat, group: string, p: Partition)
    requires w.sys.store.Sql? && Positioned(w, m, group, p) && !AllRead(w, group, p)
    ensures var offset, w' := OffsetOf(w.offsets, group, p), Next(c, w, MemberTurn(m, MemberChoice(p, NoFault)));
      && w' == w.(members := w'.members) && |w'.members| == |w.members|
      && w'.members[m].name == group && p in w'.members[m].positions && w'.members[m].positions[p] == offset + 1
      && w'.members[m].phase == Fetched(p, offset, Messages(w.log, p)[offset])
  {
  }

  lemma ProcessedAt(c: Setup, w: World, m: nat, group: string, p: Partition, offset: nat)
    requires w.sys.store.Sql? && m < |w.members| && w.members[m].name == group && offset < |Messages(w.log, p)|
    requires w.members[m].phase == Fetched(p, offset, Messages(w.log, p)[offset])
    requires Project(Tables(w).core.requests, Tables(w).projection, group, Messages(w.log, p)[offset]).1 != Refused
    ensures var w' := Next(c, w, MemberTurn(m, MemberChoice(p, NoFault)));
      && SameLog(w, w') && w'.offsets == w.offsets && |w'.members| == |w.members|
      && w'.members[m] == w.members[m].(phase := Processed(p, offset))
  {
  }

  lemma CommittedAt(c: Setup, w: World, m: nat, group: string, p: Partition, offset: nat)
    requires w.sys.store.Sql? && m < |w.members| && w.members[m].name == group
    requires w.members[m].phase == Processed(p, offset)
    ensures var w' := Next(c, w, MemberTurn(m, MemberChoice(p, NoFault)));
      && SameLog(w, w') && w'.offsets == w.offsets[(group, p) := offset + 1] && |w'.members| == |w.members|
      && w'.members[m] == w.members[m].(phase := Idle)
  {
  }

  lemma {:induction false} ReadRest(c: Setup, w: World, m: nat, group: string, p: Partition) returns (w': World)
    requires WorldFits(w) && Positioned(w, m, group, p)
    ensures Leads(c, w, w') && WorldFits(w') && SameLog(w, w') && Reading(w', m, group)
    ensures AllRead(w', group, p) && SameOffsets(w, w', group, p)
    decreases |Messages(w.log, p)| - OffsetOf(w.offsets, group, p)
  {
    if AllRead(w, group, p) {
      w' := w;
      Stay(c, w);
    } else {
      var next := ReadOne(c, w, m, group, p);
      w' := ReadRest(c, next, m, group, p);
      LeadsOn(c, w, next, w');
    }
  }

  lemma ReadPartition(c: Setup, w: World, m: nat, group: string, p: Partition) returns (w': World)
    requires WorldFits(w) && Reading(w, m, group)
    ensures Leads(c, w, w') && WorldFits(w') && SameLog(w, w') && Reading(w', m, group)
    ensures AllRead(w', group, p) && SameOffsets(w, w', group, p)
  {
    var placed := Next(c, w, Rebalance(m, p));
    Stay(c, w);
    TakeTurn(c, w, w, Rebalance(m, p));
    w' := ReadRest(c, placed, m, group, p);
    LeadsOn(c, w, placed, w');
  }

  lemma {:induction false} ReadAll(c: Setup, w: World, m: nat, group: string, ps: set<Partition>) returns (w': World)
    requires WorldFits(w) && Reading(w, m, group)
    ensures Leads(c, w, w') && WorldFits(w') && SameLog(w, w') && Reading(w', m, group)
    ensures forall p :: p in ps ==> AllRead(w', group, p)
    ensures forall p :: p !in ps ==> OffsetOf(w'.offsets, group, p) == OffsetOf(w.offsets, group, p)
    decreases |ps|
  {
    if ps == {} {
      w' := w;
      Stay(c, w);
    } else {
      var p :| p in ps;
      var rest := ReadAll(c, w, m, group, ps - {p});
      w' := ReadPartition(c, rest, m, group, p);
      LeadsOn(c, w, rest, w');
      forall q | q in ps ensures AllRead(w', group, q) {
        if q != p { assert AllRead(rest, group, q); }
      }
    }
  }

  lemma Consumed(c: Setup, w: World, group: string) returns (w': World)
    requires WorldFits(w)
    ensures Leads(c, w, w') && WorldFits(w') && SameLog(w, w')
    ensures forall p :: p in w'.log ==> AllRead(w', group, p)
  {
    var joined := Next(c, w, StartMember(group));
    Stay(c, w);
    TakeTurn(c, w, w, StartMember(group));
    w' := ReadAll(c, joined, |w.members|, group, w.log.Keys);
    LeadsOn(c, w, joined, w');
  }

  /**
   * From every reachable world whose facts are all well formed, whatever relays and consumers are gone, some
   * continuation publishes every row, brings a group to the end of the log and makes every tenant's ledger its
   * completed cost, without touching a request.
   */
  lemma AlwaysRecoverable(c: Setup, w: World, group: string) returns (w': World)
    requires Reachable(c, w)
    ensures w.sys.store.Sql? && (AllValid(w) ==> Leads(c, w, w') && SameFacts(w, w') && Drained(w', group) && AllSettled(w'))
  {
    ReachableFits(c, w);
    w' := w;
    if AllValid(w) {
      var claimed, r := ClaimAll(c, w);
      var published := PublishAll(c, claimed, r);
      w' := Consumed(c, published, group);
      LeadsOn(c, w, claimed, published);
      LeadsOn(c, w, published, w');
      DrainedSettles(c, w, w', group);
    }
  }

  ghost predicate AllSettled(w: World) {
    w.sys.store.Sql? && forall tenant, since ::
      Sum(LedgerSince(Tables(w).projection, tenant, since)) == Sum(CompletedCosts(Tables(w).core.requests, tenant, since))
  }

  lemma LeadsStaysReachable(c: Setup, w: World, w': World)
    requires Reachable(c, w) && Leads(c, w, w')
    ensures Reachable(c, w')
  {
    var db, before :| Cluster.Unused(Sql(db)) && w == After(c, db, before);
    var turns :| w' == Then(c, w, turns);
    AfterThen(c, db, before, turns);
  }

  lemma DrainedSettles(c: Setup, w: World, w': World, group: string)
    requires Reachable(c, w) && Leads(c, w, w') && w'.sys.store.Sql? && Drained(w', group)
    ensures AllSettled(w')
  {
    LeadsStaysReachable(c, w, w');
    forall tenant, since
      ensures Sum(LedgerSince(Tables(w').projection, tenant, since)) == Sum(CompletedCosts(Tables(w').core.requests, tenant, since))
    {
      DrainedMeansSettled(c, w', group, tenant, since);
    }
  }

  // What is never delivered

  lemma TurnKeepsFacts(c: Setup, w: World, t: Turn)
    requires w.sys.store.Sql?
    ensures var w' := Next(c, w, t); w'.sys.store.Sql? && Tables(w).events <= Tables(w').events
  {
    if t.Serve? && Timely(t.action, w.now) {
      match t.action
      case CancelBy(tenant, id, ctx, _) => CommitKeepsFacts(Tables(w), Cancel(tenant, id), ctx);
      case Run(pid, ch) =>
        if pid < |w.sys.procs| && AsksStore(w.sys.procs[pid].pc) {
          CommitKeepsFacts(Tables(w), CallOf(w.sys.procs[pid], ch), ch.ctx);
        }
      case _ =>
    }
  }

  lemma CommitKeepsFacts(db: Db, call: Call, ctx: Context)
    ensures db.events <= Commit(db, call, ctx).0.events
  {
  }

  /** No turn takes an outbox row back. */
  lemma {:induction false} FactsOnlyGrow(c: Setup, w: World, turns: seq<Turn>)
    requires w.sys.store.Sql?
    ensures var w' := Then(c, w, turns); w'.sys.store.Sql? && Tables(w).events <= Tables(w').events
  {
    if turns != [] {
      FactsOnlyGrow(c, w, turns[..|turns| - 1]);
      TurnKeepsFacts(c, Then(c, w, turns[..|turns| - 1]), turns[|turns| - 1]);
    }
  }

  /** A fact that fails validation is never published and never charged, whatever happens later. */
  lemma InvalidFactIsStuck(c: Setup, w: World, w': World, i: EventId)
    requires Reachable(c, w) && Leads(c, w, w') && w.sys.store.Sql? && i < |Tables(w).events| && !Valid(Tables(w).events[i])
    ensures w'.sys.store.Sql? && i < |Tables(w').rows| && !Tables(w').rows[i].published
    ensures Tables(w).events[i].fact.UsageRecorded? ==> Pending(Tables(w').events, Tables(w').projection, i)
  {
    var turns :| w' == Then(c, w, turns);
    FactsOnlyGrow(c, w, turns);
    LeadsStaysReachable(c, w, w');
    ReachableFits(c, w');
    assert RowFits(Tables(w').events, i, Tables(w').rows[i], w'.log, w'.now);
  }

  /** Recovery is possible exactly when every fact so far is well formed. */
  lemma RecoverableExactlyWhenValid(c: Setup, w: World, group: string)
    requires Reachable(c, w)
    ensures w.sys.store.Sql?
    ensures AllValid(w) <==> exists w' :: Leads(c, w, w') && w'.sys.store.Sql? && Drained(w', group)
  {
    var recovered := AlwaysRecoverable(c, w, group);
    forall w' | Leads(c, w, w') && w'.sys.store.Sql? && Drained(w', group) ensures AllValid(w) {
      forall i | 0 <= i < |Tables(w).events| ensures Valid(Tables(w).events[i]) {
        if !Valid(Tables(w).events[i]) { InvalidFactIsStuck(c, w, w', i); }
      }
    }
  }

  // A bill that is never settled

  ghost predicate Stamped(db: Db, correlation: string) {
    forall k :: 0 <= k < |db.events| ==> db.events[k].correlation == correlation
  }

  lemma CommitStamps(db: Db, call: Call, ctx: Context)
    requires Stamped(db, ctx.correlation)
    ensures Stamped(Commit(db, call, ctx).0, ctx.correlation)
  {
  }

  lemma {:induction false} PlayStamps(c: Setup, at: (Store, Proc), ch: Choice, k: nat)
    requires at.0.Sql? && Stamped(at.0.db, ch.ctx.correlation)
    ensures var s := Play(c, at, ch, k).0; s.Sql? && Stamped(s.db, ch.ctx.correlation)
  {
    if k > 0 {
      PlayStamps(c, at, ch, k - 1);
      var before := Play(c, at, ch, k - 1);
      if AsksStore(before.1.pc) { CommitStamps(before.0.db, CallOf(before.1, ch), ch.ctx); }
    }
  }

  lemma SomePending(events: seq<Event>, p: Projection, tenant: string, since: Time) returns (i: EventId)
    requires Sum(PendingCosts(events, p, tenant, since)) > 0
    ensures i < |events| && Pending(events, p, i)
  {
    i := Pick(PendingCosts(events, p, tenant, since));
  }

  /**
   * A request submitted without a correlation identifier completes, and its usage fact can be neither published nor
   * charged: no continuation settles the bill.
   */
  lemma StuckBillHappens(s: Shop) returns (w: World, i: EventId)
    requires Exact(s) && s.correlation == ""
    ensures Reachable(ConfigOf(s), w) && w.sys.store.Sql? && i < |Tables(w).events| && Tables(w).events[i].fact.UsageRecorded?
    ensures forall w' :: Leads(ConfigOf(s), w, w') ==>
      w'.sys.store.Sql? && i < |Tables(w').rows| && !Tables(w').rows[i].published && Pending(Tables(w').events, Tables(w').projection, i)
  {
    var c := ConfigOf(s);
    w := After(c, Tables0(s), Spending(s, 1));
    LagLetsSpendingPassTheLimit(s, 1);
    BillingConservation(c, w, s.tenant, 0);
    OneLife(s);
    i := SomePending(Tables(w).events, Tables(w).projection, s.tenant, 0);
    forall w' | Leads(c, w, w')
      ensures w'.sys.store.Sql? && i < |Tables(w').rows| && !Tables(w').rows[i].published && Pending(Tables(w').events, Tables(w').projection, i)
    {
      InvalidFactIsStuck(c, w, w', i);
    }
  }

  lemma OneLife(s: Shop)
    requires Exact(s) && s.correlation == ""
    ensures var w := After(ConfigOf(s), Tables0(s), Spending(s, 1));
      w.sys.store.Sql? && Stamped(Tables(w), "") && Sum(LedgerSince(Tables(w).projection, s.tenant, 0)) == 0
  {
    var c, db := ConfigOf(s), Tables0(s);
    SpendingWorks(s, 1);
    LivedIsAfter(s, db, [], 0, 13);
    assert Spending(s, 1) == [] + Life(s, 0, 13);
    LivedIsPlayed(s, After(c, db, []), 0, 13);
    PlayStamps(c, From(s, db, 0), TheirChoice(s, 0), 13);
    assert LedgerSince(Tables(After(c, db, Spending(s, 1))).projection, s.tenant, 0) == map[];
  }
}
