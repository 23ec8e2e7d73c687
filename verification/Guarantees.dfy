/** Duplicate submissions and streaming: what every run of the cluster guarantees to a client. */
module Guarantees {
  import opened Base
  import opened Budget
  import opened Request
  import opened Lifecycle
  import opened Stores
  import opened GatewaySpec
  import opened Protocol
  import opened Ownership
  import opened Cluster
  import P = PostgresSpec

  // Duplicate submissions

  predicate For(p: Proc, tenant: string, key: string) {
    p.job.input.tenant == tenant && p.job.input.key == key
  }

  ghost predicate Creator(sys: Sys, i: nat, tenant: string, key: string) {
    i < |sys.procs| && sys.procs[i].owner && For(sys.procs[i], tenant, key)
  }

  /** However many submissions race with one tenant and key, at most one of them creates the request. */
  lemma OneCreator(c: Setup, sys: Sys, tenant: string, key: string, i: nat, j: nat)
    requires Reached(c, sys) && Creator(sys, i, tenant, key) && Creator(sys, j, tenant, key)
    ensures i == j
  {
    ReachedFits(c, sys);
    SameSlotSameOwner(c, sys, i, j);
  }

  lemma SameSlotSameOwner(c: Setup, sys: Sys, i: nat, j: nat)
    requires Inv(c, sys) && i < |sys.procs| && j < |sys.procs| && sys.procs[i].owner && sys.procs[j].owner
    requires sys.procs[i].job.input.tenant == sys.procs[j].job.input.tenant
    requires sys.procs[i].job.input.key == sys.procs[j].job.input.key
    ensures i == j
  {
    var p, q := sys.procs[i], sys.procs[j];
    assert ProcFits(c, sys.store, p) && ProcFits(c, sys.store, q);
    assert Owns(sys.procs, i, p.id) && Owns(sys.procs, j, q.id);
  }

  /** Some submission's creation of this row committed while its connection broke, so that it never learned of it. */
  ghost predicate BrokeCreating(c: Setup, s: Store, actions: seq<Action>, id: Id) {
    actions != [] &&
      var init, last := actions[..|actions| - 1], actions[|actions| - 1];
      BrokeCreating(c, s, init, id) || BreaksCreating(After(c, s, init), last, id)
  }

  ghost predicate BreaksCreating(sys: Sys, a: Action, id: Id) {
    && a.Run? && a.pid < |sys.procs| && sys.procs[a.pid].pc.Creating?
    && sys.store.Sql? && a.choice.fault == P.AfterCommit && a.choice.ctx.newId == id
  }

  lemma CreatingTellsItsCreator(c: Setup, s: Store, p: Proc, ch: Choice)
    requires p.pc.Creating?
    ensures var (s', p') := Step(c, s, p, ch);
      s'.Core() != s.Core() ==>
        (p'.owner && p'.id == ch.ctx.newId) || (s.Sql? && ch.fault == P.AfterCommit)
  {
  }

  /** A row that appears was created under the identifier its creator drew. */
  lemma NewRowsAreCreated(c: Setup, sys: Sys, a: Action, id: Id)
    requires Inv(c, sys) && id !in sys.store.Core().requests && id in Next(c, sys, a).store.Core().requests
    ensures a.Run? && a.pid < |sys.procs| && sys.procs[a.pid].pc.Creating? && a.choice.ctx.newId == id
  {
    match a
    case CancelBy(tenant, other, ctx, fault) => Changes(sys.store, Cancel(tenant, other), ctx, fault);
    case Run(pid, ch) =>
      if pid < |sys.procs| && AsksStore(sys.procs[pid].pc) {
        Changes(sys.store, CallOf(sys.procs[pid], ch), ch.ctx, ch.fault);
      }
    case _ =>
  }

  lemma NextKeepsOwner(c: Setup, sys: Sys, a: Action, i: int, id: Id)
    requires Inv(c, sys) && Owns(sys.procs, i, id)
    ensures Owns(Next(c, sys, a).procs, i, id)
  {
    if a.Run? && a.pid < |sys.procs| { RunKeepsOwners(c, sys, a.pid, a.choice); }
  }

  /** Every stored row has its creator among the submissions, unless a connection broke during that creation. */
  lemma {:induction false} EveryRowHasItsCreator(c: Setup, s: Store, actions: seq<Action>, id: Id)
    requires c.maxAttempts > 0 && Unused(s) && id in After(c, s, actions).store.Core().requests
    ensures (exists i :: Owns(After(c, s, actions).procs, i, id)) || BrokeCreating(c, s, actions, id)
  {
    if actions != [] {
      var init, a := actions[..|actions| - 1], actions[|actions| - 1];
      var sys := After(c, s, init);
      Invariant(c, s, init);
      if id in sys.store.Core().requests {
        EveryRowHasItsCreator(c, s, init, id);
        if i :| Owns(sys.procs, i, id) { NextKeepsOwner(c, sys, a, i, id); }
      } else {
        NewRowsAreCreated(c, sys, a, id);
        CreatingTellsItsCreator(c, sys.store, sys.procs[a.pid], a.choice);
        assert BreaksCreating(sys, a, id) || Owns(Next(c, sys, a).procs, a.pid, id);
      }
    }
  }

  lemma {:induction false} MemoryBreaksNothing(c: Setup, s: Store, actions: seq<Action>, id: Id)
    requires s.InMemory?
    ensures !BrokeCreating(c, s, actions, id) && After(c, s, actions).store.InMemory?
  {
    if actions != [] {
      MemoryBreaksNothing(c, s, actions[..|actions| - 1], id);
      NextKeeps(c, After(c, s, actions[..|actions| - 1]), actions[|actions| - 1]);
    }
  }

  /** In memory every stored row has exactly one creator, and it submitted the row's tenant, key and hash. */
  lemma ExactlyOneCreatorInMemory(c: Setup, s: Store, actions: seq<Action>, id: Id) returns (i: nat)
    requires c.maxAttempts > 0 && Unused(s) && s.InMemory? && id in After(c, s, actions).store.Core().requests
    ensures var sys, r := After(c, s, actions), After(c, s, actions).store.Core().requests[id];
      && Creator(sys, i, r.tenant, r.key) && sys.procs[i].id == id && sys.procs[i].job.input.hash == r.hash
      && (forall j :: Creator(sys, j, r.tenant, r.key) ==> j == i)
  {
    var sys := After(c, s, actions);
    MemoryBreaksNothing(c, s, actions, id);
    EveryRowHasItsCreator(c, s, actions, id);
    Invariant(c, s, actions);
    var k :| Owns(sys.procs, k, id);
    i := k;
    assert ProcFits(c, sys.store, sys.procs[i]);
    var r := sys.store.Core().requests[id];
    forall j | Creator(sys, j, r.tenant, r.key) ensures j == i {
      SameSlotSameOwner(c, sys, i, j);
    }
  }

  /** Every provider call begun by any submission with this tenant and key, in submission order. */
  ghost function CallsFor(procs: seq<Proc>, tenant: string, key: string): seq<string> {
    if procs == [] then [] else
      var last := procs[|procs| - 1];
      CallsFor(procs[..|procs| - 1], tenant, key) + (if For(last, tenant, key) then last.job.tried else [])
  }

  lemma {:induction false} OnlyOneCalls(procs: seq<Proc>, tenant: string, key: string, max: nat)
    requires forall i :: 0 <= i < |procs| ==> |procs[i].job.tried| <= max && Distinct(procs[i].job.tried)
    requires forall i, j ::
      0 <= i < |procs| && 0 <= j < |procs| && For(procs[i], tenant, key) && For(procs[j], tenant, key) ==>
        procs[i].job.tried == [] || procs[j].job.tried == [] || i == j
    ensures |CallsFor(procs, tenant, key)| <= max && Distinct(CallsFor(procs, tenant, key))
    ensures CallsFor(procs, tenant, key) != [] ==> exists i :: 0 <= i < |procs| && For(procs[i], tenant, key) && procs[i].job.tried != []
  {
    if procs != [] {
      var init, k := procs[..|procs| - 1], |procs| - 1;
      OnlyOneCalls(init, tenant, key, max);
      if CallsFor(init, tenant, key) != [] {
        var i :| 0 <= i < |init| && For(init[i], tenant, key) && init[i].job.tried != [];
        assert procs[i] == init[i];
        assert For(procs[k], tenant, key) ==> procs[k].job.tried == [];
      } else if CallsFor(procs, tenant, key) != [] {
        assert For(procs[k], tenant, key) && procs[k].job.tried != [];
      }
    }
  }

  /** All of them together call at most MaxAttempts providers, with pairwise distinct names. */
  lemma ProviderCallsBounded(c: Setup, sys: Sys, tenant: string, key: string)
    requires Reached(c, sys)
    ensures |CallsFor(sys.procs, tenant, key)| <= c.maxAttempts && Distinct(CallsFor(sys.procs, tenant, key))
  {
    ReachedFits(c, sys);
    forall i | 0 <= i < |sys.procs|
      ensures |sys.procs[i].job.tried| <= c.maxAttempts && Distinct(sys.procs[i].job.tried)
      ensures sys.procs[i].job.tried != [] ==> sys.procs[i].owner
    {
      assert ProcFits(c, sys.store, sys.procs[i]);
    }
    forall i, j | 0 <= i < |sys.procs| && 0 <= j < |sys.procs| && For(sys.procs[i], tenant, key) && For(sys.procs[j], tenant, key)
      ensures sys.procs[i].job.tried == [] || sys.procs[j].job.tried == [] || i == j
    {
      if sys.procs[i].job.tried != [] && sys.procs[j].job.tried != [] { SameSlotSameOwner(c, sys, i, j); }
    }
    OnlyOneCalls(sys.procs, tenant, key, c.maxAttempts);
  }

  /** What one part of a run wrote, every later part still finds. */
  ghost predicate Kept(a: Core, b: Core) {
    && (forall id :: id in a.requests ==>
          && id in b.requests && b.requests[id].hash == a.requests[id].hash
          && (Terminal(a.requests[id].state) ==> b.requests[id] == a.requests[id]))
    && (forall slot :: slot in a.index ==> slot in b.index && b.index[slot] == a.index[slot])
  }

  lemma NextKeeps(c: Setup, sys: Sys, a: Action)
    ensures Kept(sys.store.Core(), Next(c, sys, a).store.Core())
    ensures Next(c, sys, a).store.Sql? == sys.store.Sql?
  {
    match a
    case CancelBy(tenant, id, ctx, fault) => EveryCallIsLegal(sys.store, Cancel(tenant, id), ctx, fault);
    case Run(pid, ch) =>
      if pid < |sys.procs| && AsksStore(sys.procs[pid].pc) {
        EveryCallIsLegal(sys.store, CallOf(sys.procs[pid], ch), ch.ctx, ch.fault);
      }
    case _ =>
  }

  /** The state after more actions. */
  ghost function Continue(c: Setup, sys: Sys, more: seq<Action>): Sys {
    if more == [] then sys else Next(c, Continue(c, sys, more[..|more| - 1]), more[|more| - 1])
  }

  lemma {:induction false} ContinueKeeps(c: Setup, sys: Sys, more: seq<Action>)
    ensures Kept(sys.store.Core(), Continue(c, sys, more).store.Core())
    ensures Continue(c, sys, more).store.Sql? == sys.store.Sql?
  {
    if more != [] {
      ContinueKeeps(c, sys, more[..|more| - 1]);
      NextKeeps(c, Continue(c, sys, more[..|more| - 1]), more[|more| - 1]);
    }
  }

  /** A submission about to be created, with an undisturbed store that allows its model. */
  ghost predicate AboutToCreate(s: Store, p: Proc, ch: Choice) {
    p.pc.Creating? && Quiet(s, ch.fault) && (s.Sql? ==> (p.job.input.tenant, p.job.input.model) in s.db.models)
  }

  /** What a taken slot answers. */
  lemma TakenSlotAnswers(c: Setup, s: Store, p: Proc, ch: Choice, id: Id)
    requires AboutToCreate(s, p, ch) && id in s.Core().requests
    requires var slot := s.SlotFor(p.job.input.tenant, p.job.input.key); slot in s.Core().index && s.Core().index[slot] == id
    ensures Step(c, s, p, ch).0 == s && Step(c, s, p, ch).1.job == p.job
    ensures var r := s.Core().requests[id];
      Step(c, s, p, ch).1.pc ==
        if r.hash != p.job.input.hash then Returning(CreateFailed(Conflict), 0)
        else Returning(Replayed(id, r, !(r.response.Some? && r.state == Completed)), 0)
  {
  }

  lemma CompletedHasResponse(c: Setup, sys: Sys, id: Id)
    requires Inv(c, sys) && id in sys.store.Core().requests && sys.store.Core().requests[id].state == Completed
    ensures sys.store.Core().requests[id].response.Some?
  {
    assert !Orphan(sys.store, id);
    var i :| Owns(sys.procs, i, id);
    assert ProcFits(c, sys.store, sys.procs[i]);
  }

  ghost predicate SameRequestAs(p: Proc, r: Record) {
    p.job.input.tenant == r.tenant && p.job.input.key == r.key
  }

  /** The slot of a stored request leads to it for ever, and a completed row stays as it is. */
  lemma SlotStaysTaken(c: Setup, sys: Sys, id: Id, more: seq<Action>)
    requires Reached(c, sys) && id in sys.store.Core().requests
    ensures var r, later := sys.store.Core().requests[id], Continue(c, sys, more).store;
      var slot := later.SlotFor(r.tenant, r.key);
      && id in later.Core().requests && slot in later.Core().index && later.Core().index[slot] == id
      && later.Core().requests[id].hash == r.hash
      && (r.state == Completed ==> r.response.Some? && later.Core().requests[id] == r)
  {
    ReachedFits(c, sys);
    if sys.store.Core().requests[id].state == Completed { CompletedHasResponse(c, sys, id); }
    ContinueKeeps(c, sys, more);
  }

  /** Once a key is taken, the same key with another payload is refused as a conflict at every later time. */
  lemma OtherPayloadConflicts(c: Setup, sys: Sys, id: Id, more: seq<Action>, p: Proc, ch: Choice)
    requires Reached(c, sys) && id in sys.store.Core().requests && SameRequestAs(p, sys.store.Core().requests[id])
    requires p.job.input.hash != sys.store.Core().requests[id].hash && AboutToCreate(Continue(c, sys, more).store, p, ch)
    ensures var later := Continue(c, sys, more).store;
      Step(c, later, p, ch).0 == later && Step(c, later, p, ch).1.pc == Returning(CreateFailed(Conflict), 0)
  {
    SlotStaysTaken(c, sys, id, more);
    TakenSlotAnswers(c, Continue(c, sys, more).store, p, ch, id);
  }

  /** Once a request is COMPLETED, every identical submission is answered with its stored response and calls no provider. */
  lemma CompletedIsReplayed(c: Setup, sys: Sys, id: Id, more: seq<Action>, p: Proc, ch: Choice)
    requires Reached(c, sys) && id in sys.store.Core().requests && sys.store.Core().requests[id].state == Completed
    requires SameRequestAs(p, sys.store.Core().requests[id]) && p.job.input.hash == sys.store.Core().requests[id].hash
    requires AboutToCreate(Continue(c, sys, more).store, p, ch)
    ensures var record, later := sys.store.Core().requests[id], Continue(c, sys, more).store;
      && record.response.Some?
      && Step(c, later, p, ch).0 == later
      && Step(c, later, p, ch).1.pc == Returning(Replayed(id, record, false), 0)
      && Step(c, later, p, ch).1.job == p.job
  {
    SlotStaysTaken(c, sys, id, more);
    TakenSlotAnswers(c, Continue(c, sys, more).store, p, ch, id);
  }

  // Streaming

  lemma {:induction false} JoinOfOne(streams: seq<string>)
    requires forall i :: 0 <= i < |streams| - 1 ==> |streams[i]| == 0
    ensures Join(streams) == if streams == [] then "" else streams[|streams| - 1]
  {
    if |streams| > 1 {
      JoinOfOne(streams[..|streams| - 1]);
      assert Join(streams[..|streams| - 1]) == "";
    } else if |streams| == 1 {
      assert streams[..0] == [];
    }
  }

  /** What was handed over, against the stored row. */
  ghost predicate StreamTold(p: Proc, r: Record) {
    && (r.state == Completed && p.job.input.stream ==> r.response.Some? && r.response.value.content == p.job.handed)
    && (r.state == Failed ==> (r.partial <==> p.job.handed != ""))
  }

  predicate FromOneAttempt(max: nat, job: Job) {
    && job.handed == Join(job.streams) && |job.handed| <= max
    && (forall a, b :: 0 <= a < b < |job.streams| ==> job.streams[a] == "" || job.streams[b] == "")
  }

  lemma OneStreamIsOneAttempt(max: nat, job: Job)
    requires OneStream(max, job)
    ensures FromOneAttempt(max, job)
  {
    JoinOfOne(job.streams);
  }

  lemma FittingIsTold(p: Proc, r: Record)
    requires StreamFits(p, r)
    ensures StreamTold(p, r)
  {
  }

  /**
   * All content a request ever handed to its emitter came from one attempt and is within the bound. It is
   * the stored content when the request is COMPLETED; when it is FAILED the partial flag tells whether there was any.
   */
  lemma StreamingSafety(c: Setup, sys: Sys, i: nat)
    requires Reached(c, sys) && i < |sys.procs| && sys.procs[i].owner
    ensures var p := sys.procs[i];
      FromOneAttempt(c.maxStreamBytes, p.job) && p.id in sys.store.Core().requests && StreamTold(p, sys.store.Core().requests[p.id])
  {
    ReachedFits(c, sys);
    assert ProcFits(c, sys.store, sys.procs[i]);
    OneStreamIsOneAttempt(c.maxStreamBytes, sys.procs[i].job);
    FittingIsTold(sys.procs[i], sys.store.Core().requests[sys.procs[i].id]);
  }

  // Lifecycles

  lemma ActionIsLegal(c: Setup, sys: Sys, a: Action)
    ensures LegalStep(sys.store.Core(), Next(c, sys, a).store.Core())
  {
    match a
    case Run(pid, ch) =>
      if pid < |sys.procs| && AsksStore(sys.procs[pid].pc) {
        EveryCallIsLegal(sys.store, CallOf(sys.procs[pid], ch), ch.ctx, ch.fault);
      }
    case CancelBy(tenant, id, ctx, fault) => EveryCallIsLegal(sys.store, Cancel(tenant, id), ctx, fault);
    case _ =>
  }

  /** The request rows after each action of a run. */
  ghost function CoresAlong(c: Setup, s: Store, actions: seq<Action>): (r: seq<Core>)
    ensures |r| == |actions| + 1 && forall k :: 0 <= k < |r| ==> r[k] == After(c, s, actions[..k]).store.Core()
  {
    seq(|actions| + 1, k requires 0 <= k <= |actions| => After(c, s, actions[..k]).store.Core())
  }

  lemma PrefixStepIsLegal(c: Setup, s: Store, actions: seq<Action>, k: nat)
    requires k < |actions|
    ensures LegalStep(After(c, s, actions[..k]).store.Core(), After(c, s, actions[..k + 1]).store.Core())
  {
    assert actions[..k + 1][..k] == actions[..k];
    ActionIsLegal(c, After(c, s, actions[..k]), actions[k]);
  }

  lemma AlongIsLegal(c: Setup, s: Store, actions: seq<Action>, from: nat)
    requires from <= |actions|
    ensures LegalRun(CoresAlong(c, s, actions)[from..])
  {
    var run := CoresAlong(c, s, actions)[from..];
    forall i, j | 0 <= i < j < |run| && j == i + 1 ensures LegalStep(run[i], run[j]) {
      PrefixStepIsLegal(c, s, actions, from + i);
    }
  }

  /** In every run the distinct states of a stored request form a path of the transition table, of at most five states. */
  lemma EveryLifeIsAPath(c: Setup, s: Store, actions: seq<Action>, from: nat, id: Id)
    requires from <= |actions| && id in CoresAlong(c, s, actions)[from].requests
    ensures var run := CoresAlong(c, s, actions)[from..];
      && (forall k :: 0 <= k < |run| ==> id in run[k].requests)
      && Path(Compress(History(run, id))) && |Compress(History(run, id))| <= 5
  {
    var run := CoresAlong(c, s, actions)[from..];
    AlongIsLegal(c, s, actions, from);
    forall k | 0 <= k < |run| ensures id in run[k].requests {
      RowsPersist(run, 0, k, id);
    }
    HistoryIsPath(run, id);
  }
}
