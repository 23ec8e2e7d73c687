/** Any number of submissions and cancellations over one store: the inductive invariant of every run. */
module Cluster {
  import opened Base
  import opened Budget
  import opened Request
  import opened Stores
  import opened GatewaySpec
  import opened Protocol
  import opened Ownership
  import M = MemorySpec
  import P = PostgresSpec

  /** The shared store, every submission ever made, and how far each tenant's settled cost ran over its reservations. */
  datatype Sys = Sys(store: Store, procs: seq<Proc>, excess: map<string, int>)

  /** A submission that is never scheduled again has crashed, so runs cover crashes at every step. */
  datatype Action =
    | Submit(input: Input)
    | Run(pid: nat, choice: Choice)
    | CancelBy(tenant: string, id: Id, ctx: Context, fault: P.Fault)
    | Background(db: P.Db)

  predicate EvaluationFact(e: P.Event) {
    e.fact.EvaluationCompleted? || e.fact.EvaluationFailed?
  }

  /** What relays, consumers and the evaluation services may change: their own columns and tables, and new evaluation facts. */
  ghost predicate SameGateway(db: P.Db, db': P.Db) {
    && db' == db.(events := db'.events, rows := db'.rows, projection := db'.projection)
    && db.events <= db'.events
    && (forall i :: |db.events| <= i < |db'.events| ==> EvaluationFact(db'.events[i]))
  }

  function Overrun(p: Proc): int {
    if p.pc.Settling? && p.pc.cost > p.job.reserved then p.pc.cost - p.job.reserved else 0
  }

  ghost function Next(c: Setup, sys: Sys, a: Action): Sys {
    match a
    case Submit(input) => sys.(procs := sys.procs + [Submitted(input)])
    case Run(pid, ch) =>
      if pid >= |sys.procs| then sys else
        var p := sys.procs[pid];
        var (s', p') := Step(c, sys.store, p, ch);
        Sys(s', sys.procs[pid := p'], sys.excess[p.job.input.tenant := Get(sys.excess, p.job.input.tenant) + Overrun(p)])
    case CancelBy(tenant, id, ctx, fault) => sys.(store := Ask(sys.store, Cancel(tenant, id), ctx, fault).0)
    case Background(db) =>
      if sys.store.Sql? && SameGateway(sys.store.db, db) then sys.(store := Sql(db)) else sys
  }

  ghost function After(c: Setup, s: Store, actions: seq<Action>): Sys {
    if actions == [] then Sys(s, [], map[])
    else Next(c, After(c, s, actions[..|actions| - 1]), actions[|actions| - 1])
  }

  /** A store no request was ever made to. */
  ghost predicate Unused(s: Store) {
    match s
    case InMemory(mem) => mem == M.EMPTY.(policies := mem.policies)
    case Sql(db) => db == P.Opened(db.models, db.providers, db.policies)
  }

  // The invariant

  ghost predicate StoreOk(s: Store) {
    && (forall id :: id in s.Core().requests ==>
          var slot := s.SlotFor(s.Core().requests[id].tenant, s.Core().requests[id].key);
          slot in s.Core().index && s.Core().index[slot] == id)
    && (forall slot :: slot in s.Core().index ==> s.Core().index[slot] in s.Core().requests)
    && (forall id :: !s.Unreserved(id) ==> id in s.Core().requests)
    && (s.Sql? ==> forall k :: k in s.db.attempts ==> k.0 in s.Core().requests)
    && (s.InMemory? ==> forall id :: id in s.mem.attempts ==> id in s.Core().requests)
  }

  /** In memory too, attempts are numbered from one and the next number is free. */
  ghost predicate TakesFit(p: Proc, a: Takes) {
    && (p.id in a ==> forall n :: n in a[p.id] ==> 0 < n <= p.attempt)
    && (p.pc.Selecting? || p.pc.Starting? ==> p.id !in a || p.attempt !in a[p.id])
    && (p.pc.Calling? || p.pc.Completing? ==> p.id in a)
  }

  type Takes = map<Id, map<nat, M.Attempted>>

  ghost predicate OwnerFits(s: Store, p: Proc) {
    p.owner ==>
      && p.id in s.Core().requests
      && RowFits(p, s.Core().requests[p.id])
      && HoldFits(p, s.Held(p.id), s.Unreserved(p.id))
      && (s.Sql? ==> TriesFit(p, IsCompleted(s.db, p.id), s.db.attempts))
      && (s.InMemory? ==> TakesFit(p, s.mem.attempts))
  }

  ghost predicate ProcFits(c: Setup, s: Store, p: Proc) {
    Local(c, p) && OwnerFits(s, p)
  }

  ghost predicate Owns(procs: seq<Proc>, i: int, id: Id) {
    0 <= i < |procs| && procs[i].owner && procs[i].id == id
  }

  /** A request whose creator never learned of it: it was received, and at most cancelled since. */
  ghost predicate Orphan(s: Store, id: Id) {
    && id in s.Core().requests
    && s.Core().requests[id].state in {Received, Cancelled} && s.Core().requests[id].response == None
    && s.Held(id) == None
    && (s.Sql? ==> forall n: nat :: (id, n) !in s.db.attempts)
  }

  ghost predicate Inv(c: Setup, sys: Sys) {
    && StoreOk(sys.store)
    && (forall i :: 0 <= i < |sys.procs| ==> ProcFits(c, sys.store, sys.procs[i]))
    && (forall i, j, id :: Owns(sys.procs, i, id) && Owns(sys.procs, j, id) ==> i == j)
    && (forall id :: id in sys.store.Core().requests ==> Orphan(sys.store, id) || exists i :: Owns(sys.procs, i, id))
  }

  // What a call can change

  /** A call writes one existing row, or inserts one new row with its index entry, or leaves the core alone. */
  ghost predicate CoreChange(s: Store, s': Store, call: Call, ctx: Context) {
    var c, c' := s.Core(), s'.Core();
    && s'.Sql? == s.Sql?
    && (|| c' == c
        || (&& call.Create? && ctx.newId !in c.requests && s.SlotFor(call.tenant, call.key) !in c.index
            && c' == Core(c.requests[ctx.newId := NewRecord(call)], c.index[s.SlotFor(call.tenant, call.key) := ctx.newId]))
        || (&& !call.Create? && !call.LoadPolicy? && call.id in c.requests && call.id in c'.requests
            && c' == c.Put(call.id, c'.requests[call.id])
            && c'.requests[call.id].tenant == c.requests[call.id].tenant && c'.requests[call.id].key == c.requests[call.id].key))
  }

  lemma MemoryCoreChange(m: M.Mem, call: Call, ctx: Context)
    ensures CoreChange(InMemory(m), InMemory(M.Apply(m, call, ctx).0), call, ctx)
  {
  }

  lemma CommitCoreChange(db: P.Db, call: Call, ctx: Context)
    ensures CoreChange(Sql(db), Sql(P.Commit(db, call, ctx).0), call, ctx)
  {
  }

  /** Reservations and attempts appear only for the request they are asked for. */
  ghost predicate TablesChange(s: Store, s': Store, call: Call) {
    && (forall id :: !s'.Unreserved(id) ==> !s.Unreserved(id) || (call.Reserve? && call.id == id))
    && (s.Sql? && s'.Sql? ==> forall k :: k in s'.db.attempts ==> k in s.db.attempts || (call.Start? && call.id == k.0))
    && (s.InMemory? && s'.InMemory? ==>
          forall id :: id in s'.mem.attempts ==> id in s.mem.attempts || (call.Start? && call.id == id))
  }

  lemma MemoryTablesChange(m: M.Mem, call: Call, ctx: Context)
    ensures TablesChange(InMemory(m), InMemory(M.Apply(m, call, ctx).0), call)
  {
  }

  lemma CommitTablesChange(db: P.Db, call: Call, ctx: Context)
    ensures TablesChange(Sql(db), Sql(P.Commit(db, call, ctx).0), call)
  {
  }

  lemma Changes(s: Store, call: Call, ctx: Context, fault: P.Fault)
    ensures var s' := Ask(s, call, ctx, fault).0; CoreChange(s, s', call, ctx) && TablesChange(s, s', call)
  {
    match s
    case InMemory(m) =>
      MemoryCoreChange(m, call, ctx);
      MemoryTablesChange(m, call, ctx);
    case Sql(db) =>
      CommitCoreChange(db, call, ctx);
      CommitTablesChange(db, call, ctx);
  }

  // What a call leaves alone

  predicate Aims(call: Call, id: Id) {
    !call.Create? && !call.LoadPolicy? && call.id == id
  }

  ghost predicate SameTries(a: Attempts, a': Attempts, id: Id) {
    forall n: nat {:trigger (id, n) in a'} {:trigger (id, n) in a} ::
      ((id, n) in a' <==> (id, n) in a) && ((id, n) in a ==> a'[(id, n)] == a[(id, n)])
  }

  ghost predicate SameTakes(a: Takes, a': Takes, id: Id) {
    (id in a' <==> id in a) && (id in a ==> a'[id] == a[id])
  }

  ghost predicate SameRow(s: Store, s': Store, id: Id) {
    && s'.Sql? == s.Sql?
    && id in s.Core().requests && id in s'.Core().requests && s'.Core().requests[id] == s.Core().requests[id]
  }

  ghost predicate SameHold(s: Store, s': Store, id: Id) {
    s'.Held(id) == s.Held(id) && s'.Unreserved(id) == s.Unreserved(id)
  }

  /** Nothing about one request changed. */
  ghost predicate SameRequest(s: Store, s': Store, id: Id) {
    && SameRow(s, s', id) && SameHold(s, s', id)
    && (s.Sql? ==> SameTries(s.db.attempts, s'.db.attempts, id))
    && (s.InMemory? ==> SameTakes(s.mem.attempts, s'.mem.attempts, id))
  }

  lemma MemoryTriesFrame(m: M.Mem, call: Call, ctx: Context, id: Id)
    requires !Aims(call, id)
    ensures SameTakes(m.attempts, M.Apply(m, call, ctx).0.attempts, id)
  {
  }

  lemma MemoryHoldFrame(m: M.Mem, call: Call, ctx: Context, id: Id)
    requires !Aims(call, id)
    ensures SameHold(InMemory(m), InMemory(M.Apply(m, call, ctx).0), id)
  {
  }

  lemma CommitHoldFrame(db: P.Db, call: Call, ctx: Context, id: Id)
    requires !Aims(call, id)
    ensures SameHold(Sql(db), Sql(P.Commit(db, call, ctx).0), id)
  {
  }

  lemma CommitTriesFrame(db: P.Db, call: Call, ctx: Context, id: Id)
    requires !Aims(call, id)
    ensures SameTries(db.attempts, P.Commit(db, call, ctx).0.attempts, id)
  {
  }

  lemma AskFrame(s: Store, call: Call, ctx: Context, fault: P.Fault, id: Id)
    requires id in s.Core().requests && !Aims(call, id)
    ensures SameRequest(s, Ask(s, call, ctx, fault).0, id)
  {
    Changes(s, call, ctx, fault);
    match s
    case InMemory(m) =>
      MemoryTriesFrame(m, call, ctx, id);
      MemoryHoldFrame(m, call, ctx, id);
    case Sql(db) =>
      CommitHoldFrame(db, call, ctx, id);
      CommitTriesFrame(db, call, ctx, id);
  }

  lemma SameRequestFits(s: Store, s': Store, p: Proc)
    requires OwnerFits(s, p) && (p.owner ==> SameRequest(s, s', p.id))
    ensures OwnerFits(s', p)
  {
  }

  // A submission's own step

  lemma CallsAreWellFormed(c: Setup, s: Store, p: Proc, ch: Choice)
    requires ProcFits(c, s, p) && p.owner && AsksStore(p.pc)
    ensures WellFormed(s, CallOf(p, ch))
    ensures Aims(CallOf(p, ch), p.id) || p.pc.LoadingPolicy?
    ensures RowCall(CallOf(p, ch)) ==> s.Core().Holds(CallOf(p, ch).tenant, p.id)
  {
  }

  lemma OwnStepFitsRow(c: Setup, s: Store, p: Proc, ch: Choice, s': Store, reply: Reply, p': Proc)
    requires ProcFits(c, s, p) && p.owner && AsksStore(p.pc)
    requires (s', reply) == Ask(s, CallOf(p, ch), ch.ctx, ch.fault)
    requires p' == Resume(p, reply).(clean := p.clean && Quiet(s, ch.fault))
    ensures p.id in s'.Core().requests && RowFits(p', s'.Core().requests[p.id])
  {
    CallsAreWellFormed(c, s, p, ch);
    OwnRow(s, CallOf(p, ch), ch.ctx, ch.fault, p.id);
    ResumeFitsRow(c, p, ch, reply, s.Core().requests[p.id], s'.Core().requests[p.id], Quiet(s, ch.fault));
  }

  lemma OwnStepFitsHold(c: Setup, s: Store, p: Proc, ch: Choice, s': Store, reply: Reply, p': Proc)
    requires ProcFits(c, s, p) && p.owner && AsksStore(p.pc)
    requires (s', reply) == Ask(s, CallOf(p, ch), ch.ctx, ch.fault)
    requires p' == Resume(p, reply).(clean := p.clean && Quiet(s, ch.fault))
    ensures HoldFits(p', s'.Held(p.id), s'.Unreserved(p.id))
  {
    CallsAreWellFormed(c, s, p, ch);
    OwnHold(s, CallOf(p, ch), ch.ctx, ch.fault, p.id);
    ResumeFitsHold(c, p, ch, reply, s.Held(p.id), s.Unreserved(p.id), s'.Held(p.id), s'.Unreserved(p.id), Quiet(s, ch.fault));
  }

  lemma OwnStepFitsTries(c: Setup, db: P.Db, p: Proc, ch: Choice, db': P.Db, reply: Reply, p': Proc)
    requires ProcFits(c, Sql(db), p) && p.owner && AsksStore(p.pc)
    requires (db', reply) == P.Apply(db, CallOf(p, ch), ch.ctx, ch.fault)
    requires p' == Resume(p, reply).(clean := p'.clean)
    ensures TriesFit(p', IsCompleted(db', p.id), db'.attempts)
  {
    CallsAreWellFormed(c, Sql(db), p, ch);
    OwnTries(db, CallOf(p, ch), ch.ctx, ch.fault, p.id);
    ResumeFitsTries(c, p, ch, reply, db.attempts, db'.attempts, IsCompleted(db, p.id), IsCompleted(db', p.id), p'.clean);
  }

  lemma OwnStepFits(c: Setup, s: Store, p: Proc, ch: Choice)
    requires ProcFits(c, s, p) && p.owner && AsksStore(p.pc)
    ensures OwnerFits(Step(c, s, p, ch).0, Step(c, s, p, ch).1)
  {
    var (s', reply) := Ask(s, CallOf(p, ch), ch.ctx, ch.fault);
    var p' := Resume(p, reply).(clean := p.clean && Quiet(s, ch.fault));
    ResumeKeepsIdentity(p, reply);
    assert Step(c, s, p, ch) == (s', p');
    OwnStepFitsRow(c, s, p, ch, s', reply, p');
    OwnStepFitsHold(c, s, p, ch, s', reply, p');
    match s
    case InMemory(m) => OwnTakes(c, m, p, ch, p');
    case Sql(db) => OwnStepFitsTries(c, db, p, ch, s'.db, reply, p');
  }

  lemma ResumeKeepsIdentity(p: Proc, reply: Reply)
    requires AsksStore(p.pc) && !p.pc.Creating?
    ensures Resume(p, reply).owner == p.owner && Resume(p, reply).id == p.id && Resume(p, reply).clean == p.clean
  {
  }

  /** What a call does to the attempts recorded in memory. */
  predicate TakesEffect(a: Takes, a': Takes, call: Call, reply: Reply) {
    match call
    case Start(_, id, number, provider, _) =>
      || (a' == a && reply != Done)
      || (reply == Done && (id in a ==> number !in a[id])
          && a' == a[id := (if id in a then a[id] else map[])[number := M.Attempted(provider, false)]])
    case Complete(_, id, number, _, _) =>
      || a' == a
      || (id in a && id in a' && a' == a[id := a'[id]] && a'[id].Keys == a[id].Keys + {number})
    case _ => a' == a
  }

  lemma MemoryTakesEffect(m: M.Mem, call: Call, ctx: Context)
    ensures var (m', reply) := M.Apply(m, call, ctx); TakesEffect(m.attempts, m'.attempts, call, reply)
  {
  }

  lemma ResumeFitsEarlyTakes(c: Setup, p: Proc, ch: Choice, reply: Reply, a: Takes, a': Takes, p': Proc)
    requires Counts(c, p) && p.owner && AsksStore(p.pc) && BeforeLoop(p.pc) && TakesFit(p, a)
    requires TakesEffect(a, a', CallOf(p, ch), reply) && p' == Resume(p, reply).(clean := p'.clean)
    ensures TakesFit(p', a')
  {
  }

  lemma ResumeFitsLateTakes(c: Setup, p: Proc, ch: Choice, reply: Reply, a: Takes, a': Takes, p': Proc)
    requires Counts(c, p) && p.owner && AsksStore(p.pc) && !BeforeLoop(p.pc) && TakesFit(p, a)
    requires TakesEffect(a, a', CallOf(p, ch), reply) && p' == Resume(p, reply).(clean := p'.clean)
    ensures TakesFit(p', a')
  {
  }

  lemma ResumeFitsTakes(c: Setup, p: Proc, ch: Choice, reply: Reply, a: Takes, a': Takes, p': Proc)
    requires Counts(c, p) && p.owner && AsksStore(p.pc) && TakesFit(p, a)
    requires TakesEffect(a, a', CallOf(p, ch), reply) && p' == Resume(p, reply).(clean := p'.clean)
    ensures TakesFit(p', a')
  {
    if BeforeLoop(p.pc) {
      ResumeFitsEarlyTakes(c, p, ch, reply, a, a', p');
    } else {
      ResumeFitsLateTakes(c, p, ch, reply, a, a', p');
    }
  }

  lemma OwnTakes(c: Setup, m: M.Mem, p: Proc, ch: Choice, p': Proc)
    requires ProcFits(c, InMemory(m), p) && p.owner && AsksStore(p.pc)
    requires p' == Resume(p, M.Apply(m, CallOf(p, ch), ch.ctx).1).(clean := p'.clean)
    ensures TakesFit(p', M.Apply(m, CallOf(p, ch), ch.ctx).0.attempts)
  {
    MemoryTakesEffect(m, CallOf(p, ch), ch.ctx);
    ResumeFitsTakes(c, p, ch, M.Apply(m, CallOf(p, ch), ch.ctx).1, m.attempts, M.Apply(m, CallOf(p, ch), ch.ctx).0.attempts, p');
  }

  lemma OwnProceedFits(c: Setup, s: Store, p: Proc, ch: Choice)
    requires ProcFits(c, s, p) && p.owner && !AsksStore(p.pc)
    ensures OwnerFits(s, Proceed(c, p, ch))
  {
    ProceedFitsRow(c, p, ch, s.Core().requests[p.id]);
    ProceedFitsHold(c, p, ch, s.Held(p.id), s.Unreserved(p.id));
    ProceedKeepsIdentity(c, p, ch);
    if s.Sql? {
      ProceedFitsTries(c, p, ch, s.db.attempts, IsCompleted(s.db, p.id));
    }
  }

  lemma ProceedKeepsIdentity(c: Setup, p: Proc, ch: Choice)
    requires !AsksStore(p.pc)
    ensures var p' := Proceed(c, p, ch);
      && p'.owner == p.owner && p'.id == p.id && p'.job.input == p.job.input
      && (p'.pc.Completing? ==> p.pc.Calling?) && !p'.pc.Calling?
  {
  }

  lemma CreateStores(s: Store, call: Call, ctx: Context, fault: P.Fault)
    requires call.Create? && StoreOk(s)
    ensures var (s', reply) := Ask(s, call, ctx, fault);
      reply.Created? ==>
        && reply.id !in s.Core().requests && reply.id in s'.Core().requests && s'.Core().requests[reply.id] == NewRecord(call)
        && s'.Held(reply.id) == None && s'.Unreserved(reply.id) && s'.Sql? == s.Sql?
        && (s.Sql? ==> s'.db.attempts == s.db.attempts && forall n: nat :: (reply.id, n) !in s.db.attempts)
        && (s.InMemory? ==> reply.id !in s'.mem.attempts)
  {
    assert s.Unreserved(ctx.newId) || ctx.newId in s.Core().requests;
  }

  lemma NewOwnerFits(s: Store, p: Proc, call: Call)
    requires call.Create? && p.pc.Validating? && p.id in s.Core().requests && s.Core().requests[p.id] == NewRecord(call)
    requires p.job.input.tenant == call.tenant && p.job.input.key == call.key && p.job.input.hash == call.hash && |p.job.handed| == 0
    requires s.Held(p.id) == None && s.Unreserved(p.id)
    requires s.Sql? ==> forall n: nat :: (p.id, n) !in s.db.attempts
    requires s.InMemory? ==> p.id !in s.mem.attempts
    ensures OwnerFits(s, p)
  {
  }

  /** Creating makes the submission the owner of a request no one has touched, or of nothing. */
  lemma CreateFits(c: Setup, s: Store, p: Proc, ch: Choice)
    requires ProcFits(c, s, p) && p.pc.Creating? && StoreOk(s)
    ensures var (s', p') := Step(c, s, p, ch);
      OwnerFits(s', p') && (p'.owner ==> p'.id !in s.Core().requests)
  {
    var (s', p') := Step(c, s, p, ch);
    CreateStores(s, CallOf(p, ch), ch.ctx, ch.fault);
    if p'.owner { NewOwnerFits(s', p', CallOf(p, ch)); }
  }

  lemma StepFits(c: Setup, s: Store, p: Proc, ch: Choice)
    requires c.maxAttempts > 0 && ProcFits(c, s, p) && StoreOk(s)
    ensures ProcFits(c, Step(c, s, p, ch).0, Step(c, s, p, ch).1)
  {
    StepIsLocal(c, s, p, ch);
    if p.pc.Creating? {
      CreateFits(c, s, p, ch);
    } else if p.owner && AsksStore(p.pc) {
      OwnStepFits(c, s, p, ch);
    } else if p.owner {
      OwnProceedFits(c, s, p, ch);
    } else {
      assert Ended(p.pc);
    }
  }

  // Every action keeps the invariant

  lemma ChangesKeepStoreOk(s: Store, s': Store, call: Call, ctx: Context)
    requires StoreOk(s) && CoreChange(s, s', call, ctx) && TablesChange(s, s', call)
    requires call.Reserve? || call.Start? ==> call.id in s.Core().requests
    ensures StoreOk(s')
  {
  }

  /** An orphan stays one unless its own owner, which it does not have, acts on it. */
  lemma OrphanKept(s: Store, s': Store, id: Id)
    requires Orphan(s, id) && SameRequest(s, s', id)
    ensures Orphan(s', id)
  {
  }

  /** A row that a creation adds is nobody's until its creator hears of it. */
  lemma CreatedIsOrphan(s: Store, s': Store, call: Call, ctx: Context, id: Id)
    requires StoreOk(s) && CoreChange(s, s', call, ctx) && TablesChange(s, s', call)
    requires id !in s.Core().requests && id in s'.Core().requests
    ensures Orphan(s', id)
  {
    assert s.Unreserved(id);
    assert s'.Unreserved(id);
  }

  lemma RunKeepsProcs(c: Setup, sys: Sys, pid: nat, ch: Choice)
    requires c.maxAttempts > 0 && Inv(c, sys) && pid < |sys.procs|
    ensures var sys' := Next(c, sys, Run(pid, ch));
      forall i :: 0 <= i < |sys'.procs| ==> ProcFits(c, sys'.store, sys'.procs[i])
  {
    var p := sys.procs[pid];
    var (s', p') := Step(c, sys.store, p, ch);
    StepFits(c, sys.store, p, ch);
    forall i | 0 <= i < |sys.procs| && i != pid
      ensures ProcFits(c, s', sys.procs[i])
    {
      var q := sys.procs[i];
      if q.owner && AsksStore(p.pc) {
        assert Owns(sys.procs, i, q.id);
        if p.owner { assert Owns(sys.procs, pid, p.id); }
        OnlyOwnRequest(c, p, ch, q.id);
        AskFrame(sys.store, CallOf(p, ch), ch.ctx, ch.fault, q.id);
        SameRequestFits(sys.store, s', q);
      }
    }
  }

  /** A submission's calls aim at its own request, or at none. */
  lemma OnlyOwnRequest(c: Setup, p: Proc, ch: Choice, id: Id)
    requires Counts(c, p) && AsksStore(p.pc) && (p.owner ==> p.id != id)
    ensures !Aims(CallOf(p, ch), id)
  {
  }

  lemma RunKeepsStore(c: Setup, sys: Sys, pid: nat, ch: Choice)
    requires Inv(c, sys) && pid < |sys.procs|
    ensures StoreOk(Next(c, sys, Run(pid, ch)).store)
  {
    assert ProcFits(c, sys.store, sys.procs[pid]);
    StepKeepsStore(c, sys.store, sys.procs[pid], ch);
  }

  lemma StepKeepsStore(c: Setup, s: Store, p: Proc, ch: Choice)
    requires StoreOk(s) && ProcFits(c, s, p)
    ensures StoreOk(Step(c, s, p, ch).0)
  {
    if AsksStore(p.pc) {
      var call := CallOf(p, ch);
      Changes(s, call, ch.ctx, ch.fault);
      ChangesKeepStoreOk(s, Ask(s, call, ch.ctx, ch.fault).0, call, ch.ctx);
    }
  }

  lemma StepKeepsIdentity(c: Setup, s: Store, p: Proc, ch: Choice)
    requires Counts(c, p)
    ensures var p' := Step(c, s, p, ch).1;
      && p'.job.input == p.job.input
      && (p.owner ==> p'.owner && p'.id == p.id)
      && (!p.owner && p'.owner ==> p.pc.Creating?)
  {
    if AsksStore(p.pc) {
      ResumeKeepsWork(p, Ask(s, CallOf(p, ch), ch.ctx, ch.fault).1, true);
    } else {
      ProceedKeepsIdentity(c, p, ch);
    }
  }

  /** A step changes one submission, which keeps what it owns and may come to own a new request. */
  ghost predicate OneOwnerMoved(procs: seq<Proc>, procs': seq<Proc>, pid: nat, requests: map<Id, Record>) {
    && pid < |procs| && |procs'| == |procs| && procs' == procs[pid := procs'[pid]]
    && (procs[pid].owner ==> procs'[pid].owner && procs'[pid].id == procs[pid].id)
    && (!procs[pid].owner && procs'[pid].owner ==> procs'[pid].id !in requests)
  }

  lemma RunMovesOneOwner(c: Setup, sys: Sys, pid: nat, ch: Choice)
    requires Inv(c, sys) && pid < |sys.procs|
    ensures OneOwnerMoved(sys.procs, Next(c, sys, Run(pid, ch)).procs, pid, sys.store.Core().requests)
  {
    var p := sys.procs[pid];
    assert ProcFits(c, sys.store, p);
    StepKeepsIdentity(c, sys.store, p, ch);
    if p.pc.Creating? {
      CreateFits(c, sys.store, p, ch);
    }
  }

  lemma OwnersStayUnique(procs: seq<Proc>, procs': seq<Proc>, pid: nat, requests: map<Id, Record>)
    requires OneOwnerMoved(procs, procs', pid, requests)
    requires forall i :: 0 <= i < |procs| && procs[i].owner ==> procs[i].id in requests
    requires forall i, j, id :: Owns(procs, i, id) && Owns(procs, j, id) ==> i == j
    ensures forall i, j, id :: Owns(procs', i, id) && Owns(procs', j, id) ==> i == j
    ensures forall i, id :: Owns(procs, i, id) ==> Owns(procs', i, id)
  {
    forall i, j, id | Owns(procs', i, id) && Owns(procs', j, id) ensures i == j {
      if i != pid { assert Owns(procs, i, id); }
      if j != pid { assert Owns(procs, j, id); }
      if procs[pid].owner { assert Owns(procs, pid, procs[pid].id); }
    }
  }

  lemma RunKeepsOwners(c: Setup, sys: Sys, pid: nat, ch: Choice)
    requires Inv(c, sys) && pid < |sys.procs|
    ensures var procs' := Next(c, sys, Run(pid, ch)).procs;
      && (forall i, j, id :: Owns(procs', i, id) && Owns(procs', j, id) ==> i == j)
      && (forall i, id :: Owns(sys.procs, i, id) ==> Owns(procs', i, id))
  {
    RunMovesOneOwner(c, sys, pid, ch);
    forall i | 0 <= i < |sys.procs| && sys.procs[i].owner ensures sys.procs[i].id in sys.store.Core().requests {
      assert ProcFits(c, sys.store, sys.procs[i]);
    }
    OwnersStayUnique(sys.procs, Next(c, sys, Run(pid, ch)).procs, pid, sys.store.Core().requests);
  }

  lemma RunKeepsOrphans(c: Setup, sys: Sys, pid: nat, ch: Choice, id: Id)
    requires Inv(c, sys) && pid < |sys.procs|
    requires id in Next(c, sys, Run(pid, ch)).store.Core().requests
    ensures var sys' := Next(c, sys, Run(pid, ch)); Orphan(sys'.store, id) || exists i :: Owns(sys'.procs, i, id)
  {
    var p, sys' := sys.procs[pid], Next(c, sys, Run(pid, ch));
    RunKeepsOwners(c, sys, pid, ch);
    if i :| Owns(sys.procs, i, id) {
      assert Owns(sys'.procs, i, id);
    } else if AsksStore(p.pc) {
      var call := CallOf(p, ch);
      if p.owner { assert Owns(sys.procs, pid, p.id); }
      if id in sys.store.Core().requests {
        OnlyOwnRequest(c, p, ch, id);
        AskFrame(sys.store, call, ch.ctx, ch.fault, id);
        OrphanKept(sys.store, sys'.store, id);
      } else {
        Changes(sys.store, call, ch.ctx, ch.fault);
        CreatedIsOrphan(sys.store, sys'.store, call, ch.ctx, id);
      }
    }
  }

  lemma CancelOwnerFits(c: Setup, s: Store, p: Proc, tenant: string, id: Id, ctx: Context, fault: P.Fault)
    requires ProcFits(c, s, p)
    ensures ProcFits(c, Ask(s, Cancel(tenant, id), ctx, fault).0, p)
  {
    var s' := Ask(s, Cancel(tenant, id), ctx, fault).0;
    if p.owner && p.id == id {
      CancelledRow(s, tenant, id, ctx, fault);
      CancelFitsRow(p, s.Core().requests[id], s'.Core().requests[id]);
    } else if p.owner {
      AskFrame(s, Cancel(tenant, id), ctx, fault, p.id);
      SameRequestFits(s, s', p);
    }
  }

  lemma CancelKeepsOrphan(s: Store, orphan: Id, tenant: string, id: Id, ctx: Context, fault: P.Fault)
    requires Orphan(s, orphan)
    ensures Orphan(Ask(s, Cancel(tenant, id), ctx, fault).0, orphan)
  {
    if orphan == id {
      CancelledRow(s, tenant, id, ctx, fault);
    } else {
      AskFrame(s, Cancel(tenant, id), ctx, fault, orphan);
      OrphanKept(s, Ask(s, Cancel(tenant, id), ctx, fault).0, orphan);
    }
  }

  lemma CancelKeeps(c: Setup, sys: Sys, tenant: string, id: Id, ctx: Context, fault: P.Fault)
    requires Inv(c, sys)
    ensures Inv(c, Next(c, sys, CancelBy(tenant, id, ctx, fault)))
  {
    var s, s' := sys.store, Next(c, sys, CancelBy(tenant, id, ctx, fault)).store;
    Changes(s, Cancel(tenant, id), ctx, fault);
    ChangesKeepStoreOk(s, s', Cancel(tenant, id), ctx);
    forall i | 0 <= i < |sys.procs|
      ensures ProcFits(c, s', sys.procs[i])
    {
      CancelOwnerFits(c, s, sys.procs[i], tenant, id, ctx, fault);
    }
    forall other | other in s.Core().requests && Orphan(s, other)
      ensures Orphan(s', other)
    {
      CancelKeepsOrphan(s, other, tenant, id, ctx, fault);
    }
  }

  /** A cancellation touches nothing but the state of its own open row. */
  lemma CancelledRow(s: Store, tenant: string, id: Id, ctx: Context, fault: P.Fault)
    ensures var s' := Ask(s, Cancel(tenant, id), ctx, fault).0;
      && (id in s.Core().requests ==> id in s'.Core().requests)
      && (id in s.Core().requests ==>
            var r, r' := s.Core().requests[id], s'.Core().requests[id];
            r' == r || (!Terminal(r.state) && Wrote(r, r', Cancel(r.tenant, 0))))
      && s' == (match s case InMemory(m) => InMemory(m.(core := s'.Core())) case Sql(db) => Sql(db.(core := s'.Core())))
  {
  }

  lemma BackgroundSameRequest(db: P.Db, db': P.Db, id: Id)
    requires SameGateway(db, db') && id in db.core.requests
    ensures SameRequest(Sql(db), Sql(db'), id)
  {
  }

  lemma BackgroundStoreOk(db: P.Db, db': P.Db)
    requires SameGateway(db, db') && StoreOk(Sql(db))
    ensures StoreOk(Sql(db'))
  {
  }

  lemma BackgroundKeeps(c: Setup, sys: Sys, db: P.Db)
    requires Inv(c, sys)
    ensures Inv(c, Next(c, sys, Background(db)))
  {
    if sys.store.Sql? && SameGateway(sys.store.db, db) {
      var s, s' := sys.store, Sql(db);
      BackgroundStoreOk(s.db, db);
      forall i | 0 <= i < |sys.procs|
        ensures ProcFits(c, s', sys.procs[i])
      {
        assert ProcFits(c, s, sys.procs[i]);
        if sys.procs[i].owner { BackgroundSameRequest(s.db, db, sys.procs[i].id); }
        SameRequestFits(s, s', sys.procs[i]);
      }
      forall id | id in s.Core().requests && Orphan(s, id)
        ensures Orphan(s', id)
      {
        BackgroundSameRequest(s.db, db, id);
        OrphanKept(s, s', id);
      }
    }
  }

  lemma SubmitKeeps(c: Setup, sys: Sys, input: Input)
    requires Inv(c, sys)
    ensures Inv(c, Next(c, sys, Submit(input)))
  {
    var sys' := Next(c, sys, Submit(input));
    SubmittedIsLocal(c, input);
    assert forall i, id :: Owns(sys'.procs, i, id) <==> Owns(sys.procs, i, id);
  }

  lemma EveryActionKeeps(c: Setup, sys: Sys, a: Action)
    requires c.maxAttempts > 0 && Inv(c, sys)
    ensures Inv(c, Next(c, sys, a))
  {
    match a
    case Submit(input) => SubmitKeeps(c, sys, input);
    case CancelBy(tenant, id, ctx, fault) => CancelKeeps(c, sys, tenant, id, ctx, fault);
    case Background(db) => BackgroundKeeps(c, sys, db);
    case Run(pid, ch) =>
      if pid < |sys.procs| {
        RunKeepsProcs(c, sys, pid, ch);
        RunKeepsStore(c, sys, pid, ch);
        RunKeepsOwners(c, sys, pid, ch);
        forall id | id in Next(c, sys, a).store.Core().requests
          ensures Orphan(Next(c, sys, a).store, id) || exists i :: Owns(Next(c, sys, a).procs, i, id)
        {
          RunKeepsOrphans(c, sys, pid, ch, id);
        }
      }
  }

  /** The invariant holds after every sequence of actions, on either store. */
  lemma {:induction false} Invariant(c: Setup, s: Store, actions: seq<Action>)
    requires c.maxAttempts > 0 && Unused(s)
    ensures Inv(c, After(c, s, actions))
  {
    if actions != [] {
      var init := actions[..|actions| - 1];
      Invariant(c, s, init);
      EveryActionKeeps(c, After(c, s, init), actions[|actions| - 1]);
    }
  }

  /** A state that some run from an unused store leads to. */
  ghost predicate Reached(c: Setup, sys: Sys) {
    c.maxAttempts > 0 && exists s, actions :: Unused(s) && sys == After(c, s, actions)
  }

  lemma ReachedFits(c: Setup, sys: Sys)
    requires Reached(c, sys)
    ensures Inv(c, sys)
  {
    var s, actions :| Unused(s) && sys == After(c, s, actions);
    Invariant(c, s, actions);
  }
}
