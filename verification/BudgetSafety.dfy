/** The in-memory store never lets used plus reserved money pass the limit, over all interleavings of submissions and cancels. */
module BudgetSafety {
  import opened Base
  import opened Budget
  import opened Request
  import opened Lifecycle
  import opened Stores
  import opened GatewaySpec
  import opened Protocol
  import opened Ownership
  import opened Cluster
  import opened MemorySpec
  import P = PostgresSpec

  /** Money committed or held for a tenant, against its limit and what settled costs ran over their reservations. */
  ghost predicate Within(m: Mem, tenant: string, limit: int, excess: int) {
    && 0 <= UsedBy(m.used, tenant) && 0 <= Active(m, tenant)
    && UsedBy(m.used, tenant) + Active(m, tenant) <= limit + excess
  }

  ghost predicate Solvent(m: Mem, excess: map<string, int>) {
    && (forall id :: id in m.reservations ==> m.reservations[id] >= 0)
    && (forall t :: t in excess ==> excess[t] >= 0)
    && (forall t :: t in m.policies && m.policies[t].monthly > 0 && m.policies[t].monthly + Get(excess, t) <= MAX_INT64 ==>
          Within(m, t, m.policies[t].monthly, Get(excess, t)))
  }

  lemma ActiveNonNegative(m: Mem, t: string)
    requires forall id :: id in m.reservations ==> m.reservations[id] >= 0
    ensures 0 <= Active(m, t)
  {
    SumNonNegative(HeldBy(m.reservations, m.core.requests, t));
  }

  /** Calls other than reserve and reconcile move no money. */
  lemma OtherCallsMoveNothing(m: Mem, call: Call, ctx: Context)
    requires !call.Reserve? && !call.Reconcile?
    ensures var m' := Apply(m, call, ctx).0;
      m'.reservations == m.reservations && m'.used == m.used && m'.policies == m.policies
  {
  }

  lemma SameTenantsSameActive(m: Mem, m': Mem, t: string)
    requires m'.reservations == m.reservations
    requires forall id :: id in m.reservations ==>
      id in m.core.requests && id in m'.core.requests && m'.core.requests[id].tenant == m.core.requests[id].tenant
    ensures Active(m', t) == Active(m, t)
  {
    assert HeldBy(m'.reservations, m'.core.requests, t) == HeldBy(m.reservations, m.core.requests, t);
  }

  lemma OtherCallsKeepSolvent(m: Mem, call: Call, ctx: Context, excess: map<string, int>)
    requires Solvent(m, excess) && StoreOk(InMemory(m)) && !call.Reserve? && !call.Reconcile?
    ensures Solvent(Apply(m, call, ctx).0, excess)
  {
    var m' := Apply(m, call, ctx).0;
    OtherCallsMoveNothing(m, call, ctx);
    EveryCallIsLegal(InMemory(m), call, ctx, P.NoFault);
    forall id | id in m.reservations
      ensures id in m.core.requests
    {
      assert !InMemory(m).Unreserved(id);
    }
    forall t
      ensures Active(m', t) == Active(m, t)
    {
      SameTenantsSameActive(m, m', t);
    }
  }

  /** Adding a reservation of one tenant's own request. */
  lemma ReservedActive(m: Mem, id: Id, amount: int64, t: string)
    requires id !in m.reservations && id in m.core.requests
    ensures var m' := m.(reservations := m.reservations[id := amount]);
      Active(m', t) == Active(m, t) + if m.core.requests[id].tenant == t then amount else 0
  {
    var m' := m.(reservations := m.reservations[id := amount]);
    var held, held' := HeldBy(m.reservations, m.core.requests, t), HeldBy(m'.reservations, m.core.requests, t);
    if m.core.requests[id].tenant == t {
      assert held' == held[id := amount];
      SumUpdate(held, id, amount);
    } else {
      assert held' == held;
    }
  }

  lemma ReserveKeepsSolvent(m: Mem, call: Call, ctx: Context, excess: map<string, int>)
    requires Solvent(m, excess) && call.Reserve? && call.amount >= 0
    requires m.core.Holds(call.tenant, call.id) && call.id !in m.reservations
    ensures Solvent(Apply(m, call, ctx).0, excess)
  {
    var m' := Apply(m, call, ctx).0;
    if m' != m {
      forall t | t in m.policies && m.policies[t].monthly > 0 && m.policies[t].monthly + Get(excess, t) <= MAX_INT64
        ensures Within(m', t, m.policies[t].monthly, Get(excess, t))
      {
        assert Within(m, t, m.policies[t].monthly, Get(excess, t));
        ReservedActive(m, call.id, call.amount, t);
      }
    }
  }

  lemma ReleasedActive(m: Mem, id: Id, t: string)
    requires id in m.reservations && id in m.core.requests
    ensures Active(m.(reservations := m.reservations - {id}), t)
      == Active(m, t) - if m.core.requests[id].tenant == t then m.reservations[id] else 0
  {
    var held := HeldBy(m.reservations, m.core.requests, t);
    assert HeldBy(m.reservations - {id}, m.core.requests, t) == held - {id};
    SumDelete(held, id);
  }

  /** Settling swaps a reservation for the actual cost; what runs over is booked as excess. */
  lemma ReconcileKeepsSolvent(m: Mem, id: Id, actual: int64, ctx: Context, excess: map<string, int>, excess': map<string, int>)
    requires Solvent(m, excess) && id in m.core.requests && id in m.reservations && actual >= 0
    requires var t := m.core.requests[id].tenant;
      excess' == excess[t := Get(excess, t) + if actual > m.reservations[id] then actual - m.reservations[id] else 0]
    ensures Solvent(Apply(m, Reconcile(id, actual), ctx).0, excess')
  {
    var m' := Apply(m, Reconcile(id, actual), ctx).0;
    forall t | t in m.policies && m.policies[t].monthly > 0 && m.policies[t].monthly + Get(excess', t) <= MAX_INT64
      ensures Within(m', t, m.policies[t].monthly, Get(excess', t))
    {
      assert Within(m, t, m.policies[t].monthly, Get(excess, t));
      ReleasedActive(m, id, t);
      ActiveNonNegative(m.(reservations := m.reservations - {id}), t);
      assert Active(m', t) == Active(m.(reservations := m.reservations - {id}), t);
    }
  }

  lemma SameExcess(m: Mem, excess: map<string, int>, excess': map<string, int>)
    requires Solvent(m, excess) && forall t :: Get(excess', t) == Get(excess, t)
    ensures Solvent(m, excess')
  {
    assert forall t :: t in excess' ==> excess'[t] == Get(excess', t);
  }

  lemma CallKeepsSolvent(c: Setup, m: Mem, p: Proc, ch: Choice, excess: map<string, int>)
    requires ProcFits(c, InMemory(m), p) && StoreOk(InMemory(m)) && AsksStore(p.pc) && Solvent(m, excess)
    ensures var t := p.job.input.tenant;
      Solvent(Apply(m, CallOf(p, ch), ch.ctx).0, excess[t := Get(excess, t) + Overrun(p)])
  {
    if p.pc.Settling? || p.pc.Refunding? {
      SettlingKeepsSolvent(c, m, p, ch, excess);
    } else {
      AskingKeepsSolvent(c, m, p, ch, excess);
      var t := p.job.input.tenant;
      SameExcess(Apply(m, CallOf(p, ch), ch.ctx).0, excess, excess[t := Get(excess, t) + Overrun(p)]);
    }
  }

  lemma SettlingKeepsSolvent(c: Setup, m: Mem, p: Proc, ch: Choice, excess: map<string, int>)
    requires ProcFits(c, InMemory(m), p) && (p.pc.Settling? || p.pc.Refunding?) && Solvent(m, excess)
    ensures var t := p.job.input.tenant;
      Solvent(Apply(m, CallOf(p, ch), ch.ctx).0, excess[t := Get(excess, t) + Overrun(p)])
  {
    var t := p.job.input.tenant;
    var actual := if p.pc.Settling? then p.pc.cost else 0;
    ReconcileKeepsSolvent(m, p.id, actual, ch.ctx, excess, excess[t := Get(excess, t) + Overrun(p)]);
  }

  lemma AskingKeepsSolvent(c: Setup, m: Mem, p: Proc, ch: Choice, excess: map<string, int>)
    requires ProcFits(c, InMemory(m), p) && StoreOk(InMemory(m)) && Solvent(m, excess)
    requires AsksStore(p.pc) && !p.pc.Settling? && !p.pc.Refunding?
    ensures Solvent(Apply(m, CallOf(p, ch), ch.ctx).0, excess)
  {
    var call := CallOf(p, ch);
    if p.pc.Reserving? {
      ReserveKeepsSolvent(m, call, ch.ctx, excess);
    } else {
      OtherCallsKeepSolvent(m, call, ch.ctx, excess);
    }
  }

  lemma RunKeepsSolvent(c: Setup, m: Mem, p: Proc, ch: Choice, excess: map<string, int>, m': Mem, excess': map<string, int>)
    requires ProcFits(c, InMemory(m), p) && StoreOk(InMemory(m)) && Solvent(m, excess)
    requires m' == if AsksStore(p.pc) then Apply(m, CallOf(p, ch), ch.ctx).0 else m
    requires excess' == excess[p.job.input.tenant := Get(excess, p.job.input.tenant) + Overrun(p)]
    ensures Solvent(m', excess')
  {
    if AsksStore(p.pc) {
      CallKeepsSolvent(c, m, p, ch, excess);
    } else {
      SameExcess(m, excess, excess');
    }
  }

  lemma RunMoves(c: Setup, sys: Sys, pid: nat, ch: Choice)
    requires sys.store.InMemory? && pid < |sys.procs|
    ensures var sys', p := Next(c, sys, Run(pid, ch)), sys.procs[pid];
      && sys'.excess == sys.excess[p.job.input.tenant := Get(sys.excess, p.job.input.tenant) + Overrun(p)]
      && sys'.store == InMemory(if AsksStore(p.pc) then Apply(sys.store.mem, CallOf(p, ch), ch.ctx).0 else sys.store.mem)
  {
  }

  lemma StepKeepsSolvent(c: Setup, sys: Sys, pid: nat, ch: Choice)
    requires sys.store.InMemory? && Solvent(sys.store.mem, sys.excess)
    requires pid < |sys.procs| && ProcFits(c, sys.store, sys.procs[pid]) && StoreOk(sys.store)
    ensures var sys' := Next(c, sys, Run(pid, ch)); sys'.store.InMemory? && Solvent(sys'.store.mem, sys'.excess)
  {
    RunMoves(c, sys, pid, ch);
    var sys' := Next(c, sys, Run(pid, ch));
    RunKeepsSolvent(c, sys.store.mem, sys.procs[pid], ch, sys.excess, sys'.store.mem, sys'.excess);
  }

  lemma NextKeepsSolvent(c: Setup, sys: Sys, a: Action)
    requires Inv(c, sys) && sys.store.InMemory? && Solvent(sys.store.mem, sys.excess)
    ensures Next(c, sys, a).store.InMemory? && Solvent(Next(c, sys, a).store.mem, Next(c, sys, a).excess)
  {
    match a
    case Run(pid, ch) =>
      if pid < |sys.procs| {
        assert ProcFits(c, sys.store, sys.procs[pid]);
        StepKeepsSolvent(c, sys, pid, ch);
      }
    case CancelBy(tenant, id, ctx, _) => OtherCallsKeepSolvent(sys.store.mem, Cancel(tenant, id), ctx, sys.excess);
    case _ =>
  }

  lemma {:induction false} AlwaysSolvent(c: Setup, s: Store, actions: seq<Action>)
    requires c.maxAttempts > 0 && Unused(s) && s.InMemory?
    ensures var sys := After(c, s, actions); sys.store.InMemory? && Solvent(sys.store.mem, sys.excess)
    ensures After(c, s, actions).store.mem.policies == s.mem.policies
  {
    if actions == [] {
      forall t
        ensures Active(s.mem, t) == 0
      {
        assert HeldBy(s.mem.reservations, s.mem.core.requests, t) == map[];
      }
    } else {
      var init, last := actions[..|actions| - 1], actions[|actions| - 1];
      AlwaysSolvent(c, s, init);
      Invariant(c, s, init);
      NextKeepsSolvent(c, After(c, s, init), last);
      NextKeepsPolicies(c, After(c, s, init), last);
    }
  }

  lemma NextKeepsPolicies(c: Setup, sys: Sys, a: Action)
    requires sys.store.InMemory?
    ensures Next(c, sys, a).store.InMemory? && Next(c, sys, a).store.mem.policies == sys.store.mem.policies
  {
    match a
    case Run(pid, ch) =>
      if pid < |sys.procs| && AsksStore(sys.procs[pid].pc) { CallKeepsPolicies(sys.store.mem, CallOf(sys.procs[pid], ch), ch.ctx); }
    case CancelBy(tenant, id, ctx, _) => CallKeepsPolicies(sys.store.mem, Cancel(tenant, id), ctx);
    case _ =>
  }

  lemma CallKeepsPolicies(m: Mem, call: Call, ctx: Context)
    ensures Apply(m, call, ctx).0.policies == m.policies
  {
  }

  /**
   * In every run, used plus active reservations stay within the limit plus what settled costs ran over their
   * reservations; as long as that fits an int64 no counter wraps around.
   */
  lemma LimitHolds(c: Setup, s: Store, actions: seq<Action>, tenant: string)
    requires c.maxAttempts > 0 && Unused(s) && s.InMemory? && tenant in s.mem.policies && s.mem.policies[tenant].monthly > 0
    requires s.mem.policies[tenant].monthly + Get(After(c, s, actions).excess, tenant) <= MAX_INT64
    ensures var sys := After(c, s, actions);
      && sys.store.InMemory?
      && UsedBy(sys.store.mem.used, tenant) + Active(sys.store.mem, tenant) <= s.mem.policies[tenant].monthly + Get(sys.excess, tenant)
  {
    AlwaysSolvent(c, s, actions);
  }

  // Honest providers

  /** The provider reports no more tokens than were estimated for the request. */
  ghost predicate Honest(c: Setup, sys: Sys, a: Action) {
    a.Run? && a.pid < |sys.procs| && sys.procs[a.pid].pc.Calling? && a.choice.script.ending.Finish? ==>
      WithinEstimates(c, sys.procs[a.pid], a.choice.script.ending.usage)
  }

  ghost predicate HonestRun(c: Setup, s: Store, actions: seq<Action>) {
    actions != [] ==>
      var init := actions[..|actions| - 1]; HonestRun(c, s, init) && Honest(c, After(c, s, init), actions[|actions| - 1])
  }

  ghost predicate NoOverrun(c: Setup, sys: Sys) {
    && (forall t :: Get(sys.excess, t) == 0)
    && (forall i :: 0 <= i < |sys.procs| && (sys.procs[i].pc.Completing? || sys.procs[i].pc.Settling?) ==>
          WithinEstimates(c, sys.procs[i], sys.procs[i].pc.response.usage))
  }

  lemma HonestStep(c: Setup, s: Store, p: Proc, ch: Choice)
    requires Local(c, p)
    requires p.pc.Calling? && ch.script.ending.Finish? ==> WithinEstimates(c, p, ch.script.ending.usage)
    requires p.pc.Completing? || p.pc.Settling? ==> WithinEstimates(c, p, p.pc.response.usage)
    ensures var p' := Step(c, s, p, ch).1; p'.pc.Completing? || p'.pc.Settling? ==> WithinEstimates(c, p', p'.pc.response.usage)
  {
    StepKeepsIdentity(c, s, p, ch);
    if AsksStore(p.pc) {
      var reply := Ask(s, CallOf(p, ch), ch.ctx, ch.fault).1;
      ResumeMoves(p, reply, Step(c, s, p, ch).1.clean);
    } else {
      ProceedKeepsIdentity(c, p, ch);
    }
  }

  lemma HonestNext(c: Setup, sys: Sys, pid: nat, ch: Choice)
    requires Inv(c, sys) && NoOverrun(c, sys) && Honest(c, sys, Run(pid, ch)) && pid < |sys.procs|
    ensures NoOverrun(c, Next(c, sys, Run(pid, ch)))
  {
    var p := sys.procs[pid];
    assert ProcFits(c, sys.store, p);
    assert Overrun(p) == 0;
    var sys', p' := Next(c, sys, Run(pid, ch)), Step(c, sys.store, p, ch).1;
    HonestStep(c, sys.store, p, ch);
    assert sys'.procs == sys.procs[pid := p'];
    forall t
      ensures Get(sys'.excess, t) == 0
    {
      assert Get(sys.excess, t) == 0;
    }
  }

  lemma HonestAction(c: Setup, sys: Sys, a: Action)
    requires Inv(c, sys) && NoOverrun(c, sys) && Honest(c, sys, a)
    ensures NoOverrun(c, Next(c, sys, a))
  {
    if a.Run? && a.pid < |sys.procs| {
      HonestNext(c, sys, a.pid, a.choice);
    }
  }

  lemma {:induction false} HonestRunsNeverOverrun(c: Setup, s: Store, actions: seq<Action>)
    requires c.maxAttempts > 0 && Unused(s) && HonestRun(c, s, actions)
    ensures NoOverrun(c, After(c, s, actions))
  {
    if actions != [] {
      var init := actions[..|actions| - 1];
      HonestRunsNeverOverrun(c, s, init);
      Invariant(c, s, init);
      HonestAction(c, After(c, s, init), actions[|actions| - 1]);
    }
  }

  /** With provider-reported usage within the estimates, used plus active reservations never exceed the limit. */
  lemma HardLimit(c: Setup, s: Store, actions: seq<Action>, tenant: string)
    requires c.maxAttempts > 0 && Unused(s) && s.InMemory? && tenant in s.mem.policies && s.mem.policies[tenant].monthly > 0
    requires HonestRun(c, s, actions)
    ensures var sys := After(c, s, actions);
      sys.store.InMemory? && UsedBy(sys.store.mem.used, tenant) + Active(sys.store.mem, tenant) <= s.mem.policies[tenant].monthly
  {
    HonestRunsNeverOverrun(c, s, actions);
    LimitHolds(c, s, actions, tenant);
  }
}
