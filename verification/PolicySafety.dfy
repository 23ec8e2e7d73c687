/** No request is ever sent to a provider that its tenant's stored policy does not permit. */
module PolicySafety {
  import opened Base
  import opened Request
  import opened RouterSpec
  import opened Stores
  import opened GatewaySpec
  import opened Protocol
  import opened Cluster
  import M = MemorySpec
  import P = PostgresSpec

  function PolicyOf(s: Store, tenant: string): Option<Policy> {
    match s
    case InMemory(mem) => if tenant in mem.policies then Some(mem.policies[tenant]) else None
    case Sql(db) => if tenant in db.policies then Some(db.policies[tenant]) else None
  }

  /** A configured provider of this name serves the model, the data classification and the allow-list of the policy. */
  ghost predicate PermittedName(c: Setup, policy: Policy, model: string, name: string) {
    exists e: Entry :: e in c.providers && e.name == name
      && Permitted(e, Selection(model, policy.classification, policy.allowed, {}, c.strategy))
  }

  /** The points between the policy's arrival and the return. */
  predicate Loaded(pc: Pc) {
    !(pc.Creating? || pc.Validating? || pc.LoadingPolicy? || pc.Abandoning? || Ended(pc))
  }

  ghost predicate CallsPermitted(c: Setup, job: Job) {
    forall k :: 0 <= k < |job.tried| ==> PermittedName(c, job.policy, job.input.model, job.tried[k])
  }

  /** Either nothing was called yet, or the policy in hand is the stored one and permits every call made. */
  ghost predicate Bound(c: Setup, s: Store, p: Proc) {
    || (!Loaded(p.pc) && p.job.tried == [])
    || (PolicyOf(s, p.job.input.tenant) == Some(p.job.policy) && CallsPermitted(c, p.job))
  }

  lemma CallKeepsPolicy(s: Store, call: Call, ctx: Context, fault: P.Fault, tenant: string)
    ensures PolicyOf(Ask(s, call, ctx, fault).0, tenant) == PolicyOf(s, tenant)
  {
  }

  /** A policy that is answered is the tenant's stored one. */
  lemma AnsweredPolicy(s: Store, tenant: string, model: string, ctx: Context, fault: P.Fault)
    ensures var reply := Ask(s, LoadPolicy(tenant, model), ctx, fault).1;
      reply.PolicyIs? ==> PolicyOf(s, tenant) == Some(reply.policy)
  {
  }

  /** A reply moves past the load only with a policy, and changes the calls begun only by beginning one. */
  lemma ResumeLoads(p: Proc, reply: Reply)
    requires AsksStore(p.pc)
    ensures var p' := Resume(p, reply);
      && p'.job.input == p.job.input
      && (p'.job.tried == p.job.tried || (p.pc.Starting? && p'.job.tried == p.job.tried + [LeasedName(p)]))
      && (p'.job.policy == p.job.policy || (p.pc.LoadingPolicy? && reply.PolicyIs? && p'.job.policy == reply.policy))
      && (Loaded(p'.pc) ==> Loaded(p.pc) || (p.pc.LoadingPolicy? && reply.PolicyIs? && p'.job.policy == reply.policy))
  {
  }

  lemma AskKeepsBound(c: Setup, s: Store, p: Proc, ch: Choice)
    requires AsksStore(p.pc) && Leases(c, p) && Bound(c, s, p)
    ensures Bound(c, Step(c, s, p, ch).0, Step(c, s, p, ch).1)
  {
    var (s', reply) := Ask(s, CallOf(p, ch), ch.ctx, ch.fault);
    CallKeepsPolicy(s, CallOf(p, ch), ch.ctx, ch.fault, p.job.input.tenant);
    ResumeLoads(p, reply);
    var p' := Step(c, s, p, ch).1;
    assert p'.pc == Resume(p, reply).pc && p'.job == Resume(p, reply).job;
    if p.pc.LoadingPolicy? {
      AnsweredPolicy(s, p.job.input.tenant, p.job.input.model, ch.ctx, ch.fault);
    } else if p'.job.tried != p.job.tried {
      CallAddsPermitted(c, p, p');
    }
  }

  lemma CallAddsPermitted(c: Setup, p: Proc, p': Proc)
    requires Leases(c, p) && p.pc.Starting? && CallsPermitted(c, p.job)
    requires p'.job.input == p.job.input && p'.job.policy == p.job.policy && p'.job.tried == p.job.tried + [LeasedName(p)]
    ensures CallsPermitted(c, p'.job)
  {
    var e := p.lease.value;
    assert Permitted(e, Selection(p.job.input.model, p.job.policy.classification, p.job.policy.allowed, {}, c.strategy));
    assert PermittedName(c, p.job.policy, p.job.input.model, e.name);
  }

  /** A step without the store begins no call. */
  lemma ProceedBeginsNothing(c: Setup, p: Proc, ch: Choice)
    requires !AsksStore(p.pc)
    ensures var p' := Proceed(c, p, ch);
      && p'.job.input == p.job.input && p'.job.policy == p.job.policy && p'.job.tried == p.job.tried
      && (Loaded(p'.pc) ==> Loaded(p.pc))
  {
    if p.pc.Calling? {
      var outcome := CallOutcome(c, p.job.input, ch.script);
      assert Called(c, p, ch.script) == AfterCall(c, p, Delivered(c, p.job.input, ch.script), outcome, CostFor(p, outcome));
    }
  }

  lemma ProceedKeepsBound(c: Setup, s: Store, p: Proc, ch: Choice)
    requires !AsksStore(p.pc) && Bound(c, s, p)
    ensures Bound(c, s, Proceed(c, p, ch))
  {
    ProceedBeginsNothing(c, p, ch);
  }

  ghost predicate AllBound(c: Setup, sys: Sys) {
    forall i :: 0 <= i < |sys.procs| ==> Bound(c, sys.store, sys.procs[i])
  }

  lemma StepKeepsBound(c: Setup, s: Store, p: Proc, ch: Choice)
    requires Local(c, p) && Bound(c, s, p)
    ensures Bound(c, Step(c, s, p, ch).0, Step(c, s, p, ch).1)
  {
    if AsksStore(p.pc) {
      AskKeepsBound(c, s, p, ch);
    } else {
      ProceedKeepsBound(c, s, p, ch);
    }
  }

  lemma SamePolicyBound(c: Setup, s: Store, s': Store, p: Proc)
    requires Bound(c, s, p) && PolicyOf(s', p.job.input.tenant) == PolicyOf(s, p.job.input.tenant)
    ensures Bound(c, s', p)
  {
  }

  lemma StepKeepsPolicy(c: Setup, s: Store, p: Proc, ch: Choice, tenant: string)
    ensures PolicyOf(Step(c, s, p, ch).0, tenant) == PolicyOf(s, tenant)
  {
    if AsksStore(p.pc) { CallKeepsPolicy(s, CallOf(p, ch), ch.ctx, ch.fault, tenant); }
  }

  lemma RunKeepsBound(c: Setup, sys: Sys, pid: nat, ch: Choice)
    requires Inv(c, sys) && AllBound(c, sys) && pid < |sys.procs|
    ensures AllBound(c, Next(c, sys, Run(pid, ch)))
  {
    var s', p' := Step(c, sys.store, sys.procs[pid], ch).0, Step(c, sys.store, sys.procs[pid], ch).1;
    assert ProcFits(c, sys.store, sys.procs[pid]);
    StepKeepsBound(c, sys.store, sys.procs[pid], ch);
    forall i | 0 <= i < |sys.procs| && i != pid ensures Bound(c, s', sys.procs[i]) {
      StepKeepsPolicy(c, sys.store, sys.procs[pid], ch, sys.procs[i].job.input.tenant);
      SamePolicyBound(c, sys.store, s', sys.procs[i]);
    }
  }

  lemma ActionKeepsBound(c: Setup, sys: Sys, a: Action)
    requires Inv(c, sys) && AllBound(c, sys)
    ensures AllBound(c, Next(c, sys, a))
  {
    match a
    case Submit(_) =>
    case Run(pid, ch) => if pid < |sys.procs| { RunKeepsBound(c, sys, pid, ch); }
    case CancelBy(tenant, id, ctx, fault) =>
      forall i | 0 <= i < |sys.procs| ensures Bound(c, Next(c, sys, a).store, sys.procs[i]) {
        CallKeepsPolicy(sys.store, Cancel(tenant, id), ctx, fault, sys.procs[i].job.input.tenant);
        SamePolicyBound(c, sys.store, Next(c, sys, a).store, sys.procs[i]);
      }
    case Background(_) =>
      forall i | 0 <= i < |sys.procs| ensures Bound(c, Next(c, sys, a).store, sys.procs[i]) {
        SamePolicyBound(c, sys.store, Next(c, sys, a).store, sys.procs[i]);
      }
  }

  lemma {:induction false} AlwaysBound(c: Setup, s: Store, actions: seq<Action>)
    requires c.maxAttempts > 0 && Unused(s)
    ensures AllBound(c, After(c, s, actions))
  {
    if actions != [] {
      var init := actions[..|actions| - 1];
      AlwaysBound(c, s, init);
      Invariant(c, s, init);
      ActionKeepsBound(c, After(c, s, init), actions[|actions| - 1]);
    }
  }

  /**
   * Every provider any submission ever began to call is permitted by the policy that submission loaded, and what it
   * loaded is the policy stored for its tenant.
   */
  lemma OnlyPermittedProvidersAreCalled(c: Setup, sys: Sys, i: nat, k: nat)
    requires Reached(c, sys) && i < |sys.procs| && k < |sys.procs[i].job.tried|
    ensures var job := sys.procs[i].job;
      PermittedName(c, job.policy, job.input.model, job.tried[k]) && PolicyOf(sys.store, job.input.tenant) == Some(job.policy)
  {
    var s, actions :| Unused(s) && sys == After(c, s, actions);
    AlwaysBound(c, s, actions);
    assert Bound(c, sys.store, sys.procs[i]);
  }
}
