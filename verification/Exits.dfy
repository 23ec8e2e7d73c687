/** How a submission leaves: exactly which guard of its run keeps its request open or its reservation behind. */
module Exits {
  import opened Base
  import opened Budget
  import opened Request
  import opened RouterSpec
  import opened Stores
  import opened GatewaySpec
  import opened Protocol
  import opened Ownership
  import opened Cluster
  import M = MemorySpec
  import P = PostgresSpec

  /** On return each lease taken was reported once, and each permit granted was released once. */
  lemma NothingHeldOnReturn(c: Setup, sys: Sys, i: nat)
    requires Reached(c, sys) && i < |sys.procs| && sys.procs[i].pc.Halted?
    ensures sys.procs[i].lease == None && sys.procs[i].taken == sys.procs[i].returned
    ensures sys.procs[i].tickets.granted == sys.procs[i].tickets.released
  {
    ReachedFits(c, sys);
    assert ProcFits(c, sys.store, sys.procs[i]);
  }

  // What can go wrong, as the store and the provider stand when it does

  datatype Guard = NoTrouble | EstimateUnpriced | ReserveRefused | StartRefused | UsageUnpriced | FoundCancelled

  /** The estimates have no computable cost at the highest permitted prices. */
  predicate Unpriceable(c: Setup, policy: Policy, i: Input) {
    var prices := HighestPrices(c.providers, Selection(i.model, policy.classification, policy.allowed, {}, c.strategy));
    prices.Some? && CostMicroUSD(PromptEstimate(i.messages), CompletionLimit(c, i), prices.value.0, prices.value.1).None?
  }

  predicate UsageUnpriceable(e: Entry, u: Usage) {
    CostMicroUSD(u.prompt, u.completion, e.inputPrice, e.outputPrice).None?
  }

  /** A limit is set and one of the amounts to compare is negative. */
  predicate Senseless(limit: int, used: int, held: int, amount: int) {
    limit != 0 && (limit < 0 || used < 0 || held < 0 || amount < 0)
  }

  predicate Fits(limit: int, used: int, held: int, amount: int) {
    limit == 0 || used + held + amount <= limit
  }

  /** The store can neither grant the reservation nor call the budget exceeded. */
  ghost predicate CannotReserve(s: Store, call: Call)
    requires call.Reserve?
  {
    match s
    case InMemory(m) =>
      || call.tenant !in m.policies
      || Senseless(m.policies[call.tenant].monthly, M.UsedBy(m.used, call.tenant), Wrap(M.Active(m, call.tenant)), call.amount)
    case Sql(db) =>
      || call.tenant !in db.policies
      || var month := Sum(P.LedgerSince(db.projection, call.tenant, call.month));
         var monthHeld := Sum(P.HeldInMonth(db.reservations, call.tenant, call.month));
         var day := Sum(P.LedgerSince(db.projection, call.tenant, call.day));
         var dayHeld := Sum(P.HeldOnDay(db.reservations, call.tenant, call.day));
         || !P.InRange(month) || !P.InRange(monthHeld) || !P.InRange(day) || !P.InRange(dayHeld)
         || Senseless(db.policies[call.tenant].monthly, month, monthHeld, call.amount)
         || ( && Fits(db.policies[call.tenant].monthly, month, monthHeld, call.amount)
              && Senseless(db.policies[call.tenant].daily, day, dayHeld, call.amount))
  }

  predicate RowCancelled(s: Store, id: Id) {
    id in s.Core().requests && s.Core().requests[id].state == Cancelled
  }

  /** The guard that holds when a submission takes its next step. */
  ghost function GuardAt(c: Setup, s: Store, p: Proc, ch: Choice): Guard {
    match p.pc
    case Pricing => if Unpriceable(c, p.job.policy, p.job.input) then EstimateUnpriced else NoTrouble
    case Reserving => if CannotReserve(s, CallOf(p, ch)) then ReserveRefused else NoTrouble
    case Starting => if s.Sql? && LeasedName(p) !in s.db.providers then StartRefused else NoTrouble
    case Calling =>
      if ch.script.ending.Finish? && p.lease.Some? && UsageUnpriceable(p.lease.value, ch.script.ending.usage) then UsageUnpriced
      else NoTrouble
    case ToRouting | ToInProgress | Completing(_, _) => if RowCancelled(s, p.id) then FoundCancelled else NoTrouble
    case FailingAttempt(_, retryable, _) => if !retryable && RowCancelled(s, p.id) then FoundCancelled else NoTrouble
    case _ => NoTrouble
  }

  /** The guard behind each return statement. */
  function WhyOf(exit: Exit): Guard {
    match exit
    case CostInvalid => EstimateUnpriced
    case ReserveFailed => ReserveRefused
    case StartLost => StartRefused
    case UsageInvalid => UsageUnpriced
    case RoutingLost | CompletionLost | FailureLost => FoundCancelled
    case _ => NoTrouble
  }

  function Told(pc: Pc): Guard {
    if Ended(pc) then WhyOf(pc.exit) else NoTrouble
  }

  lemma ReserveDecides(s: Store, call: Call, ctx: Context)
    requires call.Reserve? && call.amount >= 0 && call.id in s.Core().requests
    ensures var reply := Ask(s, call, ctx, P.NoFault).1; CannotReserve(s, call) <==> reply != Done && reply != Err(Exceeded)
  {
  }

  lemma ReservingDecides(c: Setup, s: Store, p: Proc, ch: Choice)
    requires ProcFits(c, s, p) && p.owner && p.pc.Reserving? && Quiet(s, ch.fault)
    ensures Told(Step(c, s, p, ch).1.pc) == GuardAt(c, s, p, ch)
  {
    ReserveDecides(s, CallOf(p, ch), ch.ctx);
  }

  lemma StartDecides(s: Store, call: Call, ctx: Context)
    requires call.Start? && call.number > 0 && s.Core().Holds(call.tenant, call.id)
    requires s.Sql? ==> (call.id, call.number) !in s.db.attempts
    requires s.InMemory? ==> call.id !in s.mem.attempts || call.number !in s.mem.attempts[call.id]
    ensures Ask(s, call, ctx, P.NoFault).1 == Done <==> !(s.Sql? && call.provider !in s.db.providers)
  {
  }

  lemma StartingDecides(c: Setup, s: Store, p: Proc, ch: Choice)
    requires ProcFits(c, s, p) && p.owner && p.pc.Starting? && Quiet(s, ch.fault)
    ensures Told(Step(c, s, p, ch).1.pc) == GuardAt(c, s, p, ch)
  {
    StartDecides(s, CallOf(p, ch), ch.ctx);
  }

  /** A row call is refused exactly when the row was cancelled before it. */
  lemma RowDecides(c: Setup, s: Store, p: Proc, ch: Choice)
    requires ProcFits(c, s, p) && p.owner && Quiet(s, ch.fault)
    requires p.pc.ToRouting? || p.pc.ToInProgress? || p.pc.Completing? || (p.pc.FailingAttempt? && !p.pc.retryable)
    ensures Ask(s, CallOf(p, ch), ch.ctx, ch.fault).1 == Done <==> !RowCancelled(s, p.id)
  {
    CallsAreWellFormed(c, s, p, ch);
    OwnRow(s, CallOf(p, ch), ch.ctx, ch.fault, p.id);
  }

  /** What each reply of a row call leads to. */
  lemma RefusalReturns(p: Proc, reply: Reply)
    requires p.pc.ToRouting? || p.pc.ToInProgress? || p.pc.Completing? || p.pc.FailingAttempt?
    ensures Told(Resume(p, reply).pc) == if reply == Done then NoTrouble else FoundCancelled
  {
  }

  lemma RoutingDecides(c: Setup, s: Store, p: Proc, ch: Choice)
    requires ProcFits(c, s, p) && p.owner && Quiet(s, ch.fault)
    requires p.pc.ToRouting? || p.pc.ToInProgress? || p.pc.Completing?
    ensures Told(Step(c, s, p, ch).1.pc) == GuardAt(c, s, p, ch)
  {
    RowDecides(c, s, p, ch);
    RefusalReturns(p, Ask(s, CallOf(p, ch), ch.ctx, ch.fault).1);
  }

  lemma FailingDecides(c: Setup, s: Store, p: Proc, ch: Choice)
    requires ProcFits(c, s, p) && p.owner && Quiet(s, ch.fault) && p.pc.FailingAttempt?
    ensures Told(Step(c, s, p, ch).1.pc) == GuardAt(c, s, p, ch)
  {
    RefusalReturns(p, Ask(s, CallOf(p, ch), ch.ctx, ch.fault).1);
    if p.pc.retryable {
      CallsAreWellFormed(c, s, p, ch);
      OwnRow(s, CallOf(p, ch), ch.ctx, ch.fault, p.id);
    } else {
      RowDecides(c, s, p, ch);
    }
  }

  lemma PricingDecides(c: Setup, s: Store, p: Proc, ch: Choice)
    requires Counts(c, p) && p.pc.Pricing?
    ensures Told(Step(c, s, p, ch).1.pc) == GuardAt(c, s, p, ch)
  {
    assert SelectionOf(c, p) == Selection(p.job.input.model, p.job.policy.classification, p.job.policy.allowed, {}, c.strategy);
  }

  lemma CallingDecides(c: Setup, s: Store, p: Proc, ch: Choice)
    requires Leases(c, p) && p.pc.Calling?
    ensures Told(Step(c, s, p, ch).1.pc) == GuardAt(c, s, p, ch)
  {
    var outcome := CallOutcome(c, p.job.input, ch.script);
    AfterCallTells(c, p, Delivered(c, p.job.input, ch.script), outcome, CostFor(p, outcome));
  }

  lemma AfterCallTells(c: Setup, p: Proc, handed: string, outcome: CallResult, cost: Option<int64>)
    requires p.pc.Calling?
    ensures Told(AfterCall(c, p, handed, outcome, cost).pc) == if outcome.Completion? && cost.None? then UsageUnpriced else NoTrouble
  {
  }

  predicate Guarded(pc: Pc) {
    || pc.Pricing? || pc.Reserving? || pc.Starting? || pc.Calling?
    || pc.ToRouting? || pc.ToInProgress? || pc.Completing? || pc.FailingAttempt?
  }

  lemma OtherRepliesTellNothing(p: Proc, reply: Reply)
    requires Roles(p) && AsksStore(p.pc) && !Guarded(p.pc)
    ensures Told(Resume(p, reply).pc) == NoTrouble
  {
  }

  lemma OtherMovesTellNothing(c: Setup, p: Proc, ch: Choice)
    requires !AsksStore(p.pc) && !Guarded(p.pc) && !Ended(p.pc)
    ensures Told(Proceed(c, p, ch).pc) == NoTrouble
  {
  }

  lemma OtherStepsTellNothing(c: Setup, s: Store, p: Proc, ch: Choice)
    requires Roles(p) && !Ended(p.pc) && !Guarded(p.pc)
    ensures Told(Step(c, s, p, ch).1.pc) == NoTrouble
  {
    if AsksStore(p.pc) {
      OtherRepliesTellNothing(p, Ask(s, CallOf(p, ch), ch.ctx, ch.fault).1);
    } else {
      OtherMovesTellNothing(c, p, ch);
    }
  }

  /** Without a connection fault, the return a step takes is decided by the guard that held before it. */
  lemma GuardDecides(c: Setup, s: Store, p: Proc, ch: Choice)
    requires ProcFits(c, s, p) && !Ended(p.pc) && (p.owner ==> AsksStore(p.pc) ==> Quiet(s, ch.fault))
    ensures Told(Step(c, s, p, ch).1.pc) == GuardAt(c, s, p, ch)
  {
    match p.pc
    case Pricing => PricingDecides(c, s, p, ch);
    case Reserving => ReservingDecides(c, s, p, ch);
    case Starting => StartingDecides(c, s, p, ch);
    case Calling => CallingDecides(c, s, p, ch);
    case ToRouting => RoutingDecides(c, s, p, ch);
    case ToInProgress => RoutingDecides(c, s, p, ch);
    case Completing(_, _) => RoutingDecides(c, s, p, ch);
    case FailingAttempt(_, _, _) => FailingDecides(c, s, p, ch);
    case _ => OtherStepsTellNothing(c, s, p, ch);
  }

  // The same over whole runs

  /** The guard a submission met in the run, if it met one. */
  ghost function Met(c: Setup, s: Store, actions: seq<Action>, i: nat): Guard {
    if actions == [] then NoTrouble else
      var init := actions[..|actions| - 1];
      if Met(c, s, init, i) != NoTrouble then Met(c, s, init, i) else MetNow(c, After(c, s, init), actions[|actions| - 1], i)
  }

  ghost function MetNow(c: Setup, sys: Sys, a: Action, i: nat): Guard {
    if a.Run? && a.pid == i && i < |sys.procs| then GuardAt(c, sys.store, sys.procs[i], a.choice) else NoTrouble
  }

  /** A connection broke during one of the submission's store calls. */
  ghost predicate Disturbed(c: Setup, s: Store, actions: seq<Action>, i: nat) {
    actions != [] &&
      var init := actions[..|actions| - 1];
      Disturbed(c, s, init, i) || DisturbedNow(After(c, s, init), actions[|actions| - 1], i)
  }

  ghost predicate DisturbedNow(sys: Sys, a: Action, i: nat) {
    a.Run? && a.pid == i && i < |sys.procs| && AsksStore(sys.procs[i].pc) && !Quiet(sys.store, a.choice.fault)
  }

  /** A cancellation took effect on the row. */
  ghost predicate CancelHit(c: Setup, s: Store, actions: seq<Action>, id: Id) {
    actions != [] &&
      var init := actions[..|actions| - 1];
      CancelHit(c, s, init, id) || CancelsNow(After(c, s, init).store, actions[|actions| - 1], id)
  }

  ghost predicate CancelsNow(s: Store, a: Action, id: Id) {
    && a.CancelBy? && a.id == id && s.Core().Holds(a.tenant, id) && !Terminal(s.Core().requests[id].state)
    && (s.InMemory? || a.fault != P.BeforeCommit)
  }

  lemma ResumeKeepsClean(p: Proc, reply: Reply)
    requires AsksStore(p.pc)
    ensures Resume(p, reply).clean == p.clean
  {
  }

  lemma ProceedKeepsClean(c: Setup, p: Proc, ch: Choice)
    requires !AsksStore(p.pc)
    ensures Proceed(c, p, ch).clean == p.clean
  {
  }

  lemma StepCleans(c: Setup, s: Store, p: Proc, ch: Choice)
    ensures Step(c, s, p, ch).1.clean <==> p.clean && (AsksStore(p.pc) ==> Quiet(s, ch.fault))
  {
    if AsksStore(p.pc) {
      ResumeKeepsClean(p, Ask(s, CallOf(p, ch), ch.ctx, ch.fault).1);
    } else {
      ProceedKeepsClean(c, p, ch);
    }
  }

  lemma {:induction false} CleanIsUndisturbed(c: Setup, s: Store, actions: seq<Action>, i: nat)
    ensures i < |After(c, s, actions).procs| ==> (After(c, s, actions).procs[i].clean <==> !Disturbed(c, s, actions, i))
    ensures i >= |After(c, s, actions).procs| ==> !Disturbed(c, s, actions, i)
  {
    if actions != [] {
      var init, a := actions[..|actions| - 1], actions[|actions| - 1];
      var sys := After(c, s, init);
      CleanIsUndisturbed(c, s, init, i);
      if a.Run? && a.pid == i && i < |sys.procs| { StepCleans(c, sys.store, sys.procs[i], a.choice); }
    }
  }

  /** What the submission has been told so far is the guard it met. */
  ghost predicate MetFits(sys: Sys, i: nat, met: Guard) {
    if i >= |sys.procs| then met == NoTrouble
    else (sys.procs[i].owner ==> sys.procs[i].clean) ==> met == Told(sys.procs[i].pc)
  }

  lemma EndedStays(c: Setup, s: Store, p: Proc, ch: Choice)
    requires Ended(p.pc)
    ensures var p' := Step(c, s, p, ch).1; Ended(p'.pc) && p'.pc.exit == p.pc.exit && p'.owner == p.owner && p'.clean == p.clean
  {
  }

  lemma StrangersAreToldNothing(p: Proc)
    requires Roles(p) && !p.owner
    ensures Told(p.pc) == NoTrouble
  {
  }

  lemma RunMeets(c: Setup, sys: Sys, i: nat, ch: Choice, met: Guard)
    requires Inv(c, sys) && i < |sys.procs| && MetFits(sys, i, met)
    ensures MetFits(Next(c, sys, Run(i, ch)), i, if met != NoTrouble then met else MetNow(c, sys, Run(i, ch), i))
  {
    var p, p' := sys.procs[i], Step(c, sys.store, sys.procs[i], ch).1;
    assert ProcFits(c, sys.store, p);
    StepCleans(c, sys.store, p, ch);
    StepKeepsIdentity(c, sys.store, p, ch);
    if Ended(p.pc) {
      EndedStays(c, sys.store, p, ch);
    } else if p'.owner ==> p'.clean {
      if !p.owner { StrangersAreToldNothing(p); }
      GuardDecides(c, sys.store, p, ch);
    }
  }

  lemma ActionMeets(c: Setup, sys: Sys, a: Action, i: nat, met: Guard)
    requires Inv(c, sys) && MetFits(sys, i, met)
    ensures MetFits(Next(c, sys, a), i, if met != NoTrouble then met else MetNow(c, sys, a, i))
  {
    if a.Run? && a.pid == i && i < |sys.procs| {
      RunMeets(c, sys, i, a.choice, met);
    }
  }

  lemma {:induction false} MetTells(c: Setup, s: Store, actions: seq<Action>, i: nat)
    requires c.maxAttempts > 0 && Unused(s)
    ensures MetFits(After(c, s, actions), i, Met(c, s, actions, i))
  {
    if actions != [] {
      var init := actions[..|actions| - 1];
      MetTells(c, s, init, i);
      Invariant(c, s, init);
      ActionMeets(c, After(c, s, init), actions[|actions| - 1], i, Met(c, s, init, i));
    }
  }

  lemma MemoryCallCancels(m: M.Mem, call: Call, ctx: Context, id: Id)
    requires call.Transition? ==> call.to != Cancelled && CanTransition(call.from, call.to)
    ensures RowCancelled(InMemory(M.Apply(m, call, ctx).0), id)
       <==> RowCancelled(InMemory(m), id) || (call.Cancel? && call.id == id && m.core.Holds(call.tenant, id) && !Terminal(m.core.requests[id].state))
  {
  }

  lemma CommitCancels(db: P.Db, call: Call, ctx: Context, id: Id)
    requires call.Transition? ==> call.to != Cancelled && CanTransition(call.from, call.to)
    ensures RowCancelled(Sql(P.Commit(db, call, ctx).0), id)
       <==> RowCancelled(Sql(db), id) || (call.Cancel? && call.id == id && db.core.Holds(call.tenant, id) && !Terminal(db.core.requests[id].state))
  {
  }

  lemma AskCancels(s: Store, call: Call, ctx: Context, fault: P.Fault, id: Id)
    requires call.Transition? ==> call.to != Cancelled && CanTransition(call.from, call.to)
    ensures RowCancelled(Ask(s, call, ctx, fault).0, id)
       <==> RowCancelled(s, id) || (call.Cancel? && CancelsNow(s, CancelBy(call.tenant, call.id, ctx, fault), id))
  {
    match s
    case InMemory(m) => MemoryCallCancels(m, call, ctx, id);
    case Sql(db) => CommitCancels(db, call, ctx, id);
  }

  lemma ActionCancels(c: Setup, sys: Sys, a: Action, id: Id)
    ensures RowCancelled(Next(c, sys, a).store, id) <==> RowCancelled(sys.store, id) || CancelsNow(sys.store, a, id)
  {
    match a
    case CancelBy(tenant, other, ctx, fault) => AskCancels(sys.store, Cancel(tenant, other), ctx, fault, id);
    case Run(pid, ch) =>
      if pid < |sys.procs| && AsksStore(sys.procs[pid].pc) {
        AskCancels(sys.store, CallOf(sys.procs[pid], ch), ch.ctx, ch.fault, id);
      }
    case _ =>
  }

  lemma {:induction false} CancelledExactlyByCancel(c: Setup, s: Store, actions: seq<Action>, id: Id)
    requires Unused(s)
    ensures RowCancelled(After(c, s, actions).store, id) <==> CancelHit(c, s, actions, id)
  {
    if actions != [] {
      var init := actions[..|actions| - 1];
      CancelledExactlyByCancel(c, s, init, id);
      ActionCancels(c, After(c, s, init), actions[|actions| - 1], id);
    }
  }

  lemma ExitTells(p: Proc, held: Option<int64>, blank: bool, r: Record)
    requires Ended(p.pc) && p.owner && p.clean && Roles(p) && StateFits(p, r) && HoldFits(p, held, blank)
    ensures held.Some? <==> Told(p.pc) in {StartRefused, UsageUnpriced, FoundCancelled}
    ensures !Terminal(r.state) <==>
      r.state != Cancelled && Told(p.pc) in {EstimateUnpriced, ReserveRefused, StartRefused, UsageUnpriced}
  {
  }

  /**
   * When no connection breaks, the reservation is left behind exactly if an attempt could not be started, a reported
   * usage could not be priced, or the row was found cancelled; the request is left open exactly if nobody cancelled it
   * and the estimate or a usage could not be priced, the reservation was refused, or an attempt could not be started.
   */
  lemma CleanExit(c: Setup, s: Store, actions: seq<Action>, i: nat)
    requires c.maxAttempts > 0 && Unused(s) && !Disturbed(c, s, actions, i)
    requires var procs := After(c, s, actions).procs; i < |procs| && procs[i].owner && procs[i].pc.Halted?
    ensures var sys, met := After(c, s, actions), Met(c, s, actions, i);
      var id := sys.procs[i].id;
      && id in sys.store.Core().requests
      && (sys.store.Held(id).Some? <==> met in {StartRefused, UsageUnpriced, FoundCancelled})
      && (!Terminal(sys.store.Core().requests[id].state) <==>
            !CancelHit(c, s, actions, id) && met in {EstimateUnpriced, ReserveRefused, StartRefused, UsageUnpriced})
  {
    var sys := After(c, s, actions);
    var p := sys.procs[i];
    Invariant(c, s, actions);
    assert ProcFits(c, sys.store, p);
    CleanIsUndisturbed(c, s, actions, i);
    MetTells(c, s, actions, i);
    CancelledExactlyByCancel(c, s, actions, p.id);
    ExitTells(p, sys.store.Held(p.id), sys.store.Unreserved(p.id), sys.store.Core().requests[p.id]);
  }

  // Nobody cancels

  lemma FoundIsOwned(c: Setup, sys: Sys, a: Action, i: nat)
    requires Inv(c, sys) && MetNow(c, sys, a, i) == FoundCancelled
    ensures i < |sys.procs| && Owns(sys.procs, i, sys.procs[i].id) && RowCancelled(sys.store, sys.procs[i].id)
  {
    assert ProcFits(c, sys.store, sys.procs[i]);
  }

  lemma OwnerStays(c: Setup, sys: Sys, a: Action, i: nat, id: Id)
    requires Inv(c, sys) && Owns(sys.procs, i, id)
    ensures Owns(Next(c, sys, a).procs, i, id)
  {
    if a.Run? && a.pid < |sys.procs| { RunKeepsOwners(c, sys, a.pid, a.choice); }
  }

  lemma {:induction false} FoundMeansHit(c: Setup, s: Store, actions: seq<Action>, i: nat)
    requires c.maxAttempts > 0 && Unused(s) && Met(c, s, actions, i) == FoundCancelled
    ensures var procs := After(c, s, actions).procs;
      i < |procs| && Owns(procs, i, procs[i].id) && CancelHit(c, s, actions, procs[i].id)
  {
    var init, a := actions[..|actions| - 1], actions[|actions| - 1];
    var sys := After(c, s, init);
    Invariant(c, s, init);
    if Met(c, s, init, i) == FoundCancelled {
      FoundMeansHit(c, s, init, i);
    } else {
      FoundIsOwned(c, sys, a, i);
      CancelledExactlyByCancel(c, s, init, sys.procs[i].id);
    }
    OwnerStays(c, sys, a, i, sys.procs[i].id);
  }

  lemma {:induction false} NoCancelNoHit(c: Setup, s: Store, actions: seq<Action>, id: Id)
    requires forall k :: 0 <= k < |actions| ==> !(actions[k].CancelBy? && actions[k].id == id)
    ensures !CancelHit(c, s, actions, id)
  {
    if actions != [] {
      NoCancelNoHit(c, s, actions[..|actions| - 1], id);
    }
  }

  /**
   * With no cancellation of its request, no broken connection, computable costs, a registered provider and a sensible
   * budget, a submission returns with its request final and nothing reserved.
   */
  lemma UndisturbedReturnIsClean(c: Setup, s: Store, actions: seq<Action>, i: nat)
    requires c.maxAttempts > 0 && Unused(s) && !Disturbed(c, s, actions, i)
    requires var procs := After(c, s, actions).procs; i < |procs| && procs[i].owner && procs[i].pc.Halted?
    requires forall k :: 0 <= k < |actions| ==> !(actions[k].CancelBy? && actions[k].id == After(c, s, actions).procs[i].id)
    requires Met(c, s, actions, i) !in {EstimateUnpriced, ReserveRefused, StartRefused, UsageUnpriced}
    ensures var sys := After(c, s, actions);
      var id := sys.procs[i].id;
      id in sys.store.Core().requests && Terminal(sys.store.Core().requests[id].state) && sys.store.Held(id) == None
  {
    NoCancelNoHit(c, s, actions, After(c, s, actions).procs[i].id);
    if Met(c, s, actions, i) == FoundCancelled { FoundMeansHit(c, s, actions, i); }
    CleanExit(c, s, actions, i);
  }

  /** What the submission finds when it asks to be routed. */
  ghost predicate CancelledWhileReserved(sys: Sys, i: nat, ch: Choice) {
    && i < |sys.procs| && sys.procs[i].owner && sys.procs[i].clean && sys.procs[i].pc.ToRouting? && Quiet(sys.store, ch.fault)
    && sys.procs[i].id in sys.store.Core().requests && sys.store.Core().requests[sys.procs[i].id].state == Cancelled
  }

  /** A row that is no longer VALIDATED is not routed, and its reservation is not touched. */
  lemma RoutingRefused(c: Setup, s: Store, p: Proc, ch: Choice)
    requires p.owner && p.pc.ToRouting? && Quiet(s, ch.fault) && s.Core().Holds(p.job.input.tenant, p.id)
    requires s.Core().requests[p.id].state == Cancelled
    ensures Step(c, s, p, ch).1 == Halt(p, RoutingLost) && Step(c, s, p, ch).0.Held(p.id) == s.Held(p.id)
  {
  }

  lemma CancelledStepLeaks(c: Setup, sys: Sys, i: nat, ch: Choice)
    requires Inv(c, sys) && CancelledWhileReserved(sys, i, ch)
    ensures var sys' := Next(c, sys, Run(i, ch));
      && |sys'.procs| == |sys.procs| && sys'.procs[i].pc == Returning(RoutingLost, 0)
      && sys'.store.Held(sys'.procs[i].id) == Some(sys'.procs[i].job.reserved)
  {
    assert ProcFits(c, sys.store, sys.procs[i]);
    RoutingRefused(c, sys.store, sys.procs[i], ch);
  }

  /** A cancellation that lands between the reservation and the first transition leaves the reservation behind. */
  lemma CancelBeforeRoutingLeaks(c: Setup, sys: Sys, i: nat, ch: Choice)
    requires Reached(c, sys) && CancelledWhileReserved(sys, i, ch)
    ensures var sys' := Next(c, sys, Run(i, ch));
      && i < |sys'.procs| && sys'.procs[i].pc == Returning(RoutingLost, 0)
      && sys'.store.Held(sys'.procs[i].id) == Some(sys'.procs[i].job.reserved)
  {
    ReachedFits(c, sys);
    CancelledStepLeaks(c, sys, i, ch);
  }
}

/** In memory, with providers that count honestly, every guard but a cancellation is a matter of the configured inputs. */
module MemoryExits {
  import opened Base
  import opened Budget
  import opened Request
  import opened RouterSpec
  import opened Stores
  import opened GatewaySpec
  import opened Protocol
  import opened Cluster
  import opened Exits
  import opened BudgetSafety
  import opened PolicySafety
  import M = MemorySpec

  predicate PricesAreSound(c: Setup) {
    forall e :: e in c.providers ==> e.inputPrice >= 0 && e.outputPrice >= 0
  }

  /** No provider reports a negative count. */
  predicate Counted(a: Action) {
    a.Run? && a.choice.script.ending.Finish? ==>
      a.choice.script.ending.usage.prompt >= 0 && a.choice.script.ending.usage.completion >= 0
  }

  ghost predicate CountedRun(actions: seq<Action>) {
    forall k :: 0 <= k < |actions| ==> Counted(actions[k])
  }

  /** Usage within the estimates has a price wherever the estimates have one. */
  lemma HonestUsageIsPriced(c: Setup, p: Proc, usage: Usage)
    requires Local(c, p) && p.pc.Calling? && PricesAreSound(c) && WithinEstimates(c, p, usage)
    requires usage.prompt >= 0 && usage.completion >= 0
    ensures p.lease.Some? && !UsageUnpriceable(p.lease.value, usage)
  {
    var prices :| ReservationCovers(c, p, prices);
    var k :| 0 <= k < |c.providers| && c.providers[k] == p.lease.value;
    HighestPricesDominate(c.providers, SelectionOf(c, p), k);
    CostMonotone(usage.prompt, usage.completion, p.lease.value.inputPrice, p.lease.value.outputPrice,
                 PromptEstimate(p.job.input.messages), CompletionLimit(c, p.job.input), prices.0, prices.1);
  }

  /** With no overrun booked, a tenant's counters have not wrapped, so only a negative limit is refused. */
  lemma OnlyNegativeLimitsAreRefused(m: M.Mem, excess: map<string, int>, call: Call)
    requires Solvent(m, excess) && (forall t :: Get(excess, t) == 0) && call.Reserve? && call.amount >= 0
    requires call.tenant in m.policies
    ensures CannotReserve(InMemory(m), call) <==> m.policies[call.tenant].monthly < 0
  {
    var limit := m.policies[call.tenant].monthly;
    if limit > 0 {
      assert BudgetSafety.Within(m, call.tenant, limit, Get(excess, call.tenant));
    }
  }

  /** What the inputs say about a guard. */
  ghost predicate FromInputs(c: Setup, policies: map<string, Policy>, input: Input, met: Guard) {
    match met
    case EstimateUnpriced => input.tenant in policies && Unpriceable(c, policies[input.tenant], input)
    case ReserveRefused => input.tenant in policies && policies[input.tenant].monthly < 0
    case StartRefused | UsageUnpriced => false
    case NoTrouble | FoundCancelled => true
  }

  lemma GuardIsFromInputs(c: Setup, sys: Sys, i: nat, ch: Choice)
    requires Inv(c, sys) && sys.store.InMemory? && Solvent(sys.store.mem, sys.excess) && NoOverrun(c, sys) && AllBound(c, sys)
    requires PricesAreSound(c) && Counted(Run(i, ch)) && Honest(c, sys, Run(i, ch)) && i < |sys.procs|
    ensures FromInputs(c, sys.store.mem.policies, sys.procs[i].job.input, GuardAt(c, sys.store, sys.procs[i], ch))
  {
    var p := sys.procs[i];
    assert ProcFits(c, sys.store, p) && Bound(c, sys.store, p);
    if p.pc.Calling? && ch.script.ending.Finish? {
      HonestUsageIsPriced(c, p, ch.script.ending.usage);
    } else if p.pc.Reserving? {
      OnlyNegativeLimitsAreRefused(sys.store.mem, sys.excess, CallOf(p, ch));
    }
  }

  lemma InputStays(c: Setup, sys: Sys, a: Action, i: nat)
    requires Inv(c, sys) && i < |sys.procs|
    ensures i < |Next(c, sys, a).procs| && Next(c, sys, a).procs[i].job.input == sys.procs[i].job.input
  {
    assert ProcFits(c, sys.store, sys.procs[i]);
    if a.Run? && a.pid == i { StepKeepsIdentity(c, sys.store, sys.procs[i], a.choice); }
  }

  lemma {:induction false} MetIsFromInputs(c: Setup, s: Store, actions: seq<Action>, i: nat)
    requires c.maxAttempts > 0 && Unused(s) && s.InMemory? && PricesAreSound(c)
    requires HonestRun(c, s, actions) && CountedRun(actions) && i < |After(c, s, actions).procs|
    ensures FromInputs(c, s.mem.policies, After(c, s, actions).procs[i].job.input, Met(c, s, actions, i))
  {
    if actions != [] {
      var init, a := actions[..|actions| - 1], actions[|actions| - 1];
      var sys := After(c, s, init);
      Invariant(c, s, init);
      if i < |sys.procs| {
        MetIsFromInputs(c, s, init, i);
        InputStays(c, sys, a, i);
        if a.Run? && a.pid == i {
          AlwaysSolvent(c, s, init);
          HonestRunsNeverOverrun(c, s, init);
          AlwaysBound(c, s, init);
          GuardIsFromInputs(c, sys, i, a.choice);
        }
      } else {
        MetTells(c, s, init, i);
      }
    }
  }

  /**
   * In memory, with sound prices and honest, non-negative usage, a submission whose tenant has a non-negative limit and
   * whose estimate has a price returns with its request final and nothing reserved, unless the request was cancelled.
   */
  lemma InputsDecideCleanExit(c: Setup, s: Store, actions: seq<Action>, i: nat)
    requires c.maxAttempts > 0 && Unused(s) && s.InMemory? && PricesAreSound(c) && HonestRun(c, s, actions) && CountedRun(actions)
    requires var procs := After(c, s, actions).procs; i < |procs| && procs[i].owner && procs[i].pc.Halted?
    requires var input := After(c, s, actions).procs[i].job.input;
      input.tenant in s.mem.policies ==>
        s.mem.policies[input.tenant].monthly >= 0 && !Unpriceable(c, s.mem.policies[input.tenant], input)
    requires forall k :: 0 <= k < |actions| ==> !(actions[k].CancelBy? && actions[k].id == After(c, s, actions).procs[i].id)
    ensures var sys := After(c, s, actions);
      var id := sys.procs[i].id;
      id in sys.store.Core().requests && Terminal(sys.store.Core().requests[id].state) && sys.store.Held(id) == None
  {
    MetIsFromInputs(c, s, actions, i);
    MemoryIsNeverDisturbed(c, s, actions, i);
    UndisturbedReturnIsClean(c, s, actions, i);
  }

  lemma {:induction false} MemoryIsNeverDisturbed(c: Setup, s: Store, actions: seq<Action>, i: nat)
    requires s.InMemory?
    ensures !Disturbed(c, s, actions, i) && After(c, s, actions).store.InMemory?
  {
    if actions != [] {
      MemoryIsNeverDisturbed(c, s, actions[..|actions| - 1], i);
      NextKeepsPolicies(c, After(c, s, actions[..|actions| - 1]), actions[|actions| - 1]);
    }
  }
}
