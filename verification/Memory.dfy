/** The mutex-guarded store (internal/persistence/memory.go): one step function per method. */
module MemorySpec {
  import opened Base
  import opened Budget
  import opened Request

  datatype Attempted = Attempted(provider: string, final: bool)

  datatype Mem = Mem(core: Core, attempts: map<Id, map<nat, Attempted>>, policies: map<string, Policy>,
                     reservations: map<Id, int64>, used: map<string, int64>)

  const EMPTY := Mem(Core(map[], map[]), map[], map[], map[], map[])

  function SlotOf(tenant: string, key: string): (s: Slot) {
    Joined(tenant + "\0" + key)
  }

  /** The tenant a reservation counts for: an unknown request reads as the zero record. */
  function TenantOf(requests: map<Id, Record>, id: Id): string {
    if id in requests then requests[id].tenant else ""
  }

  function HeldBy(reservations: map<Id, int64>, requests: map<Id, Record>, tenant: string): map<Id, int> {
    map id | id in reservations && TenantOf(requests, id) == tenant :: reservations[id]
  }

  /** All active reservations of a tenant, in unbounded arithmetic. */
  ghost function Active(m: Mem, tenant: string): int {
    Sum(HeldBy(m.reservations, m.core.requests, tenant))
  }

  function UsedBy(used: map<string, int64>, tenant: string): int64 {
    if tenant in used then used[tenant] else 0
  }

  function TransitionIn(core: Core, tenant: string, id: Id, from: State, to: State): (r: (Core, Reply)) {
    if !core.Holds(tenant, id) then (core, Err(NotFound))
    else if core.requests[id].state != from then (core, Err(AlreadyFinal))
    else if !CanTransition(from, to) then (core, Err(Malformed))
    else (core.Move(id, to), Done)
  }

  function StartIn(m: Mem, call: Call): (r: (Mem, Reply))
    requires call.Start?
  {
    if !m.core.Holds(call.tenant, call.id) then (m, Err(NotFound)) else
      var tried: map<nat, Attempted> := if call.id in m.attempts then m.attempts[call.id] else map[];
      if call.number in tried then (m, Err(Conflict))
      else (m.(attempts := m.attempts[call.id := tried[call.number := Attempted(call.provider, false)]]), Done)
  }

  /** The row is written before the attempt map, so a request without attempts is completed and then panics. */
  function CompleteIn(m: Mem, call: Call, now: Time): (r: (Mem, Reply))
    requires call.Complete?
  {
    if !m.core.Holds(call.tenant, call.id) then (m, Err(NotFound))
    else if m.core.requests[call.id].state != InProgress then (m, Err(AlreadyFinal))
    else
      var m' := m.(core := m.core.Put(call.id, CompletedRecord(m.core.requests[call.id], call, now)));
      if call.id !in m.attempts then (m', Err(Panicked)) else
        var tried: map<nat, Attempted> := m.attempts[call.id];
        var was := if call.number in tried then tried[call.number] else Attempted("", false);
        (m'.(attempts := m.attempts[call.id := tried[call.number := was.(final := true)]]), Done)
  }

  function FailIn(m: Mem, call: Call, now: Time): (r: (Mem, Reply))
    requires call.Fail?
  {
    if !m.core.Holds(call.tenant, call.id) then (m, Err(NotFound))
    else if !call.final then (m, Done)
    else if m.core.requests[call.id].state != InProgress then (m, Err(AlreadyFinal))
    else (m.(core := m.core.Put(call.id, FailedRecord(m.core.requests[call.id], call, now))), Done)
  }

  function CancelIn(m: Mem, call: Call, now: Time): (r: (Mem, Reply))
    requires call.Cancel?
  {
    if !m.core.Holds(call.tenant, call.id) then (m, Err(NotFound)) else
      var row := m.core.requests[call.id];
      if Terminal(row.state) then (m, Err(AlreadyFinal))
      else (m.(core := m.core.Put(call.id, row.(state := Cancelled, completedAt := now))), Done)
  }

  ghost function ReserveIn(m: Mem, call: Call): (r: (Mem, Reply))
    requires call.Reserve?
  {
    if call.tenant !in m.policies then (m, Err(NotFound)) else
      match CanReserve(m.policies[call.tenant].monthly, UsedBy(m.used, call.tenant), Wrap(Active(m, call.tenant)), call.amount)
      case OverLimit => (m, Err(Exceeded))
      case Negative => (m, Err(Malformed))
      case Admitted => (m.(reservations := m.reservations[call.id := call.amount]), Done)
  }

  function ReconcileIn(m: Mem, id: Id, actual: int64): (r: (Mem, Reply)) {
    if id !in m.core.requests then (m, Err(NotFound)) else
      var tenant := m.core.requests[id].tenant;
      (m.(reservations := m.reservations - {id},
          used := m.used[tenant := Wrap(UsedBy(m.used, tenant) + actual)]), Done)
  }

  /** One method call of the store, from lock to unlock. */
  ghost function Apply(m: Mem, call: Call, ctx: Context): (r: (Mem, Reply)) {
    match call
    case Create(tenant, key, _, _) =>
      var (core, reply) := CreateOrGet(m.core, SlotOf(tenant, key), call, ctx); (m.(core := core), reply)
    case Transition(tenant, id, from, to) =>
      var (core, reply) := TransitionIn(m.core, tenant, id, from, to); (m.(core := core), reply)
    case LoadPolicy(tenant, _) =>
      (m, if tenant in m.policies then PolicyIs(m.policies[tenant]) else Err(ModelForbidden))
    case Reserve(_, _, _, _, _) => ReserveIn(m, call)
    case Reject(tenant, id, _) =>
      var (core, reply) := TransitionIn(m.core, tenant, id, Validated, BudgetRejected); (m.(core := core), reply)
    case Start(_, _, _, _, _) => StartIn(m, call)
    case Complete(_, _, _, _, _) => CompleteIn(m, call, ctx.now)
    case Fail(_, _, _, _, _, _, _) => FailIn(m, call, ctx.now)
    case Cancel(_, _) => CancelIn(m, call, ctx.now)
    case Reconcile(id, actual) => ReconcileIn(m, id, actual)
  }
}

module MemoryStore {
  import opened Base
  import opened Budget
  import opened Request
  import opened MemorySpec

  /** Each method is proved to be the step of the same call. */
  class Memory {
    var requests: map<Id, Record>
    var idempotency: map<Slot, Id>
    var attempts: map<Id, map<nat, Attempted>>
    var policies: map<string, Policy>
    var reservations: map<Id, int64>
    var used: map<string, int64>

    ghost function View(): Mem
      reads this
    {
      Mem(Core(requests, idempotency), attempts, policies, reservations, used)
    }

    constructor ()
      ensures View() == EMPTY
    {
      requests, idempotency, attempts := map[], map[], map[];
      policies, reservations, used := map[], map[], map[];
    }

    method CreateOrGetRequest(call: Call, ctx: Context) returns (reply: Reply)
      requires call.Create?
      modifies this
      ensures (View(), reply) == Apply(old(View()), call, ctx)
    {
      var slot := SlotOf(call.tenant, call.key);
      if slot in idempotency {
        var existing := idempotency[slot];
        if existing !in requests {
          return Err(NotFound);
        }
        if requests[existing].hash != call.hash {
          return Err(Conflict);
        }
        return Existing(existing, requests[existing]);
      }
      if ctx.newId in requests {
        return Err(Unavailable);
      }
      requests := requests[ctx.newId := NewRecord(call)];
      idempotency := idempotency[slot := ctx.newId];
      return Created(ctx.newId);
    }

    method TransitionRequest(tenant: string, id: Id, from: State, to: State, ghost ctx: Context) returns (reply: Reply)
      modifies this
      ensures (View(), reply) == Apply(old(View()), Transition(tenant, id, from, to), ctx)
    {
      if id !in requests || requests[id].tenant != tenant {
        return Err(NotFound);
      }
      var record := requests[id];
      if record.state != from {
        return Err(AlreadyFinal);
      }
      if !CanTransition(from, to) {
        return Err(Malformed);
      }
      record := record.(state := to);
      requests := requests[id := record];
      return Done;
    }

    method StartAttempt(call: Call, ghost ctx: Context) returns (reply: Reply)
      requires call.Start?
      modifies this
      ensures (View(), reply) == Apply(old(View()), call, ctx)
    {
      if call.id !in requests || requests[call.id].tenant != call.tenant {
        return Err(NotFound);
      }
      if call.id !in attempts {
        attempts := attempts[call.id := map[]];
      }
      var tried: map<nat, Attempted> := attempts[call.id];
      if call.number in tried {
        return Err(Conflict);
      }
      attempts := attempts[call.id := tried[call.number := Attempted(call.provider, false)]];
      assert attempts == old(attempts)[call.id := attempts[call.id]];
      return Done;
    }

    method CompleteRequest(call: Call, ctx: Context) returns (reply: Reply)
      requires call.Complete?
      modifies this
      ensures (View(), reply) == Apply(old(View()), call, ctx)
    {
      if call.id !in requests || requests[call.id].tenant != call.tenant {
        return Err(NotFound);
      }
      var record := requests[call.id];
      if record.state != InProgress {
        return Err(AlreadyFinal);
      }
      record := record.(state := Completed, response := Some(call.response), completedAt := ctx.now);
      record := record.(cost := call.cost);
      requests := requests[call.id := record];
      if call.id !in attempts {
        return Err(Panicked);
      }
      var tried: map<nat, Attempted> := attempts[call.id];
      var attempt := if call.number in tried then tried[call.number] else Attempted("", false);
      attempts := attempts[call.id := tried[call.number := attempt.(final := true)]];
      return Done;
    }

    method FailAttempt(call: Call, ctx: Context) returns (reply: Reply)
      requires call.Fail?
      modifies this
      ensures (View(), reply) == Apply(old(View()), call, ctx)
    {
      if call.id !in requests || requests[call.id].tenant != call.tenant {
        return Err(NotFound);
      }
      if call.final {
        var record := requests[call.id];
        if record.state != InProgress {
          return Err(AlreadyFinal);
        }
        record := record.(state := Failed, category := call.category, partial := call.partial, completedAt := ctx.now);
        requests := requests[call.id := record];
      }
      return Done;
    }

    method CancelRequest(tenant: string, id: Id, ctx: Context) returns (reply: Reply)
      modifies this
      ensures (View(), reply) == Apply(old(View()), Cancel(tenant, id), ctx)
    {
      if id !in requests || requests[id].tenant != tenant {
        return Err(NotFound);
      }
      var record := requests[id];
      if record.state == Completed || record.state == Failed || record.state == Cancelled || record.state == BudgetRejected {
        return Err(AlreadyFinal);
      }
      requests := requests[id := record.(state := Cancelled, completedAt := ctx.now)];
      return Done;
    }

    method ReserveBudget(call: Call, ghost ctx: Context) returns (reply: Reply)
      requires call.Reserve?
      modifies this
      ensures (View(), reply) == Apply(old(View()), call, ctx)
    {
      if call.tenant !in policies {
        return Err(NotFound);
      }
      var held := SumMap(reservations, requests, call.tenant);
      match CanReserve(policies[call.tenant].monthly, UsedBy(used, call.tenant), held, call.amount) {
        case OverLimit => return Err(Exceeded);
        case Negative => return Err(Malformed);
        case Admitted =>
          reservations := reservations[call.id := call.amount];
          return Done;
      }
    }

    method ReconcileBudget(id: Id, actual: int64, ghost ctx: Context) returns (reply: Reply)
      modifies this
      ensures (View(), reply) == Apply(old(View()), Reconcile(id, actual), ctx)
    {
      if id !in requests {
        return Err(NotFound);
      }
      reservations := reservations - {id};
      var tenant := requests[id].tenant;
      used := used[tenant := Wrap(UsedBy(used, tenant) + actual)];
      return Done;
    }
  }

  lemma HeldWithout(reservations: map<Id, int64>, requests: map<Id, Record>, tenant: string, id: Id)
    requires id in reservations
    ensures Sum(HeldBy(reservations, requests, tenant))
         == Sum(HeldBy(reservations - {id}, requests, tenant)) + if TenantOf(requests, id) == tenant then reservations[id] else 0
  {
    var held := HeldBy(reservations, requests, tenant);
    SumDelete(held, id);
    assert HeldBy(reservations - {id}, requests, tenant) == held - {id};
  }

  /** The accumulating loop visits the map in any order; its int64 total is the wrapped exact sum. */
  method SumMap(reservations: map<Id, int64>, requests: map<Id, Record>, tenant: string) returns (total: int64)
    ensures total == Wrap(Sum(HeldBy(reservations, requests, tenant)))
  {
    total := 0;
    var left := reservations;
    ghost var all := HeldBy(reservations, requests, tenant);
    ghost var sum := 0;
    assert HeldBy(left, requests, tenant) == all;
    while left != map[]
      invariant sum + Sum(HeldBy(left, requests, tenant)) == Sum(all)
      invariant total == Wrap(sum)
      decreases |left|
    {
      assert left.Keys != {};
      var id :| id in left.Keys;
      HeldWithout(left, requests, tenant, id);
      if TenantOf(requests, id) == tenant {
        WrapAdd(sum, left[id]);
        total := Wrap(total + left[id]);
        sum := sum + left[id];
      }
      RemoveShrinks(left, id);
      left := left - {id};
    }
    assert HeldBy(left, requests, tenant) == map[];
  }
}
