/** The SQL store (internal/persistence/postgres.go): one function per committed transaction. */
module PostgresSpec {
  import opened Base
  import opened Budget
  import opened Request

  type EventId = nat

  datatype AttemptStatus = Started | Succeeded | Broken

  datatype Attempt = Attempt(tenant: string, provider: string, status: AttemptStatus, cost: int64)

  datatype Reservation = Reservation(tenant: string, month: Time, day: Time, amount: int64,
                                     active: bool, actual: int64, released: int64)

  datatype Fact =
    | Accepted(model: string)
    | Selected(number: nat, provider: string)
    | Finished(cost: int64)
    | UsageRecorded(usage: Usage, cost: int64)
    | RequestFailed(category: string, partial: bool)
    | BudgetExceeded(requested: int64)
    | EvaluationCompleted
    | EvaluationFailed(category: string)

  /** The immutable columns of an outbox row. The row's identifier is its position. */
  datatype Event = Event(fact: Fact, aggregate: Id, tenant: string, correlation: string, occurred: Time)

  datatype Claim = Claim(worker: string, at: Time)

  /** The columns of an outbox row that relays update. */
  datatype RowState = RowState(available: Time, claim: Option<Claim>, tries: nat, published: bool)

  datatype LedgerRow = LedgerRow(request: Id, usage: Usage, cost: int64, occurred: Time)

  /** The tables that only the event consumer writes. */
  datatype Projection = Projection(markers: set<(string, EventId)>, audit: map<EventId, Event>,
                                   ledger: map<(string, EventId), LedgerRow>)

  datatype Db = Db(core: Core, models: set<(string, string)>, providers: set<string>, policies: map<string, Policy>,
                   attempts: map<(Id, nat), Attempt>, reservations: map<Id, Reservation>,
                   events: seq<Event>, rows: seq<RowState>, projection: Projection)
  {
    function Emit(fact: Fact, aggregate: Id, tenant: string, ctx: Context): (db: Db) {
      this.(events := events + [Event(fact, aggregate, tenant, ctx.correlation, ctx.now)],
            rows := rows + [RowState(ctx.now, None, 0, false)])
    }
  }

  function Opened(models: set<(string, string)>, providers: set<string>, policies: map<string, Policy>): Db {
    Db(Core(map[], map[]), models, providers, policies, map[], map[], [], [], Projection({}, map[], map[]))
  }

  function LedgerSince(p: Projection, tenant: string, since: Time): map<(string, EventId), int> {
    map k | k in p.ledger && k.0 == tenant && p.ledger[k].occurred >= since :: p.ledger[k].cost
  }

  function HeldInMonth(rs: map<Id, Reservation>, tenant: string, month: Time): map<Id, int> {
    map id | id in rs && rs[id].tenant == tenant && rs[id].month == month && rs[id].active :: rs[id].amount
  }

  function HeldOnDay(rs: map<Id, Reservation>, tenant: string, day: Time): map<Id, int> {
    map id | id in rs && rs[id].tenant == tenant && rs[id].day == day && rs[id].active :: rs[id].amount
  }

  predicate InRange(x: int) {
    -MAX_INT64 - 1 <= x <= MAX_INT64
  }

  function CreateTx(db: Db, call: Call, ctx: Context): (r: (Db, Reply))
    requires call.Create?
  {
    if (call.tenant, call.model) !in db.models then (db, Err(ModelForbidden)) else
      var (core, reply) := CreateOrGet(db.core, Pair(call.tenant, call.key), call, ctx);
      if reply.Created? then (db.(core := core).Emit(Accepted(call.model), reply.id, call.tenant, ctx), reply)
      else (db, reply)
  }

  function TransitionTx(db: Db, tenant: string, id: Id, from: State, to: State): (r: (Db, Reply)) {
    if !CanTransition(from, to) then (db, Err(Malformed))
    else if !db.core.HoldsIn(tenant, id, from) then (db, Err(AlreadyFinal))
    else (db.(core := db.core.Move(id, to)), Done)
  }

  function StartTx(db: Db, call: Call, ctx: Context): (r: (Db, Reply))
    requires call.Start?
  {
    if call.provider !in db.providers then (db, Err(NotFound))
    else if call.number == 0 || call.id !in db.core.requests || (call.id, call.number) in db.attempts then (db, Err(Conflict))
    else (db.(attempts := db.attempts[(call.id, call.number) := Attempt(call.tenant, call.provider, Started, 0)])
            .Emit(Selected(call.number, call.provider), call.id, call.tenant, ctx), Done)
  }

  /** UPDATE ... WHERE status = 'STARTED': an attempt that is missing or already finished stays as it is. */
  function SetAttempt(attempts: map<(Id, nat), Attempt>, id: Id, number: nat, tenant: string, status: AttemptStatus, cost: int64): (r: map<(Id, nat), Attempt>) {
    if (id, number) in attempts && attempts[(id, number)].tenant == tenant && attempts[(id, number)].status == Started
    then attempts[(id, number) := attempts[(id, number)].(status := status, cost := cost)]
    else attempts
  }

  function CompleteTx(db: Db, call: Call, ctx: Context): (r: (Db, Reply))
    requires call.Complete?
  {
    if call.cost < 0 || call.response.usage.prompt < 0 || call.response.usage.completion < 0 then (db, Err(Malformed))
    else if !db.core.HoldsIn(call.tenant, call.id, InProgress) then (db, Err(AlreadyFinal))
    else (db.(attempts := SetAttempt(db.attempts, call.id, call.number, call.tenant, Succeeded, call.cost),
              core := db.core.Put(call.id, CompletedRecord(db.core.requests[call.id], call, ctx.now)))
            .Emit(Finished(call.cost), call.id, call.tenant, ctx)
            .Emit(UsageRecorded(call.response.usage, call.cost), call.id, call.tenant, ctx), Done)
  }

  function FailTx(db: Db, call: Call, ctx: Context): (r: (Db, Reply))
    requires call.Fail?
  {
    var attempts := if call.number > 0 then SetAttempt(db.attempts, call.id, call.number, call.tenant, Broken, 0) else db.attempts;
    if !call.final then (db.(attempts := attempts), Done)
    else if !db.core.HoldsIn(call.tenant, call.id, InProgress) then (db, Err(AlreadyFinal))
    else (db.(attempts := attempts, core := db.core.Put(call.id, FailedRecord(db.core.requests[call.id], call, ctx.now)))
            .Emit(RequestFailed(call.category, call.partial), call.id, call.tenant, ctx), Done)
  }

  function CancelTx(db: Db, call: Call, ctx: Context): (r: (Db, Reply))
    requires call.Cancel?
  {
    if !db.core.Holds(call.tenant, call.id) || Terminal(db.core.requests[call.id].state) then (db, Err(AlreadyFinal))
    else (db.(core := db.core.Put(call.id, db.core.requests[call.id].(state := Cancelled, completedAt := ctx.now))), Done)
  }

  /** Under the lock of the tenant's limits: read both periods' ledger and reservations, then insert. */
  ghost function ReserveTx(db: Db, call: Call): (r: (Db, Reply))
    requires call.Reserve?
  {
    if call.tenant !in db.policies then (db, Err(NotFound)) else
      var monthUsed := Sum(LedgerSince(db.projection, call.tenant, call.month));
      var monthHeld := Sum(HeldInMonth(db.reservations, call.tenant, call.month));
      var dayUsed := Sum(LedgerSince(db.projection, call.tenant, call.day));
      var dayHeld := Sum(HeldOnDay(db.reservations, call.tenant, call.day));
      if !InRange(monthUsed) || !InRange(monthHeld) || !InRange(dayUsed) || !InRange(dayHeld) then (db, Err(Unavailable)) else
        var monthly := CanReserve(db.policies[call.tenant].monthly, monthUsed, monthHeld, call.amount);
        var daily := CanReserve(db.policies[call.tenant].daily, dayUsed, dayHeld, call.amount);
        if monthly != Admitted then (db, Err(if monthly == OverLimit then Exceeded else Malformed))
        else if daily != Admitted then (db, Err(if daily == OverLimit then Exceeded else Malformed))
        else if call.amount < 0 || call.id !in db.core.requests then (db, Err(Unavailable))
        else if call.id in db.reservations then (db, Done)
        else (db.(reservations := db.reservations[call.id :=
                Reservation(call.tenant, call.month, call.day, call.amount, true, 0, 0)]), Done)
  }

  function RejectTx(db: Db, call: Call, ctx: Context): (r: (Db, Reply))
    requires call.Reject?
  {
    if !db.core.HoldsIn(call.tenant, call.id, Validated) then (db, Err(AlreadyFinal))
    else (db.(core := db.core.Put(call.id, db.core.requests[call.id].(
                state := BudgetRejected, category := "budget_exceeded", completedAt := ctx.now)))
            .Emit(BudgetExceeded(call.amount), call.id, call.tenant, ctx), Done)
  }

  function ReconcileTx(db: Db, id: Id, actual: int64): (r: (Db, Reply)) {
    if id !in db.reservations || !db.reservations[id].active then (db, Err(NotFound))
    else if actual < 0 then (db, Err(Unavailable))
    else
      var was := db.reservations[id];
      var released := if was.amount - actual > 0 then was.amount - actual else 0;
      if !InRange(released) then (db, Err(Unavailable))
      else (db.(reservations := db.reservations[id := was.(active := false, actual := actual, released := released)]), Done)
  }

  ghost function Commit(db: Db, call: Call, ctx: Context): (r: (Db, Reply)) {
    match call
    case Create(_, _, _, _) => CreateTx(db, call, ctx)
    case Transition(tenant, id, from, to) => TransitionTx(db, tenant, id, from, to)
    case LoadPolicy(tenant, model) =>
      (db, if (tenant, model) in db.models && tenant in db.policies then PolicyIs(db.policies[tenant]) else Err(ModelForbidden))
    case Reserve(_, _, _, _, _) => ReserveTx(db, call)
    case Reject(_, _, _) => RejectTx(db, call, ctx)
    case Start(_, _, _, _, _) => StartTx(db, call, ctx)
    case Complete(_, _, _, _, _) => CompleteTx(db, call, ctx)
    case Fail(_, _, _, _, _, _, _) => FailTx(db, call, ctx)
    case Cancel(_, _) => CancelTx(db, call, ctx)
    case Reconcile(id, actual) => ReconcileTx(db, id, actual)
  }

  /** A fact as it travels through the log. */
  datatype Envelope = Envelope(id: EventId, event: Event)

  predicate Valid(e: Event) {
    |e.tenant| > 0 && |e.correlation| > 0
  }

  datatype Outcome = Refused | Duplicate | Applied

  /** The ledger row a usage fact stands for. */
  function RowOf(e: Event): LedgerRow
    requires e.fact.UsageRecorded?
  {
    LedgerRow(e.aggregate, e.fact.usage, e.fact.cost, e.occurred)
  }

  predicate Chargeable(requests: map<Id, Record>, e: Event)
    requires e.fact.UsageRecorded?
  {
    e.aggregate in requests && e.fact.cost >= 0 && e.fact.usage.prompt >= 0 && e.fact.usage.completion >= 0
  }

  /** Marker, audit row and ledger row in one transaction; each insert leaves an existing row alone. */
  function Project(requests: map<Id, Record>, p: Projection, consumer: string, env: Envelope): (r: (Projection, Outcome)) {
    if !Valid(env.event) then (p, Refused)
    else if (consumer, env.id) in p.markers then (p, Duplicate)
    else
      var marked := p.(markers := p.markers + {(consumer, env.id)},
                       audit := if env.id in p.audit then p.audit else p.audit[env.id := env.event]);
      if !env.event.fact.UsageRecorded? then (marked, Applied)
      else if !Chargeable(requests, env.event) then (p, Refused)
      else if (env.event.tenant, env.id) in p.ledger then (marked, Applied)
      else (marked.(ledger := p.ledger[(env.event.tenant, env.id) := RowOf(env.event)]), Applied)
  }

  /** A connection may break before the commit, or after it with the client none the wiser. */
  datatype Fault = NoFault | BeforeCommit | AfterCommit

  ghost function Apply(db: Db, call: Call, ctx: Context, fault: Fault): (r: (Db, Reply)) {
    match fault
    case NoFault => Commit(db, call, ctx)
    case BeforeCommit => (db, Err(Unavailable))
    case AfterCommit => (Commit(db, call, ctx).0, Err(Unavailable))
  }
}

module PostgresStore {
  import opened Base
  import opened Budget
  import opened Request
  import opened PostgresSpec

  /** A transaction works on a private copy of the tables and is visible once it assigns it back. */
  class Postgres {
    var tables: Db

    constructor (models: set<(string, string)>, providers: set<string>, policies: map<string, Policy>)
      ensures tables == Opened(models, providers, policies)
    {
      tables := Opened(models, providers, policies);
    }

    method CreateOrGetRequest(call: Call, ctx: Context) returns (reply: Reply)
      requires call.Create?
      modifies this
      ensures (tables, reply) == Commit(old(tables), call, ctx)
    {
      var tx := tables;
      if (call.tenant, call.model) !in tx.models {
        return Err(ModelForbidden);
      }
      var slot := Pair(call.tenant, call.key);
      var created := slot !in tx.core.index;
      var id;
      if created {
        if ctx.newId in tx.core.requests {
          return Err(Unavailable);
        }
        id := ctx.newId;
        tx := tx.(core := Core(tx.core.requests[id := NewRecord(call)], tx.core.index[slot := id]));
      } else {
        id := tx.core.index[slot];
        if id !in tx.core.requests {
          return Err(NotFound);
        }
      }
      var record := tx.core.requests[id];
      if !created && record.hash != call.hash {
        return Err(Conflict);
      }
      if created {
        tx := tx.Emit(Accepted(call.model), id, call.tenant, ctx);
      }
      tables := tx;
      return if created then Created(id) else Existing(id, record);
    }

    method TransitionRequest(tenant: string, id: Id, from: State, to: State, ghost ctx: Context) returns (reply: Reply)
      modifies this
      ensures (tables, reply) == Commit(old(tables), Transition(tenant, id, from, to), ctx)
    {
      if !CanTransition(from, to) {
        return Err(Malformed);
      }
      var affected := tables.core.HoldsIn(tenant, id, from);
      if affected {
        tables := tables.(core := tables.core.Move(id, to));
      }
      return if affected then Done else Err(AlreadyFinal);
    }

    method StartAttempt(call: Call, ctx: Context) returns (reply: Reply)
      requires call.Start?
      modifies this
      ensures (tables, reply) == Commit(old(tables), call, ctx)
    {
      var tx := tables;
      if call.provider !in tx.providers {
        return Err(NotFound);
      }
      if call.number == 0 || call.id !in tx.core.requests || (call.id, call.number) in tx.attempts {
        return Err(Conflict);
      }
      tx := tx.(attempts := tx.attempts[(call.id, call.number) := Attempt(call.tenant, call.provider, Started, 0)]);
      tx := tx.Emit(Selected(call.number, call.provider), call.id, call.tenant, ctx);
      tables := tx;
      return Done;
    }

    /** The attempt is updated first; the update is rolled back when the request is no longer in progress. */
    method CompleteRequest(call: Call, ctx: Context) returns (reply: Reply)
      requires call.Complete?
      modifies this
      ensures (tables, reply) == Commit(old(tables), call, ctx)
    {
      var tx := tables;
      if call.cost < 0 || call.response.usage.prompt < 0 || call.response.usage.completion < 0 {
        return Err(Malformed);
      }
      tx := tx.(attempts := SetAttempt(tx.attempts, call.id, call.number, call.tenant, Succeeded, call.cost));
      if !tx.core.HoldsIn(call.tenant, call.id, InProgress) {
        return Err(AlreadyFinal);
      }
      tx := tx.(core := tx.core.Put(call.id, CompletedRecord(tx.core.requests[call.id], call, ctx.now)));
      tx := tx.Emit(Finished(call.cost), call.id, call.tenant, ctx);
      tx := tx.Emit(UsageRecorded(call.response.usage, call.cost), call.id, call.tenant, ctx);
      tables := tx;
      return Done;
    }

    method FailAttempt(call: Call, ctx: Context) returns (reply: Reply)
      requires call.Fail?
      modifies this
      ensures (tables, reply) == Commit(old(tables), call, ctx)
    {
      var tx := tables;
      if call.number > 0 {
        tx := tx.(attempts := SetAttempt(tx.attempts, call.id, call.number, call.tenant, Broken, 0));
      }
      if call.final {
        if !tx.core.HoldsIn(call.tenant, call.id, InProgress) {
          return Err(AlreadyFinal);
        }
        tx := tx.(core := tx.core.Put(call.id, FailedRecord(tx.core.requests[call.id], call, ctx.now)));
        tx := tx.Emit(RequestFailed(call.category, call.partial), call.id, call.tenant, ctx);
      }
      tables := tx;
      return Done;
    }

    method CancelRequest(tenant: string, id: Id, ctx: Context) returns (reply: Reply)
      modifies this
      ensures (tables, reply) == Commit(old(tables), Cancel(tenant, id), ctx)
    {
      if !tables.core.Holds(tenant, id) || tables.core.requests[id].state !in {Received, Validated, Routing, InProgress} {
        return Err(AlreadyFinal);
      }
      tables := tables.(core := tables.core.Put(id, tables.core.requests[id].(state := Cancelled, completedAt := ctx.now)));
      return Done;
    }

    method ReserveBudget(call: Call, ghost ctx: Context) returns (reply: Reply)
      requires call.Reserve?
      modifies this
      ensures (tables, reply) == Commit(old(tables), call, ctx)
    {
      var tx := tables;
      if call.tenant !in tx.policies {
        return Err(NotFound);
      }
      var monthUsed := SqlSum(LedgerSince(tx.projection, call.tenant, call.month));
      var monthHeld := SqlSum(HeldInMonth(tx.reservations, call.tenant, call.month));
      var dayUsed := SqlSum(LedgerSince(tx.projection, call.tenant, call.day));
      var dayHeld := SqlSum(HeldOnDay(tx.reservations, call.tenant, call.day));
      if !InRange(monthUsed) || !InRange(monthHeld) || !InRange(dayUsed) || !InRange(dayHeld) {
        return Err(Unavailable);
      }
      var monthly := CanReserve(tx.policies[call.tenant].monthly, monthUsed, monthHeld, call.amount);
      if monthly != Admitted {
        return Err(if monthly == OverLimit then Exceeded else Malformed);
      }
      var daily := CanReserve(tx.policies[call.tenant].daily, dayUsed, dayHeld, call.amount);
      if daily != Admitted {
        return Err(if daily == OverLimit then Exceeded else Malformed);
      }
      if call.amount < 0 || call.id !in tx.core.requests {
        return Err(Unavailable);
      }
      if call.id !in tx.reservations {
        var row := Reservation(call.tenant, call.month, call.day, call.amount, true, 0, 0);
        tx := tx.(reservations := tx.reservations[call.id := row]);
      }
      tables := tx;
      return Done;
    }

    method RejectBudget(call: Call, ctx: Context) returns (reply: Reply)
      requires call.Reject?
      modifies this
      ensures (tables, reply) == Commit(old(tables), call, ctx)
    {
      var tx := tables;
      if !tx.core.HoldsIn(call.tenant, call.id, Validated) {
        return Err(AlreadyFinal);
      }
      var row := tx.core.requests[call.id].(state := BudgetRejected, category := "budget_exceeded", completedAt := ctx.now);
      tx := tx.(core := tx.core.Put(call.id, row));
      tx := tx.Emit(BudgetExceeded(call.amount), call.id, call.tenant, ctx);
      tables := tx;
      return Done;
    }

    method ReconcileBudget(id: Id, actual: int64, ghost ctx: Context) returns (reply: Reply)
      modifies this
      ensures (tables, reply) == Commit(old(tables), Reconcile(id, actual), ctx)
    {
      if id !in tables.reservations || !tables.reservations[id].active {
        return Err(NotFound);
      }
      var was := tables.reservations[id];
      var released := if was.amount - actual > 0 then was.amount - actual else 0;
      if actual < 0 || !InRange(released) {
        return Err(Unavailable);
      }
      tables := tables.(reservations := tables.reservations[id := was.(active := false, actual := actual, released := released)]);
      return Done;
    }

    /** internal/persistence/audit.go; a refused envelope rolls every insert back. */
    method ProcessKafkaEvent(consumer: string, env: Envelope) returns (outcome: Outcome)
      modifies this
      ensures (tables.projection, outcome) == Project(old(tables).core.requests, old(tables).projection, consumer, env)
      ensures tables == old(tables).(projection := tables.projection)
    {
      if !Valid(env.event) {
        return Refused;
      }
      var tx := tables.projection;
      if (consumer, env.id) in tx.markers {
        return Duplicate;
      }
      tx := tx.(markers := tx.markers + {(consumer, env.id)});
      if env.id !in tx.audit {
        tx := tx.(audit := tx.audit[env.id := env.event]);
      }
      if env.event.fact.UsageRecorded? {
        if !Chargeable(tables.core.requests, env.event) {
          return Refused;
        }
        if (env.event.tenant, env.id) !in tx.ledger {
          tx := tx.(ledger := tx.ledger[(env.event.tenant, env.id) := RowOf(env.event)]);
        }
      }
      tables := tables.(projection := tx);
      return Applied;
    }
  }

  /** SQL SUM over a selected column: rows may be visited in any order. */
  method SqlSum<K(==)>(column: map<K, int>) returns (total: int)
    ensures total == Sum(column)
  {
    total := 0;
    var left := column;
    while left != map[]
      invariant total + Sum(left) == Sum(column)
      decreases |left|
    {
      assert left.Keys != {};
      var k :| k in left.Keys;
      SumRemove(left, k);
      RemoveShrinks(left, k);
      total := total + left[k];
      left := left - {k};
    }
  }
}
