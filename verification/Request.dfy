/** The logical request, its state machine and the calls a store answers (internal/request, internal/persistence/store.go). */
module Request {
  import opened Base
  import opened Budget

  type Id = nat
  type Time = int

  datatype State = Received | Validated | Routing | InProgress | Completed | Failed | Cancelled | BudgetRejected

  predicate CanTransition(current: State, next: State) {
    match current
    case Received => next in {Validated, Failed, Cancelled}
    case Validated => next in {Routing, BudgetRejected, Failed, Cancelled}
    case Routing => next in {InProgress, Failed, Cancelled}
    case InProgress => next in {Completed, Failed, Cancelled}
    case _ => false
  }

  predicate Terminal(s: State)
    ensures Terminal(s) <==> s !in {Received, Validated, Routing, InProgress}
  {
    match s
    case Completed | Failed | Cancelled | BudgetRejected => true
    case Received | Validated | Routing | InProgress => false
  }

  datatype Usage = Usage(prompt: int, completion: int)

  datatype Response = Response(request: Id, model: string, content: string, usage: Usage)

  datatype Record = Record(tenant: string, key: string, hash: string, model: string, state: State,
                           response: Option<Response>, cost: int64, partial: bool, category: string, completedAt: Time)

  /** The row a unique index finds: a pair of columns, or the joined key of the in-memory map. */
  datatype Slot = Pair(tenant: string, key: string) | Joined(text: string)

  /** The request rows and the idempotency index over them. */
  datatype Core = Core(requests: map<Id, Record>, index: map<Slot, Id>) {
    predicate Holds(tenant: string, id: Id) {
      id in requests && requests[id].tenant == tenant
    }

    predicate HoldsIn(tenant: string, id: Id, state: State) {
      Holds(tenant, id) && requests[id].state == state
    }

    function Put(id: Id, record: Record): (c: Core) {
      this.(requests := requests[id := record])
    }

    function Move(id: Id, to: State): (c: Core)
      requires id in requests
    {
      Put(id, requests[id].(state := to))
    }
  }

  datatype Policy = Policy(classification: string, allowed: Option<set<string>>, monthly: int64, daily: int64)

  datatype Error = NotFound | Conflict | AlreadyFinal | ModelForbidden | Exceeded | Malformed | Unavailable | Panicked

  /** What the gateway asks of a store; each call is one critical section or one transaction. */
  datatype Call =
    | Create(tenant: string, key: string, hash: string, model: string)
    | Transition(tenant: string, id: Id, from: State, to: State)
    | LoadPolicy(tenant: string, model: string)
    | Reserve(tenant: string, id: Id, amount: int64, month: Time, day: Time)
    | Reject(tenant: string, id: Id, amount: int64)
    | Start(tenant: string, id: Id, number: nat, provider: string, model: string)
    | Complete(tenant: string, id: Id, number: nat, response: Response, cost: int64)
    | Fail(tenant: string, id: Id, number: nat, category: string, retryable: bool, partial: bool, final: bool)
    | Cancel(tenant: string, id: Id)
    | Reconcile(id: Id, actual: int64)

  /** What a call takes from outside: the clock, a random identifier and the correlation. */
  datatype Context = Context(now: Time, newId: Id, correlation: string)

  datatype Reply =
    | Created(id: Id)
    | Existing(id: Id, record: Record)
    | Done
    | PolicyIs(policy: Policy)
    | Err(error: Error)

  function NewRecord(call: Call): (r: Record)
    requires call.Create?
    ensures r.state == Received && r.response == None && !r.partial
  {
    Record(call.tenant, call.key, call.hash, call.model, Received, None, 0, false, "", 0)
  }

  /** Find the row of a slot or insert a new one; the same slot with another hash is refused. */
  function CreateOrGet(core: Core, slot: Slot, call: Call, ctx: Context): (r: (Core, Reply))
    requires call.Create?
  {
    if slot in core.index then
      var id := core.index[slot];
      if id !in core.requests then (core, Err(NotFound))
      else if core.requests[id].hash != call.hash then (core, Err(Conflict))
      else (core, Existing(id, core.requests[id]))
    else if ctx.newId in core.requests then (core, Err(Unavailable))
    else (core.Put(ctx.newId, NewRecord(call)).(index := core.index[slot := ctx.newId]), Created(ctx.newId))
  }

  function CompletedRecord(row: Record, call: Call, now: Time): (r: Record)
    requires call.Complete?
  {
    row.(state := Completed, response := Some(call.response), cost := call.cost, completedAt := now)
  }

  function FailedRecord(row: Record, call: Call, now: Time): (r: Record)
    requires call.Fail?
  {
    row.(state := Failed, category := call.category, partial := call.partial, completedAt := now)
  }
}

/** Exclusive finalisation over any run of any store whose steps are legal updates. */
module Lifecycle {
  import opened Base
  import opened Request

  /** The final states are exactly those the transition table gives no way out of. */
  lemma TerminalIsDeadEnd(s: State)
    ensures Terminal(s) <==> forall t :: !CanTransition(s, t)
  {
    if !Terminal(s) {
      assert CanTransition(s, Cancelled);
    }
  }

  /** One row changes only along the transition table, and only while it is open. */
  predicate LegalUpdate(before: Record, after: Record) {
    || before == after
    || ( && CanTransition(before.state, after.state)
         && after.tenant == before.tenant && after.key == before.key
         && after.hash == before.hash && after.model == before.model)
  }

  /** Rows are never removed and index entries never move. */
  ghost predicate LegalStep(before: Core, after: Core) {
    && (forall id :: id in before.requests ==>
          id in after.requests && LegalUpdate(before.requests[id], after.requests[id]))
    && (forall id :: id in after.requests && id !in before.requests ==> after.requests[id].state == Received)
    && (forall s :: s in before.index ==> s in after.index && after.index[s] == before.index[s])
  }

  ghost predicate LegalRun(run: seq<Core>) {
    forall i, j :: 0 <= i < j < |run| && j == i + 1 ==> LegalStep(run[i], run[j])
  }

  /** The states one row goes through, from its first appearance on. */
  ghost function History(run: seq<Core>, id: Id): (h: seq<State>)
    requires forall i :: 0 <= i < |run| ==> id in run[i].requests
    ensures |h| == |run|
    ensures forall i :: 0 <= i < |run| ==> h[i] == run[i].requests[id].state
  {
    seq(|run|, i requires 0 <= i < |run| => run[i].requests[id].state)
  }

  function Rank(s: State): nat {
    match s case Received => 0 case Validated => 1 case Routing => 2 case InProgress => 3 case _ => 4
  }

  /** A history with its repetitions removed. */
  function Compress(h: seq<State>): (c: seq<State>)
    ensures h != [] ==> c != [] && c[|c| - 1] == h[|h| - 1]
  {
    if |h| <= 1 then h
    else
      var c := Compress(h[..|h| - 1]);
      if h[|h| - 1] == c[|c| - 1] then c else c + [h[|h| - 1]]
  }

  ghost predicate Path(c: seq<State>) {
    forall i, j :: 0 <= i < j < |c| && j == i + 1 ==> CanTransition(c[i], c[j])
  }

  lemma {:induction false} PathRank(c: seq<State>)
    requires Path(c) && c != []
    ensures |c| - 1 <= Rank(c[|c| - 1])
  {
    if |c| > 1 {
      PathRank(c[..|c| - 1]);
      assert CanTransition(c[|c| - 2], c[|c| - 1]);
    }
  }

  lemma CompressAppend(h: seq<State>, s: State)
    requires h != []
    ensures Compress(h + [s]) == if s == h[|h| - 1] then Compress(h) else Compress(h) + [s]
  {
    assert (h + [s])[..|h|] == h;
  }

  lemma PathAppend(c: seq<State>, s: State)
    requires Path(c) && c != [] && CanTransition(c[|c| - 1], s)
    ensures Path(c + [s])
  {
  }

  predicate LegalMove(s: State, t: State) {
    s == t || CanTransition(s, t)
  }

  ghost predicate LegalHistory(h: seq<State>) {
    forall i, j :: 0 <= i < j < |h| && j == i + 1 ==> LegalMove(h[i], h[j])
  }

  lemma {:induction false} CompressIsPath(h: seq<State>)
    requires LegalHistory(h) && h != []
    ensures Path(Compress(h))
  {
    if |h| > 1 {
      var init, last := h[..|h| - 1], h[|h| - 1];
      CompressIsPath(init);
      assert h == init + [last];
      assert LegalMove(init[|init| - 1], last);
      CompressAppend(init, last);
      if last != init[|init| - 1] { PathAppend(Compress(init), last); }
    }
  }

  lemma StepIsMove(before: Core, after: Core, id: Id)
    requires LegalStep(before, after) && id in before.requests
    ensures id in after.requests && LegalMove(before.requests[id].state, after.requests[id].state)
  {
    assert LegalUpdate(before.requests[id], after.requests[id]);
  }

  lemma HistoryIsLegal(run: seq<Core>, id: Id)
    requires LegalRun(run) && forall i :: 0 <= i < |run| ==> id in run[i].requests
    ensures LegalHistory(History(run, id))
  {
    forall i, j | 0 <= i < j < |run| && j == i + 1 ensures LegalMove(History(run, id)[i], History(run, id)[j]) {
      StepIsMove(run[i], run[j], id);
    }
  }

  lemma PathIsShort(h: seq<State>)
    requires LegalHistory(h) && h != []
    ensures Path(Compress(h)) && |Compress(h)| <= 5
  {
    CompressIsPath(h);
    PathRank(Compress(h));
  }

  /** Every request's distinct states form a path of the table, of at most five states. */
  lemma HistoryIsPath(run: seq<Core>, id: Id)
    requires LegalRun(run) && run != []
    requires forall i :: 0 <= i < |run| ==> id in run[i].requests
    ensures Path(Compress(History(run, id))) && |Compress(History(run, id))| <= 5
  {
    HistoryIsLegal(run, id);
    PathIsShort(History(run, id));
  }

  lemma {:induction false} RowsPersist(run: seq<Core>, i: nat, j: nat, id: Id)
    requires LegalRun(run) && i <= j < |run| && id in run[i].requests
    ensures id in run[j].requests
    ensures run[j].requests[id].tenant == run[i].requests[id].tenant
    ensures run[j].requests[id].hash == run[i].requests[id].hash
    decreases j - i
  {
    if i < j {
      assert LegalStep(run[i], run[i + 1]);
      RowsPersist(run, i + 1, j, id);
    }
  }

  /** A final row keeps its state, response, cost and flags for ever. */
  lemma {:induction false} FinalRowFrozen(run: seq<Core>, i: nat, j: nat, id: Id)
    requires LegalRun(run) && i <= j < |run|
    requires id in run[i].requests && Terminal(run[i].requests[id].state)
    ensures id in run[j].requests && run[j].requests[id] == run[i].requests[id]
    decreases j - i
  {
    if i < j {
      assert LegalStep(run[i], run[i + 1]);
      FinalRowFrozen(run, i + 1, j, id);
    }
  }

  ghost predicate Finalises(run: seq<Core>, i: nat, id: Id)
    requires i < |run| - 1
  {
    && id in run[i].requests && !Terminal(run[i].requests[id].state)
    && id in run[i + 1].requests && Terminal(run[i + 1].requests[id].state)
  }

  /** However calls interleave, at most one step finalises a request. */
  lemma OneFinaliser(run: seq<Core>, i: nat, j: nat, id: Id)
    requires LegalRun(run) && i < |run| - 1 && j < |run| - 1
    requires Finalises(run, i, id) && Finalises(run, j, id)
    ensures i == j
  {
    if i < j {
      FinalRowFrozen(run, i + 1, j, id);
    } else if j < i {
      FinalRowFrozen(run, j + 1, i, id);
    }
  }
}
