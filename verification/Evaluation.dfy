/** Evaluation jobs: the tables (internal/persistence/evaluation.go), the queues and one delivery (internal/rabbitmq/rabbitmq.go). */
module EvaluationSpec {
  import opened Base
  import R = Request
  import P = PostgresSpec

  type JobId = nat

  datatype Status = Pending | Queued | Running | Completed | Failed | DeadLettered

  datatype JobRow = JobRow(tenant: string, request: Option<R.Id>, key: string, hash: string, kind: string, status: Status, tries: nat,
                           correlation: string, category: string)

  datatype ResultRow = ResultRow(tenant: string, execution: string, score: int, failed: bool, duration: int)

  datatype Announcement = Announcement(job: JobId, completed: bool)

  /** The job and result tables, the unique index over jobs, and the outbox facts about jobs. */
  datatype Book = Book(jobs: map<JobId, JobRow>, index: map<(string, string), JobId>, results: map<JobId, ResultRow>,
                       facts: seq<Announcement>)
  {
    predicate Holds(tenant: string, id: JobId) {
      id in jobs && jobs[id].tenant == tenant
    }

    function SetStatus(id: JobId, status: Status): Book
      requires id in jobs
    {
      this.(jobs := jobs[id := jobs[id].(status := status)])
    }
  }

  datatype Reply = Created(id: JobId) | Existing(id: JobId) | Done | Err(error: R.Error)

  // One evaluation suite

  datatype Result = Result(score: int, duration: int, failed: bool)

  function Scores(rs: seq<Result>): int {
    if rs == [] then 0 else Scores(rs[..|rs| - 1]) + rs[|rs| - 1].score
  }

  function Durations(rs: seq<Result>): int {
    if rs == [] then 0 else Durations(rs[..|rs| - 1]) + rs[|rs| - 1].duration
  }

  /** Integer division that drops the fraction, as the source's does. */
  function Quotient(a: int, b: int): int
    requires b > 0
  {
    if a >= 0 then a / b else -((-a) / b)
  }

  function Average(rs: seq<Result>): int {
    if rs == [] then 0 else Quotient(Scores(rs), |rs|)
  }

  predicate AnyFailed(rs: seq<Result>) {
    exists k :: 0 <= k < |rs| && rs[k].failed
  }

  /** Scores between 0 and 1000 average to a score the table accepts. */
  lemma {:induction false} AverageInRange(rs: seq<Result>)
    requires forall k :: 0 <= k < |rs| ==> 0 <= rs[k].score <= 1000
    ensures 0 <= Scores(rs) <= 1000 * |rs| && 0 <= Average(rs) <= 1000
  {
    if rs != [] {
      AverageInRange(rs[..|rs| - 1]);
    }
  }

  // Transactions

  datatype Params = Params(tenant: string, request: Option<R.Id>, key: string, hash: string, kind: string, correlation: string)

  /** `ready` tells whether the tenant's request is COMPLETED; only then is a row inserted. */
  function CreateTx(book: Book, p: Params, ready: bool, newId: JobId): (r: (Book, Reply)) {
    if (p.tenant, p.key) in book.index then
      var id := book.index[(p.tenant, p.key)];
      if !book.Holds(p.tenant, id) then (book, Err(R.NotFound))
      else if book.jobs[id].hash != p.hash then (book, Err(R.Conflict))
      else (book, Existing(id))
    else if !ready then (book, Err(R.NotFound))
    else if newId in book.jobs then (book, Err(R.Unavailable))
    else (book.(jobs := book.jobs[newId := JobRow(p.tenant, p.request, p.key, p.hash, p.kind, Pending, 0, p.correlation, "")],
                index := book.index[(p.tenant, p.key) := newId]), Created(newId))
  }

  function QueueTx(book: Book, tenant: string, id: JobId): (r: Book) {
    if book.Holds(tenant, id) && book.jobs[id].status in {Pending, Failed} then book.SetStatus(id, Queued) else book
  }

  function RunTx(book: Book, tenant: string, id: JobId): (r: Book) {
    if book.Holds(tenant, id) && book.jobs[id].status in {Pending, Queued, Running, Failed}
    then book.(jobs := book.jobs[id := book.jobs[id].(status := Running, tries := book.jobs[id].tries + 1)]) else book
  }

  /** The row a suite's results become. */
  function RowFor(tenant: string, execution: string, rs: seq<Result>): ResultRow {
    ResultRow(tenant, execution, Average(rs), AnyFailed(rs), Durations(rs))
  }

  predicate Storable(book: Book, id: JobId, row: ResultRow) {
    && id in book.jobs && 0 <= row.score <= 1000 && row.duration >= 0
    && (id !in book.results ==> forall j :: j in book.results ==> book.results[j].execution != row.execution)
  }

  /** Insert the result unless the job has one, complete the job and announce it, or change nothing. */
  function CompleteTx(book: Book, tenant: string, id: JobId, execution: string, rs: seq<Result>): (r: (Book, Reply)) {
    var row := RowFor(tenant, execution, rs);
    if !Storable(book, id, row) then (book, Err(R.Unavailable))
    else
      var stored := if id in book.results then book else book.(results := book.results[id := row]);
      var marked := if stored.Holds(tenant, id)
                    then stored.(jobs := stored.jobs[id := stored.jobs[id].(status := Completed, category := "")]) else stored;
      (marked.(facts := marked.facts + [Announcement(id, true)]), Done)
  }

  function FailTx(book: Book, tenant: string, id: JobId, category: string, permanent: bool): (r: (Book, Reply)) {
    if !book.Holds(tenant, id) then (book, Err(R.NotFound))
    else
      var marked := book.(jobs := book.jobs[id := book.jobs[id].(status := if permanent then DeadLettered else Failed, category := category)]);
      (if permanent then marked.(facts := marked.facts + [Announcement(id, false)]) else marked, Done)
  }

  // Commands and queues

  /** An executable command; retries of it carry the same execution and a higher attempt. */
  datatype Command = Command(job: JobId, tenant: string, execution: string, kind: string, correlation: string, attempt: nat)

  datatype Queues = Queues(work: multiset<Command>, retry: multiset<Command>, dead: multiset<Command>)

  /** An unconfirmed publication may or may not have been enqueued; a confirmed one has. */
  datatype Sent = Confirmed | Unconfirmed(enqueued: bool)

  predicate Enqueued(sent: Sent) {
    sent.Confirmed? || sent.enqueued
  }

  datatype Stage = Received | Marked | Loaded | Retrying(category: string) | Relayed(category: string) | Acking | Dropping | Requeueing

  /** A delivery a worker has not settled with the broker yet. */
  datatype Flight = Flight(command: Command, stage: Stage)

  datatype WorkerChoice = WorkerChoice(fault: P.Fault, loaded: bool, results: seq<Result>, sent: Sent, reached: bool)

  predicate Malformed(c: Command) {
    |c.tenant| == 0 || |c.execution| == 0
  }

  datatype WorkerView = WorkerView(book: Book, queues: Queues, flight: Option<Flight>)

  function At(v: WorkerView, f: Flight, stage: Stage): WorkerView {
    v.(flight := Some(f.(stage := stage)))
  }

  /** One step of `process` or `retry`. A settlement that does not reach the broker makes it redeliver. */
  function FlightStep(max: nat, v: WorkerView, f: Flight, ch: WorkerChoice): (r: WorkerView)
  {
    var c, q := f.command, v.queues;
    match f.stage
    case Received =>
      if Malformed(c) then At(v, f, Dropping)
      else At(if ch.fault == P.BeforeCommit then v else v.(book := RunTx(v.book, c.tenant, c.job)), f,
              if ch.fault == P.NoFault then Marked else Retrying("database_transient"))
    case Marked => At(v, f, if ch.loaded then Loaded else Retrying("evaluation_source"))
    case Loaded =>
      var (book, reply) := CompleteTx(v.book, c.tenant, c.job, c.execution, ch.results);
      At(if ch.fault == P.BeforeCommit then v else v.(book := book), f,
         if ch.fault == P.NoFault && reply == Done then Acking else Retrying("database_transient"))
    case Retrying(category) =>
      if c.attempt + 1 >= max then
        At(if ch.fault == P.BeforeCommit then v else v.(book := FailTx(v.book, c.tenant, c.job, category, true).0), f, Dropping)
      else
        At(if Enqueued(ch.sent) then v.(queues := q.(retry := q.retry + multiset{c.(attempt := c.attempt + 1)})) else v, f,
           if ch.sent.Confirmed? then Relayed(category) else Requeueing)
    case Relayed(category) =>
      At(if ch.fault == P.BeforeCommit then v else v.(book := FailTx(v.book, c.tenant, c.job, category, false).0), f, Acking)
    case Acking => WorkerView(v.book, if ch.reached then q else q.(work := q.work + multiset{c}), None)
    case Dropping =>
      WorkerView(v.book, if ch.reached then q.(dead := q.dead + multiset{c}) else q.(work := q.work + multiset{c}), None)
    case Requeueing => WorkerView(v.book, q.(work := q.work + multiset{c}), None)
  }

  // The evaluation API (internal/evaluationjob/service.go)

  datatype Client =
    | Submitting(params: Params)
    | Looking(tenant: string, id: JobId, correlation: string)
    | Publishing(command: Command)
    | Queueing(command: Command)
    | Answered(ok: bool)

  datatype ClientChoice = ClientChoice(ready: bool, newId: JobId, execution: string, sent: Sent, fault: P.Fault)

  predicate Retryable(s: Status) {
    s in {Failed, DeadLettered, Pending}
  }

  datatype ClientView = ClientView(book: Book, queues: Queues, client: Client)

  /** Record first, then publish, then mark. */
  function ClientStep(v: ClientView, ch: ClientChoice): (r: ClientView) {
    match v.client
    case Submitting(p) =>
      if p.request.None? || |p.kind| == 0 then v.(client := Answered(false)) else
        var (book, reply) := CreateTx(v.book, p, ch.ready, ch.newId);
        ClientView(if ch.fault == P.BeforeCommit then v.book else book, v.queues,
                   if ch.fault != P.NoFault || reply.Err? then Answered(false)
                   else if reply.Created? then Publishing(Command(reply.id, p.tenant, ch.execution, p.kind, p.correlation, 0))
                   else Answered(true))
    case Looking(tenant, id, correlation) =>
      v.(client := if ch.fault == P.NoFault && v.book.Holds(tenant, id) && Retryable(v.book.jobs[id].status)
                   then Publishing(Command(id, tenant, ch.execution, v.book.jobs[id].kind, correlation, 0)) else Answered(false))
    case Publishing(c) =>
      ClientView(v.book, if Enqueued(ch.sent) then v.queues.(work := v.queues.work + multiset{c}) else v.queues,
                 if ch.sent.Confirmed? then Queueing(c) else Answered(false))
    case Queueing(c) =>
      ClientView(if ch.fault == P.BeforeCommit then v.book else QueueTx(v.book, c.tenant, c.job), v.queues, Answered(ch.fault == P.NoFault))
    case Answered(_) => v
  }
}

/** Any number of API calls, deliveries, crashes and expiries in any order. */
module EvaluationRuns {
  import opened Base
  import R = Request
  import P = PostgresSpec
  import opened EvaluationSpec

  /** Tables, queues, open deliveries by tag, API calls, and the commands whose publication was confirmed to the API. */
  datatype Floor = Floor(book: Book, queues: Queues, flights: map<nat, Flight>, clients: seq<Client>, confirmed: set<Command>)

  datatype Action =
    | Call(client: Client)
    | Advance(i: nat, serving: ClientChoice)
    | Deliver(command: Command, tag: nat)
    | Work(tag: nat, working: WorkerChoice)
    | Crash(tag: nat)
    | Expire(command: Command)

  function Confirms(c: Client, ch: ClientChoice): set<Command> {
    if c.Publishing? && ch.sent.Confirmed? then {c.command} else {}
  }

  function Next(max: nat, s: Floor, a: Action): Floor {
    match a
    case Call(client) => if client.Submitting? || client.Looking? then s.(clients := s.clients + [client]) else s
    case Advance(i, ch) =>
      if i >= |s.clients| then s else
        var v := ClientStep(ClientView(s.book, s.queues, s.clients[i]), ch);
        Floor(v.book, v.queues, s.flights, s.clients[i := v.client], s.confirmed + Confirms(s.clients[i], ch))
    case Deliver(c, tag) =>
      if s.queues.work[c] == 0 || tag in s.flights then s
      else s.(queues := s.queues.(work := s.queues.work - multiset{c}), flights := s.flights[tag := Flight(c, Received)])
    case Work(tag, ch) =>
      if tag !in s.flights then s else
        var v := FlightStep(max, WorkerView(s.book, s.queues, None), s.flights[tag], ch);
        Floor(v.book, v.queues, if v.flight.Some? then s.flights[tag := v.flight.value] else s.flights - {tag}, s.clients, s.confirmed)
    case Crash(tag) =>
      if tag !in s.flights then s
      else s.(queues := s.queues.(work := s.queues.work + multiset{s.flights[tag].command}), flights := s.flights - {tag})
    case Expire(c) =>
      if s.queues.retry[c] == 0 then s
      else s.(queues := s.queues.(work := s.queues.work + multiset{c}, retry := s.queues.retry - multiset{c}))
  }

  const NOTHING := Floor(Book(map[], map[], map[], []), Queues(multiset{}, multiset{}, multiset{}), map[], [], {})

  function After(max: nat, actions: seq<Action>): Floor {
    if actions == [] then NOTHING else Next(max, After(max, actions[..|actions| - 1]), actions[|actions| - 1])
  }

  // Delivery

  /** The same command, whatever its attempt. */
  predicate Copy(c: Command, d: Command) {
    c.(attempt := 0) == d.(attempt := 0)
  }

  /** A delivery that still stands for its command: its work is neither stored nor handed to the retry queue. */
  predicate Live(f: Flight) {
    !f.stage.Acking? && !f.stage.Relayed?
  }

  ghost predicate InQueues(q: Queues, c: Command) {
    exists d :: (d in q.work || d in q.retry || d in q.dead) && Copy(d, c)
  }

  ghost predicate InFlight(flights: map<nat, Flight>, c: Command) {
    exists t :: t in flights && Live(flights[t]) && Copy(flights[t].command, c)
  }

  /** The command has its result, or a copy somewhere that will be worked on or can be inspected. */
  ghost predicate Covered(s: Floor, c: Command) {
    c.job in s.book.results || InQueues(s.queues, c) || InFlight(s.flights, c)
  }

  // Results are never overwritten, whatever the call

  ghost predicate Kept(b: Book, b': Book) {
    && (forall j :: j in b.results ==> j in b'.results && b'.results[j] == b.results[j])
    && (forall j :: j in b.jobs ==> j in b'.jobs)
  }

  lemma StepKeepsBook(max: nat, v: WorkerView, f: Flight, ch: WorkerChoice)
    ensures Kept(v.book, FlightStep(max, v, f, ch).book)
  {
  }

  lemma ClientKeepsBook(v: ClientView, ch: ClientChoice)
    ensures Kept(v.book, ClientStep(v, ch).book)
  {
  }

  lemma NextKeepsBook(max: nat, s: Floor, a: Action)
    ensures Kept(s.book, Next(max, s, a).book)
  {
    match a
    case Advance(i, ch) => if i < |s.clients| { ClientKeepsBook(ClientView(s.book, s.queues, s.clients[i]), ch); }
    case Work(tag, ch) => if tag in s.flights { StepKeepsBook(max, WorkerView(s.book, s.queues, None), s.flights[tag], ch); }
    case _ =>
  }

  lemma {:induction false} ResultIsForever(max: nat, actions: seq<Action>, k: nat, j: JobId)
    requires k <= |actions| && j in After(max, actions[..k]).book.results
    ensures j in After(max, actions).book.results
    ensures After(max, actions).book.results[j] == After(max, actions[..k]).book.results[j]
  {
    if k < |actions| {
      var init := actions[..|actions| - 1];
      assert init[..k] == actions[..k];
      ResultIsForever(max, init, k, j);
      NextKeepsBook(max, After(max, init), actions[|actions| - 1]);
    } else {
      assert actions[..k] == actions;
    }
  }

  // No command is lost

  predicate QueuesGrow(q: Queues, q': Queues) {
    q.work <= q'.work && q.retry <= q'.retry && q.dead <= q'.dead
  }

  lemma GrowthKeepsCopy(q: Queues, q': Queues, c: Command)
    requires QueuesGrow(q, q') && InQueues(q, c)
    ensures InQueues(q', c)
  {
    var d :| (d in q.work || d in q.retry || d in q.dead) && Copy(d, c);
    assert d in q'.work || d in q'.retry || d in q'.dead;
  }

  lemma WorkGrowsQueues(max: nat, v: WorkerView, f: Flight, ch: WorkerChoice)
    ensures QueuesGrow(v.queues, FlightStep(max, v, f, ch).queues)
  {
  }

  /** A live delivery's step leaves a live delivery, a copy in a queue, or the result. */
  lemma LiveStepCovers(max: nat, v: WorkerView, f: Flight, ch: WorkerChoice, c: Command)
    requires Live(f) && Copy(f.command, c)
    ensures var v' := FlightStep(max, v, f, ch);
      || c.job in v'.book.results || InQueues(v'.queues, c)
      || (v'.flight.Some? && Live(v'.flight.value) && v'.flight.value.command == f.command)
  {
    var v' := FlightStep(max, v, f, ch);
    if f.stage.Retrying? && v'.queues != v.queues {
      var d := f.command.(attempt := f.command.attempt + 1);
      assert d in v'.queues.retry && Copy(d, c);
    } else if f.stage.Dropping? || f.stage.Requeueing? {
      assert f.command in v'.queues.work || f.command in v'.queues.dead;
    }
  }

  lemma WorkKeepsCovered(max: nat, s: Floor, tag: nat, ch: WorkerChoice, c: Command)
    requires Covered(s, c)
    ensures Covered(Next(max, s, Work(tag, ch)), c)
  {
    var s' := Next(max, s, Work(tag, ch));
    if tag in s.flights {
      var v, f := WorkerView(s.book, s.queues, None), s.flights[tag];
      StepKeepsBook(max, v, f, ch);
      WorkGrowsQueues(max, v, f, ch);
      if InQueues(s.queues, c) {
        GrowthKeepsCopy(s.queues, s'.queues, c);
      } else if c.job !in s.book.results {
        var t :| t in s.flights && Live(s.flights[t]) && Copy(s.flights[t].command, c);
        if t == tag {
          LiveStepCovers(max, v, f, ch, c);
          assert tag in s'.flights ==> s'.flights[tag] == FlightStep(max, v, f, ch).flight.value;
        } else {
          assert t in s'.flights && s'.flights[t] == s.flights[t];
        }
      }
    }
  }

  /** Moving one message between places keeps every command covered. */
  lemma MoveKeepsCovered(s: Floor, s': Floor, c: Command, moved: Command)
    requires Covered(s, c) && s'.book == s.book && InQueuesOrFlight(s', moved)
    requires forall d :: d != moved && (d in s.queues.work || d in s.queues.retry || d in s.queues.dead) ==>
      d in s'.queues.work || d in s'.queues.retry || d in s'.queues.dead
    requires forall t :: t in s.flights ==> (t in s'.flights && s'.flights[t] == s.flights[t]) || s.flights[t].command == moved
    ensures Covered(s', c)
  {
    if InQueues(s.queues, c) {
      var d :| (d in s.queues.work || d in s.queues.retry || d in s.queues.dead) && Copy(d, c);
      if d != moved { assert InQueues(s'.queues, c); }
    } else if InFlight(s.flights, c) {
      var t :| t in s.flights && Live(s.flights[t]) && Copy(s.flights[t].command, c);
      if t in s'.flights && s'.flights[t] == s.flights[t] { assert InFlight(s'.flights, c); }
    }
  }

  ghost predicate InQueuesOrFlight(s: Floor, c: Command) {
    c in s.queues.work || exists t :: t in s.flights && Live(s.flights[t]) && s.flights[t].command == c
  }

  lemma AdvanceKeepsCovered(max: nat, s: Floor, i: nat, ch: ClientChoice, c: Command)
    requires Covered(s, c)
    ensures Covered(Next(max, s, Advance(i, ch)), c)
  {
    if i < |s.clients| {
      ClientKeepsBook(ClientView(s.book, s.queues, s.clients[i]), ch);
      if InQueues(s.queues, c) { GrowthKeepsCopy(s.queues, Next(max, s, Advance(i, ch)).queues, c); }
    }
  }

  lemma DeliverKeepsCovered(max: nat, s: Floor, d: Command, tag: nat, c: Command)
    requires Covered(s, c)
    ensures Covered(Next(max, s, Deliver(d, tag)), c)
  {
    var s' := Next(max, s, Deliver(d, tag));
    if s.queues.work[d] > 0 && tag !in s.flights {
      assert tag in s'.flights && s'.flights[tag] == Flight(d, Received);
      MoveKeepsCovered(s, s', c, d);
    }
  }

  lemma CrashKeepsCovered(max: nat, s: Floor, tag: nat, c: Command)
    requires Covered(s, c)
    ensures Covered(Next(max, s, Crash(tag)), c)
  {
    if tag in s.flights {
      assert s.flights[tag].command in Next(max, s, Crash(tag)).queues.work;
      MoveKeepsCovered(s, Next(max, s, Crash(tag)), c, s.flights[tag].command);
    }
  }

  lemma ExpireKeepsCovered(max: nat, s: Floor, d: Command, c: Command)
    requires Covered(s, c)
    ensures Covered(Next(max, s, Expire(d)), c)
  {
    if s.queues.retry[d] > 0 {
      assert d in Next(max, s, Expire(d)).queues.work;
      MoveKeepsCovered(s, Next(max, s, Expire(d)), c, d);
    }
  }

  lemma ActionKeepsCovered(max: nat, s: Floor, a: Action, c: Command)
    requires Covered(s, c)
    ensures Covered(Next(max, s, a), c)
  {
    match a
    case Call(_) =>
    case Advance(i, ch) => AdvanceKeepsCovered(max, s, i, ch, c);
    case Work(tag, ch) => WorkKeepsCovered(max, s, tag, ch, c);
    case Deliver(d, tag) => DeliverKeepsCovered(max, s, d, tag, c);
    case Crash(tag) => CrashKeepsCovered(max, s, tag, c);
    case Expire(d) => ExpireKeepsCovered(max, s, d, c);
  }

  /** Every command whose publication was confirmed has a committed result, or a copy queued, in flight or dead-lettered. */
  lemma {:induction false} NoCommandIsLost(max: nat, actions: seq<Action>, c: Command)
    requires c in After(max, actions).confirmed
    ensures Covered(After(max, actions), c)
  {
    if actions != [] {
      var s, a := After(max, actions[..|actions| - 1]), actions[|actions| - 1];
      if c in s.confirmed {
        NoCommandIsLost(max, actions[..|actions| - 1], c);
        ActionKeepsCovered(max, s, a, c);
      } else {
        assert c in Next(max, s, a).queues.work;
        assert InQueues(Next(max, s, a).queues, c);
      }
    }
  }

  // Attempts

  ghost predicate AllBelow(max: nat, m: multiset<Command>) {
    forall c :: c in m ==> c.attempt < max
  }

  ghost predicate QueuesBelow(max: nat, q: Queues) {
    AllBelow(max, q.work) && AllBelow(max, q.retry) && AllBelow(max, q.dead)
  }

  lemma PutBelow(max: nat, m: multiset<Command>, c: Command)
    requires AllBelow(max, m) && c.attempt < max
    ensures AllBelow(max, m + multiset{c})
  {
  }

  lemma TakeBelow(max: nat, m: multiset<Command>, c: Command)
    requires AllBelow(max, m)
    ensures AllBelow(max, m - multiset{c})
  {
  }

  predicate ClientBelow(c: Client) {
    c.Publishing? || c.Queueing? ==> c.command.attempt == 0
  }

  ghost predicate FlightsBelow(max: nat, flights: map<nat, Flight>) {
    forall t :: t in flights ==> flights[t].command.attempt < max
  }

  ghost predicate ClientsBelow(clients: seq<Client>) {
    forall i :: 0 <= i < |clients| ==> ClientBelow(clients[i])
  }

  ghost predicate Below(max: nat, s: Floor) {
    QueuesBelow(max, s.queues) && FlightsBelow(max, s.flights) && ClientsBelow(s.clients)
  }

  /** A step of a delivery puts at most one message back, into one queue. */
  predicate Puts(max: nat, q: Queues, q': Queues, c: Command) {
    || q' == q
    || q' == q.(work := q.work + multiset{c})
    || q' == q.(dead := q.dead + multiset{c})
    || (c.attempt + 1 < max && q' == q.(retry := q.retry + multiset{c.(attempt := c.attempt + 1)}))
  }

  lemma WorkPuts(max: nat, v: WorkerView, f: Flight, ch: WorkerChoice)
    ensures Puts(max, v.queues, FlightStep(max, v, f, ch).queues, f.command)
  {
  }

  lemma PutsBelow(max: nat, q: Queues, q': Queues, c: Command)
    requires QueuesBelow(max, q) && c.attempt < max && Puts(max, q, q', c)
    ensures QueuesBelow(max, q')
  {
    PutBelow(max, q.work, c);
    PutBelow(max, q.dead, c);
    if c.attempt + 1 < max { PutBelow(max, q.retry, c.(attempt := c.attempt + 1)); }
  }

  lemma WorkStaysBelow(max: nat, v: WorkerView, f: Flight, ch: WorkerChoice)
    requires QueuesBelow(max, v.queues) && f.command.attempt < max
    ensures QueuesBelow(max, FlightStep(max, v, f, ch).queues)
  {
    WorkPuts(max, v, f, ch);
    PutsBelow(max, v.queues, FlightStep(max, v, f, ch).queues, f.command);
  }

  lemma ClientStaysBelow(max: nat, v: ClientView, ch: ClientChoice)
    requires max > 0 && QueuesBelow(max, v.queues) && ClientBelow(v.client)
    ensures var v' := ClientStep(v, ch); QueuesBelow(max, v'.queues) && ClientBelow(v'.client)
  {
    if v.client.Publishing? { PutBelow(max, v.queues.work, v.client.command); }
  }

  lemma FlightKeepsCommand(max: nat, v: WorkerView, f: Flight, ch: WorkerChoice)
    requires v.flight.None?
    ensures var v' := FlightStep(max, v, f, ch); v'.flight.Some? ==> v'.flight.value.command == f.command
  {
  }

  lemma QueuesStayBelow(max: nat, s: Floor, a: Action)
    requires max > 0 && Below(max, s)
    ensures QueuesBelow(max, Next(max, s, a).queues)
  {
    match a
    case Call(_) =>
    case Advance(i, ch) => if i < |s.clients| { ClientStaysBelow(max, ClientView(s.book, s.queues, s.clients[i]), ch); }
    case Work(tag, ch) => if tag in s.flights { WorkStaysBelow(max, WorkerView(s.book, s.queues, None), s.flights[tag], ch); }
    case Deliver(c, _) => TakeBelow(max, s.queues.work, c);
    case Crash(tag) => if tag in s.flights { PutBelow(max, s.queues.work, s.flights[tag].command); }
    case Expire(c) =>
      if c in s.queues.retry {
        PutBelow(max, s.queues.work, c);
        TakeBelow(max, s.queues.retry, c);
      }
  }

  lemma FlightsStayBelow(max: nat, s: Floor, a: Action)
    requires Below(max, s)
    ensures FlightsBelow(max, Next(max, s, a).flights)
  {
    if a.Work? && a.tag in s.flights {
      FlightKeepsCommand(max, WorkerView(s.book, s.queues, None), s.flights[a.tag], a.working);
    }
  }

  lemma ClientsStayBelow(max: nat, s: Floor, a: Action)
    requires max > 0 && Below(max, s)
    ensures ClientsBelow(Next(max, s, a).clients)
  {
    if a.Advance? && a.i < |s.clients| {
      ClientStaysBelow(max, ClientView(s.book, s.queues, s.clients[a.i]), a.serving);
    }
  }

  /** Every message anywhere has attempts left. */
  lemma {:induction false} AttemptsStayBelow(max: nat, actions: seq<Action>)
    requires max > 0
    ensures Below(max, After(max, actions))
  {
    if actions != [] {
      AttemptsStayBelow(max, actions[..|actions| - 1]);
      var s, a := After(max, actions[..|actions| - 1]), actions[|actions| - 1];
      QueuesStayBelow(max, s, a);
      FlightsStayBelow(max, s, a);
      ClientsStayBelow(max, s, a);
    }
  }

  /** A message that enters the retry queue has one attempt fewer left than the delivery it comes from. */
  lemma RetryHopDescends(max: nat, s: Floor, a: Action, c: Command)
    requires Next(max, s, a).queues.retry[c] > s.queues.retry[c]
    ensures a.Work? && a.tag in s.flights && Copy(s.flights[a.tag].command, c)
    ensures max - c.attempt == max - s.flights[a.tag].command.attempt - 1 > 0
  {
  }

  // Job status

  ghost predicate CompletedHasResult(b: Book) {
    forall j :: j in b.jobs && b.jobs[j].status == Completed ==> j in b.results
  }

  lemma WorkKeepsResults(max: nat, v: WorkerView, f: Flight, ch: WorkerChoice)
    requires CompletedHasResult(v.book)
    ensures CompletedHasResult(FlightStep(max, v, f, ch).book)
  {
  }

  lemma ClientKeepsResults(v: ClientView, ch: ClientChoice)
    requires CompletedHasResult(v.book)
    ensures CompletedHasResult(ClientStep(v, ch).book)
  {
  }

  /** A COMPLETED job has its result row. */
  lemma {:induction false} CompletedMeansResult(max: nat, actions: seq<Action>)
    ensures CompletedHasResult(After(max, actions).book)
  {
    if actions != [] {
      var s, a := After(max, actions[..|actions| - 1]), actions[|actions| - 1];
      CompletedMeansResult(max, actions[..|actions| - 1]);
      match a
      case Advance(i, ch) => if i < |s.clients| { ClientKeepsResults(ClientView(s.book, s.queues, s.clients[i]), ch); }
      case Work(tag, ch) => if tag in s.flights { WorkKeepsResults(max, WorkerView(s.book, s.queues, None), s.flights[tag], ch); }
      case _ =>
    }
  }

  /** A delivery's step records a failure of its job. */
  predicate Fails(max: nat, f: Flight, ch: WorkerChoice) {
    ch.fault != P.BeforeCommit && (f.stage.Relayed? || (f.stage.Retrying? && f.command.attempt + 1 >= max))
  }

  predicate Concerns(c: Command, b: Book, j: JobId) {
    j in b.jobs && c.job == j && c.tenant == b.jobs[j].tenant
  }

  lemma WorkLeavesCompleted(max: nat, v: WorkerView, f: Flight, ch: WorkerChoice, j: JobId)
    requires j in v.book.jobs && v.book.jobs[j].status == Completed
    ensures var b := FlightStep(max, v, f, ch).book;
      j in b.jobs && (b.jobs[j].status != Completed <==> Fails(max, f, ch) && Concerns(f.command, v.book, j))
  {
  }

  lemma ClientLeavesCompleted(v: ClientView, ch: ClientChoice, j: JobId)
    requires j in v.book.jobs && v.book.jobs[j].status == Completed
    ensures var b := ClientStep(v, ch).book; j in b.jobs && b.jobs[j].status == Completed
  {
  }

  predicate RecordsFailure(max: nat, s: Floor, a: Action, j: JobId) {
    a.Work? && a.tag in s.flights && Fails(max, s.flights[a.tag], a.working) && Concerns(s.flights[a.tag].command, s.book, j)
  }

  /** A job leaves COMPLETED exactly when another delivery of it records a failure; its result stays. */
  lemma CompletedIsLeftExactlyByFailure(max: nat, s: Floor, a: Action, j: JobId)
    requires j in s.book.jobs && s.book.jobs[j].status == Completed
    ensures var b := Next(max, s, a).book;
      j in b.jobs && (b.jobs[j].status != Completed <==> RecordsFailure(max, s, a, j)) && (j in s.book.results ==> j in b.results)
  {
    NextKeepsBook(max, s, a);
    match a
    case Advance(i, ch) => if i < |s.clients| { ClientLeavesCompleted(ClientView(s.book, s.queues, s.clients[i]), ch, j); }
    case Work(tag, ch) => if tag in s.flights { WorkLeavesCompleted(max, WorkerView(s.book, s.queues, None), s.flights[tag], ch, j); }
    case _ =>
  }

  lemma AfterOneMore(max: nat, actions: seq<Action>, a: Action)
    ensures After(max, actions + [a]) == Next(max, After(max, actions), a)
  {
    assert (actions + [a])[..|actions|] == actions;
  }

  // It does happen: the completion commits but its answer is lost, and the delivery goes on to record a failure.

  const FINE := WorkerChoice(P.NoFault, true, [], Confirmed, true)
  const LOST := WorkerChoice(P.AfterCommit, true, [], Confirmed, true)

  function CommandOf(p: Params, execution: string): Command {
    Command(0, p.tenant, execution, p.kind, p.correlation, 0)
  }

  function BookOf(p: Params, status: Status, tries: nat, results: map<JobId, ResultRow>, facts: seq<Announcement>, category: string): Book {
    Book(map[0 := JobRow(p.tenant, p.request, p.key, p.hash, p.kind, status, tries, p.correlation, category)],
         map[(p.tenant, p.key) := 0], results, facts)
  }

  /** The floor while the one command is being delivered. */
  function Delivering(c: Command, book: Book, retry: multiset<Command>, stage: Stage): Floor {
    Floor(book, Queues(multiset{}, retry, multiset{}), map[0 := Flight(c, stage)], [Queueing(c)], {c})
  }

  lemma FirstDelivery(max: nat, p: Params, execution: string) returns (actions: seq<Action>)
    requires p.request.Some? && |p.kind| > 0
    ensures |actions| == 4
    ensures var c := CommandOf(p, execution);
      After(max, actions) == Delivering(c, BookOf(p, Pending, 0, map[], [], ""), multiset{}, Received)
  {
    var c, serving := CommandOf(p, execution), ClientChoice(true, 0, execution, Confirmed, P.NoFault);
    var book := BookOf(p, Pending, 0, map[], [], "");
    var called := NOTHING.(clients := [Submitting(p)]);
    var created := Floor(book, NOTHING.queues, map[], [Publishing(c)], {});
    var published := Floor(book, Queues(multiset{c}, multiset{}, multiset{}), map[], [Queueing(c)], {c});
    assert Next(max, NOTHING, Call(Submitting(p))) == called;
    assert Next(max, called, Advance(0, serving)) == created;
    assert Next(max, created, Advance(0, serving)) == published;
    assert Next(max, published, Deliver(c, 0)) == Delivering(c, book, multiset{}, Received);
    actions := [Call(Submitting(p))];
    assert After(max, actions) == called by { AfterOneMore(max, [], Call(Submitting(p))); }
    AfterOneMore(max, actions, Advance(0, serving));
    actions := actions + [Advance(0, serving)];
    AfterOneMore(max, actions, Advance(0, serving));
    actions := actions + [Advance(0, serving)];
    AfterOneMore(max, actions, Deliver(c, 0));
    actions := actions + [Deliver(c, 0)];
  }

  lemma CompletedCanBeLost(max: nat, p: Params, execution: string) returns (actions: seq<Action>)
    requires max > 1 && p.request.Some? && |p.kind| > 0 && |p.tenant| > 0 && |execution| > 0
    ensures |actions| == 9
    ensures var b := After(max, actions[..7]).book; 0 in b.jobs && b.jobs[0].status == Completed
    ensures var b := After(max, actions).book; 0 in b.jobs && b.jobs[0].status == Failed && 0 in b.results
  {
    var c := CommandOf(p, execution);
    var opening := FirstDelivery(max, p, execution);
    var working := opening + [Work(0, FINE)] + [Work(0, FINE)];
    AfterOneMore(max, opening, Work(0, FINE));
    AfterOneMore(max, opening + [Work(0, FINE)], Work(0, FINE));
    assert After(max, working) == Delivering(c, BookOf(p, Running, 1, map[], [], ""), multiset{}, Loaded);
    var losing := working + [Work(0, LOST)];
    AfterOneMore(max, working, Work(0, LOST));
    var stored := BookOf(p, Completed, 1, map[0 := RowFor(p.tenant, execution, [])], [Announcement(0, true)], "");
    assert After(max, losing) == Delivering(c, stored, multiset{}, Retrying("database_transient"));
    actions := losing + [Work(0, FINE)] + [Work(0, FINE)];
    AfterOneMore(max, losing, Work(0, FINE));
    AfterOneMore(max, losing + [Work(0, FINE)], Work(0, FINE));
    assert actions[..7] == losing;
  }
}

module EvaluationStore {
  import opened Base
  import R = Request
  import P = PostgresSpec
  import opened EvaluationSpec

  class EvaluationTable {
    var book: Book

    constructor ()
      ensures book == Book(map[], map[], map[], [])
    {
      book := Book(map[], map[], map[], []);
    }

    method CreateOrGetEvaluation(p: Params, ready: bool, newId: JobId) returns (reply: Reply)
      modifies this
      ensures (book, reply) == CreateTx(old(book), p, ready, newId)
    {
      var slot := (p.tenant, p.key);
      if slot !in book.index {
        if !ready {
          return Err(R.NotFound);
        }
        if newId in book.jobs {
          return Err(R.Unavailable);
        }
        var row := JobRow(p.tenant, p.request, p.key, p.hash, p.kind, Pending, 0, p.correlation, "");
        book := book.(jobs := book.jobs[newId := row], index := book.index[slot := newId]);
        return Created(newId);
      }
      var id := book.index[slot];
      if !book.Holds(p.tenant, id) {
        return Err(R.NotFound);
      }
      return if book.jobs[id].hash != p.hash then Err(R.Conflict) else Existing(id);
    }

    method MarkEvaluationQueued(tenant: string, id: JobId)
      modifies this
      ensures book == QueueTx(old(book), tenant, id)
    {
      if book.Holds(tenant, id) && book.jobs[id].status in {Pending, Failed} {
        book := book.(jobs := book.jobs[id := book.jobs[id].(status := Queued)]);
      }
    }

    method MarkEvaluationRunning(tenant: string, id: JobId)
      modifies this
      ensures book == RunTx(old(book), tenant, id)
    {
      if book.Holds(tenant, id) && book.jobs[id].status in {Pending, Queued, Running, Failed} {
        book := book.(jobs := book.jobs[id := book.jobs[id].(status := Running, tries := book.jobs[id].tries + 1)]);
      }
    }

    /** The results are added up first; then one transaction stores, completes and announces. */
    method CompleteEvaluation(tenant: string, id: JobId, execution: string, results: seq<Result>) returns (reply: Reply)
      modifies this
      ensures (book, reply) == CompleteTx(old(book), tenant, id, execution, results)
    {
      var score, duration, failed := 0, 0, false;
      for k := 0 to |results|
        invariant score == Scores(results[..k]) && duration == Durations(results[..k])
        invariant failed <==> AnyFailed(results[..k])
      {
        assert results[..k + 1][..k] == results[..k];
        score := score + results[k].score;
        duration := duration + results[k].duration;
        if results[k].failed {
          failed := true;
          assert results[..k + 1][k].failed;
        }
      }
      assert results[..|results|] == results;
      if |results| > 0 {
        score := Quotient(score, |results|);
      }
      var tx, row := book, ResultRow(tenant, execution, score, failed, duration);
      if !Storable(tx, id, row) {
        return Err(R.Unavailable);
      }
      if id !in tx.results {
        tx := tx.(results := tx.results[id := row]);
      }
      if tx.Holds(tenant, id) {
        tx := tx.(jobs := tx.jobs[id := tx.jobs[id].(status := Completed, category := "")]);
      }
      book := tx.(facts := tx.facts + [Announcement(id, true)]);
      return Done;
    }

    method FailEvaluation(tenant: string, id: JobId, category: string, permanent: bool) returns (reply: Reply)
      modifies this
      ensures (book, reply) == FailTx(old(book), tenant, id, category, permanent)
    {
      if !book.Holds(tenant, id) {
        return Err(R.NotFound);
      }
      var tx := book.(jobs := book.jobs[id := book.jobs[id].(status := if permanent then DeadLettered else Failed, category := category)]);
      if permanent {
        tx := tx.(facts := tx.facts + [Announcement(id, false)]);
      }
      book := tx;
      return Done;
    }
  }

  class Broker {
    var queues: Queues

    constructor ()
      ensures queues == Queues(multiset{}, multiset{}, multiset{})
    {
      queues := Queues(multiset{}, multiset{}, multiset{});
    }

    method Publish(c: Command, retry: bool, sent: Sent) returns (ok: bool)
      modifies this
      ensures ok == sent.Confirmed?
      ensures queues == if !Enqueued(sent) then old(queues)
                        else if retry then old(queues).(retry := old(queues).retry + multiset{c})
                        else old(queues).(work := old(queues).work + multiset{c})
    {
      if Enqueued(sent) {
        queues := if retry then queues.(retry := queues.retry + multiset{c}) else queues.(work := queues.work + multiset{c});
      }
      return sent.Confirmed?;
    }

    /** A settled delivery is forgotten, dead-lettered or requeued; one whose settlement is lost is requeued. */
    method Ack(c: Command, reached: bool)
      modifies this
      ensures queues == if reached then old(queues) else old(queues).(work := old(queues).work + multiset{c})
    {
      if !reached {
        queues := queues.(work := queues.work + multiset{c});
      }
    }

    method Nack(c: Command, requeue: bool, reached: bool)
      modifies this
      ensures queues == if !requeue && reached then old(queues).(dead := old(queues).dead + multiset{c})
                        else old(queues).(work := old(queues).work + multiset{c})
    {
      queues := if !requeue && reached then queues.(dead := queues.dead + multiset{c}) else queues.(work := queues.work + multiset{c});
    }
  }

  /** A delivery taken on from its k-th step, for so many steps or until it is settled. */
  ghost function Steps(max: nat, v: WorkerView, weather: nat -> WorkerChoice, k: nat, n: nat): WorkerView
    decreases n
  {
    if n == 0 || v.flight.None? then v
    else Steps(max, FlightStep(max, v, v.flight.value, weather(k)), weather, k + 1, n - 1)
  }

  lemma OneStep(max: nat, v: WorkerView, weather: nat -> WorkerChoice, k: nat, n: nat)
    requires n > 0 && v.flight.Some?
    ensures var v' := FlightStep(max, v, v.flight.value, weather(k));
      Steps(max, v, weather, k, n) == if v'.flight.None? then v' else Steps(max, v', weather, k + 1, n - 1)
  {
  }

  class Worker {
    const table: EvaluationTable
    const broker: Broker
    const maxAttempts: nat

    constructor (table: EvaluationTable, broker: Broker, maxAttempts: int)
      ensures this.table == table && this.broker == broker
      ensures this.maxAttempts == if maxAttempts <= 0 then 3 else maxAttempts
    {
      this.table, this.broker := table, broker;
      this.maxAttempts := if maxAttempts <= 0 then 3 else maxAttempts;
    }

    ghost function View(flight: Option<Flight>): WorkerView
      reads table, broker
    {
      WorkerView(table.book, broker.queues, flight)
    }

    /** Mark, load, evaluate, store, acknowledge; every delivery is settled in at most six steps. */
    method Process(c: Command, weather: nat -> WorkerChoice)
      modifies table, broker
      ensures View(None) == Steps(maxAttempts, old(View(Some(Flight(c, Received)))), weather, 0, 6)
    {
      if Malformed(c) {
        broker.Nack(c, false, weather(1).reached);
        return;
      }
      if weather(0).fault != P.BeforeCommit {
        table.MarkEvaluationRunning(c.tenant, c.job);
      }
      if weather(0).fault != P.NoFault {
        Retry(c, "database_transient", weather, 1, 5);
        return;
      }
      if !weather(1).loaded {
        Retry(c, "evaluation_source", weather, 2, 4);
        return;
      }
      var reply := Done;
      if weather(2).fault != P.BeforeCommit {
        reply := table.CompleteEvaluation(c.tenant, c.job, c.execution, weather(2).results);
      }
      if weather(2).fault != P.NoFault || reply != Done {
        Retry(c, "database_transient", weather, 3, 3);
        return;
      }
      broker.Ack(c, weather(3).reached);
    }

    /** Bury the command when its attempts are used up; otherwise hand a copy to the retry queue before acknowledging. */
    method Retry(c: Command, category: string, weather: nat -> WorkerChoice, k: nat, ghost n: nat)
      requires n >= 3
      modifies table, broker
      ensures View(None) == Steps(maxAttempts, old(View(Some(Flight(c, Retrying(category))))), weather, k, n)
    {
      if c.attempt + 1 >= maxAttempts {
        Bury(c, category, weather, k, n);
      } else {
        HandOver(c, category, weather, k, n);
      }
    }

    method Bury(c: Command, category: string, weather: nat -> WorkerChoice, k: nat, ghost n: nat)
      requires n >= 2 && c.attempt + 1 >= maxAttempts
      modifies table, broker
      ensures View(None) == Steps(maxAttempts, old(View(Some(Flight(c, Retrying(category))))), weather, k, n)
    {
      OneStep(maxAttempts, View(Some(Flight(c, Retrying(category)))), weather, k, n);
      if weather(k).fault != P.BeforeCommit {
        var _ := table.FailEvaluation(c.tenant, c.job, category, true);
      }
      OneStep(maxAttempts, View(Some(Flight(c, Dropping))), weather, k + 1, n - 1);
      broker.Nack(c, false, weather(k + 1).reached);
    }

    method HandOver(c: Command, category: string, weather: nat -> WorkerChoice, k: nat, ghost n: nat)
      requires n >= 3 && c.attempt + 1 < maxAttempts
      modifies table, broker
      ensures View(None) == Steps(maxAttempts, old(View(Some(Flight(c, Retrying(category))))), weather, k, n)
    {
      OneStep(maxAttempts, View(Some(Flight(c, Retrying(category)))), weather, k, n);
      var ok := broker.Publish(c.(attempt := c.attempt + 1), true, weather(k).sent);
      OneStep(maxAttempts, View(Some(Flight(c, if ok then Relayed(category) else Requeueing))), weather, k + 1, n - 1);
      if !ok {
        broker.Nack(c, true, weather(k + 1).reached);
        return;
      }
      if weather(k + 1).fault != P.BeforeCommit {
        var _ := table.FailEvaluation(c.tenant, c.job, category, false);
      }
      OneStep(maxAttempts, View(Some(Flight(c, Acking))), weather, k + 2, n - 2);
      broker.Ack(c, weather(k + 2).reached);
    }
  }

  /** A call served to its end. */
  ghost function Serve(v: ClientView, serving: nat -> ClientChoice, k: nat, n: nat): ClientView
    decreases n
  {
    if n == 0 then v else Serve(ClientStep(v, serving(k)), serving, k + 1, n - 1)
  }

  class Service {
    const table: EvaluationTable
    const broker: Broker

    constructor (table: EvaluationTable, broker: Broker)
      ensures this.table == table && this.broker == broker
    {
      this.table, this.broker := table, broker;
    }

    ghost function View(client: Client): ClientView
      reads table, broker
    {
      ClientView(table.book, broker.queues, client)
    }

    /** The record exists before the command is published, and is marked only after. */
    method Submit(p: Params, serving: nat -> ClientChoice) returns (ok: bool)
      modifies table, broker
      ensures View(Answered(ok)) == Serve(old(View(Submitting(p))), serving, 0, 3)
    {
      if p.request.None? || |p.kind| == 0 {
        return false;
      }
      var reply := Err(R.Unavailable);
      if serving(0).fault != P.BeforeCommit {
        reply := table.CreateOrGetEvaluation(p, serving(0).ready, serving(0).newId);
      }
      if serving(0).fault != P.NoFault || reply.Err? {
        return false;
      }
      if !reply.Created? {
        return true;
      }
      ok := Announce(Command(reply.id, p.tenant, serving(0).execution, p.kind, p.correlation, 0), serving);
    }

    method Announce(c: Command, serving: nat -> ClientChoice) returns (ok: bool)
      modifies table, broker
      ensures View(Answered(ok)) == Serve(old(View(Publishing(c))), serving, 1, 2)
    {
      ok := broker.Publish(c, false, serving(1).sent);
      if ok {
        if serving(2).fault != P.BeforeCommit {
          table.MarkEvaluationQueued(c.tenant, c.job);
        }
        ok := serving(2).fault == P.NoFault;
      }
    }

    /** Only a failed, dead-lettered or never queued job is published again. */
    method Retry(tenant: string, id: JobId, correlation: string, serving: nat -> ClientChoice) returns (ok: bool)
      modifies table, broker
      ensures View(Answered(ok)) == Serve(old(View(Looking(tenant, id, correlation))), serving, 0, 3)
    {
      if serving(0).fault != P.NoFault || !table.book.Holds(tenant, id) || !Retryable(table.book.jobs[id].status) {
        return false;
      }
      ok := Announce(Command(id, tenant, serving(0).execution, table.book.jobs[id].kind, correlation, 0), serving);
    }
  }
}
