/** One submission walked through the machine on the SQL store, step by step: the runs that witness what can happen. */
module Walkthrough {
  import opened Base
  import opened Budget
  import opened Request
  import opened RouterSpec
  import opened PostgresSpec
  import opened Stores
  import opened GatewaySpec
  import opened Protocol

  /**
   * One tenant with one model and one provider that charges one micro-USD a prompt token. Every request estimates and
   * uses `amount` prompt tokens; `listed` tells whether the provider is in the providers table. All requests carry the
   * same correlation identifier.
   */
  datatype Shop = Shop(tenant: string, model: string, provider: string, amount: int64, limit: int64, listed: bool,
                       completion: nat, outputPrice: int64, correlation: string)

  function EntryOf(s: Shop): (e: Entry) {
    Provider(s.provider, 1, 0, 1, 1_000_000, s.outputPrice, true, {s.model}, {""})
  }

  function ConfigOf(s: Shop): Setup {
    Setup([EntryOf(s)], 1, s.completion, 1_048_576, WeightedRoundRobin, false)
  }

  function PolicyFor(s: Shop): Policy {
    Policy("", None, s.limit, 0)
  }

  function Tables0(s: Shop): Db {
    Opened({(s.tenant, s.model)}, if s.listed then {s.provider} else {}, map[s.tenant := PolicyFor(s)])
  }

  /** As many characters as asked for. */
  function Text(n: nat): (t: string)
    ensures |t| == n
  {
    seq(n, _ => 'k')
  }

  function InputOf(s: Shop, n: nat): Input
    requires s.amount >= 0
  {
    Input(s.tenant, Text(n), "", s.model, [Text(4 * s.amount)], 0, false)
  }

  function ChoiceOf(s: Shop, n: nat, ending: Ending): Choice {
    Choice(Context(0, n, s.correlation), NoFault, true, 0, Script([], ending), None, 0, 0)
  }

  predicate Plain(s: Shop, ch: Choice, n: nat) {
    ch == ChoiceOf(s, n, ch.script.ending)
  }

  /** The provider reports exactly what was estimated. */
  function Honestly(s: Shop): Ending {
    Finish("", Usage(s.amount, 0))
  }

  // Prices

  lemma EstimateIs(s: Shop, n: nat)
    requires s.amount >= 0
    ensures PromptEstimate(InputOf(s, n).messages) == s.amount && CompletionLimit(ConfigOf(s), InputOf(s, n)) == s.completion
  {
    assert [Text(4 * s.amount)][..0] == [];
    assert Characters([Text(4 * s.amount)]) == 4 * s.amount;
  }

  lemma HighestIs(s: Shop, excluded: set<string>)
    requires s.outputPrice >= 0
    ensures HighestPrices([EntryOf(s)], Selection(s.model, "", None, excluded, WeightedRoundRobin)) == Some((1_000_000, s.outputPrice))
  {
    assert [EntryOf(s)][..0] == [];
  }

  lemma CostIs(s: Shop)
    requires s.amount >= 0 && s.outputPrice == 0
    ensures CostMicroUSD(s.amount, s.completion, 1_000_000, 0) == Some(s.amount)
    ensures CostMicroUSD(s.amount, 0, 1_000_000, 0) == Some(s.amount)
  {
  }

  // Where the submission stands

  predicate LoadedBy(pc: Pc) {
    !(pc.Creating? || pc.Validating? || pc.LoadingPolicy?)
  }

  ghost predicate Going(s: Shop, n: nat, p: Proc)
    requires s.amount >= 0
  {
    && p.job.input == InputOf(s, n) && p.tickets == Tickets(0, 0, 0) && p.clean
    && (if p.pc.Creating? then !p.owner else p.owner && p.id == n)
    && (LoadedBy(p.pc) && !Ended(p.pc) ==> p.job.policy == PolicyFor(s))
    && (BeforeLoop(p.pc) || p.pc.Selecting? ==> p.job.excluded == {})
    && (Priced'(p.pc) ==> p.job.reserved == s.amount)
    && (!BeforeLoop(p.pc) && !Ended(p.pc) ==> p.attempt == 1)
    && (Leasing(p.pc) ==> p.lease == Some(EntryOf(s)))
  }

  // Where its rows stand

  ghost predicate Furnished(s: Shop, db: Db) {
    && (s.tenant, s.model) in db.models && (s.provider in db.providers <==> s.listed)
    && s.tenant in db.policies && db.policies[s.tenant] == PolicyFor(s)
    && db.projection == Projection({}, map[], map[])
  }

  ghost predicate Unknown(db: Db, n: nat) {
    && (forall id :: id in db.core.requests ==> id < n)
    && (forall slot :: slot in db.core.index ==> slot.Pair? && |slot.key| < n)
    && (forall k :: k in db.attempts ==> k.0 < n)
  }

  ghost predicate NothingHeld(db: Db, n: nat) {
    forall id :: id in db.reservations ==> id < n && !db.reservations[id].active
  }

  /** A store that the n-th request finds as the first one did, but for requests that are over. */
  ghost predicate Ready(s: Shop, db: Db, n: nat) {
    Furnished(s, db) && Unknown(db, n) && NothingHeld(db, n)
  }

  /** The request row is all that differs, apart from reservations, attempts and outbox rows about it. */
  ghost predicate Only(db: Db, db': Db, id: Id, r: Record) {
    && db'.core.requests == db.core.requests[id := r]
    && db'.core.index == db.core.index[Pair(r.tenant, r.key) := id]
    && (forall k :: k in db'.attempts ==> k in db.attempts || k.0 == id)
    && db' == db.(core := db'.core, attempts := db'.attempts, reservations := db'.reservations, events := db'.events, rows := db'.rows)
  }

  function RowFor(s: Shop, n: nat, state: State): Record {
    NewRecord(Create(s.tenant, Text(n), "", s.model)).(state := state)
  }

  function HoldFor(s: Shop): Reservation {
    Reservation(s.tenant, 0, 0, s.amount, true, 0, 0)
  }

  /** The n-th request's row, reservation and attempts, over the tables it started from. */
  ghost predicate Midway(s: Shop, db0: Db, db: Db, n: nat, r: Record, held: bool, begun: bool) {
    && Only(db0, db, n, r) && r.tenant == s.tenant && r.key == Text(n)
    && db.reservations == (if held then db0.reservations[n := HoldFor(s)] else db0.reservations)
    && (!begun ==> db.attempts == db0.attempts)
  }

  // Steps

  lemma SqlStep(c: Setup, db: Db, p: Proc, ch: Choice, db': Db, reply: Reply)
    requires AsksStore(p.pc) && ch.fault == NoFault && p.clean && Resume(p, reply).clean
    requires (db', reply) == Commit(db, CallOf(p, ch), ch.ctx)
    ensures Step(c, Sql(db), p, ch) == (Sql(db'), Resume(p, reply))
  {
  }

  /** The submission took one step to a given point, with its rows as told. */
  ghost predicate Stands(s: Shop, db0: Db, at: (Store, Proc), n: nat, pc: Pc, r: Record, held: bool, begun: bool)
    requires s.amount >= 0
  {
    at.0.Sql? && Midway(s, db0, at.0.db, n, r, held, begun) && Going(s, n, at.1) && at.1.pc == pc
  }

  lemma CreateStep(s: Shop, db0: Db, p: Proc, n: nat, ch: Choice)
    requires s.amount >= 0 && Ready(s, db0, n) && Going(s, n, p) && p.pc.Creating? && Plain(s, ch, n)
    ensures Stands(s, db0, Step(ConfigOf(s), Sql(db0), p, ch), n, Validating, RowFor(s, n, Received), false, false)
  {
    var (db, reply) := Commit(db0, CallOf(p, ch), ch.ctx);
    assert reply == Created(n);
    SqlStep(ConfigOf(s), db0, p, ch, db, reply);
  }

  /** A transition that applies moves the row and nothing else. */
  lemma MoveRow(s: Shop, db0: Db, db: Db, n: nat, from: State, to: State, held: bool, begun: bool, ctx: Context)
    requires Midway(s, db0, db, n, RowFor(s, n, from), held, begun) && CanTransition(from, to)
    ensures var (db', reply) := Commit(db, Transition(s.tenant, n, from, to), ctx);
      reply == Done && Midway(s, db0, db', n, RowFor(s, n, to), held, begun)
  {
  }

  lemma MoveStep(s: Shop, db0: Db, db: Db, p: Proc, n: nat, ch: Choice, from: State, to: State, held: bool, pc: Pc)
    requires s.amount >= 0 && p.clean && Plain(s, ch, n) && AsksStore(p.pc) && CanTransition(from, to)
    requires CallOf(p, ch) == Transition(s.tenant, n, from, to) && Going(s, n, Resume(p, Done)) && Resume(p, Done).pc == pc
    requires Midway(s, db0, db, n, RowFor(s, n, from), held, false)
    ensures Stands(s, db0, Step(ConfigOf(s), Sql(db), p, ch), n, pc, RowFor(s, n, to), held, false)
  {
    MoveRow(s, db0, db, n, from, to, held, false, ch.ctx);
    SqlStep(ConfigOf(s), db, p, ch, Commit(db, CallOf(p, ch), ch.ctx).0, Done);
  }

  lemma LoadStep(s: Shop, db0: Db, db: Db, p: Proc, n: nat, ch: Choice, r: Record)
    requires s.amount >= 0 && Furnished(s, db0) && Going(s, n, p) && Plain(s, ch, n) && p.pc.LoadingPolicy?
    requires Midway(s, db0, db, n, r, false, false)
    ensures Stands(s, db0, Step(ConfigOf(s), Sql(db), p, ch), n, Admitting, r, false, false)
  {
    SqlStep(ConfigOf(s), db, p, ch, db, PolicyIs(PolicyFor(s)));
  }

  lemma AdmitStep(s: Shop, db0: Db, db: Db, p: Proc, n: nat, ch: Choice, r: Record)
    requires s.amount >= 0 && Going(s, n, p) && p.pc.Admitting? && Midway(s, db0, db, n, r, false, false)
    ensures Stands(s, db0, Step(ConfigOf(s), Sql(db), p, ch), n, Pricing, r, false, false)
  {
  }

  lemma PriceStep(s: Shop, db0: Db, db: Db, p: Proc, n: nat, ch: Choice, r: Record)
    requires s.amount >= 0 && s.outputPrice == 0 && Going(s, n, p) && p.pc.Pricing? && Midway(s, db0, db, n, r, false, false)
    ensures Stands(s, db0, Step(ConfigOf(s), Sql(db), p, ch), n, Reserving, r, false, false)
  {
    EstimateIs(s, n);
    HighestIs(s, {});
    CostIs(s);
  }

  lemma ReserveStep(s: Shop, db0: Db, db: Db, p: Proc, n: nat, ch: Choice, r: Record)
    requires 0 <= s.amount <= s.limit && Ready(s, db0, n) && Going(s, n, p) && Plain(s, ch, n) && p.pc.Reserving?
    requires Midway(s, db0, db, n, r, false, false)
    ensures Stands(s, db0, Step(ConfigOf(s), Sql(db), p, ch), n, ToRouting, r, true, false)
  {
    assert LedgerSince(db.projection, s.tenant, 0) == map[];
    assert HeldInMonth(db.reservations, s.tenant, 0) == map[];
    assert HeldOnDay(db.reservations, s.tenant, 0) == map[];
    SqlStep(ConfigOf(s), db, p, ch, db.(reservations := db.reservations[n := HoldFor(s)]), Done);
  }

  lemma SelectStep(s: Shop, db0: Db, db: Db, p: Proc, n: nat, ch: Choice, r: Record)
    requires s.amount >= 0 && Going(s, n, p) && Plain(s, ch, n) && p.pc.Selecting? && Midway(s, db0, db, n, r, true, false)
    ensures Stands(s, db0, Step(ConfigOf(s), Sql(db), p, ch), n, Starting, r, true, false)
  {
  }

  lemma StartStep(s: Shop, db0: Db, db: Db, p: Proc, n: nat, ch: Choice, r: Record)
    requires s.amount >= 0 && s.listed && Ready(s, db0, n) && Going(s, n, p) && Plain(s, ch, n) && p.pc.Starting?
    requires Midway(s, db0, db, n, r, true, false)
    ensures Stands(s, db0, Step(ConfigOf(s), Sql(db), p, ch), n, Calling, r, true, true)
  {
    var (db', reply) := Commit(db, CallOf(p, ch), ch.ctx);
    assert (n, 1) !in db.attempts;
    assert reply == Done;
    SqlStep(ConfigOf(s), db, p, ch, db', reply);
  }

  function AnswerFor(s: Shop, n: nat): Response {
    Response(n, s.model, "", Usage(s.amount, 0))
  }

  lemma AnswerStep(s: Shop, db0: Db, db: Db, p: Proc, n: nat, ch: Choice, r: Record)
    requires s.amount >= 0 && s.outputPrice == 0 && Going(s, n, p) && p.pc.Calling? && ch.script.ending == Honestly(s)
    requires Midway(s, db0, db, n, r, true, true)
    ensures Stands(s, db0, Step(ConfigOf(s), Sql(db), p, ch), n, Completing(AnswerFor(s, n), s.amount), r, true, true)
  {
    CostIs(s);
    var outcome := CallOutcome(ConfigOf(s), p.job.input, ch.script);
    assert outcome == Completion("", Usage(s.amount, 0));
    assert CostFor(p, outcome) == Some(s.amount);
  }

  function PaidRow(s: Shop, n: nat): Record {
    RowFor(s, n, Completed).(response := Some(AnswerFor(s, n)), cost := s.amount)
  }

  lemma CompleteRow(s: Shop, db0: Db, db: Db, n: nat, ctx: Context)
    requires s.amount >= 0 && Midway(s, db0, db, n, RowFor(s, n, InProgress), true, true) && ctx.now == 0
    ensures var (db', reply) := Commit(db, Complete(s.tenant, n, 1, AnswerFor(s, n), s.amount), ctx);
      reply == Done && Midway(s, db0, db', n, PaidRow(s, n), true, true)
  {
  }

  lemma CompleteStep(s: Shop, db0: Db, db: Db, p: Proc, n: nat, ch: Choice)
    requires s.amount >= 0 && Going(s, n, p) && Plain(s, ch, n) && p.pc == Completing(AnswerFor(s, n), s.amount)
    requires Midway(s, db0, db, n, RowFor(s, n, InProgress), true, true)
    ensures Stands(s, db0, Step(ConfigOf(s), Sql(db), p, ch), n, Settling(AnswerFor(s, n), s.amount), PaidRow(s, n), true, true)
  {
    CompleteRow(s, db0, db, n, ch.ctx);
    SqlStep(ConfigOf(s), db, p, ch, Commit(db, CallOf(p, ch), ch.ctx).0, Done);
  }

  /** Settling leaves no reservation active. */
  lemma SettleStep(s: Shop, db0: Db, db: Db, p: Proc, n: nat, ch: Choice)
    requires s.amount >= 0 && Going(s, n, p) && Plain(s, ch, n) && p.pc == Settling(AnswerFor(s, n), s.amount)
    requires Midway(s, db0, db, n, PaidRow(s, n), true, true)
    ensures var (st, p') := Step(ConfigOf(s), Sql(db), p, ch);
      && st.Sql? && Only(db0, st.db, n, PaidRow(s, n)) && p'.pc == Returning(Exit.Succeeded(AnswerFor(s, n)), 0)
      && n in st.db.reservations && !st.db.reservations[n].active && st.db.reservations == db0.reservations[n := st.db.reservations[n]]
  {
    var (db', reply) := Commit(db, CallOf(p, ch), ch.ctx);
    assert reply == Done;
    SqlStep(ConfigOf(s), db, p, ch, db', reply);
  }

  // The walk

  /** The same choice, step after step. */
  ghost function Play(c: Setup, at: (Store, Proc), ch: Choice, k: nat): (Store, Proc) {
    if k == 0 then at else var before := Play(c, at, ch, k - 1); Step(c, before.0, before.1, ch)
  }

  ghost function From(s: Shop, db: Db, n: nat): (Store, Proc)
    requires s.amount >= 0
  {
    (Sql(db), Submitted(InputOf(s, n)))
  }

  lemma WalkToPricing(s: Shop, db0: Db, n: nat, ch: Choice)
    requires s.amount >= 0 && Ready(s, db0, n) && Plain(s, ch, n)
    ensures Stands(s, db0, Play(ConfigOf(s), From(s, db0, n), ch, 4), n, Pricing, RowFor(s, n, Validated), false, false)
  {
    var c, w0 := ConfigOf(s), From(s, db0, n);
    CreateStep(s, db0, w0.1, n, ch);
    var w1 := Play(c, w0, ch, 1);
    assert Play(c, w0, ch, 0) == w0;
    assert w1 == Step(c, w0.0, w0.1, ch);
    MoveStep(s, db0, w1.0.db, w1.1, n, ch, Received, Validated, false, LoadingPolicy);
    var w2 := Play(c, w0, ch, 2);
    LoadStep(s, db0, w2.0.db, w2.1, n, ch, RowFor(s, n, Validated));
    var w3 := Play(c, w0, ch, 3);
    AdmitStep(s, db0, w3.0.db, w3.1, n, ch, RowFor(s, n, Validated));
  }

  lemma WalkToRouting(s: Shop, db0: Db, n: nat, ch: Choice)
    requires 0 <= s.amount <= s.limit && s.outputPrice == 0 && Ready(s, db0, n) && Plain(s, ch, n)
    ensures Stands(s, db0, Play(ConfigOf(s), From(s, db0, n), ch, 6), n, ToRouting, RowFor(s, n, Validated), true, false)
  {
    var c, w0 := ConfigOf(s), From(s, db0, n);
    WalkToPricing(s, db0, n, ch);
    var w4 := Play(c, w0, ch, 4);
    PriceStep(s, db0, w4.0.db, w4.1, n, ch, RowFor(s, n, Validated));
    var w5 := Play(c, w0, ch, 5);
    ReserveStep(s, db0, w5.0.db, w5.1, n, ch, RowFor(s, n, Validated));
  }

  lemma WalkToSelection(s: Shop, db0: Db, n: nat, ch: Choice)
    requires 0 <= s.amount <= s.limit && s.outputPrice == 0 && Ready(s, db0, n) && Plain(s, ch, n)
    ensures Stands(s, db0, Play(ConfigOf(s), From(s, db0, n), ch, 8), n, Selecting, RowFor(s, n, InProgress), true, false)
  {
    var c, w0 := ConfigOf(s), From(s, db0, n);
    WalkToRouting(s, db0, n, ch);
    var w6 := Play(c, w0, ch, 6);
    MoveStep(s, db0, w6.0.db, w6.1, n, ch, Validated, Routing, true, ToInProgress);
    var w7 := Play(c, w0, ch, 7);
    MoveStep(s, db0, w7.0.db, w7.1, n, ch, Routing, InProgress, true, Selecting);
  }

  lemma WalkToStart(s: Shop, db0: Db, n: nat, ch: Choice)
    requires 0 <= s.amount <= s.limit && s.outputPrice == 0 && Ready(s, db0, n) && Plain(s, ch, n)
    ensures Stands(s, db0, Play(ConfigOf(s), From(s, db0, n), ch, 9), n, Starting, RowFor(s, n, InProgress), true, false)
  {
    WalkToSelection(s, db0, n, ch);
    var w8 := Play(ConfigOf(s), From(s, db0, n), ch, 8);
    SelectStep(s, db0, w8.0.db, w8.1, n, ch, RowFor(s, n, InProgress));
  }

  lemma WalkToCall(s: Shop, db0: Db, n: nat, ch: Choice)
    requires 0 <= s.amount <= s.limit && s.outputPrice == 0 && s.listed && Ready(s, db0, n) && Plain(s, ch, n)
    ensures Stands(s, db0, Play(ConfigOf(s), From(s, db0, n), ch, 10), n, Calling, RowFor(s, n, InProgress), true, true)
  {
    WalkToStart(s, db0, n, ch);
    var w9 := Play(ConfigOf(s), From(s, db0, n), ch, 9);
    StartStep(s, db0, w9.0.db, w9.1, n, ch, RowFor(s, n, InProgress));
  }

  lemma WalkToCompletion(s: Shop, db0: Db, n: nat, ch: Choice)
    requires 0 <= s.amount <= s.limit && s.outputPrice == 0 && s.listed && Ready(s, db0, n) && ch == ChoiceOf(s, n, Honestly(s))
    ensures Stands(s, db0, Play(ConfigOf(s), From(s, db0, n), ch, 11), n, Completing(AnswerFor(s, n), s.amount),
                   RowFor(s, n, InProgress), true, true)
  {
    WalkToCall(s, db0, n, ch);
    var w10 := Play(ConfigOf(s), From(s, db0, n), ch, 10);
    AnswerStep(s, db0, w10.0.db, w10.1, n, ch, RowFor(s, n, InProgress));
  }

  lemma WalkToEnd(s: Shop, db0: Db, n: nat, ch: Choice)
    requires 0 <= s.amount <= s.limit && s.outputPrice == 0 && s.listed && Ready(s, db0, n) && ch == ChoiceOf(s, n, Honestly(s))
    ensures var (st, p) := Play(ConfigOf(s), From(s, db0, n), ch, 13);
      && st.Sql? && Only(db0, st.db, n, PaidRow(s, n)) && p.pc == Returning(Exit.Succeeded(AnswerFor(s, n)), 0)
      && n in st.db.reservations && !st.db.reservations[n].active && st.db.reservations == db0.reservations[n := st.db.reservations[n]]
  {
    var c, w0 := ConfigOf(s), From(s, db0, n);
    WalkToCompletion(s, db0, n, ch);
    var w11 := Play(c, w0, ch, 11);
    CompleteStep(s, db0, w11.0.db, w11.1, n, ch);
    var w12 := Play(c, w0, ch, 12);
    SettleStep(s, db0, w12.0.db, w12.1, n, ch);
  }

  /** After a whole life the store is ready for the next one. */
  lemma ReadyAgain(s: Shop, db0: Db, db: Db, n: nat)
    requires Ready(s, db0, n) && Only(db0, db, n, PaidRow(s, n))
    requires n in db.reservations && !db.reservations[n].active && db.reservations == db0.reservations[n := db.reservations[n]]
    ensures Ready(s, db, n + 1)
  {
  }

  lemma FreshIsReady(s: Shop)
    ensures Ready(s, Tables0(s), 0)
  {
  }
}

/** For every return statement that leaves a request open or a reservation behind, a run that takes it. */
module LeakingRuns {
  import opened Base
  import opened Budget
  import opened Request
  import opened RouterSpec
  import opened Stores
  import opened GatewaySpec
  import opened Protocol
  import opened Ownership
  import opened Cluster
  import opened Walkthrough
  import M = MemorySpec
  import P = PostgresSpec

  ghost predicate Alone(sys: Sys, at: (Store, Proc)) {
    sys.store == at.0 && sys.procs == [at.1]
  }

  /** The only submission has returned through an exit, and what became of its request and reservation. */
  ghost predicate Leaves(c: Setup, store: Store, actions: seq<Action>, exit: Exit, open: bool, held: bool) {
    var sys := After(c, store, actions);
    && |sys.procs| == 1 && sys.procs[0].owner && sys.procs[0].clean && sys.procs[0].pc == Halted(exit)
    && sys.procs[0].id in sys.store.Core().requests
    && (Terminal(sys.store.Core().requests[sys.procs[0].id].state) <==> !open)
    && (sys.store.Held(sys.procs[0].id).Some? <==> held)
  }

  predicate Opens(exit: Exit) {
    exit in {CostInvalid, ReserveFailed, StartLost, UsageInvalid}
  }

  ghost predicate Taken(c: Setup, store: Store, actions: seq<Action>, exit: Exit) {
    Unused(store) && Leaves(c, store, actions, exit, Opens(exit), Leaks(exit))
  }

  /** One submission, and k of its steps. */
  function Steps(i: Input, ch: Choice, k: nat): seq<Action> {
    if k == 0 then [Submit(i)] else Steps(i, ch, k - 1) + [Run(0, ch)]
  }

  lemma OneMore(c: Setup, store: Store, actions: seq<Action>, a: Action)
    ensures After(c, store, actions + [a]) == Next(c, After(c, store, actions), a)
  {
    assert (actions + [a])[..|actions|] == actions;
  }

  lemma RunMovesTheOnlyOne(c: Setup, sys: Sys, ch: Choice, at: (Store, Proc))
    requires Alone(sys, at)
    ensures Alone(Next(c, sys, Run(0, ch)), Step(c, at.0, at.1, ch))
  {
  }

  lemma {:induction false} StepsArePlayed(c: Setup, store: Store, i: Input, ch: Choice, k: nat)
    ensures Alone(After(c, store, Steps(i, ch, k)), Play(c, (store, Submitted(i)), ch, k))
  {
    if k == 0 {
      assert After(c, store, []) == Sys(store, [], map[]);
      OneMore(c, store, [], Submit(i));
      assert [] + [Submit(i)] == Steps(i, ch, 0);
    } else {
      StepsArePlayed(c, store, i, ch, k - 1);
      OneMore(c, store, Steps(i, ch, k - 1), Run(0, ch));
      RunMovesTheOnlyOne(c, After(c, store, Steps(i, ch, k - 1)), ch, Play(c, (store, Submitted(i)), ch, k - 1));
    }
  }

  function Returned(actions: seq<Action>, ch: Choice): seq<Action> {
    actions + [Run(0, ch)] + [Run(0, ch)]
  }

  /** A step that reaches a return, and the one that runs what is deferred. */
  lemma ReturnedLeaves(c: Setup, store: Store, actions: seq<Action>, ch: Choice, at: (Store, Proc), exit: Exit)
    requires Unused(store) && Alone(After(c, store, actions), at)
    requires var (s, p) := Step(c, at.0, at.1, ch);
      && p.pc == Returning(exit, 0) && p.tickets.held == 0 && p.owner && p.clean && p.id in s.Core().requests
      && (Terminal(s.Core().requests[p.id].state) <==> !Opens(exit)) && (s.Held(p.id).Some? <==> Leaks(exit))
    ensures Taken(c, store, Returned(actions, ch), exit)
  {
    var (s, p) := Step(c, at.0, at.1, ch);
    OneMore(c, store, actions, Run(0, ch));
    OneMore(c, store, actions + [Run(0, ch)], Run(0, ch));
    RunMovesTheOnlyOne(c, After(c, store, actions), ch, at);
    RunMovesTheOnlyOne(c, After(c, store, actions + [Run(0, ch)]), ch, (s, p));
    assert Step(c, s, p, ch) == (s, p.(pc := Halted(exit)));
  }

  // A cancellation while the reservation is held

  lemma CancelLands(s: Shop, db0: P.Db, at: (Store, Proc), n: nat, pc: Pc, r: Record, begun: bool, ctx: Context)
    requires s.amount >= 0 && Stands(s, db0, at, n, pc, r, true, begun) && !Terminal(r.state)
    ensures var store := Ask(at.0, Cancel(s.tenant, n), ctx, P.NoFault).0;
      Stands(s, db0, (store, at.1), n, pc, r.(state := Cancelled, completedAt := ctx.now), true, begun)
  {
  }

  /** The submission's next row call is then refused, and nobody frees the reservation. */
  lemma RefusedLeaves(s: Shop, db0: P.Db, at: (Store, Proc), n: nat, pc: Pc, r: Record, begun: bool, ch: Choice)
    requires s.amount >= 0 && Stands(s, db0, at, n, pc, r, true, begun) && r.state == Cancelled && Plain(s, ch, n)
    requires pc.ToRouting? || pc.Completing? || (pc.FailingAttempt? && !pc.retryable)
    ensures var (store, p) := Step(ConfigOf(s), at.0, at.1, ch);
      && p.pc == Returning(LostExit(pc), 0)
      && p.tickets.held == 0 && p.owner && p.clean && p.id == n && n in store.Core().requests
      && store.Core().requests[n].state == Cancelled && store.Held(n) == Some(s.amount)
  {
    var db, p := at.0.db, at.1;
    var (db', reply) := P.Commit(db, CallOf(p, ch), ch.ctx);
    assert db' == db && reply != Done;
    SqlStep(ConfigOf(s), db, p, ch, db', reply);
  }

  function CancelOf(s: Shop): Action {
    CancelBy(s.tenant, 0, Context(0, 0, ""), P.NoFault)
  }

  function LostRun(s: Shop, k: nat, ending: Ending): seq<Action>
    requires s.amount >= 0
  {
    Returned(Steps(InputOf(s, 0), ChoiceOf(s, 0, ending), k) + [CancelOf(s)], ChoiceOf(s, 0, ending))
  }

  lemma CancelInRun(c: Setup, s: Shop, store: Store, actions: seq<Action>, at: (Store, Proc))
    requires Alone(After(c, store, actions), at)
    ensures Alone(After(c, store, actions + [CancelOf(s)]), (Ask(at.0, Cancel(s.tenant, 0), Context(0, 0, ""), P.NoFault).0, at.1))
  {
    OneMore(c, store, actions, CancelOf(s));
  }

  function LostExit(pc: Pc): Exit {
    if pc.ToRouting? then RoutingLost else if pc.Completing? then CompletionLost else FailureLost
  }

  lemma LostRunLeaves(s: Shop, k: nat, ending: Ending, pc: Pc, r: Record, begun: bool)
    requires s.amount >= 0 && !Terminal(r.state)
    requires Stands(s, Tables0(s), Play(ConfigOf(s), From(s, Tables0(s), 0), ChoiceOf(s, 0, ending), k), 0, pc, r, true, begun)
    requires pc.ToRouting? || pc.Completing? || (pc.FailingAttempt? && !pc.retryable)
    ensures Taken(ConfigOf(s), Sql(Tables0(s)), LostRun(s, k, ending), LostExit(pc))
  {
    var c, ch, db := ConfigOf(s), ChoiceOf(s, 0, ending), Tables0(s);
    var at, actions := Play(c, From(s, db, 0), ch, k), Steps(InputOf(s, 0), ch, k);
    StepsArePlayed(c, Sql(db), InputOf(s, 0), ch, k);
    CancelLands(s, db, at, 0, pc, r, begun, Context(0, 0, ""));
    CancelInRun(c, s, Sql(db), actions, at);
    var at' := (Ask(at.0, Cancel(s.tenant, 0), Context(0, 0, ""), P.NoFault).0, at.1);
    RefusedLeaves(s, db, at', 0, pc, r.(state := Cancelled, completedAt := 0), begun, ch);
    ReturnedLeaves(c, Sql(db), actions + [CancelOf(s)], ch, at', LostExit(pc));
  }

  lemma RoutingLostHappens(s: Shop)
    requires 0 <= s.amount <= s.limit && s.outputPrice == 0
    ensures Taken(ConfigOf(s), Sql(Tables0(s)), LostRun(s, 6, Honestly(s)), RoutingLost)
  {
    FreshIsReady(s);
    WalkToRouting(s, Tables0(s), 0, ChoiceOf(s, 0, Honestly(s)));
    LostRunLeaves(s, 6, Honestly(s), ToRouting, RowFor(s, 0, Validated), false);
  }

  lemma CompletionLostHappens(s: Shop)
    requires 0 <= s.amount <= s.limit && s.outputPrice == 0 && s.listed
    ensures Taken(ConfigOf(s), Sql(Tables0(s)), LostRun(s, 11, Honestly(s)), CompletionLost)
  {
    FreshIsReady(s);
    WalkToCompletion(s, Tables0(s), 0, ChoiceOf(s, 0, Honestly(s)));
    LostRunLeaves(s, 11, Honestly(s), Completing(AnswerFor(s, 0), s.amount), RowFor(s, 0, InProgress), true);
  }

  lemma AbortStep(s: Shop, db0: P.Db, at: (Store, Proc), n: nat, ch: Choice, r: Record)
    requires s.amount >= 0 && Stands(s, db0, at, n, Calling, r, true, true) && ch.script.ending == Abort(Other)
    ensures Stands(s, db0, Step(ConfigOf(s), at.0, at.1, ch), n, FailingAttempt(Other, false, false), r, true, true)
  {
    assert Delivered(ConfigOf(s), at.1.job.input, ch.script) == "";
    assert CallOutcome(ConfigOf(s), at.1.job.input, ch.script) == CallFailed(Other);
  }

  lemma FailureLostHappens(s: Shop)
    requires 0 <= s.amount <= s.limit && s.outputPrice == 0 && s.listed
    ensures Taken(ConfigOf(s), Sql(Tables0(s)), LostRun(s, 11, Abort(Other)), FailureLost)
  {
    FreshIsReady(s);
    var db, ch := Tables0(s), ChoiceOf(s, 0, Abort(Other));
    WalkToCall(s, db, 0, ch);
    AbortStep(s, db, Play(ConfigOf(s), From(s, db, 0), ch, 10), 0, ch, RowFor(s, 0, InProgress));
    LostRunLeaves(s, 11, Abort(Other), FailingAttempt(Other, false, false), RowFor(s, 0, InProgress), true);
  }

  // No cancellation

  function BareRun(s: Shop, k: nat, ending: Ending): seq<Action>
    requires s.amount >= 0
  {
    Returned(Steps(InputOf(s, 0), ChoiceOf(s, 0, ending), k), ChoiceOf(s, 0, ending))
  }

  /** A step that leaves the store alone and returns leaves the open request as it is. */
  lemma BareRunLeaves(s: Shop, k: nat, ending: Ending, at: (Store, Proc), pc: Pc, r: Record, begun: bool, exit: Exit)
    requires s.amount >= 0 && at == Play(ConfigOf(s), From(s, Tables0(s), 0), ChoiceOf(s, 0, ending), k)
    requires Stands(s, Tables0(s), at, 0, pc, r, Leaks(exit), begun) && !Terminal(r.state) && Opens(exit)
    requires var (store, p) := Step(ConfigOf(s), at.0, at.1, ChoiceOf(s, 0, ending));
      store == at.0 && p.pc == Returning(exit, 0) && p.tickets.held == 0 && p.owner && p.clean && p.id == 0
    ensures Taken(ConfigOf(s), Sql(Tables0(s)), BareRun(s, k, ending), exit)
  {
    var ch := ChoiceOf(s, 0, ending);
    StepsArePlayed(ConfigOf(s), Sql(Tables0(s)), InputOf(s, 0), ch, k);
    ReturnedLeaves(ConfigOf(s), Sql(Tables0(s)), Steps(InputOf(s, 0), ch, k), ch, at, exit);
  }

  lemma UnlistedStep(s: Shop, db0: P.Db, at: (Store, Proc), n: nat, ch: Choice, r: Record)
    requires s.amount >= 0 && !s.listed && Furnished(s, db0) && Plain(s, ch, n) && Stands(s, db0, at, n, Starting, r, true, false)
    ensures var (store, p) := Step(ConfigOf(s), at.0, at.1, ch);
      store == at.0 && p.pc == Returning(StartLost, 0) && p.tickets.held == 0 && p.owner && p.clean && p.id == n
  {
    var (db', reply) := P.Commit(at.0.db, CallOf(at.1, ch), ch.ctx);
    assert db' == at.0.db && reply != Done;
    SqlStep(ConfigOf(s), at.0.db, at.1, ch, db', reply);
  }

  /** The provider is configured but missing from the providers table. */
  lemma StartLostHappens(s: Shop)
    requires 0 <= s.amount <= s.limit && s.outputPrice == 0 && !s.listed
    ensures Taken(ConfigOf(s), Sql(Tables0(s)), BareRun(s, 9, Honestly(s)), StartLost)
  {
    var db, ch := Tables0(s), ChoiceOf(s, 0, Honestly(s));
    FreshIsReady(s);
    WalkToStart(s, db, 0, ch);
    var at := Play(ConfigOf(s), From(s, db, 0), ch, 9);
    UnlistedStep(s, db, at, 0, ch, RowFor(s, 0, InProgress));
    BareRunLeaves(s, 9, Honestly(s), at, Starting, RowFor(s, 0, InProgress), false, StartLost);
  }

  /** The provider reports a negative number of tokens. */
  lemma UsageInvalidHappens(s: Shop)
    requires 0 <= s.amount <= s.limit && s.outputPrice == 0 && s.listed
    ensures Taken(ConfigOf(s), Sql(Tables0(s)), BareRun(s, 10, Finish("", Usage(-1, 0))), UsageInvalid)
  {
    var db, ending := Tables0(s), Finish("", Usage(-1, 0));
    FreshIsReady(s);
    WalkToCall(s, db, 0, ChoiceOf(s, 0, ending));
    var at := Play(ConfigOf(s), From(s, db, 0), ChoiceOf(s, 0, ending), 10);
    UncountableStep(s, db, at, 0, ChoiceOf(s, 0, ending), RowFor(s, 0, InProgress));
    BareRunLeaves(s, 10, ending, at, Calling, RowFor(s, 0, InProgress), true, UsageInvalid);
  }

  lemma UnpriceableStep(s: Shop, db0: P.Db, at: (Store, Proc), n: nat, ch: Choice, r: Record)
    requires s.amount >= 0 && s.completion == 2_000_000 && s.outputPrice == MAX_INT64 && Stands(s, db0, at, n, Pricing, r, false, false)
    ensures var (store, p) := Step(ConfigOf(s), at.0, at.1, ch);
      store == at.0 && p.pc == Returning(CostInvalid, 0) && p.tickets.held == 0 && p.owner && p.clean && p.id == n
  {
    EstimateIs(s, n);
    HighestIs(s, {});
    assert CostMicroUSD(s.amount, 2_000_000, 1_000_000, MAX_INT64) == None;
  }

  lemma UncountableStep(s: Shop, db0: P.Db, at: (Store, Proc), n: nat, ch: Choice, r: Record)
    requires s.amount >= 0 && Stands(s, db0, at, n, Calling, r, true, true) && ch.script.ending == Finish("", Usage(-1, 0))
    ensures var (store, p) := Step(ConfigOf(s), at.0, at.1, ch);
      store == at.0 && p.pc == Returning(UsageInvalid, 0) && p.tickets.held == 0 && p.owner && p.clean && p.id == n
  {
    assert CallOutcome(ConfigOf(s), at.1.job.input, ch.script) == Completion("", Usage(-1, 0));
  }

  /** Two million tokens at the highest price there is cost more than an amount can hold. */
  lemma CostInvalidHappens(s: Shop)
    requires s.amount >= 0 && s.completion == 2_000_000 && s.outputPrice == MAX_INT64
    ensures Taken(ConfigOf(s), Sql(Tables0(s)), BareRun(s, 4, Honestly(s)), CostInvalid)
  {
    var db, ch := Tables0(s), ChoiceOf(s, 0, Honestly(s));
    FreshIsReady(s);
    WalkToPricing(s, db, 0, ch);
    var at := Play(ConfigOf(s), From(s, db, 0), ch, 4);
    UnpriceableStep(s, db, at, 0, ch, RowFor(s, 0, Validated));
    BareRunLeaves(s, 4, Honestly(s), at, Pricing, RowFor(s, 0, Validated), false, CostInvalid);
  }

  // The store in memory, with a negative limit

  function Mem0(s: Shop): M.Mem {
    M.EMPTY.(policies := map[s.tenant := PolicyFor(s)])
  }

  function MemWith(s: Shop, state: State): M.Mem {
    Mem0(s).(core := Core(map[0 := RowFor(s, 0, state)], map[M.SlotOf(s.tenant, Text(0)) := 0]))
  }

  ghost predicate StandsIn(s: Shop, at: (Store, Proc), pc: Pc, state: State)
    requires s.amount >= 0
  {
    at.0 == InMemory(MemWith(s, state)) && Going(s, 0, at.1) && at.1.pc == pc
  }

  lemma CreatedInMemory(s: Shop, ch: Choice)
    requires s.amount >= 0 && Plain(s, ch, 0)
    ensures StandsIn(s, Step(ConfigOf(s), InMemory(Mem0(s)), Submitted(InputOf(s, 0)), ch), Validating, Received)
  {
  }

  lemma ValidatedInMemory(s: Shop, at: (Store, Proc), ch: Choice)
    requires s.amount >= 0 && Plain(s, ch, 0) && StandsIn(s, at, Validating, Received)
    ensures StandsIn(s, Step(ConfigOf(s), at.0, at.1, ch), LoadingPolicy, Validated)
  {
    assert map[0 := RowFor(s, 0, Received)][0 := RowFor(s, 0, Validated)] == map[0 := RowFor(s, 0, Validated)];
  }

  lemma AdmittedInMemory(s: Shop, at: (Store, Proc), ch: Choice)
    requires s.amount >= 0 && Plain(s, ch, 0)
    ensures StandsIn(s, at, LoadingPolicy, Validated) ==> StandsIn(s, Step(ConfigOf(s), at.0, at.1, ch), Admitting, Validated)
    ensures StandsIn(s, at, Admitting, Validated) ==> StandsIn(s, Step(ConfigOf(s), at.0, at.1, ch), Pricing, Validated)
  {
  }

  lemma PricedInMemory(s: Shop, at: (Store, Proc), ch: Choice)
    requires s.amount >= 0 && s.outputPrice == 0 && Plain(s, ch, 0) && StandsIn(s, at, Pricing, Validated)
    ensures StandsIn(s, Step(ConfigOf(s), at.0, at.1, ch), Reserving, Validated)
  {
    EstimateIs(s, 0);
    HighestIs(s, {});
    CostIs(s);
  }

  lemma RefusedInMemory(s: Shop, at: (Store, Proc), ch: Choice)
    requires s.amount >= 0 && s.limit < 0 && Plain(s, ch, 0) && StandsIn(s, at, Reserving, Validated)
    ensures var (store, p) := Step(ConfigOf(s), at.0, at.1, ch);
      store == at.0 && p.pc == Returning(ReserveFailed, 0) && p.tickets.held == 0 && p.owner && p.clean && p.id == 0
  {
  }

  lemma WalkToReserving(s: Shop, ch: Choice)
    requires s.amount >= 0 && s.outputPrice == 0 && Plain(s, ch, 0)
    ensures StandsIn(s, Play(ConfigOf(s), (InMemory(Mem0(s)), Submitted(InputOf(s, 0))), ch, 5), Reserving, Validated)
  {
    var c, at := ConfigOf(s), (InMemory(Mem0(s)), Submitted(InputOf(s, 0)));
    CreatedInMemory(s, ch);
    assert Play(c, at, ch, 0) == at;
    ValidatedInMemory(s, Play(c, at, ch, 1), ch);
    AdmittedInMemory(s, Play(c, at, ch, 2), ch);
    AdmittedInMemory(s, Play(c, at, ch, 3), ch);
    PricedInMemory(s, Play(c, at, ch, 4), ch);
  }

  lemma ReserveFailedHappens(s: Shop)
    requires s.amount >= 0 && s.outputPrice == 0 && s.limit < 0
    ensures Taken(ConfigOf(s), InMemory(Mem0(s)), BareRun(s, 5, Honestly(s)), ReserveFailed)
  {
    var c, ch, store := ConfigOf(s), ChoiceOf(s, 0, Honestly(s)), InMemory(Mem0(s));
    var at := Play(c, (store, Submitted(InputOf(s, 0))), ch, 5);
    WalkToReserving(s, ch);
    StepsArePlayed(c, store, InputOf(s, 0), ch, 5);
    RefusedInMemory(s, at, ch);
    ReturnedLeaves(c, store, Steps(InputOf(s, 0), ch, 5), ch, at, ReserveFailed);
  }

  lemma EveryLeakHappens(exit: Exit)
    requires Leaks(exit)
    ensures exists c, store, actions :: Taken(c, store, actions, exit)
  {
    var s := Shop("t", "m", "p", 1, 1, true, 1024, 0, "c");
    match exit
    case RoutingLost =>
      RoutingLostHappens(s);
    case CompletionLost =>
      CompletionLostHappens(s);
    case FailureLost =>
      FailureLostHappens(s);
    case StartLost =>
      s := s.(listed := false);
      StartLostHappens(s);
    case UsageInvalid =>
      UsageInvalidHappens(s);
  }

  /** Each return statement that can leave a request open or a reservation behind does so in some run from an unused store. */
  lemma EveryTroubleHappens(exit: Exit)
    requires Leaks(exit) || Opens(exit)
    ensures exists c, store, actions :: Taken(c, store, actions, exit)
  {
    if Leaks(exit) {
      EveryLeakHappens(exit);
    } else if exit == CostInvalid {
      var s := Shop("t", "m", "p", 1, 1, true, 2_000_000, MAX_INT64, "c");
      CostInvalidHappens(s);
    } else {
      var s := Shop("t", "m", "p", 1, -1, true, 1024, 0, "c");
      ReserveFailedHappens(s);
    }
  }
}
