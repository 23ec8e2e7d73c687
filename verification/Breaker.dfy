/** The circuit breaker (internal/circuitbreaker): step functions, the class that runs them, and properties of whole runs. */
module Breaker {
  import opened Base

  type Time = int

  datatype Status = Closed | Open | HalfOpen

  datatype Config = Config(threshold: int, window: int, openFor: int, probes: int)

  function Normalised(c: Config): (r: Config)
    ensures r.threshold > 0 && r.window > 0 && r.openFor > 0 && r.probes > 0
  {
    Config(if c.threshold <= 0 then 5 else c.threshold, if c.window <= 0 then 30_000 else c.window,
           if c.openFor <= 0 then 15_000 else c.openFor, if c.probes <= 0 then 1 else c.probes)
  }

  type Settings = c: Config | c.threshold > 0 && c.window > 0 && c.openFor > 0 && c.probes > 0 witness Config(5, 30_000, 15_000, 1)

  datatype Circuit = Circuit(status: Status, failures: seq<Time>, openedAt: Time, active: nat)

  const FRESH := Circuit(Closed, [], 0, 0)

  /** An open circuit whose pause is over becomes half-open with no probe out. */
  function Waited(c: Settings, b: Circuit, now: Time): Circuit {
    if b.status == Open && now - b.openedAt >= c.openFor then b.(status := HalfOpen, active := 0) else b
  }

  function Allow(c: Settings, b: Circuit, now: Time): (r: (Circuit, bool)) {
    var w := Waited(c, b, now);
    match w.status
    case Closed => (w, true)
    case HalfOpen => if w.active >= c.probes then (w, false) else (w.(active := w.active + 1), true)
    case Open => (w, false)
  }

  function Success(b: Circuit): Circuit {
    b.(status := Closed, failures := [], active := 0)
  }

  function After(failures: seq<Time>, cutoff: Time): (kept: seq<Time>)
    ensures |kept| <= |failures|
  {
    if failures == [] then []
    else
      var last := failures[|failures| - 1];
      After(failures[..|failures| - 1], cutoff) + (if last > cutoff then [last] else [])
  }

  function Failure(c: Settings, b: Circuit, now: Time): Circuit {
    if b.status == HalfOpen then b.(status := Open, openedAt := now, active := 0)
    else
      var failures := After(b.failures, now - c.window) + [now];
      if |failures| >= c.threshold then Circuit(Open, failures, now, 0) else b.(failures := failures)
  }

  function Release(b: Circuit): Circuit {
    if b.status == HalfOpen && b.active > 0 then b.(active := b.active - 1) else b
  }

  function Observed(c: Settings, b: Circuit, now: Time): Status {
    Waited(c, b, now).status
  }

  class CircuitBreaker {
    const config: Settings
    var state: Status
    var failures: seq<Time>
    var openedAt: Time
    var halfOpenActive: nat

    ghost function View(): Circuit
      reads this
    {
      Circuit(state, failures, openedAt, halfOpenActive)
    }

    constructor (config: Config)
      ensures this.config == Normalised(config) && View() == FRESH
    {
      this.config := Normalised(config);
      state, failures, openedAt, halfOpenActive := Closed, [], 0, 0;
    }

    method TryAllow(now: Time) returns (ok: bool)
      modifies this
      ensures (View(), ok) == Allow(config, old(View()), now)
    {
      if state == Open && now - openedAt >= config.openFor {
        state, halfOpenActive := HalfOpen, 0;
      }
      match state {
        case Closed => return true;
        case HalfOpen =>
          if halfOpenActive >= config.probes {
            return false;
          }
          halfOpenActive := halfOpenActive + 1;
          return true;
        case Open => return false;
      }
    }

    method OnSuccess()
      modifies this
      ensures View() == Success(old(View()))
    {
      state, failures, halfOpenActive := Closed, [], 0;
    }

    method OnFailure(now: Time)
      modifies this
      ensures View() == Failure(config, old(View()), now)
    {
      if state == HalfOpen {
        Trip(now);
        return;
      }
      var cutoff := now - config.window;
      var retained: seq<Time> := [];
      for i := 0 to |failures|
        invariant retained == After(failures[..i], cutoff)
        invariant View() == old(View())
      {
        assert failures[..i + 1][..i] == failures[..i];
        if failures[i] > cutoff {
          retained := retained + [failures[i]];
        }
      }
      assert failures[..|failures|] == failures;
      failures := retained + [now];
      if |failures| >= config.threshold {
        Trip(now);
      }
    }

    method OnRelease()
      modifies this
      ensures View() == Release(old(View()))
    {
      if state == HalfOpen && halfOpenActive > 0 {
        halfOpenActive := halfOpenActive - 1;
      }
    }

    method Observe(now: Time) returns (s: Status)
      ensures s == Observed(config, View(), now)
    {
      if state == Open && now - openedAt >= config.openFor {
        return HalfOpen;
      }
      return state;
    }

    method Trip(now: Time)
      modifies this
      ensures View() == old(View()).(status := Open, openedAt := now, active := 0)
    {
      state, openedAt, halfOpenActive := Open, now, 0;
    }
  }
}

module BreakerRuns {
  import opened Base
  import opened Breaker

  datatype Op = Ask(now: Time) | Succeed | Fault(now: Time) | Abandon

  function Do(c: Settings, b: Circuit, op: Op): Circuit {
    match op
    case Ask(now) => Allow(c, b, now).0
    case Succeed => Success(b)
    case Fault(now) => Failure(c, b, now)
    case Abandon => Release(b)
  }

  function From(c: Settings, b: Circuit, ops: seq<Op>): Circuit {
    if ops == [] then b else Do(c, From(c, b, ops[..|ops| - 1]), ops[|ops| - 1])
  }

  /** The circuit after a run that starts from a new breaker. */
  function Run(c: Settings, ops: seq<Op>): Circuit {
    From(c, FRESH, ops)
  }

  ghost predicate Timed(op: Op) { op.Ask? || op.Fault? }

  /** Clock readings never go back along the run. */
  ghost predicate Monotone(ops: seq<Op>) {
    forall i, j :: 0 <= i < j < |ops| && Timed(ops[i]) && Timed(ops[j]) ==> ops[i].now <= ops[j].now
  }

  /** Every failure since the last success, except those that met a half-open circuit. */
  function History(c: Settings, ops: seq<Op>): seq<Time> {
    if ops == [] then [] else
      var init := ops[..|ops| - 1];
      match ops[|ops| - 1]
      case Succeed => []
      case Fault(now) => if Run(c, init).status == HalfOpen then History(c, init) else History(c, init) + [now]
      case _ => History(c, init)
  }

  /** The part of a history that lies inside the window ending at its last entry. */
  function InWindow(c: Settings, h: seq<Time>): seq<Time> {
    if h == [] then [] else After(h, h[|h| - 1] - c.window)
  }

  lemma {:induction false} AfterTwice(h: seq<Time>, first: Time, second: Time)
    requires first <= second
    ensures After(After(h, first), second) == After(h, second)
  {
    if h != [] {
      var init, last := h[..|h| - 1], h[|h| - 1];
      AfterTwice(init, first, second);
      if last > first {
        assert (After(init, first) + [last])[..|After(init, first)|] == After(init, first);
      } else {
        assert After(init, first) + [] == After(init, first);
      }
    }
  }

  lemma {:induction false} HistoryTimes(c: Settings, ops: seq<Op>)
    ensures forall t :: t in History(c, ops) ==> exists i :: 0 <= i < |ops| && Timed(ops[i]) && ops[i].now == t
  {
    if ops != [] {
      var init := ops[..|ops| - 1];
      HistoryTimes(c, init);
      forall t | t in History(c, ops)
        ensures exists i :: 0 <= i < |ops| && Timed(ops[i]) && ops[i].now == t
      {
        if t in History(c, init) {
          var i :| 0 <= i < |init| && Timed(init[i]) && init[i].now == t;
          assert ops[i] == init[i];
        } else {
          assert Timed(ops[|ops| - 1]) && ops[|ops| - 1].now == t;
        }
      }
    }
  }

  /** One more failure: filtering the filtered list is filtering the whole history. */
  lemma FaultKeepsWindow(c: Settings, b: Circuit, h: seq<Time>, now: Time)
    requires b.failures == InWindow(c, h) && b.status != HalfOpen && (h != [] ==> h[|h| - 1] <= now)
    ensures Failure(c, b, now).failures == InWindow(c, h + [now])
  {
    var h' := h + [now];
    assert h'[..|h|] == h;
    if h != [] {
      AfterTwice(h, h[|h| - 1] - c.window, now - c.window);
    }
  }

  lemma LastTimeIsPast(c: Settings, ops: seq<Op>, now: Time)
    requires Monotone(ops + [Fault(now)]) && History(c, ops) != []
    ensures History(c, ops)[|History(c, ops)| - 1] <= now
  {
    var h := History(c, ops);
    HistoryTimes(c, ops);
    assert h[|h| - 1] in h;
    var i :| 0 <= i < |ops| && Timed(ops[i]) && ops[i].now == h[|h| - 1];
    var all := ops + [Fault(now)];
    assert all[i] == ops[i] && all[|ops|] == Fault(now);
  }

  /** The list filtered in place is always the window over the full history. */
  lemma {:induction false} WindowIsExact(c: Settings, ops: seq<Op>)
    requires Monotone(ops)
    ensures Run(c, ops).failures == InWindow(c, History(c, ops))
  {
    if ops != [] {
      var init, op := ops[..|ops| - 1], ops[|ops| - 1];
      assert Monotone(init);
      WindowIsExact(c, init);
      var b, h := Run(c, init), History(c, init);
      if op.Fault? && b.status != HalfOpen {
        assert ops == init + [op];
        if h != [] { LastTimeIsPast(c, init, op.now); }
        FaultKeepsWindow(c, b, h, op.now);
      }
    }
  }

  /** Closed turns Open exactly when the window over the history reaches the threshold. */
  lemma OpensExactlyAtThreshold(c: Settings, ops: seq<Op>, now: Time)
    requires Monotone(ops + [Fault(now)]) && Run(c, ops).status == Closed
    ensures Run(c, ops + [Fault(now)]).status == Open <==> |InWindow(c, History(c, ops) + [now])| >= c.threshold
  {
    var all := ops + [Fault(now)];
    assert all[..|ops|] == ops;
    WindowIsExact(c, all);
  }

  /** A closed circuit holds fewer failures than the threshold, and only a half-open one counts probes. */
  lemma {:induction false} ClosedIsBelowThreshold(c: Settings, ops: seq<Op>)
    ensures Run(c, ops).status == Closed ==> |Run(c, ops).failures| < c.threshold
    ensures Run(c, ops).status != HalfOpen ==> Run(c, ops).active == 0
    ensures Run(c, ops).active <= c.probes
  {
    if ops != [] {
      ClosedIsBelowThreshold(c, ops[..|ops| - 1]);
    }
  }

  lemma {:induction false} StaysOpen(c: Settings, b: Circuit, ops: seq<Op>, until: Time)
    requires b.status == Open
    requires forall i :: 0 <= i < |ops| ==> !ops[i].Succeed?
    requires forall i :: 0 <= i < |ops| && Timed(ops[i]) ==> b.openedAt <= ops[i].now <= until
    requires until < b.openedAt + c.openFor
    ensures From(c, b, ops).status == Open && b.openedAt <= From(c, b, ops).openedAt
  {
    if ops != [] {
      StaysOpen(c, b, ops[..|ops| - 1], until);
      var op := ops[|ops| - 1];
      assert Timed(op) ==> b.openedAt <= op.now <= until;
    }
  }

  /** After opening at T nothing is allowed before T + openFor, whatever else happens short of a success. */
  lemma NoEarlyAllow(c: Settings, b: Circuit, ops: seq<Op>, now: Time)
    requires b.status == Open && b.openedAt <= now < b.openedAt + c.openFor
    requires Monotone(ops + [Ask(now)])
    requires forall i :: 0 <= i < |ops| ==> !ops[i].Succeed?
    requires forall i :: 0 <= i < |ops| && Timed(ops[i]) ==> b.openedAt <= ops[i].now
    ensures !Allow(c, From(c, b, ops), now).1
  {
    var all := ops + [Ask(now)];
    forall i | 0 <= i < |ops| && Timed(ops[i])
      ensures ops[i].now <= now
    {
      assert all[i] == ops[i] && all[|ops|] == Ask(now);
    }
    StaysOpen(c, b, ops, now);
  }

  /** Probes granted and given back since the circuit last became half-open. */
  datatype Tally = Tally(grants: nat, handedBack: nat)

  function Tallied(c: Settings, b: Circuit, t: Tally, op: Op): Tally {
    match op
    case Ask(now) =>
      var start := if b.status == Open then Tally(0, 0) else t;
      if Observed(c, b, now) != HalfOpen then t
      else if Allow(c, b, now).1 then start.(grants := start.grants + 1) else start
    case Abandon => if b.status == HalfOpen && t.grants > t.handedBack then t.(handedBack := t.handedBack + 1) else t
    case _ => t
  }

  function Episode(c: Settings, ops: seq<Op>): Tally {
    if ops == [] then Tally(0, 0) else
      Tallied(c, Run(c, ops[..|ops| - 1]), Episode(c, ops[..|ops| - 1]), ops[|ops| - 1])
  }

  predicate TallyFits(c: Settings, b: Circuit, t: Tally) {
    b.status == HalfOpen ==> 0 <= t.grants - t.handedBack == b.active <= c.probes
  }

  lemma TallyStep(c: Settings, b: Circuit, t: Tally, op: Op)
    requires TallyFits(c, b, t)
    ensures TallyFits(c, Do(c, b, op), Tallied(c, b, t, op))
  {
  }

  /** Within one half-open episode, grants minus effective returns never exceed the probe limit. */
  lemma {:induction false} ProbesBounded(c: Settings, ops: seq<Op>)
    ensures Run(c, ops).status == HalfOpen ==>
      0 <= Episode(c, ops).grants - Episode(c, ops).handedBack == Run(c, ops).active <= c.probes
  {
    if ops != [] {
      var init := ops[..|ops| - 1];
      ProbesBounded(c, init);
      TallyStep(c, Run(c, init), Episode(c, init), ops[|ops| - 1]);
    }
  }
}

/** Leases by name: which probes are really out, when reports do not say whose they are. */
module BreakerLeases {
  import opened Base
  import opened Breaker
  import R = BreakerRuns

  /** Granted in a half-open episode, or by a closed circuit (episode zero); each lease reports once. */
  datatype Lease = Lease(episode: nat, reported: bool)

  datatype Report = Won | Lost(now: Time) | Dropped

  datatype Move = Ask(now: Time) | Tell(lease: nat, report: Report)

  /**
   * The breaker and every lease it ever granted. Since the circuit last became half-open: `foreign` counts the probes
   * given back by leases of other episodes, `absorbed` the own returns that found no probe left to give back.
   */
  datatype Book = Book(circuit: Circuit, episode: nat, leases: seq<Lease>, foreign: nat, absorbed: nat)

  const NEW := Book(FRESH, 0, [], 0, 0)

  function OpOf(r: Report): R.Op {
    match r
    case Won => R.Succeed
    case Lost(now) => R.Fault(now)
    case Dropped => R.Abandon
  }

  function Asked(c: Settings, s: Book, now: Time): Book {
    var (b, ok) := Allow(c, s.circuit, now);
    var s' := if s.circuit.status == Open && b.status == HalfOpen then Book(b, s.episode + 1, s.leases, 0, 0) else s.(circuit := b);
    if ok then s'.(leases := s'.leases + [Lease(if b.status == HalfOpen then s'.episode else 0, false)]) else s'
  }

  /** The first report of a lease reaches the breaker, without the lease's name; a second one does nothing. */
  function Told(c: Settings, s: Book, lease: nat, report: Report): Book {
    if lease >= |s.leases| || s.leases[lease].reported then s else
      var b := s.circuit;
      var s' := s.(circuit := R.Do(c, b, OpOf(report)), leases := s.leases[lease := s.leases[lease].(reported := true)]);
      if !report.Dropped? || b.status != HalfOpen then s'
      else if s.leases[lease].episode != s.episode then (if b.active > 0 then s'.(foreign := s.foreign + 1) else s')
      else if b.active == 0 then s'.(absorbed := s.absorbed + 1) else s'
  }

  function Moved(c: Settings, s: Book, m: Move): Book {
    match m
    case Ask(now) => Asked(c, s, now)
    case Tell(lease, report) => Told(c, s, lease, report)
  }

  function After(c: Settings, s: Book, moves: seq<Move>): Book {
    if moves == [] then s else Moved(c, After(c, s, moves[..|moves| - 1]), moves[|moves| - 1])
  }

  /** What reaches the breaker: every ask, and the first report of each lease. */
  function OpsOf(c: Settings, moves: seq<Move>): seq<R.Op> {
    if moves == [] then [] else
      var init, last := moves[..|moves| - 1], moves[|moves| - 1];
      var s := After(c, NEW, init);
      match last
      case Ask(now) => OpsOf(c, init) + [R.Ask(now)]
      case Tell(lease, report) =>
        if lease >= |s.leases| || s.leases[lease].reported then OpsOf(c, init) else OpsOf(c, init) + [OpOf(report)]
  }

  /** The breaker behind named leases is the breaker all run lemmas speak of. */
  lemma {:induction false} CircuitIsARun(c: Settings, moves: seq<Move>)
    ensures After(c, NEW, moves).circuit == R.Run(c, OpsOf(c, moves))
  {
    if moves != [] {
      var init := moves[..|moves| - 1];
      CircuitIsARun(c, init);
      var ops, ops' := OpsOf(c, init), OpsOf(c, moves);
      if ops' != ops { assert ops'[..|ops'| - 1] == ops; }
    }
  }

  // Counting leases

  /** Unreported leases that were granted in this episode, or those that were not. */
  function Count(leases: seq<Lease>, episode: nat, own: bool): nat {
    if leases == [] then 0 else
      var last := leases[|leases| - 1];
      Count(leases[..|leases| - 1], episode, own) + if !last.reported && (last.episode == episode) == own then 1 else 0
  }

  /** Probes that are really out. */
  function Live(s: Book): nat {
    Count(s.leases, s.episode, true)
  }

  /** Leases of other episodes that have not reported yet. */
  function Older(s: Book): nat {
    Count(s.leases, s.episode, false)
  }

  lemma CountOneMore(leases: seq<Lease>, l: Lease, episode: nat, own: bool)
    ensures Count(leases + [l], episode, own) == Count(leases, episode, own) + if !l.reported && (l.episode == episode) == own then 1 else 0
  {
    assert (leases + [l])[..|leases|] == leases;
  }

  lemma {:induction false} CountReported(leases: seq<Lease>, k: nat, episode: nat, own: bool)
    requires k < |leases| && !leases[k].reported
    ensures Count(leases[k := leases[k].(reported := true)], episode, own)
         == Count(leases, episode, own) - if (leases[k].episode == episode) == own then 1 else 0
  {
    var leases' := leases[k := leases[k].(reported := true)];
    var n := |leases| - 1;
    if k < n {
      CountReported(leases[..n], k, episode, own);
      assert leases'[..n] == leases[..n][k := leases[k].(reported := true)];
    } else {
      assert leases'[..n] == leases[..n];
    }
  }

  lemma {:induction false} NoneFromTheFuture(leases: seq<Lease>, episode: nat)
    requires forall l :: l in leases ==> l.episode < episode
    ensures Count(leases, episode, true) == 0
  {
    if leases != [] {
      NoneFromTheFuture(leases[..|leases| - 1], episode);
    }
  }

  lemma {:induction false} SomeOlder(leases: seq<Lease>, episode: nat) returns (k: nat)
    requires Count(leases, episode, false) > 0
    ensures k < |leases| && !leases[k].reported && leases[k].episode != episode
  {
    k := |leases| - 1;
    if leases[k].reported || leases[k].episode == episode {
      k := SomeOlder(leases[..|leases| - 1], episode);
    }
  }

  // What the count means

  predicate Counted(c: Settings, s: Book) {
    && s.circuit.active <= c.probes
    && (forall l :: l in s.leases ==> l.episode <= s.episode)
    && (s.circuit.status == HalfOpen ==> s.episode > 0 && s.absorbed <= s.foreign && Live(s) == s.circuit.active + s.foreign - s.absorbed)
  }

  lemma AskedCounts(c: Settings, s: Book, now: Time)
    requires Counted(c, s)
    ensures Counted(c, Asked(c, s, now))
  {
    var s' := Asked(c, s, now);
    if s'.leases != s.leases { CountOneMore(s.leases, s'.leases[|s.leases|], s'.episode, true); }
    if s'.episode != s.episode { NoneFromTheFuture(s.leases, s'.episode); }
  }

  lemma ToldCounts(c: Settings, s: Book, lease: nat, report: Report)
    requires Counted(c, s)
    ensures Counted(c, Told(c, s, lease, report))
  {
    if lease < |s.leases| && !s.leases[lease].reported { CountReported(s.leases, lease, s.episode, true); }
  }

  lemma {:induction false} EveryRunCounts(c: Settings, moves: seq<Move>)
    ensures Counted(c, After(c, NEW, moves))
  {
    if moves != [] {
      var s := After(c, NEW, moves[..|moves| - 1]);
      EveryRunCounts(c, moves[..|moves| - 1]);
      match moves[|moves| - 1]
      case Ask(now) => AskedCounts(c, s, now);
      case Tell(lease, report) => ToldCounts(c, s, lease, report);
    }
  }

  /**
   * In every run, while half-open: the probes really out are the ones the breaker counts and those that leases of
   * other episodes gave back in their place, less the own returns that found the count already at zero.
   */
  lemma LiveProbes(c: Settings, moves: seq<Move>)
    ensures var s := After(c, NEW, moves);
      s.circuit.status == HalfOpen ==> Live(s) == s.circuit.active + s.foreign - s.absorbed && s.circuit.active <= c.probes
  {
    EveryRunCounts(c, moves);
  }

  // How far the limit can be passed

  /** Probes that are out beyond the count, and leases that can still put one more out. */
  function Excess(s: Book): int {
    s.foreign - s.absorbed + Older(s)
  }

  predicate Within(s: Book, s': Book) {
    s.circuit.status == HalfOpen && s'.circuit.status == HalfOpen && s'.episode == s.episode
  }

  lemma AskedKeepsExcess(c: Settings, s: Book, now: Time)
    ensures Asked(c, s, now).episode >= s.episode
    ensures Within(s, Asked(c, s, now)) ==> Excess(Asked(c, s, now)) == Excess(s)
    ensures Asked(c, s, now).circuit.status == HalfOpen && Asked(c, s, now).episode == s.episode ==> s.circuit.status == HalfOpen
  {
    var s' := Asked(c, s, now);
    if s'.leases != s.leases { CountOneMore(s.leases, s'.leases[|s.leases|], s.episode, false); }
  }

  lemma ToldKeepsExcess(c: Settings, s: Book, lease: nat, report: Report)
    ensures Told(c, s, lease, report).episode == s.episode
    ensures Within(s, Told(c, s, lease, report)) ==> Excess(Told(c, s, lease, report)) <= Excess(s)
    ensures Told(c, s, lease, report).circuit.status == HalfOpen ==> s.circuit.status == HalfOpen
  {
    if lease < |s.leases| && !s.leases[lease].reported { CountReported(s.leases, lease, s.episode, false); }
  }

  /** Within one episode the excess only shrinks, and an episode that was left does not come back. */
  lemma {:induction false} ExcessShrinks(c: Settings, s: Book, moves: seq<Move>)
    requires s.circuit.status == HalfOpen
    ensures var s' := After(c, s, moves); s'.episode >= s.episode && (Within(s, s') ==> Excess(s') <= Excess(s))
  {
    if moves != [] {
      var before := After(c, s, moves[..|moves| - 1]);
      ExcessShrinks(c, s, moves[..|moves| - 1]);
      match moves[|moves| - 1]
      case Ask(now) => AskedKeepsExcess(c, before, now);
      case Tell(lease, report) => ToldKeepsExcess(c, before, lease, report);
    }
  }

  lemma {:induction false} StaysCounted(c: Settings, s: Book, moves: seq<Move>)
    requires Counted(c, s)
    ensures Counted(c, After(c, s, moves))
  {
    if moves != [] {
      var before := After(c, s, moves[..|moves| - 1]);
      StaysCounted(c, s, moves[..|moves| - 1]);
      match moves[|moves| - 1]
      case Ask(now) => AskedCounts(c, before, now);
      case Tell(lease, report) => ToldCounts(c, before, lease, report);
    }
  }

  /** Asks until the breaker counts as many probes as it allows. */
  lemma {:induction false} FillUp(c: Settings, s: Book) returns (moves: seq<Move>)
    requires Counted(c, s) && s.circuit.status == HalfOpen
    ensures var s' := After(c, s, moves);
      Counted(c, s') && Within(s, s') && s'.circuit.active == c.probes && Excess(s') == Excess(s) && s'.foreign == s.foreign && s'.absorbed == s.absorbed
    decreases c.probes - s.circuit.active
  {
    if s.circuit.active == c.probes {
      moves := [];
    } else {
      var s1 := Asked(c, s, 0);
      AskedCounts(c, s, 0);
      AskedKeepsExcess(c, s, 0);
      var rest := FillUp(c, s1);
      moves := [Ask(0)] + rest;
      AfterFirst(c, s, Ask(0), rest);
    }
  }

  lemma {:induction false} AfterAfter(c: Settings, s: Book, first: seq<Move>, second: seq<Move>)
    ensures After(c, s, first + second) == After(c, After(c, s, first), second)
  {
    if second == [] {
      assert first + second == first;
    } else {
      AfterAfter(c, s, first, second[..|second| - 1]);
      assert (first + second)[..|first + second| - 1] == first + second[..|second| - 1];
    }
  }

  lemma AfterFirst(c: Settings, s: Book, m: Move, rest: seq<Move>)
    ensures After(c, s, [m] + rest) == After(c, Moved(c, s, m), rest)
  {
    AfterAfter(c, s, [m], rest);
    assert [m][..0] == [];
    assert After(c, s, [m]) == Moved(c, s, m);
  }

  lemma AfterThree(c: Settings, s: Book, m0: Move, m1: Move, m2: Move)
    ensures After(c, s, [m0, m1, m2]) == Moved(c, Moved(c, Moved(c, s, m0), m1), m2)
  {
    assert [m0, m1, m2] == [m0] + [m1, m2] && [m1, m2] == [m1] + [m2] && [m2] == [m2] + [];
    AfterFirst(c, s, m0, [m1, m2]);
    AfterFirst(c, Moved(c, s, m0), m1, [m2]);
    AfterFirst(c, Moved(c, Moved(c, s, m0), m1), m2, []);
  }

  lemma OneMoreMove(c: Settings, s: Book, moves: seq<Move>, m: Move)
    ensures After(c, s, moves + [m]) == Moved(c, After(c, s, moves), m)
  {
    assert (moves + [m])[..|moves|] == moves;
  }

  /** Later in the same episode, more probes than allowed are out. */
  ghost predicate PassesLimit(c: Settings, s: Book, moves: seq<Move>) {
    Within(s, After(c, s, moves)) && Live(After(c, s, moves)) > c.probes
  }

  lemma ExcessIsUsed(c: Settings, s: Book) returns (moves: seq<Move>)
    requires Counted(c, s) && s.circuit.status == HalfOpen && Excess(s) > 0
    ensures PassesLimit(c, s, moves)
  {
    moves := FillUp(c, s);
    var full := After(c, s, moves);
    if full.foreign == full.absorbed {
      var k := SomeOlder(full.leases, full.episode);
      var freed := Told(c, full, k, Dropped);
      CountReported(full.leases, k, full.episode, true);
      CountOneMore(freed.leases, Lease(full.episode, false), full.episode, true);
      OneMoreMove(c, s, moves, Tell(k, Dropped));
      OneMoreMove(c, s, moves + [Tell(k, Dropped)], Ask(0));
      moves := moves + [Tell(k, Dropped)] + [Ask(0)];
    }
  }

  /**
   * From any state of a half-open episode, more probes than allowed can get out before it ends exactly when a lease
   * of another episode is still unreported or has already given back a probe it never took.
   */
  lemma LimitPassedExactlyWhen(c: Settings, before: seq<Move>)
    ensures var s := After(c, NEW, before);
      s.circuit.status == HalfOpen ==> ((exists moves :: PassesLimit(c, s, moves)) <==> Excess(s) > 0)
  {
    var s := After(c, NEW, before);
    EveryRunCounts(c, before);
    if s.circuit.status == HalfOpen {
      if Excess(s) > 0 {
        var moves := ExcessIsUsed(c, s);
      }
      forall moves | PassesLimit(c, s, moves) ensures Excess(s) > 0 {
        ExcessShrinks(c, s, moves);
        StaysCounted(c, s, moves);
      }
    }
  }

  /** So never more probes are out than allowed and leases from outside the episode were unreported when it began. */
  lemma LiveProbesBounded(c: Settings, before: seq<Move>, now: Time, moves: seq<Move>)
    ensures var s := After(c, NEW, before); var start := Asked(c, s, now); var s' := After(c, start, moves);
      s.circuit.status == Open && Within(start, s') ==> Live(s') <= c.probes + Older(start)
  {
    var s := After(c, NEW, before);
    var start := Asked(c, s, now);
    EveryRunCounts(c, before);
    AskedCounts(c, s, now);
    if s.circuit.status == Open && start.circuit.status == HalfOpen {
      ExcessShrinks(c, start, moves);
      StaysCounted(c, start, moves);
    }
  }

  const TRIPPED := Book(Circuit(Open, [1], 1, 0), 0, [Lease(0, true), Lease(0, false)], 0, 0)

  lemma TwoLeasesThenTrip(c: Settings)
    requires c == Config(1, 10, 10, 1)
    ensures After(c, NEW, [Ask(0), Ask(0), Tell(0, Lost(1))]) == TRIPPED
  {
    AfterThree(c, NEW, Ask(0), Ask(0), Tell(0, Lost(1)));
    assert Asked(c, Asked(c, NEW, 0), 0) == Book(FRESH, 0, [Lease(0, false), Lease(0, false)], 0, 0);
  }

  const PROBING := Book(Circuit(HalfOpen, [1], 1, 1), 1, [Lease(0, true), Lease(0, false), Lease(1, false)], 0, 0)

  const FREED := Book(Circuit(HalfOpen, [1], 1, 0), 1, [Lease(0, true), Lease(0, true), Lease(1, false)], 1, 0)

  const TWO_OUT := Book(Circuit(HalfOpen, [1], 1, 1), 1, [Lease(0, true), Lease(0, true), Lease(1, false), Lease(1, false)], 1, 0)

  lemma ProbeOut(c: Settings)
    requires c == Config(1, 10, 10, 1)
    ensures Asked(c, TRIPPED, 11) == PROBING
  {
  }

  lemma ProbeFreed(c: Settings)
    requires c == Config(1, 10, 10, 1)
    ensures Told(c, PROBING, 1, Dropped) == FREED && Asked(c, FREED, 12) == TWO_OUT
  {
  }

  lemma ProbeGivenBack(c: Settings)
    requires c == Config(1, 10, 10, 1)
    ensures After(c, TRIPPED, [Ask(11), Tell(1, Dropped), Ask(12)]) == TWO_OUT
  {
    AfterThree(c, TRIPPED, Ask(11), Tell(1, Dropped), Ask(12));
    ProbeOut(c);
    ProbeFreed(c);
  }

  /** Two leases before the trip, one of which trips it: the other gives back the only probe, and a second one is let out. */
  lemma OldLeaseReturnsProbe()
    ensures var c := Config(1, 10, 10, 1);
      var s := After(c, NEW, [Ask(0), Ask(0), Tell(0, Lost(1)), Ask(11), Tell(1, Dropped), Ask(12)]);
      s.circuit.status == HalfOpen && s.circuit.active == c.probes == 1 && Live(s) == 2
  {
    var c: Settings := Config(1, 10, 10, 1);
    var trip, probes := [Ask(0), Ask(0), Tell(0, Lost(1))], [Ask(11), Tell(1, Dropped), Ask(12)];
    TwoLeasesThenTrip(c);
    ProbeGivenBack(c);
    AfterAfter(c, NEW, trip, probes);
    LiveProbes(c, trip + probes);
    assert trip + probes == [Ask(0), Ask(0), Tell(0, Lost(1)), Ask(11), Tell(1, Dropped), Ask(12)];
  }
}
