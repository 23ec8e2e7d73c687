/**
 * Capacity under concurrency: selects and outcome reports interleave at every
 * atomic operation (semaphore send and receive, counter add, compare-and-swap).
 */
module RouterRace {
  import opened RouterSpec

  /** Where a lease stands between its semaphore send and its last counter update. */
  datatype Phase = Sent | Live | Swapped | Received | Gone

  datatype LeaseState = LeaseState(entry: nat, phase: Phase, scan: nat)

  /** A Select: the providers looked at so far and those found eligible, each as it stood when it was looked at. */
  datatype Scan = Scan(selection: Selection, looked: nat, eligible: set<nat>, served: bool)

  datatype Race = Race(occupied: seq<nat>, outstanding: seq<int>, healthy: seq<bool>, leases: seq<LeaseState>, scans: seq<Scan>)

  /** One atomic operation of some goroutine; an operation that does not apply changes nothing. */
  datatype Action =
    | SetHealthy(entry: nat, healthy: bool)
    | Begin(selection: Selection)
    | Look(scan: nat, tripped: bool)    // one turn of the filter loop; what the breaker says is up to it
    | Send(scan: nat, entry: nat)       // the non-blocking semaphore send, in whatever order the strategy and breakers give
    | Count(lease: nat)                 // outstanding.Add(1)
    | Report(lease: nat)                // CompareAndSwap(false, true) of release
    | Receive(lease: nat)               // the semaphore receive of release
    | Uncount(lease: nat)               // outstanding.Add(-1)

  predicate OnLease(a: Action) {
    a.Count? || a.Report? || a.Receive? || a.Uncount?
  }

  function Started(n: nat): Race {
    Race(seq(n, _ => 0), seq(n, _ => 0), seq(n, _ => true), [], [])
  }

  predicate Sized(providers: seq<Entry>, r: Race) {
    |r.occupied| == |r.outstanding| == |r.healthy| == |providers|
  }

  /** The filter loop looks at its next provider. */
  function Looked(providers: seq<Entry>, r: Race, scan: nat, tripped: bool): Race {
    if scan >= |r.scans| || !Sized(providers, r) || r.scans[scan].looked >= |providers| then r else
      var o, k := r.scans[scan], r.scans[scan].looked;
      var eligible := Selectable(providers[k], o.selection) && r.healthy[k] && !tripped && r.occupied[k] < providers[k].capacity;
      r.(scans := r.scans[scan := o.(looked := k + 1, eligible := if eligible then o.eligible + {k} else o.eligible)])
  }

  /** A provider found eligible is leased when it still has room; a Select that has its lease sends no more. */
  predicate Leasable(providers: seq<Entry>, r: Race, scan: nat, k: nat) {
    && scan < |r.scans| && r.scans[scan].looked == |providers| && !r.scans[scan].served && k in r.scans[scan].eligible
    && Sized(providers, r) && k < |providers| && r.occupied[k] < providers[k].capacity
  }

  function Advance(r: Race, lease: nat, from: Phase, to: Phase): Race {
    if lease < |r.leases| && r.leases[lease].phase == from
    then r.(leases := r.leases[lease := r.leases[lease].(phase := to)]) else r
  }

  predicate At(r: Race, lease: nat, phase: Phase) {
    lease < |r.leases| && r.leases[lease].phase == phase && r.leases[lease].entry < |r.occupied| == |r.outstanding|
  }

  function Step(providers: seq<Entry>, r: Race, a: Action): Race {
    match a
    case SetHealthy(k, healthy) => if k < |r.healthy| then r.(healthy := r.healthy[k := healthy]) else r
    case Begin(selection) => r.(scans := r.scans + [Scan(selection, 0, {}, false)])
    case Look(scan, tripped) => Looked(providers, r, scan, tripped)
    case Send(scan, k) =>
      if Leasable(providers, r, scan, k)
      then r.(occupied := r.occupied[k := r.occupied[k] + 1], leases := r.leases + [LeaseState(k, Sent, scan)],
              scans := r.scans[scan := r.scans[scan].(served := true)]) else r
    case Count(l) =>
      if At(r, l, Sent) then Bump(Advance(r, l, Sent, Live), r.leases[l].entry, 1) else r
    case Report(l) => Advance(r, l, Live, Swapped)
    case Receive(l) =>
      if At(r, l, Swapped) && r.occupied[r.leases[l].entry] > 0
      then var k := r.leases[l].entry; Advance(r, l, Swapped, Received).(occupied := r.occupied[k := r.occupied[k] - 1]) else r
    case Uncount(l) =>
      if At(r, l, Received) then Bump(Advance(r, l, Received, Gone), r.leases[l].entry, -1) else r
  }

  function Bump(r: Race, k: nat, delta: int): Race
    requires k < |r.outstanding|
  {
    r.(outstanding := r.outstanding[k := r.outstanding[k] + delta])
  }

  function Run(providers: seq<Entry>, actions: seq<Action>): Race {
    if actions == [] then Started(|providers|)
    else Step(providers, Run(providers, actions[..|actions| - 1]), actions[|actions| - 1])
  }

  /** The leases of one provider that stand in one of some phases. */
  ghost function In(leases: seq<LeaseState>, k: nat, phases: set<Phase>): nat {
    if leases == [] then 0 else
      var last := leases[|leases| - 1];
      In(leases[..|leases| - 1], k, phases) + (if last.entry == k && last.phase in phases then 1 else 0)
  }

  function Bit(l: LeaseState, k: nat, phases: set<Phase>): int {
    if l.entry == k && l.phase in phases then 1 else 0
  }

  lemma {:induction false} InUpdate(leases: seq<LeaseState>, i: nat, l: LeaseState, k: nat, phases: set<Phase>)
    requires i < |leases|
    ensures In(leases[i := l], k, phases) == In(leases, k, phases) - Bit(leases[i], k, phases) + Bit(l, k, phases)
  {
    var init := leases[..|leases| - 1];
    if i == |leases| - 1 {
      assert leases[i := l][..|leases| - 1] == init;
    } else {
      InUpdate(init, i, l, k, phases);
      assert leases[i := l][..|leases| - 1] == init[i := l];
    }
  }

  /** Between send and receive a lease occupies the semaphore. */
  const HOLDING := {Sent, Live, Swapped}

  /** Between the two counter updates it is outstanding. */
  const COUNTED := {Live, Swapped, Received}

  ghost predicate Conserved(providers: seq<Entry>, r: Race) {
    && Sized(providers, r)
    && (forall i :: 0 <= i < |r.leases| ==> r.leases[i].entry < |providers|)
    && (forall k: nat :: k < |providers| ==> ConservedAt(providers, r, k))
  }

  ghost predicate ConservedAt(providers: seq<Entry>, r: Race, k: nat)
    requires k < |providers| && Sized(providers, r)
  {
    && r.occupied[k] == In(r.leases, k, HOLDING) <= providers[k].capacity
    && r.outstanding[k] == In(r.leases, k, COUNTED)
  }

  lemma SendConserves(providers: seq<Entry>, r: Race, a: Action, k: nat)
    requires Conserved(providers, r) && k < |providers| && !OnLease(a)
    ensures Sized(providers, Step(providers, r, a)) && ConservedAt(providers, Step(providers, r, a), k)
  {
    var r' := Step(providers, r, a);
    assert ConservedAt(providers, r, k);
    if |r'.leases| > |r.leases| {
      assert r'.leases[..|r.leases|] == r.leases;
    }
  }

  lemma MoveConserves(providers: seq<Entry>, r: Race, a: Action, k: nat)
    requires Conserved(providers, r) && k < |providers| && OnLease(a)
    ensures Sized(providers, Step(providers, r, a)) && ConservedAt(providers, Step(providers, r, a), k)
  {
    var r' := Step(providers, r, a);
    assert ConservedAt(providers, r, k);
    if a.lease < |r.leases| && r' != r {
      assert ConservedAt(providers, r, r.leases[a.lease].entry);
      InUpdate(r.leases, a.lease, r'.leases[a.lease], k, HOLDING);
      InUpdate(r.leases, a.lease, r'.leases[a.lease], k, COUNTED);
      assert r'.leases == r.leases[a.lease := r'.leases[a.lease]];
    }
  }

  lemma StepConserves(providers: seq<Entry>, r: Race, a: Action)
    requires Conserved(providers, r)
    ensures Conserved(providers, Step(providers, r, a))
  {
    assert Sized(providers, Step(providers, r, a));
    forall k: nat | k < |providers| ensures ConservedAt(providers, Step(providers, r, a), k) {
      if !OnLease(a) {
        SendConserves(providers, r, a, k);
      } else {
        MoveConserves(providers, r, a, k);
      }
    }
  }

  /** In every run a semaphore holds exactly its unreleased leases and never exceeds its capacity. */
  lemma {:induction false} CapacityConserved(providers: seq<Entry>, actions: seq<Action>)
    ensures Conserved(providers, Run(providers, actions))
  {
    if actions == [] {
    } else {
      CapacityConserved(providers, actions[..|actions| - 1]);
      StepConserves(providers, Run(providers, actions[..|actions| - 1]), actions[|actions| - 1]);
    }
  }

  ghost predicate Quiet(r: Race) {
    forall i :: 0 <= i < |r.leases| ==> r.leases[i].phase in {Live, Gone}
  }

  lemma {:induction false} QuietCounts(leases: seq<LeaseState>, k: nat)
    requires forall i :: 0 <= i < |leases| ==> leases[i].phase in {Live, Gone}
    ensures In(leases, k, HOLDING) == In(leases, k, COUNTED) == In(leases, k, {Live})
  {
    if leases != [] {
      QuietCounts(leases[..|leases| - 1], k);
    }
  }

  /** With no operation mid-step, semaphore, counter and live leases agree. */
  lemma AgreeWhenQuiet(providers: seq<Entry>, actions: seq<Action>, k: nat)
    requires k < |providers| && Quiet(Run(providers, actions))
    ensures var r := Run(providers, actions);
      Sized(providers, r) && r.occupied[k] == r.outstanding[k] == In(r.leases, k, {Live})
  {
    CapacityConserved(providers, actions);
    QuietCounts(Run(providers, actions).leases, k);
    assert ConservedAt(providers, Run(providers, actions), k);
  }

  lemma {:induction false} SomeIn(leases: seq<LeaseState>, i: nat, phases: set<Phase>)
    requires i < |leases| && leases[i].phase in phases
    ensures In(leases, leases[i].entry, phases) > 0
  {
    if i < |leases| - 1 {
      SomeIn(leases[..|leases| - 1], i, phases);
    }
  }

  /** The receive of a release never finds its semaphore empty, so no release blocks. */
  lemma ReleaseNeverBlocks(providers: seq<Entry>, actions: seq<Action>, l: nat)
    requires l < |Run(providers, actions).leases| && Run(providers, actions).leases[l].phase == Swapped
    ensures var next := Run(providers, actions + [Receive(l)]);
      l < |next.leases| && next.leases[l].phase == Received
  {
    CapacityConserved(providers, actions);
    SomeIn(Run(providers, actions).leases, l, HOLDING);
    assert ConservedAt(providers, Run(providers, actions), Run(providers, actions).leases[l].entry);
    assert (actions + [Receive(l)])[..|actions|] == actions;
  }

  // Policy

  predicate ScanFits(providers: seq<Entry>, o: Scan) {
    o.looked <= |providers| && forall k :: k in o.eligible ==> k < o.looked && Selectable(providers[k], o.selection)
  }

  predicate LeaseFits(providers: seq<Entry>, scans: seq<Scan>, l: LeaseState) {
    && l.scan < |scans| && scans[l.scan].served && l.entry in scans[l.scan].eligible
    && l.entry < |providers| && Selectable(providers[l.entry], scans[l.scan].selection)
  }

  ghost predicate Lawful(providers: seq<Entry>, r: Race) {
    && (forall i :: 0 <= i < |r.scans| ==> ScanFits(providers, r.scans[i]))
    && (forall i :: 0 <= i < |r.leases| ==> LeaseFits(providers, r.scans, r.leases[i]))
    && (forall i, j :: 0 <= i < j < |r.leases| ==> r.leases[i].scan != r.leases[j].scan)
  }

  lemma SendIsLawful(providers: seq<Entry>, r: Race, scan: nat, k: nat)
    requires Lawful(providers, r) && Leasable(providers, r, scan, k)
    ensures Lawful(providers, Step(providers, r, Send(scan, k)))
  {
    var r' := Step(providers, r, Send(scan, k));
    assert ScanFits(providers, r.scans[scan]);
    forall i | 0 <= i < |r'.leases| ensures LeaseFits(providers, r'.scans, r'.leases[i]) {
      if i < |r.leases| { assert LeaseFits(providers, r.scans, r.leases[i]); }
    }
  }

  lemma StepIsLawful(providers: seq<Entry>, r: Race, a: Action)
    requires Lawful(providers, r)
    ensures Lawful(providers, Step(providers, r, a))
  {
    var r' := Step(providers, r, a);
    if a.Send? && Leasable(providers, r, a.scan, a.entry) {
      SendIsLawful(providers, r, a.scan, a.entry);
    } else {
      forall i | 0 <= i < |r'.leases| ensures LeaseFits(providers, r'.scans, r'.leases[i]) {
        assert LeaseFits(providers, r.scans, r.leases[i]);
      }
    }
  }

  /** In every interleaving each lease satisfies the policy filter of its own Select, which gets at most one. */
  lemma {:induction false} EveryLeaseIsPermitted(providers: seq<Entry>, actions: seq<Action>)
    ensures Lawful(providers, Run(providers, actions))
  {
    if actions != [] {
      EveryLeaseIsPermitted(providers, actions[..|actions| - 1]);
      StepIsLawful(providers, Run(providers, actions[..|actions| - 1]), actions[|actions| - 1]);
    }
  }
}
