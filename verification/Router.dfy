/** Provider selection (internal/routing): policy filter, prices, orderings and capacity leases. */
module RouterSpec {
  import opened Base
  import opened Budget
  import Breaker

  type Time = int

  datatype Strategy = WeightedRoundRobin | LeastOutstanding | LeastLatency | PriorityFallback

  datatype Provider = Provider(name: string, weight: int, priority: int, capacity: int, inputPrice: int64, outputPrice: int64,
                               enabled: bool, models: set<string>, classifications: set<string>)

  function Registered(p: Provider): (r: Provider)
    ensures r.weight > 0 && r.capacity > 0
  {
    p.(weight := if p.weight <= 0 then 1 else p.weight, capacity := if p.capacity <= 0 then 20 else p.capacity)
  }

  /** A registered provider: weight and capacity are positive. */
  type Entry = p: Provider | p.weight > 0 && p.capacity > 0 witness Provider("", 1, 0, 1, 0, 0, false, {}, {})

  datatype Selection = Selection(model: string, classification: string, allowed: Option<set<string>>,
                                 excluded: set<string>, strategy: Strategy)

  /** The static policy: it depends on nothing that changes while the router runs. */
  predicate Permitted(p: Provider, s: Selection) {
    && p.enabled
    && (s.allowed.Some? ==> p.name in s.allowed.value)
    && s.model in p.models
    && s.classification in p.classifications
  }

  predicate Selectable(p: Provider, s: Selection) {
    Permitted(p, s) && p.name !in s.excluded
  }

  function Max(a: int64, b: int64): (m: int64) { if a < b then b else a }

  /** The highest prices over the providers that static policy permits. */
  function HighestPrices(providers: seq<Entry>, s: Selection): (r: Option<(int64, int64)>) {
    if providers == [] then None else
      var init, last := HighestPrices(providers[..|providers| - 1], s), providers[|providers| - 1];
      if !Permitted(last, s) then init
      else
        var (i, o) := if init.Some? then init.value else (0, 0);
        Some((Max(i, last.inputPrice), Max(o, last.outputPrice)))
  }

  /** Whatever the router's later state, no lease it can give costs more than the highest prices. */
  lemma {:induction false} HighestPricesDominate(providers: seq<Entry>, s: Selection, k: nat)
    requires k < |providers| && Permitted(providers[k], s)
    ensures HighestPrices(providers, s).Some?
    ensures providers[k].inputPrice <= HighestPrices(providers, s).value.0
    ensures providers[k].outputPrice <= HighestPrices(providers, s).value.1
  {
    if k < |providers| - 1 {
      HighestPricesDominate(providers[..|providers| - 1], s, k);
    }
  }

  /** The highest prices ignore the exclusions, so one reservation covers every failover. */
  lemma {:induction false} HighestPricesIgnoreExclusions(providers: seq<Entry>, s: Selection, excluded: set<string>)
    ensures HighestPrices(providers, s) == HighestPrices(providers, s.(excluded := excluded))
  {
    if providers != [] {
      HighestPricesIgnoreExclusions(providers[..|providers| - 1], s, excluded);
    }
  }

  /** They are no looser than needed: each is zero or the price of some permitted provider. */
  lemma {:induction false} HighestPricesAttained(providers: seq<Entry>, s: Selection)
    requires HighestPrices(providers, s).Some?
    ensures exists k :: 0 <= k < |providers| && Permitted(providers[k], s)
    ensures var r := HighestPrices(providers, s).value;
      && (r.0 == 0 || exists k :: 0 <= k < |providers| && Permitted(providers[k], s) && providers[k].inputPrice == r.0)
      && (r.1 == 0 || exists k :: 0 <= k < |providers| && Permitted(providers[k], s) && providers[k].outputPrice == r.1)
  {
    var init := providers[..|providers| - 1];
    if HighestPrices(init, s).Some? {
      HighestPricesAttained(init, s);
      assert forall k :: 0 <= k < |init| ==> providers[k] == init[k];
    }
  }

  /** What changes while the router runs; all sequences have one entry per provider. */
  datatype Pool = Pool(occupied: seq<nat>, outstanding: seq<int>, circuits: seq<Breaker.Circuit>,
                       healthy: seq<bool>, latency: seq<int>, sequence: nat)

  ghost predicate Fits(providers: seq<Entry>, pool: Pool) {
    |pool.occupied| == |pool.outstanding| == |pool.circuits| == |pool.healthy| == |pool.latency| == |providers|
  }

  predicate Eligible(providers: seq<Entry>, c: Breaker.Settings, pool: Pool, s: Selection, now: Time, k: nat)
    requires Fits(providers, pool) && k < |providers|
  {
    && Selectable(providers[k], s)
    && pool.healthy[k]
    && Breaker.Observed(c, pool.circuits[k], now) != Breaker.Open
    && pool.occupied[k] < providers[k].capacity
  }

  function EligibleBelow(providers: seq<Entry>, c: Breaker.Settings, pool: Pool, s: Selection, now: Time, n: nat): (r: seq<nat>)
    requires Fits(providers, pool) && n <= |providers|
    ensures Within(r, n)
    ensures forall k: nat :: k in r <==> k < n && Eligible(providers, c, pool, s, now, k)
  {
    if n == 0 then []
    else EligibleBelow(providers, c, pool, s, now, n - 1)
         + (if Eligible(providers, c, pool, s, now, n - 1) then [n - 1] else [])
  }

  // Orderings

  function Keys(providers: seq<Entry>, pool: Pool, strategy: Strategy): (keys: seq<int>)
    requires Fits(providers, pool)
    ensures |keys| == |providers|
  {
    seq(|providers|, k requires 0 <= k < |providers| =>
      match strategy
      case LeastOutstanding => pool.outstanding[k]
      case LeastLatency => if pool.latency[k] == 0 then 1_000_000_000_000_000 else pool.latency[k]
      case _ => providers[k].priority)
  }

  ghost predicate Within(entries: seq<nat>, n: nat) {
    forall i :: 0 <= i < |entries| ==> entries[i] < n
  }

  function Insert(e: nat, sorted: seq<nat>, keys: seq<int>): (r: seq<nat>)
    requires e < |keys| && Within(sorted, |keys|)
    ensures multiset(r) == multiset(sorted) + multiset{e} && Within(r, |keys|)
  {
    if sorted == [] then [e]
    else if keys[e] <= keys[sorted[0]] then [e] + sorted
    else
      assert sorted == [sorted[0]] + sorted[1..];
      [sorted[0]] + Insert(e, sorted[1..], keys)
  }

  /** sort.SliceStable by an integer key. */
  function StableSort(entries: seq<nat>, keys: seq<int>): (r: seq<nat>)
    requires Within(entries, |keys|)
    ensures multiset(r) == multiset(entries) && Within(r, |keys|)
  {
    if entries == [] then []
    else
      assert entries == [entries[0]] + entries[1..];
      Insert(entries[0], StableSort(entries[1..], keys), keys)
  }

  ghost predicate Ascending(entries: seq<nat>, keys: seq<int>)
    requires Within(entries, |keys|)
  {
    forall i, j :: 0 <= i < j < |entries| ==> keys[entries[i]] <= keys[entries[j]]
  }

  /** The entries of one key, in order. */
  function OfKey(entries: seq<nat>, keys: seq<int>, key: int): seq<nat>
    requires Within(entries, |keys|)
  {
    if entries == [] then []
    else if keys[entries[0]] == key then [entries[0]] + OfKey(entries[1..], keys, key)
    else OfKey(entries[1..], keys, key)
  }

  ghost predicate AllFrom(entries: seq<nat>, keys: seq<int>, low: int)
    requires Within(entries, |keys|)
  {
    forall i :: 0 <= i < |entries| ==> low <= keys[entries[i]]
  }

  lemma {:induction false} InsertBound(e: nat, sorted: seq<nat>, keys: seq<int>, low: int)
    requires e < |keys| && Within(sorted, |keys|) && AllFrom(sorted, keys, low) && low <= keys[e]
    ensures AllFrom(Insert(e, sorted, keys), keys, low)
  {
    if sorted != [] && keys[e] > keys[sorted[0]] {
      InsertBound(e, sorted[1..], keys, low);
    }
  }

  lemma {:induction false} InsertAscends(e: nat, sorted: seq<nat>, keys: seq<int>)
    requires e < |keys| && Within(sorted, |keys|) && Ascending(sorted, keys)
    ensures Ascending(Insert(e, sorted, keys), keys)
  {
    if sorted != [] && keys[e] > keys[sorted[0]] {
      InsertAscends(e, sorted[1..], keys);
      InsertBound(e, sorted[1..], keys, keys[sorted[0]]);
    }
  }

  lemma {:induction false} InsertKeepsKeys(e: nat, sorted: seq<nat>, keys: seq<int>, key: int)
    requires e < |keys| && Within(sorted, |keys|)
    ensures OfKey(Insert(e, sorted, keys), keys, key) == if keys[e] == key then [e] + OfKey(sorted, keys, key) else OfKey(sorted, keys, key)
  {
    var r := Insert(e, sorted, keys);
    if sorted == [] {
      assert r[1..] == [];
    } else if keys[e] <= keys[sorted[0]] {
      assert r[1..] == sorted;
    } else {
      InsertKeepsKeys(e, sorted[1..], keys, key);
      assert r[1..] == Insert(e, sorted[1..], keys);
    }
  }

  /** The sort orders by key and keeps the original order among equal keys. */
  lemma {:induction false} StableSortIsStable(entries: seq<nat>, keys: seq<int>, key: int)
    requires Within(entries, |keys|)
    ensures Ascending(StableSort(entries, keys), keys)
    ensures OfKey(StableSort(entries, keys), keys, key) == OfKey(entries, keys, key)
  {
    if entries != [] {
      StableSortIsStable(entries[1..], keys, key);
      InsertAscends(entries[0], StableSort(entries[1..], keys), keys);
      InsertKeepsKeys(entries[0], StableSort(entries[1..], keys), keys, key);
    }
  }

  // Weighted rotation

  const TWO_63 := 0x8000_0000_0000_0000
  const TWO_64 := 0x1_0000_0000_0000_0000

  /** A uint64 read as a Go int. */
  function AsInt(u: nat): int { if u < TWO_63 then u else u - TWO_64 }

  /** Go's remainder: it has the sign of the dividend. */
  function Remainder(a: int, b: int): (r: int)
    requires b > 0
    ensures -b < r < b && (a >= 0 ==> r == a % b) && (a <= 0 ==> r <= 0)
  {
    if a >= 0 then a % b else -((-a) % b)
  }

  /** The combined weight of the first n entries. */
  function Prefix(providers: seq<Entry>, entries: seq<nat>, n: nat): (t: nat)
    requires Within(entries, |providers|) && n <= |entries|
    ensures t >= n
  {
    if n == 0 then 0 else Prefix(providers, entries, n - 1) + providers[entries[n - 1]].weight
  }

  function Total(providers: seq<Entry>, entries: seq<nat>): (t: nat)
    requires Within(entries, |providers|)
    ensures entries != [] ==> t > 0
  {
    Prefix(providers, entries, |entries|)
  }

  /** The index whose weight interval contains the position; zero when none does. */
  function Chosen(providers: seq<Entry>, entries: seq<nat>, position: int, from: nat): (k: nat)
    requires Within(entries, |providers|) && from <= |entries| && entries != []
    ensures k < |entries|
    decreases |entries| - from
  {
    if from == |entries| then 0
    else
      var rest := position - providers[entries[from]].weight;
      if rest < 0 then from else Chosen(providers, entries, rest, from + 1)
  }

  function FirstPlace(providers: seq<Entry>, entries: seq<nat>, sequence: nat): (k: nat)
    requires Within(entries, |providers|) && entries != []
    ensures k < |entries|
  {
    Chosen(providers, entries, Remainder(AsInt(sequence), Total(providers, entries)), 0)
  }

  function Rotated(entries: seq<nat>, k: nat): (r: seq<nat>)
    requires k <= |entries|
    ensures multiset(r) == multiset(entries) && |r| == |entries|
  {
    assert entries == entries[..k] + entries[k..];
    entries[k..] + entries[..k]
  }

  function Order(providers: seq<Entry>, pool: Pool, entries: seq<nat>, strategy: Strategy): (r: seq<nat>)
    requires Fits(providers, pool) && Within(entries, |providers|) && entries != []
    ensures multiset(r) == multiset(entries) && Within(r, |providers|)
  {
    if strategy == WeightedRoundRobin then Rotated(entries, FirstPlace(providers, entries, pool.sequence))
    else StableSort(entries, Keys(providers, pool, strategy))
  }

  // Taking and returning capacity

  function Taken(pool: Pool, k: nat): Pool
    requires k < |pool.occupied| == |pool.outstanding|
  {
    pool.(occupied := pool.occupied[k := pool.occupied[k] + 1], outstanding := pool.outstanding[k := pool.outstanding[k] + 1])
  }

  /** Walk an ordering: ask each breaker, then try the semaphore; a full provider gives its probe back. */
  function TryEach(providers: seq<Entry>, c: Breaker.Settings, pool: Pool, ordered: seq<nat>, now: Time): (r: (Pool, Option<nat>))
    requires Fits(providers, pool) && Within(ordered, |providers|)
    ensures Fits(providers, r.0)
    ensures r.1.Some? ==> r.1.value in ordered && pool.occupied[r.1.value] < providers[r.1.value].capacity
    ensures r.1.Some? ==> r.0.occupied == pool.occupied[r.1.value := pool.occupied[r.1.value] + 1]
    ensures r.1.Some? ==> r.0.outstanding == pool.outstanding[r.1.value := pool.outstanding[r.1.value] + 1]
    ensures r.1.None? ==> r.0.occupied == pool.occupied && r.0.outstanding == pool.outstanding
    decreases |ordered|
  {
    if ordered == [] then (pool, None) else
      var k := ordered[0];
      var (circuit, ok) := Breaker.Allow(c, pool.circuits[k], now);
      var asked := pool.(circuits := pool.circuits[k := circuit]);
      if !ok then TryEach(providers, c, asked, ordered[1..], now)
      else if pool.occupied[k] < providers[k].capacity then (Taken(asked, k), Some(k))
      else TryEach(providers, c, pool.(circuits := pool.circuits[k := Breaker.Release(circuit)]), ordered[1..], now)
  }
}

/** Over any full turn of the sequence each entry leads exactly as often as its weight. */
module RouterFairness {
  import opened Budget
  import opened RouterSpec

  lemma {:induction false} PrefixMonotone(providers: seq<Entry>, entries: seq<nat>, i: nat, j: nat)
    requires Within(entries, |providers|) && i <= j <= |entries|
    ensures Prefix(providers, entries, i) <= Prefix(providers, entries, j)
    decreases j
  {
    if i < j {
      PrefixMonotone(providers, entries, i, j - 1);
    }
  }

  /** The loop that subtracts weights finds the interval that contains the position. */
  lemma {:induction false} ChosenInterval(providers: seq<Entry>, entries: seq<nat>, position: nat, from: nat)
    requires Within(entries, |providers|) && entries != [] && from <= |entries|
    requires position < Total(providers, entries) - Prefix(providers, entries, from)
    ensures var k := Chosen(providers, entries, position, from);
      Prefix(providers, entries, k) <= Prefix(providers, entries, from) + position < Prefix(providers, entries, k + 1)
    decreases |entries| - from
  {
    var rest := position - providers[entries[from]].weight;
    if rest >= 0 {
      ChosenInterval(providers, entries, rest, from + 1);
    }
  }

  lemma ChosenIff(providers: seq<Entry>, entries: seq<nat>, position: nat, i: nat)
    requires Within(entries, |providers|) && i < |entries| && position < Total(providers, entries)
    ensures Chosen(providers, entries, position, 0) == i
      <==> Prefix(providers, entries, i) <= position < Prefix(providers, entries, i + 1)
  {
    ChosenInterval(providers, entries, position, 0);
    var k := Chosen(providers, entries, position, 0);
    if k < i {
      PrefixMonotone(providers, entries, k + 1, i);
    } else if i < k {
      PrefixMonotone(providers, entries, i + 1, k);
    }
  }

  /** The entry whose turn a sequence value is, whatever the width of the counter. */
  function TurnOf(providers: seq<Entry>, entries: seq<nat>, u: nat): (k: nat)
    requires Within(entries, |providers|) && entries != []
    ensures k < |entries|
  {
    Chosen(providers, entries, u % Total(providers, entries), 0)
  }

  /** The counter is read as a Go int: below 2^63 the first place goes to whose turn it is, from there on to the first entry. */
  lemma FirstPlaceIs(providers: seq<Entry>, entries: seq<nat>, u: nat)
    requires Within(entries, |providers|) && entries != [] && u < TWO_64
    ensures FirstPlace(providers, entries, u) == if u < TWO_63 then TurnOf(providers, entries, u) else 0
  {
  }

  /** How many of n consecutive sequence values are entry i's turn. */
  ghost function Turns(providers: seq<Entry>, entries: seq<nat>, i: nat, start: nat, n: nat): nat
    requires Within(entries, |providers|) && entries != []
  {
    if n == 0 then 0 else
      Turns(providers, entries, i, start, n - 1) + (if TurnOf(providers, entries, start + n - 1) == i then 1 else 0)
  }

  /** How many of n consecutive sequence values put entry i first. */
  ghost function Leads(providers: seq<Entry>, entries: seq<nat>, i: nat, start: nat, n: nat): nat
    requires Within(entries, |providers|) && entries != []
  {
    if n == 0 then 0 else
      Leads(providers, entries, i, start, n - 1) + (if FirstPlace(providers, entries, start + n - 1) == i then 1 else 0)
  }

  // A full turn of an unbounded counter

  lemma {:induction false} TurnsFromZero(providers: seq<Entry>, entries: seq<nat>, i: nat, n: nat)
    requires Within(entries, |providers|) && i < |entries| && n <= Total(providers, entries)
    ensures var lo, hi := Prefix(providers, entries, i), Prefix(providers, entries, i + 1);
      Turns(providers, entries, i, 0, n) == if n <= lo then 0 else if n <= hi then n - lo else hi - lo
  {
    if n > 0 {
      TurnsFromZero(providers, entries, i, n - 1);
      ChosenIff(providers, entries, n - 1, i);
      ModUnique(n - 1, Total(providers, entries), 0, n - 1);
    }
  }

  lemma {:induction false} TurnsFirst(providers: seq<Entry>, entries: seq<nat>, i: nat, start: nat, n: nat)
    requires Within(entries, |providers|) && entries != [] && n > 0
    ensures Turns(providers, entries, i, start, n)
      == (if TurnOf(providers, entries, start) == i then 1 else 0) + Turns(providers, entries, i, start + 1, n - 1)
  {
    if n > 1 {
      TurnsFirst(providers, entries, i, start, n - 1);
    } else {
      assert Turns(providers, entries, i, start, 0) == 0;
    }
  }

  lemma NextTurn(providers: seq<Entry>, entries: seq<nat>, n: nat)
    requires Within(entries, |providers|) && entries != []
    ensures TurnOf(providers, entries, n + Total(providers, entries)) == TurnOf(providers, entries, n)
  {
    ModShift(n, Total(providers, entries), -1);
  }

  lemma {:induction false} TurnsShift(providers: seq<Entry>, entries: seq<nat>, i: nat, start: nat)
    requires Within(entries, |providers|) && entries != []
    ensures Turns(providers, entries, i, start, Total(providers, entries)) == Turns(providers, entries, i, 0, Total(providers, entries))
  {
    if start > 0 {
      TurnsShift(providers, entries, i, start - 1);
      TurnsFirst(providers, entries, i, start - 1, Total(providers, entries));
      NextTurn(providers, entries, start - 1);
    }
  }

  /** Over any W consecutive values it is entry i's turn exactly weight-many times. */
  lemma EachTakesItsTurns(providers: seq<Entry>, entries: seq<nat>, i: nat, start: nat)
    requires Within(entries, |providers|) && i < |entries|
    ensures Turns(providers, entries, i, start, Total(providers, entries)) == providers[entries[i]].weight
  {
    TurnsShift(providers, entries, i, start);
    TurnsFromZero(providers, entries, i, Total(providers, entries));
    PrefixMonotone(providers, entries, i + 1, |entries|);
  }

  // What the counter's width does to it

  /** How many of n consecutive values from a start lie below 2^63. */
  function Below(start: nat, n: nat): (k: nat)
    ensures k <= n
  {
    if start + n <= TWO_63 then n else if start >= TWO_63 then 0 else TWO_63 - start
  }

  /** In any window: the turns below 2^63, and all the rest for the first entry. */
  lemma {:induction false} LeadsOfAnyWindow(providers: seq<Entry>, entries: seq<nat>, i: nat, start: nat, n: nat)
    requires Within(entries, |providers|) && entries != [] && start + n <= TWO_64
    ensures Leads(providers, entries, i, start, n)
      == Turns(providers, entries, i, start, Below(start, n)) + if i == 0 then n - Below(start, n) else 0
  {
    if n > 0 {
      LeadsOfAnyWindow(providers, entries, i, start, n - 1);
      FirstPlaceIs(providers, entries, start + n - 1);
    }
  }

  ghost predicate Fair(providers: seq<Entry>, entries: seq<nat>, start: nat)
    requires Within(entries, |providers|) && entries != []
  {
    forall i :: 0 <= i < |entries| ==> Leads(providers, entries, i, start, Total(providers, entries)) == providers[entries[i]].weight
  }

  /** Fairness: over any W consecutive values below 2^63, entry i is first exactly weight-many times. */
  lemma EachLeadsItsWeight(providers: seq<Entry>, entries: seq<nat>, i: nat, start: nat)
    requires Within(entries, |providers|) && i < |entries|
    requires start + Total(providers, entries) <= TWO_63
    ensures Leads(providers, entries, i, start, Total(providers, entries)) == providers[entries[i]].weight
  {
    LeadsOfAnyWindow(providers, entries, i, start, Total(providers, entries));
    EachTakesItsTurns(providers, entries, i, start);
  }

  /** All n values are the first entry's turn exactly when their remainders stay in its interval. */
  lemma FirstTurnsIff(providers: seq<Entry>, entries: seq<nat>, from: nat, n: nat)
    requires Within(entries, |providers|) && |entries| > 1 && 0 < n < Total(providers, entries)
    ensures Turns(providers, entries, 0, from, n) == n
      <==> from % Total(providers, entries) + n <= providers[entries[0]].weight
  {
    var w, first := Total(providers, entries), providers[entries[0]].weight;
    var r := from % w;
    PrefixMonotone(providers, entries, 2, |entries|);
    assert first < w;
    if r + n <= first {
      FirstTurnsAll(providers, entries, from, n);
    } else {
      var j := if r >= first then 0 else first - r;
      ModUnique(from + j, w, from / w, r + j);
      ChosenIff(providers, entries, r + j, 0);
      TurnMissed(providers, entries, from, n, j);
    }
  }

  lemma {:induction false} FirstTurnsAll(providers: seq<Entry>, entries: seq<nat>, from: nat, n: nat)
    requires Within(entries, |providers|) && entries != []
    requires from % Total(providers, entries) + n <= providers[entries[0]].weight <= Total(providers, entries)
    ensures Turns(providers, entries, 0, from, n) == n
  {
    if n > 0 {
      var w := Total(providers, entries);
      FirstTurnsAll(providers, entries, from, n - 1);
      ModUnique(from + n - 1, w, from / w, from % w + n - 1);
      ChosenIff(providers, entries, from % w + n - 1, 0);
    }
  }

  lemma {:induction false} TurnMissed(providers: seq<Entry>, entries: seq<nat>, from: nat, n: nat, j: nat)
    requires Within(entries, |providers|) && entries != [] && j < n && TurnOf(providers, entries, from + j) != 0
    ensures Turns(providers, entries, 0, from, n) < n
  {
    if j < n - 1 {
      TurnMissed(providers, entries, from, n - 1, j);
    } else {
      TurnsAtMost(providers, entries, from, n - 1);
    }
  }

  lemma {:induction false} TurnsAtMost(providers: seq<Entry>, entries: seq<nat>, from: nat, n: nat)
    requires Within(entries, |providers|) && entries != []
    ensures Turns(providers, entries, 0, from, n) <= n
  {
    if n > 0 { TurnsAtMost(providers, entries, from, n - 1); }
  }

  lemma {:induction false} TurnsSplit(providers: seq<Entry>, entries: seq<nat>, i: nat, start: nat, m: nat, n: nat)
    requires Within(entries, |providers|) && entries != []
    ensures Turns(providers, entries, i, start, m + n) == Turns(providers, entries, i, start, m) + Turns(providers, entries, i, start + m, n)
  {
    if n > 0 { TurnsSplit(providers, entries, i, start, m, n - 1); }
  }

  /**
   * Up to 2^64, a window of W values is fair exactly when there is one entry, or it lies below 2^63, or it crosses
   * 2^63 and what lies beyond would have been the first entry's turn anyway.
   */
  lemma FairExactlyWhen(providers: seq<Entry>, entries: seq<nat>, start: nat)
    requires Within(entries, |providers|) && entries != [] && start + Total(providers, entries) <= TWO_64
    ensures var w := Total(providers, entries);
      Fair(providers, entries, start) <==>
        || |entries| == 1
        || start + w <= TWO_63
        || (start < TWO_63 && TWO_63 % w + (start + w - TWO_63) <= providers[entries[0]].weight)
  {
    var w := Total(providers, entries);
    var m := Below(start, w);
    FairMeansFirst(providers, entries, start);
    if |entries| == 1 {
      OneEntryAlways(providers, entries, start + m, w - m);
    } else if m == 0 {
      EachTakesItsTurns(providers, entries, 0, start);
      PrefixMonotone(providers, entries, 2, |entries|);
    } else if m < w {
      FirstTurnsIff(providers, entries, TWO_63, w - m);
    }
  }

  /** A window is fair exactly when all it has from 2^63 on is the first entry's turn. */
  lemma FairMeansFirst(providers: seq<Entry>, entries: seq<nat>, start: nat)
    requires Within(entries, |providers|) && entries != [] && start + Total(providers, entries) <= TWO_64
    ensures var w := Total(providers, entries); var m := Below(start, w);
      Fair(providers, entries, start) <==> Turns(providers, entries, 0, start + m, w - m) == w - m
  {
    var w := Total(providers, entries);
    var m := Below(start, w);
    forall i | 0 <= i < |entries|
      ensures Leads(providers, entries, i, start, w)
           == providers[entries[i]].weight + (if i == 0 then w - m else 0) - Turns(providers, entries, i, start + m, w - m)
    {
      LeadsOfAnyWindow(providers, entries, i, start, w);
      EachTakesItsTurns(providers, entries, i, start);
      TurnsSplit(providers, entries, i, start, m, w - m);
    }
    var from, rest := start + m, w - m;
    if Turns(providers, entries, 0, from, rest) == rest {
      forall i | 0 < i < |entries| ensures Turns(providers, entries, i, from, rest) == 0 {
        NoneLeft(providers, entries, i, from, rest);
      }
    }
  }

  lemma {:induction false} NoneLeft(providers: seq<Entry>, entries: seq<nat>, i: nat, from: nat, n: nat)
    requires Within(entries, |providers|) && 0 < i < |entries|
    ensures Turns(providers, entries, i, from, n) + Turns(providers, entries, 0, from, n) <= n
  {
    if n > 0 { NoneLeft(providers, entries, i, from, n - 1); }
  }

  lemma {:induction false} OneEntryAlways(providers: seq<Entry>, entries: seq<nat>, from: nat, n: nat)
    requires Within(entries, |providers|) && |entries| == 1
    ensures Turns(providers, entries, 0, from, n) == n
  {
    if n > 0 { OneEntryAlways(providers, entries, from, n - 1); }
  }

  /** So from 2^63 on only a list of one entry is served fairly, and every later entry never leads. */
  lemma FairnessEndsAt2To63(providers: seq<Entry>, entries: seq<nat>, start: nat)
    requires Within(entries, |providers|) && entries != [] && TWO_63 <= start && start + Total(providers, entries) <= TWO_64
    ensures Fair(providers, entries, start) <==> |entries| == 1
    ensures forall i :: 0 < i < |entries| ==> Leads(providers, entries, i, start, Total(providers, entries)) == 0
  {
    FairExactlyWhen(providers, entries, start);
    forall i | 0 < i < |entries| ensures Leads(providers, entries, i, start, Total(providers, entries)) == 0 {
      LeadsOfAnyWindow(providers, entries, i, start, Total(providers, entries));
    }
  }
}

/** The router object. Breakers, semaphores and counters are kept per provider position. */
module RouterStore {
  import opened Base
  import opened Budget
  import Breaker
  import opened RouterSpec

  class Lease {
    const entry: nat
    const inputPrice: int64
    const outputPrice: int64
    var released: bool

    constructor (entry: nat, inputPrice: int64, outputPrice: int64)
      ensures this.entry == entry && this.inputPrice == inputPrice && this.outputPrice == outputPrice && !released
    {
      this.entry, this.inputPrice, this.outputPrice, released := entry, inputPrice, outputPrice, false;
    }
  }

  class Router {
    const providers: seq<Entry>
    const breaker: Breaker.Settings
    var pool: Pool

    ghost predicate Valid()
      reads this
    {
      Fits(providers, pool)
    }

    constructor (configs: seq<Provider>, breakerConfig: Breaker.Config)
      ensures Valid() && |providers| == |configs|
      ensures forall k :: 0 <= k < |configs| ==> providers[k] == Registered(configs[k])
      ensures forall k :: 0 <= k < |configs| ==> pool.occupied[k] == pool.outstanding[k] == 0 && pool.healthy[k]
    {
      var n := |configs|;
      providers := seq(n, k requires 0 <= k < n => Registered(configs[k]));
      breaker := Breaker.Normalised(breakerConfig);
      pool := Pool(seq(n, _ => 0), seq(n, _ => 0), seq(n, _ => Breaker.FRESH), seq(n, _ => true), seq(n, _ => 0), 0);
    }

    /** A lease satisfies the whole filter as it stood on entry, and takes exactly one unit of one provider. */
    method Select(s: Selection, now: Time) returns (lease: Option<Lease>)
      requires Valid()
      modifies this
      ensures Valid()
      ensures lease.None? ==> pool.occupied == old(pool.occupied) && pool.outstanding == old(pool.outstanding)
      ensures lease.Some? ==>
        var k := lease.value.entry;
        && fresh(lease.value) && !lease.value.released
        && k < |providers| && Eligible(providers, breaker, old(pool), s, now, k)
        && lease.value.inputPrice == providers[k].inputPrice && lease.value.outputPrice == providers[k].outputPrice
        && pool.occupied == old(pool.occupied)[k := old(pool.occupied)[k] + 1]
        && pool.occupied[k] <= providers[k].capacity
        && pool.outstanding == old(pool.outstanding)[k := old(pool.outstanding)[k] + 1]
    {
      var got := Choose(s, now);
      if got.None? {
        return None;
      }
      var taken := new Lease(got.value, providers[got.value].inputPrice, providers[got.value].outputPrice);
      return Some(taken);
    }

    method Choose(s: Selection, now: Time) returns (got: Option<nat>)
      requires Valid()
      modifies this
      ensures Valid()
      ensures got.None? ==> pool.occupied == old(pool.occupied) && pool.outstanding == old(pool.outstanding)
      ensures got.Some? ==> got.value < |providers| && Eligible(providers, breaker, old(pool), s, now, got.value)
      ensures got.Some? ==> pool.occupied == old(pool.occupied)[got.value := old(pool.occupied)[got.value] + 1]
      ensures got.Some? ==> pool.outstanding == old(pool.outstanding)[got.value := old(pool.outstanding)[got.value] + 1]
    {
      var eligible := Filter(s, now);
      if eligible == [] {
        return None;
      }
      var ordered := OrderEntries(eligible, s.strategy);
      got := Acquire(ordered, now);
      if got.Some? {
        SameMembers(ordered, eligible, got.value);
        assert got.value < |old(pool.occupied)|;
      }
    }

    method Filter(s: Selection, now: Time) returns (eligible: seq<nat>)
      requires Valid()
      ensures eligible == EligibleBelow(providers, breaker, pool, s, now, |providers|)
    {
      eligible := [];
      for k := 0 to |providers|
        invariant eligible == EligibleBelow(providers, breaker, pool, s, now, k)
      {
        var entry := providers[k];
        if !entry.enabled || !pool.healthy[k] { continue; }
        if s.allowed.Some? && entry.name !in s.allowed.value { continue; }
        if entry.name in s.excluded { continue; }
        if s.model !in entry.models { continue; }
        if s.classification !in entry.classifications { continue; }
        if Breaker.Observed(breaker, pool.circuits[k], now) == Breaker.Open { continue; }
        if pool.occupied[k] >= entry.capacity { continue; }
        eligible := eligible + [k];
      }
    }

    /** Try an ordering against the breakers and semaphores as they are now. */
    method Acquire(ordered: seq<nat>, now: Time) returns (got: Option<nat>)
      requires Valid() && Within(ordered, |providers|)
      modifies this
      ensures Valid()
      ensures (pool, got) == TryEach(providers, breaker, old(pool), ordered, now)
    {
      for i := 0 to |ordered|
        invariant Valid()
        invariant TryEach(providers, breaker, old(pool), ordered, now) == TryEach(providers, breaker, pool, ordered[i..], now)
      {
        var k := ordered[i];
        assert ordered[i..][0] == k && ordered[i..][1..] == ordered[i + 1..];
        var (circuit, ok) := Breaker.Allow(breaker, pool.circuits[k], now);
        if !ok {
          pool := pool.(circuits := pool.circuits[k := circuit]);
          continue;
        }
        if pool.occupied[k] < providers[k].capacity {
          pool := Taken(pool.(circuits := pool.circuits[k := circuit]), k);
          return Some(k);
        }
        pool := pool.(circuits := pool.circuits[k := Breaker.Release(circuit)]);
      }
      return None;
    }

    method OrderEntries(entries: seq<nat>, strategy: Strategy) returns (ordered: seq<nat>)
      requires Valid() && Within(entries, |providers|) && entries != []
      modifies this
      ensures ordered == Order(providers, old(pool), entries, strategy)
      ensures Valid() && pool.occupied == old(pool.occupied) && pool.outstanding == old(pool.outstanding)
      ensures pool == if strategy == WeightedRoundRobin then old(pool).(sequence := (old(pool.sequence) + 1) % TWO_64) else old(pool)
    {
      if strategy != WeightedRoundRobin {
        return StableSort(entries, Keys(providers, pool, strategy));
      }
      var total := 0;
      for i := 0 to |entries|
        invariant total == Prefix(providers, entries, i)
      {
        total := total + providers[entries[i]].weight;
      }
      var position := Remainder(AsInt(pool.sequence), total);
      pool := pool.(sequence := (pool.sequence + 1) % TWO_64);
      var selected := 0;
      ghost var start := position;
      for i := 0 to |entries|
        invariant selected == 0
        invariant Chosen(providers, entries, start, 0) == Chosen(providers, entries, position, i)
      {
        position := position - providers[entries[i]].weight;
        if position < 0 {
          selected := i;
          break;
        }
      }
      return entries[selected..] + entries[..selected];
    }

    /** The conservative prices are read off the whole registry, whatever the current health or load. */
    method QuoteHighest(s: Selection) returns (r: Option<(int64, int64)>)
      ensures r == HighestPrices(providers, s)
    {
      var found, input, output := false, 0, 0;
      for k := 0 to |providers|
        invariant found == HighestPrices(providers[..k], s).Some?
        invariant found ==> HighestPrices(providers[..k], s).value == (input, output)
        invariant !found ==> input == 0 && output == 0
      {
        assert providers[..k + 1][..k] == providers[..k];
        if !Permitted(providers[k], s) { continue; }
        found := true;
        input, output := Max(input, providers[k].inputPrice), Max(output, providers[k].outputPrice);
      }
      assert providers[..|providers|] == providers;
      return if found then Some((input, output)) else None;
    }

    method Success(lease: Lease, millis: int)
      requires Valid() && lease.entry < |providers|
      requires !lease.released ==> pool.occupied[lease.entry] > 0
      modifies this, lease
      ensures Valid() && lease.released
      ensures old(lease.released) ==> pool == old(pool)
      ensures !old(lease.released) ==> Returned(old(pool), pool, lease.entry, Breaker.Success(old(pool).circuits[lease.entry]))
    {
      var first := Release(lease);
      if !first {
        return;
      }
      var k := lease.entry;
      var ewma := if pool.latency[k] == 0 then millis else (2 * millis + 8 * pool.latency[k]) / 10;
      pool := pool.(latency := pool.latency[k := ewma], circuits := pool.circuits[k := Breaker.Success(pool.circuits[k])]);
    }

    method Failure(lease: Lease, retryable: bool, now: Time)
      requires Valid() && lease.entry < |providers|
      requires !lease.released ==> pool.occupied[lease.entry] > 0
      modifies this, lease
      ensures Valid() && lease.released
      ensures old(lease.released) ==> pool == old(pool)
      ensures !old(lease.released) ==> Returned(old(pool), pool, lease.entry,
        if retryable then Breaker.Failure(breaker, old(pool).circuits[lease.entry], now) else Breaker.Release(old(pool).circuits[lease.entry]))
    {
      var first := Release(lease);
      if !first {
        return;
      }
      var k := lease.entry;
      var circuit := if retryable then Breaker.Failure(breaker, pool.circuits[k], now) else Breaker.Release(pool.circuits[k]);
      pool := pool.(circuits := pool.circuits[k := circuit]);
    }

    /** Only the first of any number of reports gives the unit back. */
    method Release(lease: Lease) returns (first: bool)
      requires Valid() && lease.entry < |providers|
      requires !lease.released ==> pool.occupied[lease.entry] > 0
      modifies this, lease
      ensures Valid() && lease.released && first == !old(lease.released)
      ensures pool == if first then Freed(old(pool), lease.entry) else old(pool)
    {
      if lease.released {
        return false;
      }
      lease.released := true;
      pool := Freed(pool, lease.entry);
      return true;
    }
  }

  lemma SameMembers(a: seq<nat>, b: seq<nat>, k: nat)
    requires multiset(a) == multiset(b) && k in a
    ensures k in b
  {
    assert k in multiset(a);
  }

  function Freed(pool: Pool, k: nat): Pool
    requires k < |pool.occupied| == |pool.outstanding| && pool.occupied[k] > 0
  {
    pool.(occupied := pool.occupied[k := pool.occupied[k] - 1], outstanding := pool.outstanding[k := pool.outstanding[k] - 1])
  }

  /** One unit of provider k came back and its breaker moved; every other provider is as before. */
  ghost predicate Returned(before: Pool, after: Pool, k: nat, circuit: Breaker.Circuit)
    requires k < |before.occupied| == |before.outstanding| == |before.circuits| && before.occupied[k] > 0
  {
    && after.occupied == before.occupied[k := before.occupied[k] - 1]
    && after.outstanding == before.outstanding[k := before.outstanding[k] - 1]
    && after.circuits == before.circuits[k := circuit]
    && after.healthy == before.healthy && after.sequence == before.sequence
  }
}
