/** Timed counters (internal/ratelimit/redis.go): the two scripts, and what they guarantee over whole runs. */
module RateLimitSpec {
  import opened Base
  import opened Request

  /** The clock, in milliseconds. */
  const SECOND: Time := 1000
  const MINUTE: Time := 60 * SECOND

  datatype Limits = Limits(requests: int, tokens: int, concurrent: int)

  datatype Key = Requests(bucket: string, window: int) | Tokens(bucket: string, window: int) | Concurrent(bucket: string)

  datatype Cell = Cell(value: int, expires: Time)

  type Cells = map<Key, Cell>

  /** A key that is missing or has expired reads as zero. */
  function Read(cells: Cells, key: Key, now: Time): int {
    if key in cells && now < cells[key].expires then cells[key].value else 0
  }

  /** Increment, then set the time to live; a time to live that is not positive deletes the key. */
  function Bump(cells: Cells, key: Key, amount: int, now: Time, seconds: int): Cells {
    if seconds <= 0 then cells - {key} else cells[key := Cell(Read(cells, key, now) + amount, now + seconds * SECOND)]
  }

  datatype Verdict = Allowed | RequestsPerMinute | TokensPerMinute | MaximumConcurrency | Invalid

  function Window(now: Time): int {
    now / MINUTE
  }

  /** The admission script: all three counters are checked before any of them is written. */
  function Allow(cells: Cells, bucket: string, limits: Limits, tokens: int, ttl: int, now: Time): (r: (Cells, Verdict)) {
    var requestsKey, tokensKey, concurrentKey := Requests(bucket, Window(now)), Tokens(bucket, Window(now)), Concurrent(bucket);
    if |bucket| == 0 || limits.requests <= 0 || limits.tokens <= 0 || limits.concurrent <= 0 || tokens < 0 then (cells, Invalid)
    else if Read(cells, requestsKey, now) + 1 > limits.requests then (cells, RequestsPerMinute)
    else if Read(cells, tokensKey, now) + tokens > limits.tokens then (cells, TokensPerMinute)
    else if Read(cells, concurrentKey, now) + 1 > limits.concurrent then (cells, MaximumConcurrency)
    else
      (Bump(Bump(Bump(cells, requestsKey, 1, now, 60), tokensKey, tokens, now, 60), concurrentKey, 1, now, ttl), Allowed)
  }

  /** The release script. */
  function Finish(cells: Cells, key: Key, now: Time): Cells {
    var value := Read(cells, key, now);
    if value <= 1 then cells - {key} else cells[key := cells[key].(value := value - 1)]
  }
}

module RateLimitStore {
  import opened Base
  import opened Request
  import opened RateLimitSpec

  class Redis {
    var cells: Cells

    constructor ()
      ensures cells == map[]
    {
      cells := map[];
    }

    method Get(key: Key, now: Time) returns (value: int)
      ensures value == Read(cells, key, now)
    {
      value := if key in cells && now < cells[key].expires then cells[key].value else 0;
    }

    method IncrBy(key: Key, amount: int, now: Time, seconds: int)
      modifies this
      ensures cells == Bump(old(cells), key, amount, now, seconds)
    {
      var value := Get(key, now);
      if seconds <= 0 {
        cells := cells - {key};
      } else {
        cells := cells[key := Cell(value + amount, now + seconds * SECOND)];
      }
    }
  }

  /** One concurrency slot; only the first release runs the script. */
  class Permit {
    const client: Redis
    const key: Key
    var released: bool

    constructor (client: Redis, key: Key)
      ensures this.client == client && this.key == key && !released
    {
      this.client, this.key, released := client, key, false;
    }

    /** `reached` tells whether the script ran; the permit counts as released either way. */
    method Release(now: Time, reached: bool)
      modifies this, client
      ensures released
      ensures client.cells == if old(released) || !reached then old(client.cells) else Finish(old(client.cells), key, now)
    {
      if released {
        return;
      }
      released := true;
      if reached {
        var value := client.Get(key, now);
        if value <= 1 {
          client.cells := client.cells - {key};
        } else {
          client.cells := client.cells[key := client.cells[key].(value := value - 1)];
        }
      }
    }
  }

  class Limiter {
    const client: Redis

    constructor (client: Redis)
      ensures this.client == client
    {
      this.client := client;
    }

    method TryAllow(bucket: string, limits: Limits, tokens: int, ttl: int, now: Time) returns (verdict: Verdict, permit: Permit?)
      modifies client
      ensures (client.cells, verdict) == Allow(old(client.cells), bucket, limits, tokens, ttl, now)
      ensures permit != null <==> verdict == Allowed
      ensures permit != null ==> fresh(permit) && permit.client == client && permit.key == Concurrent(bucket) && !permit.released
    {
      if |bucket| == 0 || limits.requests <= 0 || limits.tokens <= 0 || limits.concurrent <= 0 || tokens < 0 {
        return Invalid, null;
      }
      var requestsKey, tokensKey, concurrentKey := Requests(bucket, now / MINUTE), Tokens(bucket, now / MINUTE), Concurrent(bucket);
      var requests := client.Get(requestsKey, now);
      var used := client.Get(tokensKey, now);
      var concurrent := client.Get(concurrentKey, now);
      if requests + 1 > limits.requests {
        return RequestsPerMinute, null;
      }
      if used + tokens > limits.tokens {
        return TokensPerMinute, null;
      }
      if concurrent + 1 > limits.concurrent {
        return MaximumConcurrency, null;
      }
      client.IncrBy(requestsKey, 1, now, 60);
      client.IncrBy(tokensKey, tokens, now, 60);
      client.IncrBy(concurrentKey, 1, now, ttl);
      permit := new Permit(client, concurrentKey);
      return Allowed, permit;
    }
  }
}

/** Admissions, releases, lost releases and the passing of time, in any order, over any number of buckets. */
module RateLimitRuns {
  import opened Base
  import opened Request
  import opened RateLimitSpec

  datatype Grant = Grant(bucket: string, at: Time, tokens: int)

  /** The counters, every grant ever made, and the grants whose request is still executing. */
  datatype State = State(cells: Cells, now: Time, grants: seq<Grant>, open: set<nat>)

  /** A request that ends may fail to run the release script. */
  datatype Event = Wait(until: Time) | Admit(bucket: string, tokens: int) | End(grant: nat, reached: bool)

  datatype Policy = Policy(limits: string -> Limits, ttl: int)

  function Next(p: Policy, s: State, e: Event): State {
    match e
    case Wait(until) => s.(now := if until > s.now then until else s.now)
    case Admit(bucket, tokens) =>
      var (cells, verdict) := Allow(s.cells, bucket, p.limits(bucket), tokens, p.ttl, s.now);
      if verdict != Allowed then s
      else State(cells, s.now, s.grants + [Grant(bucket, s.now, tokens)], s.open + {|s.grants|})
    case End(grant, reached) =>
      if grant >= |s.grants| || grant !in s.open then s
      else s.(cells := if reached then Finish(s.cells, Concurrent(s.grants[grant].bucket), s.now) else s.cells, open := s.open - {grant})
  }

  function After(p: Policy, start: Time, events: seq<Event>): State {
    if events == [] then State(map[], start, [], {}) else Next(p, After(p, start, events[..|events| - 1]), events[|events| - 1])
  }

  // Windows

  function InSpan(g: Grant, bucket: string, from: Time, until: Time): bool {
    g.bucket == bucket && from <= g.at < until
  }

  /** Requests admitted to a bucket in a span of time. */
  function Count(grants: seq<Grant>, bucket: string, from: Time, until: Time): nat {
    if grants == [] then 0 else
      Count(grants[..|grants| - 1], bucket, from, until) + if InSpan(grants[|grants| - 1], bucket, from, until) then 1 else 0
  }

  /** Tokens admitted to a bucket in a span of time. */
  function Volume(grants: seq<Grant>, bucket: string, from: Time, until: Time): int {
    if grants == [] then 0 else
      Volume(grants[..|grants| - 1], bucket, from, until)
        + if InSpan(grants[|grants| - 1], bucket, from, until) then grants[|grants| - 1].tokens else 0
  }

  function InWindow(grants: seq<Grant>, bucket: string, w: int): nat {
    Count(grants, bucket, w * MINUTE, (w + 1) * MINUTE)
  }

  function VolumeIn(grants: seq<Grant>, bucket: string, w: int): int {
    Volume(grants, bucket, w * MINUTE, (w + 1) * MINUTE)
  }

  /** A window's counter outlives its window and holds the exact total; a counter that is missing stands for nothing. */
  ghost predicate CounterFits(cells: Cells, key: Key, total: int, w: int) {
    if key in cells then cells[key].value == total && cells[key].expires >= (w + 1) * MINUTE else total == 0
  }

  ghost predicate WindowFits(p: Policy, s: State, bucket: string, w: int) {
    && CounterFits(s.cells, Requests(bucket, w), InWindow(s.grants, bucket, w), w)
    && CounterFits(s.cells, Tokens(bucket, w), VolumeIn(s.grants, bucket, w), w)
    && (InWindow(s.grants, bucket, w) > 0 ==>
          InWindow(s.grants, bucket, w) <= p.limits(bucket).requests && VolumeIn(s.grants, bucket, w) <= p.limits(bucket).tokens)
    && (InWindow(s.grants, bucket, w) == 0 ==> VolumeIn(s.grants, bucket, w) == 0)
  }

  lemma CountAppend(grants: seq<Grant>, g: Grant, bucket: string, from: Time, until: Time)
    ensures Count(grants + [g], bucket, from, until) == Count(grants, bucket, from, until) + if InSpan(g, bucket, from, until) then 1 else 0
    ensures Volume(grants + [g], bucket, from, until) == Volume(grants, bucket, from, until) + if InSpan(g, bucket, from, until) then g.tokens else 0
  {
    assert (grants + [g])[..|grants|] == grants;
  }

  lemma WindowSpan(now: Time, w: int)
    ensures Window(now) == w <==> w * MINUTE <= now < (w + 1) * MINUTE
  {
  }

  /** A counter as one key was found, or with the amount added and a minute to live. */
  ghost predicate Counts(cells: Cells, cells': Cells, key: Key, added: Option<int>, now: Time) {
    match added
    case None => (key in cells' <==> key in cells) && (key in cells ==> cells'[key] == cells[key])
    case Some(amount) => key in cells' && cells'[key] == Cell(Read(cells, key, now) + amount, now + MINUTE)
  }

  /** An admission adds one request and its tokens to its own window, within the limits; every other window stays. */
  lemma AllowOnWindows(cells: Cells, bucket: string, limits: Limits, tokens: int, ttl: int, now: Time, b: string, w: int)
    requires Allow(cells, bucket, limits, tokens, ttl, now).1 == Allowed
    ensures var cells', own := Allow(cells, bucket, limits, tokens, ttl, now).0, b == bucket && w == Window(now);
      && Counts(cells, cells', Requests(b, w), if own then Some(1) else None, now)
      && Counts(cells, cells', Tokens(b, w), if own then Some(tokens) else None, now)
    ensures Read(cells, Requests(bucket, Window(now)), now) + 1 <= limits.requests
    ensures Read(cells, Tokens(bucket, Window(now)), now) + tokens <= limits.tokens
  {
  }

  /** A counter that is written in its own window is found as it was left, and stays exact. */
  lemma CounterGrows(cells: Cells, cells': Cells, key: Key, total: int, amount: int, now: Time, w: int)
    requires CounterFits(cells, key, total, w) && w * MINUTE <= now < (w + 1) * MINUTE && Counts(cells, cells', key, Some(amount), now)
    ensures Read(cells, key, now) == total && CounterFits(cells', key, total + amount, w)
  {
  }

  lemma AdmitKeepsWindow(p: Policy, s: State, bucket: string, tokens: int, b: string, w: int)
    requires WindowFits(p, s, b, w)
    ensures WindowFits(p, Next(p, s, Admit(bucket, tokens)), b, w)
  {
    var (cells, verdict) := Allow(s.cells, bucket, p.limits(bucket), tokens, p.ttl, s.now);
    if verdict == Allowed {
      CountAppend(s.grants, Grant(bucket, s.now, tokens), b, w * MINUTE, (w + 1) * MINUTE);
      WindowSpan(s.now, w);
      AllowOnWindows(s.cells, bucket, p.limits(bucket), tokens, p.ttl, s.now, b, w);
      GrantedWindowFits(p, s, cells, bucket, tokens, b, w);
    }
  }

  lemma GrantedWindowFits(p: Policy, s: State, cells: Cells, bucket: string, tokens: int, b: string, w: int)
    requires WindowFits(p, s, b, w)
    requires var own, grants := b == bucket && w * MINUTE <= s.now < (w + 1) * MINUTE, s.grants + [Grant(bucket, s.now, tokens)];
      && InWindow(grants, b, w) == InWindow(s.grants, b, w) + (if own then 1 else 0)
      && VolumeIn(grants, b, w) == VolumeIn(s.grants, b, w) + (if own then tokens else 0)
      && Counts(s.cells, cells, Requests(b, w), if own then Some(1) else None, s.now)
      && Counts(s.cells, cells, Tokens(b, w), if own then Some(tokens) else None, s.now)
      && (own ==> Read(s.cells, Requests(b, w), s.now) + 1 <= p.limits(b).requests && Read(s.cells, Tokens(b, w), s.now) + tokens <= p.limits(b).tokens)
    ensures WindowFits(p, State(cells, s.now, s.grants + [Grant(bucket, s.now, tokens)], s.open + {|s.grants|}), b, w)
  {
    if b == bucket && w * MINUTE <= s.now < (w + 1) * MINUTE {
      CounterGrows(s.cells, cells, Requests(b, w), InWindow(s.grants, b, w), 1, s.now, w);
      CounterGrows(s.cells, cells, Tokens(b, w), VolumeIn(s.grants, b, w), tokens, s.now, w);
    }
  }

  lemma EventKeepsWindow(p: Policy, s: State, e: Event, b: string, w: int)
    requires WindowFits(p, s, b, w)
    ensures WindowFits(p, Next(p, s, e), b, w)
  {
    if e.Admit? { AdmitKeepsWindow(p, s, e.bucket, e.tokens, b, w); }
  }

  lemma {:induction false} WindowsAlwaysFit(p: Policy, start: Time, events: seq<Event>, bucket: string, w: int)
    ensures WindowFits(p, After(p, start, events), bucket, w)
  {
    if events != [] {
      WindowsAlwaysFit(p, start, events[..|events| - 1], bucket, w);
      EventKeepsWindow(p, After(p, start, events[..|events| - 1]), events[|events| - 1], bucket, w);
    }
  }

  function AtLeastZero(limit: int): int {
    if limit < 0 then 0 else limit
  }

  /** Every minute window stays within the request limit and the token limit of its bucket; a negative limit admits nothing. */
  lemma MinuteWindowIsBounded(p: Policy, start: Time, events: seq<Event>, bucket: string, w: int)
    ensures InWindow(After(p, start, events).grants, bucket, w) <= AtLeastZero(p.limits(bucket).requests)
    ensures VolumeIn(After(p, start, events).grants, bucket, w) <= AtLeastZero(p.limits(bucket).tokens)
  {
    WindowsAlwaysFit(p, start, events, bucket, w);
  }

  lemma {:induction false} SpanWithinWindows(grants: seq<Grant>, bucket: string, from: Time)
    ensures Count(grants, bucket, from, from + MINUTE) <= InWindow(grants, bucket, Window(from)) + InWindow(grants, bucket, Window(from) + 1)
  {
    if grants != [] {
      SpanWithinWindows(grants[..|grants| - 1], bucket, from);
    }
  }

  /** However it lies across the windows, no span of sixty seconds admits more than twice the request limit. */
  lemma AnyMinuteIsBounded(p: Policy, start: Time, events: seq<Event>, bucket: string, from: Time)
    ensures Count(After(p, start, events).grants, bucket, from, from + MINUTE) <= 2 * AtLeastZero(p.limits(bucket).requests)
  {
    SpanWithinWindows(After(p, start, events).grants, bucket, from);
    MinuteWindowIsBounded(p, start, events, bucket, Window(from));
    MinuteWindowIsBounded(p, start, events, bucket, Window(from) + 1);
  }

  // Concurrency

  function Executing(s: State, bucket: string): set<nat> {
    set g | g in s.open && g < |s.grants| && s.grants[g].bucket == bucket
  }

  /** No executing request has held its permit for the whole time to live. */
  predicate Prompt(p: Policy, s: State) {
    forall g :: g in s.open && g < |s.grants| ==> s.now < s.grants[g].at + p.ttl * SECOND
  }

  /** The counter covers everything that executes, and outlives every permit's time to live. */
  ghost predicate SlotsFit(p: Policy, s: State, bucket: string) {
    && (forall g :: g in s.open ==> g < |s.grants|)
    && (Concurrent(bucket) in s.cells ==> s.cells[Concurrent(bucket)].value >= 1)
    && (Executing(s, bucket) != {} ==>
          && Concurrent(bucket) in s.cells && s.cells[Concurrent(bucket)].value >= |Executing(s, bucket)|
          && |Executing(s, bucket)| <= p.limits(bucket).concurrent)
    && (forall g :: g in Executing(s, bucket) ==>
          Concurrent(bucket) in s.cells && s.cells[Concurrent(bucket)].expires >= s.grants[g].at + p.ttl * SECOND)
    && (forall g :: g in Executing(s, bucket) ==> s.grants[g].at <= s.now)
  }

  /** An admission raises its own slot counter to at most the maximum and renews its time to live; other buckets' stay. */
  lemma AllowOnSlots(cells: Cells, bucket: string, limits: Limits, tokens: int, ttl: int, now: Time, b: string)
    requires ttl > 0 && Allow(cells, bucket, limits, tokens, ttl, now).1 == Allowed
    ensures var cells', key := Allow(cells, bucket, limits, tokens, ttl, now).0, Concurrent(b);
      if b == bucket
      then key in cells' && cells'[key] == Cell(Read(cells, key, now) + 1, now + ttl * SECOND) && cells'[key].value <= limits.concurrent
      else (key in cells' <==> key in cells) && (key in cells ==> cells'[key] == cells[key])
  {
  }

  lemma AdmitKeepsSlots(p: Policy, s: State, bucket: string, tokens: int, b: string)
    requires p.ttl > 0 && Prompt(p, s) && SlotsFit(p, s, b)
    ensures SlotsFit(p, Next(p, s, Admit(bucket, tokens)), b)
  {
    var (cells, verdict) := Allow(s.cells, bucket, p.limits(bucket), tokens, p.ttl, s.now);
    if verdict == Allowed {
      AllowOnSlots(s.cells, bucket, p.limits(bucket), tokens, p.ttl, s.now, b);
      GrantedSlotsFit(p, s, cells, bucket, tokens, b);
    }
  }

  /** Everything executing is still covered by the counter, so the counter that was read had not expired. */
  lemma SlotsAreRead(p: Policy, s: State, b: string)
    requires p.ttl > 0 && Prompt(p, s) && SlotsFit(p, s, b)
    ensures |Executing(s, b)| <= Read(s.cells, Concurrent(b), s.now)
  {
    if g :| g in Executing(s, b) {
      assert s.now < s.cells[Concurrent(b)].expires;
    }
  }

  lemma ExecutingAfterGrant(s: State, cells: Cells, bucket: string, tokens: int, b: string)
    requires forall g :: g in s.open ==> g < |s.grants|
    ensures var s' := State(cells, s.now, s.grants + [Grant(bucket, s.now, tokens)], s.open + {|s.grants|});
      Executing(s', b) == if b == bucket then Executing(s, b) + {|s.grants|} else Executing(s, b)
  {
    var s' := State(cells, s.now, s.grants + [Grant(bucket, s.now, tokens)], s.open + {|s.grants|});
    forall g: nat ensures g in Executing(s', b) <==> g in Executing(s, b) || (b == bucket && g == |s.grants|) {
    }
  }

  lemma GrantedSlotsFit(p: Policy, s: State, cells: Cells, bucket: string, tokens: int, b: string)
    requires p.ttl > 0 && Prompt(p, s) && SlotsFit(p, s, b)
    requires var key := Concurrent(b);
      if b == bucket
      then key in cells && cells[key] == Cell(Read(s.cells, key, s.now) + 1, s.now + p.ttl * SECOND) && cells[key].value <= p.limits(b).concurrent
      else (key in cells <==> key in s.cells) && (key in cells ==> cells[key] == s.cells[key])
    ensures SlotsFit(p, State(cells, s.now, s.grants + [Grant(bucket, s.now, tokens)], s.open + {|s.grants|}), b)
  {
    SlotsAreRead(p, s, b);
    ExecutingAfterGrant(s, cells, bucket, tokens, b);
  }

  /** A release lowers its own slot counter by one, or removes it. */
  lemma EndKeepsSlots(p: Policy, s: State, grant: nat, reached: bool, b: string)
    requires p.ttl > 0 && Prompt(p, s) && SlotsFit(p, s, b)
    ensures SlotsFit(p, Next(p, s, End(grant, reached)), b)
  {
    if grant in s.open {
      var s' := s.(open := s.open - {grant});
      if s.grants[grant].bucket == b {
        assert grant in Executing(s, b) && Executing(s', b) == Executing(s, b) - {grant};
        assert Read(s.cells, Concurrent(b), s.now) == s.cells[Concurrent(b)].value;
      } else {
        assert Executing(s', b) == Executing(s, b);
      }
      assert Executing(Next(p, s, End(grant, reached)), b) == Executing(s', b);
    }
  }

  lemma EventKeepsSlots(p: Policy, s: State, e: Event, b: string)
    requires p.ttl > 0 && Prompt(p, s) && SlotsFit(p, s, b)
    ensures SlotsFit(p, Next(p, s, e), b)
  {
    match e
    case Wait(_) => assert Executing(Next(p, s, e), b) == Executing(s, b);
    case Admit(bucket, tokens) => AdmitKeepsSlots(p, s, bucket, tokens, b);
    case End(grant, reached) => EndKeepsSlots(p, s, grant, reached, b);
  }

  lemma {:induction false} SlotsAlwaysFit(p: Policy, start: Time, events: seq<Event>, bucket: string)
    requires p.ttl > 0 && forall k :: 0 <= k < |events| ==> Prompt(p, After(p, start, events[..k]))
    ensures SlotsFit(p, After(p, start, events), bucket)
  {
    if events != [] {
      var init := events[..|events| - 1];
      forall k | 0 <= k < |init| ensures Prompt(p, After(p, start, init[..k])) {
        assert init[..k] == events[..k];
      }
      SlotsAlwaysFit(p, start, init, bucket);
      EventKeepsSlots(p, After(p, start, init), events[|events| - 1], bucket);
    }
  }

  /** While every permit is held for less than its time to live, no bucket executes more than its maximum, lost releases or not. */
  lemma ConcurrencyIsBounded(p: Policy, start: Time, events: seq<Event>, bucket: string)
    requires p.ttl > 0 && p.limits(bucket).concurrent >= 0
    requires forall k :: 0 <= k < |events| ==> Prompt(p, After(p, start, events[..k]))
    ensures |Executing(After(p, start, events), bucket)| <= p.limits(bucket).concurrent
  {
    SlotsAlwaysFit(p, start, events, bucket);
  }

  /** The bucket after its one slot was taken at time zero, at some later time. */
  function Taken(bucket: string, ttl: int, now: Time): State {
    State(map[Requests(bucket, 0) := Cell(1, MINUTE), Tokens(bucket, 0) := Cell(0, MINUTE), Concurrent(bucket) := Cell(1, ttl * SECOND)],
          now, [Grant(bucket, 0, 0)], {0})
  }

  predicate OneSlot(p: Policy, bucket: string) {
    && |bucket| > 0 && p.ttl > 0 && p.limits(bucket).concurrent == 1
    && p.limits(bucket).requests > 1 && p.limits(bucket).tokens > 0
  }

  lemma SlotIsTaken(p: Policy, bucket: string)
    requires OneSlot(p, bucket)
    ensures Next(p, State(map[], 0, [], {}), Admit(bucket, 0)) == Taken(bucket, p.ttl, 0)
  {
  }

  lemma SlotIsGivenAway(p: Policy, bucket: string)
    requires OneSlot(p, bucket)
    ensures |Executing(Next(p, Taken(bucket, p.ttl, p.ttl * SECOND), Admit(bucket, 0)), bucket)| == 2
  {
    var late := Taken(bucket, p.ttl, p.ttl * SECOND);
    assert Read(late.cells, Concurrent(bucket), late.now) == 0;
    assert Read(late.cells, Requests(bucket, Window(late.now)), late.now) <= 1;
    assert Read(late.cells, Tokens(bucket, Window(late.now)), late.now) == 0;
    assert Executing(Next(p, late, Admit(bucket, 0)), bucket) == {0, 1};
  }

  /** The condition is needed: once a permit is held for its whole time to live, its slot is given away. */
  lemma SlowHolderIsForgotten(p: Policy, bucket: string)
    requires OneSlot(p, bucket)
    ensures |Executing(After(p, 0, [Admit(bucket, 0), Wait(p.ttl * SECOND), Admit(bucket, 0)]), bucket)| == 2
  {
    var run := [Admit(bucket, 0), Wait(p.ttl * SECOND), Admit(bucket, 0)];
    assert run[..2] == [Admit(bucket, 0), Wait(p.ttl * SECOND)];
    assert run[..2][..1] == [Admit(bucket, 0)];
    SlotIsTaken(p, bucket);
    assert After(p, 0, [Admit(bucket, 0)]) == Taken(bucket, p.ttl, 0);
    assert After(p, 0, run[..2]) == Taken(bucket, p.ttl, p.ttl * SECOND);
    SlotIsGivenAway(p, bucket);
  }
}

/** `admit` and `releasePermits` of the gateway (internal/gateway/service.go): one permit a bucket, or none. */
module Admission {
  import opened Base
  import opened RateLimitRuns
  import opened Request
  import opened RateLimitSpec
  import opened RateLimitStore

  const PERMIT_TTL := 120

  /** The counters after the first `n` buckets were granted, each at its own time. */
  function Granted(cells: Cells, buckets: seq<string>, limits: Limits, tokens: int, times: seq<Time>, n: nat): Cells
    requires n <= |buckets| <= |times|
  {
    if n == 0 then cells
    else Allow(Granted(cells, buckets, limits, tokens, times, n - 1), buckets[n - 1], limits, tokens, PERMIT_TTL, times[n - 1]).0
  }

  predicate GrantsAt(cells: Cells, buckets: seq<string>, limits: Limits, tokens: int, times: seq<Time>, k: nat)
    requires k < |buckets| <= |times|
  {
    Allow(Granted(cells, buckets, limits, tokens, times, k), buckets[k], limits, tokens, PERMIT_TTL, times[k]).1 == Allowed
  }

  /** The first `n` buckets were all granted. */
  predicate GrantsFirst(cells: Cells, buckets: seq<string>, limits: Limits, tokens: int, times: seq<Time>, n: nat)
    requires n <= |buckets| <= |times|
  {
    n == 0 || (GrantsFirst(cells, buckets, limits, tokens, times, n - 1) && GrantsAt(cells, buckets, limits, tokens, times, n - 1))
  }

  /** The counters after the slots of the first `n` buckets were given back. */
  function Returned(cells: Cells, buckets: seq<string>, times: seq<Time>, reached: seq<bool>, n: nat): Cells
    requires n <= |buckets| && n <= |times| && n <= |reached|
  {
    if n == 0 then cells else
      var before := Returned(cells, buckets, times, reached, n - 1);
      if reached[n - 1] then Finish(before, Concurrent(buckets[n - 1]), times[n - 1]) else before
  }

  /** Permits for the buckets, in order, none of them released yet. */
  ghost predicate Fresh(client: Redis, buckets: seq<string>, permits: seq<Permit>)
    reads permits
  {
    && |permits| <= |buckets|
    && (forall k :: 0 <= k < |permits| ==> permits[k].client == client && permits[k].key == Concurrent(buckets[k]) && !permits[k].released)
    && (forall j, k :: 0 <= j < k < |permits| ==> permits[j] != permits[k])
  }

  method ReleasePermits(client: Redis, ghost buckets: seq<string>, permits: seq<Permit>, times: seq<Time>, reached: seq<bool>)
    requires Fresh(client, buckets, permits) && |permits| <= |times| && |permits| <= |reached|
    modifies client, permits
    ensures forall k :: 0 <= k < |permits| ==> permits[k].released
    ensures client.cells == Returned(old(client.cells), buckets, times, reached, |permits|)
  {
    for k := 0 to |permits|
      invariant forall j :: 0 <= j < k ==> permits[j].released
      invariant forall j :: k <= j < |permits| ==> !permits[j].released
      invariant client.cells == Returned(old(client.cells), buckets, times, reached, k)
    {
      permits[k].Release(times[k], reached[k]);
    }
  }

  /** Ask for the next bucket's slot. */
  method TakeOne(limiter: Limiter, buckets: seq<string>, limits: Limits, tokens: int, now: Time, permits: seq<Permit>)
    returns (more: seq<Permit>, ok: bool)
    requires |permits| < |buckets| && Fresh(limiter.client, buckets, permits)
    modifies limiter.client
    ensures var (cells, verdict) := Allow(old(limiter.client.cells), buckets[|permits|], limits, tokens, PERMIT_TTL, now);
      limiter.client.cells == cells && ok == (verdict == Allowed)
    ensures Fresh(limiter.client, buckets, more) && |more| == |permits| + (if ok then 1 else 0)
    ensures forall j :: 0 <= j < |more| ==> if j < |permits| then more[j] == permits[j] else fresh(more[j])
  {
    var verdict, permit := limiter.TryAllow(buckets[|permits|], limits, tokens, PERMIT_TTL, now);
    if verdict != Allowed {
      return permits, false;
    }
    var taken: Permit := permit;
    return permits + [taken], true;
  }

  /** All buckets or nothing: a refusal gives back the slots already taken. */
  method Admit(limiter: Limiter, buckets: seq<string>, limits: Limits, tokens: int, times: seq<Time>, releasing: seq<Time>, reached: seq<bool>)
    returns (permits: seq<Permit>, ok: bool, granted: nat)
    requires |buckets| <= |times| && |buckets| <= |releasing| && |buckets| <= |reached|
    modifies limiter.client
    ensures granted <= |buckets| && (ok <==> granted == |buckets|)
    ensures GrantsFirst(old(limiter.client.cells), buckets, limits, tokens, times, granted)
    ensures ok ==> |permits| == |buckets| && Fresh(limiter.client, buckets, permits) && forall j :: 0 <= j < |permits| ==> fresh(permits[j])
    ensures ok ==> limiter.client.cells == Granted(old(limiter.client.cells), buckets, limits, tokens, times, |buckets|)
    ensures !ok ==> permits == [] && !GrantsAt(old(limiter.client.cells), buckets, limits, tokens, times, granted)
    ensures !ok ==>
      limiter.client.cells == Returned(Granted(old(limiter.client.cells), buckets, limits, tokens, times, granted), buckets, releasing, reached, granted)
  {
    ghost var start := limiter.client.cells;
    permits, ok := [], true;
    while ok && |permits| < |buckets|
      invariant Fresh(limiter.client, buckets, permits) && forall j :: 0 <= j < |permits| ==> fresh(permits[j])
      invariant limiter.client.cells == Granted(start, buckets, limits, tokens, times, |permits|)
      invariant GrantsFirst(start, buckets, limits, tokens, times, |permits|)
      invariant !ok ==> |permits| < |buckets| && !GrantsAt(start, buckets, limits, tokens, times, |permits|)
      decreases |buckets| - |permits|, ok
    {
      permits, ok := TakeOne(limiter, buckets, limits, tokens, times[|permits|], permits);
    }
    granted := |permits|;
    if !ok {
      ReleasePermits(limiter.client, buckets, permits, releasing, reached);
      permits := [];
    }
  }

  /** Giving a slot back in time restores its counter to what it was before the grant. */
  lemma ReturnUndoesSlot(cells: Cells, bucket: string, limits: Limits, tokens: int, ttl: int, at: Time, later: Time)
    requires Allow(cells, bucket, limits, tokens, ttl, at).1 == Allowed
    requires at <= later < at + ttl * SECOND && Read(cells, Concurrent(bucket), at) >= 0
    ensures var granted := Allow(cells, bucket, limits, tokens, ttl, at).0;
      && Read(granted, Concurrent(bucket), later) == Read(cells, Concurrent(bucket), at) + 1
      && Read(Finish(granted, Concurrent(bucket), later), Concurrent(bucket), later) == Read(cells, Concurrent(bucket), at)
  {
  }

  predicate Distinct(buckets: seq<string>) {
    forall j, k :: 0 <= j < k < |buckets| ==> buckets[j] != buckets[k]
  }

  /** After n grants each bucket granted has one slot more and a full time to live; the others are as they were. */
  lemma {:induction false} GrantedSlot(cells: Cells, buckets: seq<string>, limits: Limits, tokens: int, times: seq<Time>, n: nat, k: nat)
    requires n <= |buckets| <= |times| && k < |buckets| && Distinct(buckets) && GrantsFirst(cells, buckets, limits, tokens, times, n)
    ensures var after, key := Granted(cells, buckets, limits, tokens, times, n), Concurrent(buckets[k]);
      if k < n then key in after && after[key] == Cell(Read(cells, key, times[k]) + 1, times[k] + PERMIT_TTL * SECOND)
      else (key in after <==> key in cells) && (key in cells ==> after[key] == cells[key])
  {
    if n > 0 {
      GrantedSlot(cells, buckets, limits, tokens, times, n - 1, k);
      AllowOnSlots(Granted(cells, buckets, limits, tokens, times, n - 1), buckets[n - 1], limits, tokens, PERMIT_TTL, times[n - 1], buckets[k]);
    }
  }

  /** After n returns each bucket released has one slot less, or none. */
  lemma {:induction false} ReturnedSlot(cells: Cells, buckets: seq<string>, times: seq<Time>, reached: seq<bool>, n: nat, k: nat)
    requires n <= |buckets| && n <= |times| && n <= |reached| && k < |buckets| && Distinct(buckets)
    requires forall j :: 0 <= j < n ==> reached[j]
    ensures var after, key := Returned(cells, buckets, times, reached, n), Concurrent(buckets[k]);
      if k >= n then (key in after <==> key in cells) && (key in cells ==> after[key] == cells[key])
      else if Read(cells, key, times[k]) <= 1 then key !in after
      else key in after && key in cells && after[key] == cells[key].(value := cells[key].value - 1)
  {
    if n > 0 { ReturnedSlot(cells, buckets, times, reached, n - 1, k); }
  }

  /** Slots given back in time, by releases that got through, leave every bucket's counter as it was found. */
  lemma StaySettlesSlots(cells: Cells, buckets: seq<string>, limits: Limits, tokens: int, times: seq<Time>, releasing: seq<Time>, reached: seq<bool>, n: nat, k: nat)
    requires k < n <= |buckets| && |buckets| <= |times| && |buckets| <= |releasing| && |buckets| <= |reached| && Distinct(buckets)
    requires GrantsFirst(cells, buckets, limits, tokens, times, n) && forall j :: 0 <= j < n ==> reached[j]
    requires times[k] <= releasing[k] < times[k] + PERMIT_TTL * SECOND && Read(cells, Concurrent(buckets[k]), times[k]) >= 0
    ensures var after := Returned(Granted(cells, buckets, limits, tokens, times, n), buckets, releasing, reached, n);
      Read(after, Concurrent(buckets[k]), releasing[k]) == Read(cells, Concurrent(buckets[k]), times[k])
  {
    GrantedSlot(cells, buckets, limits, tokens, times, n, k);
    ReturnedSlot(Granted(cells, buckets, limits, tokens, times, n), buckets, releasing, reached, n, k);
  }

  /** It does not give back the window's quota: a request refused by its second bucket has used up the first one's. */
  lemma ReturnKeepsQuota(cells: Cells, bucket: string, limits: Limits, tokens: int, ttl: int, at: Time, later: Time)
    requires Allow(cells, bucket, limits, tokens, ttl, at).1 == Allowed && at <= later && Window(later) == Window(at)
    ensures var returned := Finish(Allow(cells, bucket, limits, tokens, ttl, at).0, Concurrent(bucket), later);
      && Read(returned, Requests(bucket, Window(at)), later) == Read(cells, Requests(bucket, Window(at)), at) + 1
      && Read(returned, Tokens(bucket, Window(at)), later) == Read(cells, Tokens(bucket, Window(at)), at) + tokens
  {
  }
}
