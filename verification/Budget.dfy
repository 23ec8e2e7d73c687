/** Exact micro-USD cost and overflow-free admission (internal/budget). */
module Budget {
  import opened Base

  const TOKENS_PER_PRICE_UNIT := 1_000_000
  const MAX_INT64 := 0x7fff_ffff_ffff_ffff

  /** A Go int64: every value bound at this type is checked to be in range. */
  type int64 = x: int | -MAX_INT64 - 1 <= x <= MAX_INT64 witness 0

  /**
   * The cost is the least whole number of micro-USD that covers the exact
   * price; it is refused for a negative argument and when it is no int64.
   */
  function CostMicroUSD(prompt: int, completion: int, inputPrice: int, outputPrice: int): (r: Option<int64>)
    ensures r.Some? ==>
      var total := prompt * inputPrice + completion * outputPrice;
      && prompt >= 0 && completion >= 0 && inputPrice >= 0 && outputPrice >= 0
      && 0 <= r.value
      && (r.value - 1) * TOKENS_PER_PRICE_UNIT < total <= r.value * TOKENS_PER_PRICE_UNIT
    ensures r.None? ==>
      || prompt < 0 || completion < 0 || inputPrice < 0 || outputPrice < 0
      || prompt * inputPrice + completion * outputPrice > MAX_INT64 * TOKENS_PER_PRICE_UNIT
  {
    if prompt < 0 || completion < 0 || inputPrice < 0 || outputPrice < 0 then None else
      ProductNonNegative(prompt, inputPrice);
      ProductNonNegative(completion, outputPrice);
      var total := prompt * inputPrice + completion * outputPrice;
      var quotient := total / TOKENS_PER_PRICE_UNIT;
      var remainder := total % TOKENS_PER_PRICE_UNIT;
      var rounded := if remainder > 0 then quotient + 1 else quotient;
      if rounded > MAX_INT64 then None else Some(rounded)
  }

  lemma ProductNonNegative(a: int, b: int)
    requires a >= 0 && b >= 0
    ensures a * b >= 0
  {
  }

  lemma ProductMonotone(a: int, b: int, c: int, d: int)
    requires 0 <= a <= c && 0 <= b <= d
    ensures a * b <= c * d
  {
    assert a * b <= a * d;
    assert a * d <= c * d;
  }

  /** Fewer tokens at lower prices never cost more, whatever the rounding does. */
  lemma CostMonotone(prompt: int, completion: int, inputPrice: int, outputPrice: int,
                     prompt': int, completion': int, inputPrice': int, outputPrice': int)
    requires 0 <= prompt <= prompt' && 0 <= completion <= completion'
    requires 0 <= inputPrice <= inputPrice' && 0 <= outputPrice <= outputPrice'
    requires CostMicroUSD(prompt', completion', inputPrice', outputPrice').Some?
    ensures CostMicroUSD(prompt, completion, inputPrice, outputPrice).Some?
    ensures CostMicroUSD(prompt, completion, inputPrice, outputPrice).value
            <= CostMicroUSD(prompt', completion', inputPrice', outputPrice').value
  {
    ProductMonotone(prompt, inputPrice, prompt', inputPrice');
    ProductMonotone(completion, outputPrice, completion', outputPrice');
  }

  datatype Admission = Admitted | OverLimit | Negative

  /**
   * Admission is decided without an intermediate value that leaves int64, and
   * agrees with the sum in unbounded arithmetic. A zero limit admits everything.
   */
  function CanReserve(limit: int64, committed: int64, active: int64, requested: int64): (r: Admission)
    ensures r == Admitted <==>
      limit == 0 || (limit > 0 && committed >= 0 && active >= 0 && requested >= 0 && committed + active + requested <= limit)
    ensures r == Negative <==> limit != 0 && (limit < 0 || committed < 0 || active < 0 || requested < 0)
  {
    if limit == 0 then Admitted
    else if limit < 0 || committed < 0 || active < 0 || requested < 0 then Negative
    else if requested > limit then OverLimit
    else
      var room: int64 := limit - requested;
      if committed > room then OverLimit
      else
        var left: int64 := room - committed;
        if active > left then OverLimit else Admitted
  }

  /** Two's-complement wrap-around of a Go int64 sum. */
  function Wrap(x: int): (w: int64)
    ensures -MAX_INT64 - 1 <= x <= MAX_INT64 ==> w == x
  {
    (x + MAX_INT64 + 1) % (2 * MAX_INT64 + 2) - MAX_INT64 - 1
  }

  /** Wrapping after every addition is the same as wrapping once at the end. */
  lemma WrapAdd(a: int, b: int)
    ensures Wrap(Wrap(a) + b) == Wrap(a + b)
  {
    var n := 2 * MAX_INT64 + 2;
    var q := (a + MAX_INT64 + 1) / n;
    assert Wrap(a) == a - q * n;
    ModShift(a + b + MAX_INT64 + 1, n, q);
  }

  lemma ModShift(x: int, n: int, q: int)
    requires n > 0
    ensures (x - q * n) % n == x % n
  {
    var k, r := x / n, x % n;
    Distribute(k, q, n);
    ModUnique(x - q * n, n, k - q, r);
  }

  lemma ModUnique(x: int, n: int, k: int, r: int)
    requires n > 0 && 0 <= r < n && x == k * n + r
    ensures x % n == r
  {
    var k', r' := x / n, x % n;
    Distribute(k, k', n);
    if k > k' {
      ProductMonotone(1, n, k - k', n);
    } else if k < k' {
      Distribute(k', k, n);
      ProductMonotone(1, n, k' - k, n);
    }
  }

  lemma Distribute(a: int, b: int, n: int)
    ensures (a - b) * n == a * n - b * n
  {
  }
}
