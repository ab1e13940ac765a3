/** Exponential backoff in 64-bit nanoseconds, wrap-around included. */
module Backoff {
  const MAX_BACKOFF := 3_600_000_000_000   // one hour
  const SECOND := 1_000_000_000
  const MILLISECOND := 1_000_000
  const TWO63 := 0x8000_0000_0000_0000
  const TWO64 := 0x1_0000_0000_0000_0000

  function Pow2(n: nat): nat {
    if n == 0 then 1 else 2 * Pow2(n - 1)
  }

  /** Two's complement wrap-around of a product. */
  function Wrap(x: int): (r: int)
    ensures -TWO63 <= r < TWO63 && (x - r) % TWO64 == 0
    ensures -TWO63 <= x < TWO63 ==> r == x
  {
    (x + TWO63) % TWO64 - TWO63
  }

  /** time.Duration(math.Pow(2, attempt)): exact up to 2^62; beyond that the conversion is
      out of range and amd64 yields the smallest int64. */
  function Factor(attempt: nat): int {
    if attempt < 63 then Pow2(attempt) else -TWO63
  }

  /** exponentialBackoff.Next */
  function Next(base: int, attempt: nat): int {
    var d := Wrap(base * Factor(attempt));
    if d > MAX_BACKOFF then MAX_BACKOFF else d
  }

  /** Division truncating toward zero. */
  function TruncDiv(a: int, b: int): int
    requires b > 0
  {
    if a >= 0 then a / b else -((-a) / b)
  }

  lemma TruncDivMeans(a: int, b: int)
    requires b > 0
    ensures var r := TruncDiv(a, b);
            if a >= 0 then r * b <= a < (r + 1) * b else (r - 1) * b < a <= r * b
  {
    var x := if a >= 0 then a else -a;
    assert x == (x / b) * b + x % b;
  }

  function Min(a: int, b: int): int {
    if a <= b then a else b
  }

  /** The delay processJob passes to Nack. */
  function BackoffMs(attempt: nat, skipRetry: bool): int {
    if skipRetry then 0 else TruncDiv(Next(SECOND, attempt), MILLISECOND)
  }

  lemma {:induction false} Pow2Monotone(a: nat, b: nat)
    requires a <= b
    ensures 1 <= Pow2(a) <= Pow2(b)
    decreases b
  {
    if a < b { Pow2Monotone(a, b - 1); } else if a > 0 { Pow2Monotone(a - 1, b - 1); }
  }

  lemma {:induction false} Pow2Sum(a: nat, b: nat)
    ensures Pow2(a + b) == Pow2(a) * Pow2(b)
    decreases b
  {
    if b > 0 {
      Pow2Sum(a, b - 1);
      assert Pow2(a + b) == 2 * Pow2(a + (b - 1));
    }
  }

  lemma Pow2Of33()
    ensures Pow2(33) == 8589934592 && Pow2(34) == 17179869184
  {
    assert Pow2(8) == 256;
    Pow2Sum(8, 8);
    Pow2Sum(16, 16);
    assert Pow2(33) == 2 * Pow2(32) && Pow2(34) == 2 * Pow2(33);
  }

  /** Doubling capped at an hour, for every base, as long as the product fits. */
  lemma NextIsCappedDoubling(base: nat, attempt: nat)
    requires attempt < 63 && base * Pow2(attempt) < TWO63
    ensures Next(base, attempt) == Min(base * Pow2(attempt), MAX_BACKOFF)
  {
    ProductFits(base * Pow2(attempt));
    assert base * Factor(attempt) == base * Pow2(attempt);
  }

  lemma ProductFits(x: int)
    requires 0 <= x < TWO63
    ensures Wrap(x) == x
  {}

  predicate SurvivesWrap(attempt: nat) {
    attempt <= 33 || attempt in {37, 41, 42, 45, 47, 50, 51, 53}
  }

  /** The wrapped product of one second, attempt by attempt, once it no longer fits. */
  function Wrapped(attempt: nat): int {
    match attempt
    case 34 => -1266874889709551616 case 35 => -2533749779419103232 case 36 => -5067499558838206464
    case 37 => 8311744956033138688 case 38 => -1823254161643274240 case 39 => -3646508323286548480
    case 40 => -7293016646573096960 case 41 => 3860710780563357696 case 42 => 7721421561126715392
    case 43 => -3003900951456120832 case 44 => -6007801902912241664 case 45 => 6431140267885068288
    case 46 => -5584463537939415040 case 47 => 7277816997830721536 case 48 => -3891110078048108544
    case 49 => -7782220156096217088 case 50 => 2882303761517117440 case 51 => 5764607523034234880
    case 52 => -6917529027641081856 case 53 => 4611686018427387904 case 54 => -9223372036854775808
    case _ => 0
  }

  /** Doubling a product doubles its wrapped value, wrapped again. */
  lemma WrapDoubles(x: int)
    ensures Wrap(2 * x) == Wrap(2 * Wrap(x))
  {
    var k := (x - Wrap(x)) / TWO64;
    assert x == Wrap(x) + k * TWO64;
    WrapShift(2 * Wrap(x), 2 * k);
  }

  lemma WrapShift(x: int, k: int)
    ensures Wrap(x + k * TWO64) == Wrap(x)
  {
    ModShift(x + TWO63, k);
  }

  lemma {:induction false} ModShift(x: int, k: int)
    ensures (x + k * TWO64) % TWO64 == x % TWO64
    decreases if k < 0 then -k else k
  {
    if k > 0 {
      ModShift(x + TWO64, k - 1);
      assert (x + TWO64) % TWO64 == x % TWO64;
      assert x + k * TWO64 == (x + TWO64) + (k - 1) * TWO64;
    } else if k < 0 {
      ModShift(x - TWO64, k + 1);
      assert (x - TWO64) % TWO64 == x % TWO64;
      assert x + k * TWO64 == (x - TWO64) + (k + 1) * TWO64;
    }
  }

  lemma Double(n: nat, v: int)
    requires Wrap(SECOND * Pow2(n)) == v
    ensures Wrap(SECOND * Pow2(n + 1)) == Wrap(2 * v)
  {
    WrapDoubles(SECOND * Pow2(n));
    assert SECOND * Pow2(n + 1) == 2 * (SECOND * Pow2(n));
  }

  /** Each entry of the table is its predecessor doubled and wrapped. */
  lemma TableDoubles(n: nat)
    requires n >= 35
    ensures Wrap(2 * Wrapped(n - 1)) == Wrapped(n)
  {
    if n <= 41 {
      TableDoublesTo41(n);
    } else if n <= 48 {
      TableDoublesTo48(n);
    } else {
      TableDoublesFrom49(n);
    }
  }

  lemma TableDoublesTo41(n: nat)
    requires 35 <= n <= 41
    ensures Wrap(2 * Wrapped(n - 1)) == Wrapped(n)
  {}

  lemma TableDoublesTo48(n: nat)
    requires 42 <= n <= 48
    ensures Wrap(2 * Wrapped(n - 1)) == Wrapped(n)
  {}

  lemma TableDoublesFrom49(n: nat)
    requires n >= 49
    ensures Wrap(2 * Wrapped(n - 1)) == Wrapped(n)
  {}

  lemma {:induction false} WrappedIs(n: nat)
    requires n >= 34
    ensures Wrap(SECOND * Pow2(n)) == Wrapped(n)
  {
    if n == 34 {
      Pow2Of33();
    } else {
      WrappedIs(n - 1);
      Double(n - 1, Wrapped(n - 1));
      TableDoubles(n);
    }
  }

  lemma SmallExact(attempt: nat)
    requires attempt <= 33
    ensures Next(SECOND, attempt) == Min(SECOND * Pow2(attempt), MAX_BACKOFF)
  {
    Pow2Monotone(attempt, 33);
    Pow2Of33();
    NextIsCappedDoubling(SECOND, attempt);
  }

  lemma TableSurvives(n: nat)
    requires n >= 34
    ensures Wrapped(n) >= MAX_BACKOFF <==> SurvivesWrap(n)
  {}

  lemma LargeExact(attempt: nat, product: int, d: int)
    requires attempt >= 34 && product >= MAX_BACKOFF && d == Wrapped(attempt)
    ensures (if d > MAX_BACKOFF then MAX_BACKOFF else d) == Min(product, MAX_BACKOFF) <==> SurvivesWrap(attempt)
  {
    TableSurvives(attempt);
  }

  lemma WrapOfFactor(attempt: nat)
    requires attempt >= 34
    ensures Wrap(SECOND * Factor(attempt)) == Wrapped(attempt)
  {
    if attempt < 63 { WrappedIs(attempt); }
  }

  /** Main result: with a one-second base the delay is the capped doubling exactly for
      these attempts; from 34 on the product wraps and most delays come out negative or zero. */
  lemma OneSecondExact(attempt: nat)
    ensures Next(SECOND, attempt) == Min(SECOND * Pow2(attempt), MAX_BACKOFF) <==> SurvivesWrap(attempt)
  {
    if attempt <= 33 {
      SmallExact(attempt);
    } else {
      Pow2Monotone(34, attempt);
      Pow2Of33();
      WrapOfFactor(attempt);
      LargeExact(attempt, SECOND * Pow2(attempt), Wrap(SECOND * Factor(attempt)));
    }
  }

  /** The delay processJob computes, whenever the attempt stays in range. */
  lemma DelayBounds(attempt: nat)
    requires attempt <= 33
    ensures BackoffMs(attempt, false) == Min(1000 * Pow2(attempt), 3_600_000)
    ensures 1000 <= BackoffMs(attempt, false) <= 3_600_000
  {
    SmallExact(attempt);
    Pow2Monotone(0, attempt);
    assert 1000 * Pow2(attempt) * MILLISECOND == SECOND * Pow2(attempt);
  }
}
