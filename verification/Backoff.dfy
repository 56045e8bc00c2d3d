/** `backoffDuration` of backend/internal/job/social_revocation_worker.go.

    The program computes 2^n as a float, converts it to a 64-bit integer and multiplies by
    the number of nanoseconds in a minute.  For large n the conversion is out of range, which
    Go leaves to the platform, and the multiplication wraps around.  The module shows that the
    guard after it catches every such case.
  */
module Backoff {

  const TWO63 := 0x8000_0000_0000_0000
  const TWO64 := 0x1_0000_0000_0000_0000
  const MINUTE := 60_000_000_000
  const HOUR := 3_600_000_000_000

  function Pow2(n: nat): (p: int)
    ensures p >= 1
  {
    if n == 0 then 1 else 2 * Pow2(n - 1)
  }

  /** A float64 that is not negative and not NaN. */
  datatype Float = Finite(value: real) | Infinity

  /** math.Pow(2, n): exact in the range of float64, zero below it, infinite above it. */
  function FloatPow2(n: int): Float {
    if n > 1023 then Infinity
    else if n >= 0 then Finite(Pow2(n) as real)
    else if n >= -1074 then Finite(1.0 / (Pow2(-n) as real))
    else Finite(0.0)
  }

  /** What the platform makes of a float that does not fit. */
  datatype OutOfRange = ToMinimum | ToMaximum

  function ToInt64(f: Float, platform: OutOfRange): int {
    if f.Finite? && 0 <= f.value.Floor < TWO63 then f.value.Floor
    else if platform == ToMinimum then -TWO63
    else TWO63 - 1
  }

  /** Two's complement wrap-around of a 64-bit signed result. */
  function Wrap64(x: int): (w: int)
    ensures -TWO63 <= w < TWO63 && (x - w) % TWO64 == 0
  {
    (x + TWO63) % TWO64 - TWO63
  }

  function BackoffDuration(attemptCount: int, platform: OutOfRange): int {
    var minutes := FloatPow2(attemptCount);
    var d := Wrap64(ToInt64(minutes, platform) * MINUTE);
    if d > HOUR || d <= 0 then HOUR else d
  }

  lemma {:induction false} Pow2Adds(a: nat, b: nat)
    ensures Pow2(a + b) == Pow2(a) * Pow2(b)
  {
    if a > 0 {
      Pow2Adds(a - 1, b);
    }
  }

  lemma {:induction false} Pow2Grows(a: nat, b: nat)
    requires a <= b
    ensures Pow2(a) <= Pow2(b)
    decreases b
  {
    if a < b {
      Pow2Grows(a, b - 1);
    }
  }

  lemma SmallPowers()
    ensures Pow2(5) == 32 && Pow2(6) == 64 && Pow2(10) == 1024 && Pow2(11) == 2048
  {
    assert Pow2(3) == 8 && Pow2(6) == 64;
    assert Pow2(9) == 512;
  }

  lemma Pow2Values()
    ensures Pow2(5) == 32 && Pow2(6) == 64 && Pow2(10) == 1024 && Pow2(11) == 2048 && Pow2(20) == 0x10_0000
    ensures Pow2(28) == 0x1000_0000 && Pow2(27) == 0x800_0000 && Pow2(31) == 0x8000_0000 && Pow2(42) == 0x400_0000_0000
    ensures Pow2(62) == 0x4000_0000_0000_0000 && Pow2(63) == TWO63 && Pow2(64) == TWO64
  {
    SmallPowers();
    hide Pow2;
    Pow2Adds(10, 10);
    Pow2Adds(20, 11);
    Pow2Adds(11, 11);
    Pow2Adds(22, 5);
    Pow2Adds(22, 6);
    Pow2Adds(31, 31);
    Pow2Adds(31, 11);
    Pow2Adds(42, 22);
    Doubles(62);
  }

  lemma Doubles(n: nat)
    ensures Pow2(n + 1) == 2 * Pow2(n)
  {
  }

  lemma ConvertsInRange(n: nat, platform: OutOfRange)
    ensures ToInt64(FloatPow2(n), platform)
         == if n <= 62 then Pow2(n) else if platform == ToMinimum then -TWO63 else TWO63 - 1
  {
    Pow2Values();
    if n <= 62 {
      Pow2Grows(n, 62);
      assert (Pow2(n) as real).Floor == Pow2(n);
    } else if n <= 1023 {
      Pow2Grows(63, n);
      assert (Pow2(n) as real).Floor == Pow2(n);
    }
  }

  lemma Divides(m: int, q: int)
    requires m > 0
    ensures (m * q) % m == 0
  {
    var t := (m * q) / m;
    var k := q - t;
    assert m * k == (m * q) % m;
    assert k >= 1 ==> m * k >= m;
    assert k <= -1 ==> m * k <= -m;
  }

  lemma FactorDivides(x: int, m: int, r: int)
    requires m > 0 && r > 0 && m * r > 0 && x % (m * r) == 0
    ensures x % m == 0
  {
    var q := x / (m * r);
    assert x == (m * r) * q;
    assert (m * r) * q == m * (r * q);
    Divides(m, r * q);
  }

  lemma MultipleOf(x: int, a: nat, b: nat)
    requires a <= b && x % Pow2(b) == 0
    ensures x % Pow2(a) == 0
  {
    Pow2Adds(a, b - a);
    FactorDivides(x, Pow2(a), Pow2(b - a));
  }

  lemma DifferenceDivides(x: int, y: int, m: int)
    requires m > 0 && x % m == 0 && y % m == 0
    ensures (x - y) % m == 0
  {
    assert x - y == m * (x / m - y / m);
    Divides(m, x / m - y / m);
  }

  /** Whatever wraps is still a multiple of 2^(n+11) nanoseconds (or of 2^64, once that is less). */
  lemma WrappedIsMultiple(n: nat)
    ensures Wrap64(Pow2(n) * MINUTE) % Pow2(if n <= 53 then n + 11 else 64) == 0
  {
    Pow2Values();
    var x := Pow2(n) * MINUTE;
    var w := Wrap64(x);
    var k := if n <= 53 then n + 11 else 64;
    Pow2Adds(n, 11);
    assert x == Pow2(n + 11) * 29_296_875;
    Divides(Pow2(n + 11), 29_296_875);
    MultipleOf(x, k, n + 11);
    MultipleOf(x - w, k, 64);
    DifferenceDivides(x, x - w, Pow2(k));
  }

  lemma MultipleIsLong(d: int)
    requires d % 0x400_0000_0000 == 0
    ensures d > HOUR || d <= 0
  {
  }

  lemma WrapsToLong(n: nat)
    requires 31 <= n
    ensures var d := Wrap64(Pow2(n) * MINUTE); d > HOUR || d <= 0
  {
    hide Pow2;
    hide Wrap64;
    var d := Wrap64(Pow2(n) * MINUTE);
    WrappedIsMultiple(n);
    MultipleOf(d, 42, if n <= 53 then n + 11 else 64);
    Pow2Values();
    MultipleIsLong(d);
  }

  lemma InRangeIsLong(n: nat)
    requires 6 <= n <= 27
    ensures Wrap64(Pow2(n) * MINUTE) > HOUR
  {
    assert 64 <= Pow2(n) <= 0x800_0000 by {
      Pow2Values();
      Pow2Grows(6, n);
      Pow2Grows(n, 27);
    }
    assert Wrap64(Pow2(n) * MINUTE) == Pow2(n) * MINUTE;
  }

  lemma FirstWraps(n: nat)
    requires 28 <= n <= 30
    ensures var d := Wrap64(Pow2(n) * MINUTE); d > HOUR || d <= 0
  {
    var p := Pow2(28);
    assert p == 0x1000_0000 by { Pow2Values(); }
    assert Pow2(29) == 2 * p && Pow2(30) == 4 * p;
    assert n == 28 || n == 29 || n == 30;
  }

  /** From 2^6 minutes up, the product is over an hour or not positive, wrapped or not. */
  lemma LongWaitsAreCaught(n: nat)
    requires 6 <= n
    ensures var d := Wrap64(Pow2(n) * MINUTE); d > HOUR || d <= 0
  {
    if n <= 27 {
      InRangeIsLong(n);
    } else if n <= 30 {
      FirstWraps(n);
    } else {
      WrapsToLong(n);
    }
  }

  function Min(a: int, b: int): int {
    if a <= b then a else b
  }

  lemma NegativePowersTruncate(n: int, platform: OutOfRange)
    requires n < 0
    ensures ToInt64(FloatPow2(n), platform) == 0
  {
    if n >= -1074 {
      var p := Pow2(-n) as real;
      assert p >= 2.0 by { Pow2Grows(1, -n); }
      assert 0.0 < 1.0 / p < 1.0;
    }
  }

  lemma SmallStays(x: int)
    requires 0 <= x < TWO63
    ensures Wrap64(x) == x
  {
  }

  /** A number that did not fit, multiplied and wrapped: zero, or a minute below it. */
  lemma ExtremesWrap()
    ensures Wrap64(-TWO63 * MINUTE) == 0 && Wrap64((TWO63 - 1) * MINUTE) == -MINUTE && Wrap64(0 * MINUTE) == 0
  {
  }

  lemma ShortWaits(n: nat, platform: OutOfRange)
    requires n < 6
    ensures BackoffDuration(n, platform) == Pow2(n) * MINUTE < HOUR
  {
    hide Pow2;
    hide Wrap64;
    hide ToInt64;
    hide FloatPow2;
    ConvertsInRange(n, platform);
    Pow2Values();
    Pow2Grows(n, 5);
    SmallStays(Pow2(n) * MINUTE);
  }

  /** The wait is min(2^n minutes, one hour) for every count and on every platform. */
  lemma BackoffIsCapped(n: int, platform: OutOfRange)
    ensures BackoffDuration(n, platform) == if n < 0 then HOUR else Min(Pow2(n) * MINUTE, HOUR)
  {
    hide Pow2;
    hide Wrap64;
    hide ToInt64;
    hide FloatPow2;
    ExtremesWrap();
    if n < 0 {
      NegativePowersTruncate(n, platform);
    } else if n < 6 {
      ShortWaits(n, platform);
    } else {
      ConvertsInRange(n, platform);
      Pow2Values();
      Pow2Grows(6, n);
      LongWaitsAreCaught(n);
    }
  }

  /** Hence the wait is positive, at most an hour, and never shrinks as attempts go on. */
  lemma BackoffGrows(a: nat, b: nat, platform: OutOfRange)
    requires a <= b
    ensures 0 < BackoffDuration(a, platform) <= BackoffDuration(b, platform) <= HOUR
  {
    BackoffIsCapped(a, platform);
    BackoffIsCapped(b, platform);
    Pow2Grows(a, b);
  }
}
