/** Python and numpy scalar semantics that the stream buffers rely on.
    Floating-point values are modelled as exact reals; NaN is kept as the
    one non-real value, because the buffers use it as the "missing" marker. */
module Scalars {

  /** A float64 as numpy stores it: not-a-number, or a number. */
  datatype Float = NaN | Real(r: real)

  /** The Python exceptions the modelled code can raise. */
  datatype PyError = ValueError | ZeroDivisionError

  /** Python's `min(a, b)`: `a` unless `b` is strictly smaller. */
  function Min(a: real, b: real): (m: real)
    ensures m <= a && m <= b
    ensures m == a || m == b
  {
    if b < a then b else a
  }

  /** Python's `min(a, b)` on integers. */
  function MinInt(a: int, b: int): (m: int)
    ensures m <= a && m <= b
    ensures m == a || m == b
  {
    if b < a then b else a
  }

  lemma MulMonotone(a: real, b: real, c: real)
    requires a <= b && c > 0.0
    ensures a * c <= b * c
  {
  }

  /** Scaling by a nonzero factor and dividing by it again is the identity. */
  lemma DivOfMul(a: real, c: real)
    requires c != 0.0
    ensures (a * c) / c == a
  {
  }

  /** A quantity smaller in magnitude than `t > 0` is less than one `t`. */
  lemma DivBelowOne(x: real, t: real)
    requires t > 0.0 && -t < x < t
    ensures -1.0 < x / t < 1.0
  {
    var q := x / t;
    assert q * t == x;
    if q >= 1.0 {
      MulMonotone(1.0, q, t);
    }
    if q <= -1.0 {
      MulMonotone(q, -1.0, t);
    }
  }

  /** A quantity below `y` scaled units of `t > 0` is below `y` units. */
  lemma DivBelow(x: real, y: real, t: real)
    requires t > 0.0 && x < y * t
    ensures x / t < y
  {
    var q := x / t;
    assert q * t == x;
    if q >= y {
      MulMonotone(y, q, t);
    }
  }

  /** A positive quantity below `c < y t` is, in units of `t > 0`, a
      positive count below `y`. */
  lemma PositiveCountBelow(d: real, c: real, t: real, y: real)
    requires t > 0.0 && 0.0 < d < c && c < y * t
    ensures 0.0 < d / t < y
  {
    DivBelow(d, y, t);
    var q := d / t;
    assert q * t == d;
    if q <= 0.0 {
      MulMonotone(q, 0.0, t);
    }
  }

  lemma MulStrict(a: real, b: real, c: real)
    requires a < b && c > 0.0
    ensures a * c < b * c
  {
  }

  /** The magnitude of an integer. */
  function Abs(x: int): (a: nat)
  {
    if x < 0 then -x else x
  }

  /** Python's `int(x)` on a float: truncation toward zero. */
  function Trunc(x: real): (n: int)
    ensures x >= 0.0 ==> 0 <= n && n as real <= x < n as real + 1.0
    ensures x < 0.0 ==> n <= 0 && n as real - 1.0 < x <= n as real
  {
    if x >= 0.0 then x.Floor else -((-x).Floor)
  }

  /** Truncation never increases the magnitude and loses less than one. */
  lemma TruncError(x: real)
    ensures -1.0 < x - Trunc(x) as real < 1.0
    ensures Abs(Trunc(x)) as real <= (if x < 0.0 then -x else x)
  {
  }

  /** An integral real truncates to itself. */
  lemma TruncOfInt(k: int)
    ensures Trunc(k as real) == k
  {
  }

  /** A non-negative quantity in units of `t > 0` is non-negative. */
  lemma NonNegativeDiv(d: real, t: real)
    requires t > 0.0 && d >= 0.0
    ensures d / t >= 0.0
  {
    var q := d / t;
    assert q * t == d;
    if q < 0.0 {
      MulStrict(q, 0.0, t);
    }
  }

  /** A quantity at least `y` units of `t > 0` is at least `y` units. */
  lemma DivAtLeast(x: real, y: real, t: real)
    requires t > 0.0 && y * t <= x
    ensures y <= x / t
  {
    var q := x / t;
    assert q * t == x;
    if q < y {
      MulStrict(q, y, t);
    }
  }

  /** A count `n` with `n <= d / t < n + 1`, for `t > 0`, puts `d` between
      `n` and `n + 1` units of `t`. */
  lemma CountBounds(d: real, t: real, n: int)
    requires t > 0.0 && n as real <= d / t < (n + 1) as real
    ensures n as real * t <= d < (n + 1) as real * t
  {
    if d < n as real * t {
      DivBelow(d, n as real, t);
    }
    if d >= (n + 1) as real * t {
      DivAtLeast(d, (n + 1) as real, t);
    }
  }

  /** Whole multiples of `t` add as their counts do. */
  lemma MulAddInt(a: int, b: int, c: int, t: real)
    requires a + b == c
    ensures a as real * t + b as real * t == c as real * t
  {
  }

  /** Two quantities counted in whole units of `t > 0`, `k` and `m`, differ
      by the difference of the counts to within one unit. */
  lemma CountDifference(d: real, c: real, t: real, k: int, m: int)
    requires t > 0.0
    requires k as real * t <= d < (k + 1) as real * t
    requires m as real * t <= c < (m + 1) as real * t
    ensures (m - k - 1) as real * t < c - d < (m - k + 1) as real * t
  {
    MulAddInt(m - k - 1, k + 1, m, t);
    MulAddInt(m - k + 1, k, m + 1, t);
  }

  function Pow2(k: nat): (p: nat)
    ensures p >= 1
  {
    if k == 0 then 1 else 2 * Pow2(k - 1)
  }

  lemma Pow2Of14()
    ensures Pow2(14) == 16384
  {
    assert Pow2(1) == 2;
    assert Pow2(2) == 4;
    assert Pow2(3) == 8;
    assert Pow2(4) == 16;
    assert Pow2(5) == 32;
    assert Pow2(6) == 64;
    assert Pow2(7) == 128;
    assert Pow2(8) == 256;
    assert Pow2(9) == 512;
    assert Pow2(10) == 1024;
    assert Pow2(11) == 2048;
    assert Pow2(12) == 4096;
    assert Pow2(13) == 8192;
  }

  /** Python's `a & b` on non-negative integers, bit by bit from the lowest. */
  function BitAnd(a: nat, b: nat): (r: nat)
    ensures r <= a && r <= b
    decreases a
  {
    if a == 0 || b == 0 then 0
    else 2 * BitAnd(a / 2, b / 2) + (if a % 2 == 1 && b % 2 == 1 then 1 else 0)
  }

  /** Euclidean division is unique: a quotient and remainder in range are the ones. */
  lemma DivModUnique(x: int, n: int, q: int, r: int)
    requires n > 0 && x == q * n + r && 0 <= r < n
    ensures x / n == q && x % n == r
  {
    var q', r' := x / n, x % n;
    assert x == q' * n + r';
    if q' > q {
      assert (q' - q) * n == r - r';
      MulAtLeast(q' - q, n);
    } else if q' < q {
      assert (q - q') * n == r' - r;
      MulAtLeast(q - q', n);
    }
  }

  lemma MulAtLeast(a: int, n: int)
    requires a >= 1 && n > 0
    ensures a * n >= n
  {
  }

  /** Splitting off the lowest bit: `a mod 2m` from `(a div 2) mod m`. */
  lemma ModDouble(a: nat, m: nat)
    requires m > 0
    ensures a % (2 * m) == 2 * ((a / 2) % m) + a % 2
  {
    var h, s := a / 2, (a / 2) % m;
    var t := h / m;
    assert h == t * m + s;
    assert a == t * (2 * m) + (2 * s + a % 2);
    DivModUnique(a, 2 * m, t, 2 * s + a % 2);
  }

  /** Masking with `2^k - 1` keeps the low `k` bits: it is reduction mod `2^k`. */
  lemma {:induction false} MaskIsMod(a: nat, k: nat)
    ensures BitAnd(a, Pow2(k) - 1) == a % Pow2(k)
  {
    if k == 0 {
    } else if a == 0 {
    } else {
      var m := Pow2(k - 1);
      assert (Pow2(k) - 1) / 2 == m - 1;
      assert (Pow2(k) - 1) % 2 == 1;
      MaskIsMod(a / 2, k - 1);
      ModDouble(a, m);
    }
  }
}
