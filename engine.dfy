/** The few engine services the two gameplay scripts rely on, stated on
    mathematical reals: Unity's `Random.Range` on floats, `Mathf.Clamp`,
    `Mathf.Max` and C#'s floating-point remainder. */
module Engine {

  datatype Option<T> = None | Some(value: T)

  /** `t` lies in the closed interval [lo, hi]. */
  predicate InRange(t: real, lo: real, hi: real)
  {
    lo <= t <= hi
  }

  /** `Random.Range(lo, hi)` for floats: some value of the closed interval.
      Which value, and with what distribution, is left open. */
  method Range(lo: real, hi: real) returns (t: real)
    requires lo <= hi
    ensures lo <= t <= hi
  {
    assert InRange(lo, lo, hi);
    t :| InRange(t, lo, hi);
    assert InRange(t, lo, hi);
  }

  /** `Mathf.Clamp(x, lo, hi)`. */
  function Clamp(x: real, lo: real, hi: real): (r: real)
    requires lo <= hi
    ensures lo <= r <= hi
    ensures lo <= x <= hi ==> r == x
    ensures x < lo ==> r == lo
    ensures hi < x ==> r == hi
  {
    if x < lo then lo else if hi < x then hi else x
  }

  /** `Mathf.Max(a, b)`. */
  function Max(a: real, b: real): (r: real)
    ensures a <= r && b <= r
    ensures r == a || r == b
  {
    if a < b then b else a
  }

  /** Rounding toward zero, as a C# cast from float to int does. */
  function Truncate(x: real): (n: int)
    ensures 0.0 <= x ==> n == x.Floor
    ensures x < 0.0 ==> x <= n as real < x + 1.0
  {
    if 0.0 <= x then x.Floor else -((-x).Floor)
  }

  /** C#'s `%` on floats: the remainder of a division truncated toward zero,
      so it takes the sign of the dividend. */
  function FloatMod(x: real, m: real): (r: real)
    requires 0.0 < m
    ensures 0.0 <= x ==> 0.0 <= r < m
    ensures x < 0.0 ==> -m < r <= 0.0
    ensures ((x - r) / m).Floor as real == (x - r) / m
  {
    QuotientBounds(x, m);
    var q := Truncate(x / m);
    WholeQuotient(x, m, q);
    x - m * q as real
  }

  /** Taking `m * q` off `x` leaves a difference whose quotient by `m` is the whole number `q`. */
  lemma WholeQuotient(x: real, m: real, q: int)
    requires 0.0 < m
    ensures ((x - (x - m * q as real)) / m).Floor as real == (x - (x - m * q as real)) / m
  {
    var p := m * q as real;
    assert x - (x - p) == p;
    assert p / m == q as real;
  }

  /** For a non-negative dividend, the remainder is the only value of
      [0, m) that differs from it by a whole multiple of `m`. */
  lemma FloatModUnique(x: real, m: real, r: real, k: int)
    requires 0.0 < m && 0.0 <= x
    requires 0.0 <= r < m && x - r == m * k as real
    ensures FloatMod(x, m) == r
  {
    var f := FloatMod(x, m);
    var q := Truncate(x / m);
    assert f == x - m * q as real;
    var j := k - q;
    var d := f - r;
    assert d == m * j as real by {
      assert j as real == k as real - q as real;
      assert m * j as real == m * k as real - m * q as real;
    }
    MultipleBelowModulus(m, j, d);
  }

  /** The only whole multiple of `m` strictly between -m and m is 0. */
  lemma MultipleBelowModulus(m: real, k: int, d: real)
    requires 0.0 < m && d == m * k as real
    requires -m < d && d < m
    ensures k == 0
  {
    if 0 < k {
      ScaleMonotone(m, 1.0, k as real);
    } else if k < 0 {
      ScaleMonotone(m, k as real, -1.0);
    }
  }

  /** Multiplying by a positive factor keeps the order. */
  lemma ScaleMonotone(m: real, a: real, b: real)
    requires 0.0 < m && a <= b
    ensures m * a <= m * b
  {
    assert m * b - m * a == m * (b - a);
    ProductNonnegative(m, b - a);
  }

  lemma ProductNonnegative(a: real, b: real)
    requires 0.0 <= a && 0.0 <= b
    ensures 0.0 <= a * b
  {
  }

  /** If `x` lies in [m * lo, m * lo + m), then `x / m` lies in [lo, lo + 1). */
  lemma DivBounds(x: real, m: real, lo: real)
    requires 0.0 < m
    requires m * lo <= x < m * lo + m
    ensures lo <= x / m < lo + 1.0
  {
    var d := x / m - lo;
    assert m * d == x - m * lo by {
      assert m * (x / m) == x;
      assert m * d == m * (x / m) - m * lo;
    }
    if d < 0.0 {
      ScaleMonotone(m, d, 0.0);
    }
    if 1.0 <= d {
      ScaleMonotone(m, 1.0, d);
    }
  }

  lemma QuotientBounds(x: real, m: real)
    requires 0.0 < m
    ensures var q := Truncate(x / m) as real;
      && (0.0 <= x ==> m * q <= x < m * q + m)
      && (x < 0.0 ==> x <= m * q < x + m)
  {
    var t := x / m;
    var q := Truncate(t) as real;
    if 0.0 <= x {
      assert 0.0 <= t;
      ScaleBounds(x, m, t, q);
    } else {
      assert t < 0.0;
      ScaleBounds(m * q, m, q, t);
    }
  }

  /** If `x` is `m` times `v` and `v` lies in [lo, lo + 1), then `x` lies in [m * lo, m * lo + m). */
  lemma ScaleBounds(x: real, m: real, v: real, lo: real)
    requires 0.0 < m
    requires x == m * v
    requires lo <= v < lo + 1.0
    ensures m * lo <= x < m * lo + m
  {
    var d := v - lo;
    assert 0.0 <= d < 1.0;
    assert m * d < m by { assert m - m * d == m * (1.0 - d); }
    assert m * v == m * lo + m * d;
    assert x == m * lo + m * d;
    assert x < m * lo + m;
  }
}
