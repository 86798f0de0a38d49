/** The few JavaScript built-ins whose exact behaviour the model depends on:
    `Array.prototype.slice` with one argument, the `%` operator on numbers,
    `Math.max`/`Math.min`/`Math.round`, and number-to-string conversion of
    small whole numbers. Numbers are modelled as `real` (no rounding, no NaN). */
module JsSemantics {
  import opened Wrappers

  /** A nullable JavaScript number: `None` stands for `null`/`undefined`. */
  type Num = Option<real>

  /** The value a nullable number takes in arithmetic: `null + x` is `x`. */
  function NumOr0(n: Num): real
  {
    n.GetOr(0.0)
  }

  /** `n || null`: a falsy number (absent or 0) becomes `null`. */
  function OrNull(n: Num): (r: Num)
    ensures r.Some? <==> n.Some? && n.value != 0.0
    ensures r.Some? ==> r == n
  {
    if n == Some(0.0) then None else n
  }

  /** `Math.max(a, b)` */
  function Max(a: real, b: real): (r: real)
    ensures r >= a && r >= b && (r == a || r == b)
  {
    if a >= b then a else b
  }

  /** `Math.min(a, b)` */
  function Min(a: real, b: real): (r: real)
    ensures r <= a && r <= b && (r == a || r == b)
  {
    if a <= b then a else b
  }

  /** `s.slice(start)`: a negative start counts from the end and is clamped
      at 0, a start past the end gives the empty array. The result is always
      a suffix of `s`. */
  function SliceFrom<T>(s: seq<T>, start: int): (r: seq<T>)
    ensures |r| <= |s| && r == s[|s| - |r|..]
    ensures start >= 0 ==> |r| == if start <= |s| then |s| - start else 0
    ensures start < 0 ==> |r| == if -start <= |s| then -start else |s|
  {
    var b := if start < 0 then (if |s| + start < 0 then 0 else |s| + start)
             else (if start > |s| then |s| else start);
    s[b..]
  }

  /** JavaScript `%` on numbers truncates the quotient toward zero. */
  function Trunc(q: real): (t: int)
    ensures q >= 0.0 ==> t as real <= q < t as real + 1.0
    ensures q < 0.0 ==> t as real - 1.0 < q <= t as real
  {
    if q >= 0.0 then q.Floor else -((-q).Floor)
  }

  /** `x % m` for a positive divisor: the remainder keeps the sign of the
      dividend `x`, is smaller than `m` in magnitude, differs from `x` by a
      whole multiple of `m`, and is `x` itself when `x` is already within
      `(-m, m)`. */
  function TruncRem(x: real, m: real): (r: real)
    requires m > 0.0
    ensures x >= 0.0 ==> 0.0 <= r < m
    ensures x < 0.0 ==> -m < r <= 0.0
    ensures ((x - r) / m).Floor as real == (x - r) / m
    ensures -m < x < m ==> r == x
  {
    var q := x / m;
    var t := Trunc(q);
    ScaledFraction(x, m, q, t);
    WholeMultiple(x, m, t);
    SmallQuotient(x, m, q, t);
    x - t as real * m
  }

  lemma WholeMultiple(x: real, m: real, t: int)
    requires m > 0.0
    ensures ((x - (x - t as real * m)) / m).Floor as real == (x - (x - t as real * m)) / m
  {
    assert x - (x - t as real * m) == t as real * m;
    assert (t as real * m) / m == t as real;
  }

  /** A dividend inside `(-m, m)` has a quotient that truncates to 0. */
  lemma SmallQuotient(x: real, m: real, q: real, t: int)
    requires m > 0.0 && q == x / m
    requires q >= 0.0 ==> t as real <= q < t as real + 1.0
    requires q < 0.0 ==> t as real - 1.0 < q <= t as real
    ensures -m < x < m ==> t == 0
  {
    assert q * m == x;
    if q > 1.0 {
      PositiveProduct(q - 1.0, m, (q - 1.0) * m);
    } else if q < -1.0 {
      PositiveProduct(-1.0 - q, m, (-1.0 - q) * m);
    }
  }

  lemma ScaledFraction(x: real, m: real, q: real, t: int)
    requires m > 0.0 && q == x / m
    requires q >= 0.0 ==> t as real <= q < t as real + 1.0
    requires q < 0.0 ==> t as real - 1.0 < q <= t as real
    ensures x >= 0.0 ==> 0.0 <= x - t as real * m < m
    ensures x < 0.0 ==> -m < x - t as real * m <= 0.0
  {
    var d := q - t as real;
    var p := d * m;
    assert q * m == x;
    assert x - t as real * m == p by {
      assert p == q * m - t as real * m;
    }
    assert x >= 0.0 <==> q >= 0.0 by {
      if q < 0.0 { assert -q * m > 0.0; }
      if q >= 0.0 { assert q * m >= 0.0; }
    }
    FractionTimes(d, m, p);
  }

  /** A fraction strictly between -1 and 1 scales into (-m, m) with its sign. */
  lemma FractionTimes(d: real, m: real, p: real)
    requires m > 0.0 && -1.0 < d < 1.0 && p == d * m
    ensures d >= 0.0 ==> 0.0 <= p < m
    ensures d <= 0.0 ==> -m < p <= 0.0
  {
    PositiveProduct(1.0 - d, m, m - p);
    PositiveProduct(1.0 + d, m, m + p);
    if d > 0.0 {
      PositiveProduct(d, m, p);
    } else if d < 0.0 {
      PositiveProduct(-d, m, -p);
    }
  }

  lemma PositiveProduct(a: real, b: real, c: real)
    requires a > 0.0 && b > 0.0 && c == a * b
    ensures c > 0.0
  {
  }

  /** `Math.round(x)`: the nearest integer, halves rounded up. */
  function Round(x: real): (n: int)
    ensures x - 0.5 < n as real <= x + 0.5
  {
    (x + 0.5).Floor
  }

  /** The decimal text of a natural number, as template literals print it. */
  function NatToString(n: nat): (s: string)
    ensures |s| >= 1
    ensures forall i :: 0 <= i < |s| ==> '0' <= s[i] <= '9'
    decreases n
  {
    var d := ['0' + (n % 10) as char];
    if n < 10 then d else NatToString(n / 10) + d
  }

  /** The decimal text of an integer, with a leading '-' when negative. */
  function IntToString(n: int): string
  {
    if n < 0 then "-" + NatToString(-n) else NatToString(n)
  }
}
