/**
 The numeric vocabulary shared by every module: the JavaScript `Math`
 functions the application calls, kept uninterpreted, and the small
 real-valued helpers (`Math.abs`, `Math.min`, `Math.max`, `%`) written out.

 Numbers are modelled as mathematical reals: there is no rounding, no NaN
 and no infinity. The transcendental functions are fields of a `Trig`
 record handed to every operation that needs them; `Valid` lists the only
 facts about them that the proofs may use.
 */
module Numerics {

  type PositiveReal = r: real | r > 0.0 witness 1.0

  /** `Math.sin`, `Math.cos`, `Math.sqrt`, `Math.atan2` and `Math.PI`. */
  datatype Trig = Trig(
    sin: real -> real,
    cos: real -> real,
    sqrt: real -> real,
    atan2: (real, real) -> real,
    pi: PositiveReal)

  /** The minimal axioms about the trigonometric functions. */
  ghost predicate Valid(tr: Trig) {
    && (forall x :: -1.0 <= tr.sin(x) <= 1.0)
    && tr.sin(0.0) == 0.0
    && tr.cos(0.0) == 1.0
    && tr.sin(tr.pi / 2.0) == 1.0
    && (forall x :: x >= 0.0 ==> tr.sqrt(x) >= 0.0 && tr.sqrt(x) * tr.sqrt(x) == x)
    && (forall y, x :: -(tr.pi as real) <= tr.atan2(y, x) <= tr.pi)
  }

  /** `Math.sin`, as a function so that every use names the same term. */
  function Sin(tr: Trig, x: real): real {
    tr.sin(x)
  }

  /** An angle in degrees converted to radians, `degrees * pi / 180`. */
  function Radians(tr: Trig, degrees: real): real {
    (degrees * tr.pi) / 180.0
  }

  /** `Math.abs` */
  function Abs(x: real): real {
    if x < 0.0 then -x else x
  }

  /** `Math.min` on two arguments */
  function Min(a: real, b: real): real {
    if a <= b then a else b
  }

  /** `Math.max` on two arguments */
  function Max(a: real, b: real): real {
    if a >= b then a else b
  }

  /** `Math.max(lo, Math.min(hi, x))`, the clamp idiom of the widgets. */
  function Clamp(x: real, lo: real, hi: real): (r: real)
    requires lo <= hi
    ensures lo <= r <= hi
    ensures lo <= x <= hi ==> r == x
    ensures x < lo ==> r == lo
    ensures x > hi ==> r == hi
  {
    Max(lo, Min(hi, x))
  }

  /** Truncation toward zero, the rounding JavaScript's `%` uses. */
  function Trunc(x: real): int {
    if x >= 0.0 then x.Floor else -((-x).Floor)
  }

  /** JavaScript's `%` on numbers: the remainder takes the sign of the dividend. */
  function JsRem(a: real, m: real): (r: real)
    requires m > 0.0
    ensures a >= 0.0 ==> 0.0 <= r < m
    ensures a < 0.0 ==> -m < r <= 0.0
    ensures IsWhole((a - r) / m)
  {
    var q := Trunc(a / m);
    TruncBounds(a / m);
    QuotientBounds(a, m, q);
    MultipleIsWhole(m, q);
    a - m * q as real
  }

  /** `x` is a whole number: `a` and `b` are congruent modulo `m` when `(a - b) / m` is whole. */
  predicate IsWhole(x: real) {
    x.Floor as real == x
  }

  lemma MultipleIsWhole(m: real, q: int)
    requires m > 0.0
    ensures IsWhole((m * q as real) / m)
  {
    var p := m * q as real;
    assert p / m == q as real;
  }

  lemma TruncBounds(x: real)
    ensures x >= 0.0 ==> 0.0 <= Trunc(x) as real <= x < Trunc(x) as real + 1.0
    ensures x < 0.0 ==> Trunc(x) as real - 1.0 < x <= Trunc(x) as real <= 0.0
  {
  }

  /** Multiplying the bounds on the truncated quotient back by the divisor. */
  lemma QuotientBounds(a: real, m: real, q: int)
    requires m > 0.0
    requires a >= 0.0 ==> 0.0 <= q as real <= a / m < q as real + 1.0
    requires a < 0.0 ==> q as real - 1.0 < a / m <= q as real <= 0.0
    ensures a >= 0.0 ==> 0.0 <= a - m * q as real < m
    ensures a < 0.0 ==> -m < a - m * q as real <= 0.0
  {
    if a >= 0.0 {
      var e := a / m - q as real;
      var p := m * e;
      assert a - m * q as real == p;
      ProductBelow(m, e, p);
    } else {
      var ne := q as real - a / m;
      var np := m * ne;
      assert a - m * q as real == -np;
      ProductBelow(m, ne, np);
    }
  }

  lemma ProductBelow(m: real, e: real, p: real)
    requires m > 0.0 && 0.0 <= e < 1.0 && p == m * e
    ensures 0.0 <= p < m
  {
    assert m * (1.0 - e) > 0.0;
  }

  /** Squaring is strictly increasing on the non-negative reals. */
  lemma SquareStrictlyIncreasing(u: real, v: real)
    requires 0.0 <= u < v
    ensures u * u < v * v
  {
    var uu, uv, vv := u * u, u * v, v * v;
    assert uu <= uv by { assert u * (v - u) >= 0.0; }
    assert uv < vv by { assert v * (v - u) > 0.0; }
  }

  /** Under the axioms, `Math.sqrt(x * x)` is `Math.abs(x)`. */
  lemma SqrtOfSquare(tr: Trig, x: real)
    requires Valid(tr)
    ensures tr.sqrt(x * x) == Abs(x)
  {
    var s := tr.sqrt(x * x);
    assert x * x >= 0.0;
    assert s >= 0.0 && s * s == x * x;
    assert Abs(x) * Abs(x) == x * x;
    if s < Abs(x) {
      SquareStrictlyIncreasing(s, Abs(x));
    } else if s > Abs(x) {
      SquareStrictlyIncreasing(Abs(x), s);
    }
  }

  /** A factor bounded by 1 in absolute value cannot enlarge a magnitude. */
  lemma ScaledBound(a: real, s: real)
    requires -1.0 <= s <= 1.0
    ensures Abs(a * s) <= Abs(a)
  {
    if a >= 0.0 {
      assert -a <= a * s <= a;
    } else {
      assert a <= a * s <= -a;
    }
  }
}
