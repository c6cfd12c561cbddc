/**
 * Numeric helpers shared by the whole model: optional values for numbers that
 * may be missing or non-finite, JavaScript's rounding and ceiling, sums over
 * sequences, clamping, and the handful of IEEE-754 quotients that the regime
 * classifier can produce when it divides by zero.
 */
module Numeric {

  /** A value that may be absent: `null`, `undefined`, or a non-finite number. */
  datatype Option<+T> = None | Some(value: T) {
    function GetOr(default: T): T {
      match this
      case Some(v) => v
      case None => default
    }
  }

  /** JavaScript's `Math.round(x * s) / s`: half-way cases round towards +infinity. */
  function RoundTo(x: real, s: real): (r: real)
    requires s > 0.0
  {
    ((x * s + 0.5).Floor as real) / s
  }

  /** Rounding to 2 (`Round2`), 3 (`Round3`) and 5 (`Round5`) decimal places. */
  function Round2(x: real): real { RoundTo(x, 100.0) }
  function Round3(x: real): real { RoundTo(x, 1000.0) }
  function Round5(x: real): real { RoundTo(x, 100000.0) }

  /** Rounding moves a value by at most half a unit of the last kept decimal. */
  lemma RoundToClose(x: real, s: real)
    requires s > 0.0
    ensures x - 0.5 / s < RoundTo(x, s) <= x + 0.5 / s
  {
    var f := (x * s + 0.5).Floor as real;
    assert f <= x * s + 0.5 < f + 1.0;
    assert f / s <= (x * s + 0.5) / s;
    assert (x * s + 0.5) / s == x + 0.5 / s;
    assert (x * s + 0.5) / s < (f + 1.0) / s;
    assert (f + 1.0) / s == f / s + 1.0 / s;
  }

  /** Rounding keeps a value inside bounds that are themselves whole multiples of the unit. */
  lemma RoundToWithin(x: real, s: real, lo: int, hi: int)
    requires s > 0.0
    requires lo as real / s <= x <= hi as real / s
    ensures lo as real / s <= RoundTo(x, s) <= hi as real / s
  {
    var y := x * s + 0.5;
    var a, b := lo as real, hi as real;
    MulMonotone(s, a / s, x);
    MulMonotone(s, x, b / s);
    MulDivCancel(a, s);
    MulDivCancel(b, s);
    assert a <= s * x <= b;
    assert x * s == s * x;
    assert a + 0.5 <= y <= b + 0.5;
    assert lo <= y.Floor <= hi;
    var f := y.Floor as real;
    assert RoundTo(x, s) == f / s;
    DivMonotone(lo as real, f, s);
    DivMonotone(f, hi as real, s);
  }

  /** Multiplying a quotient back by its divisor gives the dividend. */
  lemma MulDivCancel(a: real, d: real)
    requires d > 0.0
    ensures d * (a / d) == a && (d * a) / d == a
  {
  }

  /** Rounding a value that is already a whole number of units leaves it unchanged. */
  lemma RoundToExact(k: int, s: real)
    requires s > 0.0
    ensures RoundTo(k as real / s, s) == k as real / s
  {
    RoundToWithin(k as real / s, s, k, k);
  }

  /** Rounding is monotone. */
  lemma RoundToMonotone(x: real, y: real, s: real)
    requires s > 0.0 && x <= y
    ensures RoundTo(x, s) <= RoundTo(y, s)
  {
    MulMonotone(s, x, y);
    assert (x * s + 0.5).Floor <= (y * s + 0.5).Floor;
    DivMonotone((x * s + 0.5).Floor as real, (y * s + 0.5).Floor as real, s);
  }

  /** JavaScript's `Math.ceil`. */
  function Ceil(x: real): (r: int)
    ensures r as real - 1.0 < x <= r as real
  {
    -((-x).Floor)
  }

  function Max(a: real, b: real): real { if a >= b then a else b }
  function Min(a: real, b: real): real { if a <= b then a else b }

  /** JavaScript's `Math.max(lo, Math.min(hi, x))`. */
  function Clamp(x: real, lo: real, hi: real): (r: real)
    requires lo <= hi
    ensures lo <= r <= hi
    ensures lo <= x <= hi ==> r == x
  {
    Max(lo, Min(hi, x))
  }

  function Abs(x: real): real { if x < 0.0 then -x else x }

  /** A part divided by a whole it does not exceed is a fraction in [0, 1]. */
  lemma FractionBounds(x: real, d: real)
    requires 0.0 <= x <= d && d > 0.0
    ensures 0.0 <= x / d <= 1.0
  {
    DivMonotone(0.0, x, d);
    DivMonotone(x, d, d);
  }

  /** A common non-zero factor cancels from a quotient. */
  lemma CancelFactor(a: real, b: real, c: real)
    requires b != 0.0 && c != 0.0
    ensures (c * a) / (b * c) == a / b
  {
    assert (a / b) * (b * c) == c * a;
  }

  /** Sum of a sequence, accumulated left to right as `reduce((a, b) => a + b, 0)` does. */
  function Sum(s: seq<real>): real
  {
    if |s| == 0 then 0.0 else Sum(s[..|s| - 1]) + s[|s| - 1]
  }

  /** Appending one element adds it to the sum (the step every accumulating loop takes). */
  lemma SumSnoc(s: seq<real>, x: real)
    ensures Sum(s + [x]) == Sum(s) + x
  {
    assert (s + [x])[..|s|] == s;
  }

  /** A sum of values that all lie in [lo, hi] lies in [n*lo, n*hi]. */
  lemma {:induction false} SumBounds(s: seq<real>, lo: real, hi: real)
    requires forall i :: 0 <= i < |s| ==> lo <= s[i] <= hi
    ensures |s| as real * lo <= Sum(s) <= |s| as real * hi
  {
    if |s| > 0 {
      SumBounds(s[..|s| - 1], lo, hi);
    }
  }

  /** A sum of non-negative values is non-negative. */
  lemma {:induction false} SumNonNegative(s: seq<real>)
    requires forall i :: 0 <= i < |s| ==> s[i] >= 0.0
    ensures Sum(s) >= 0.0
  {
    if |s| > 0 {
      SumNonNegative(s[..|s| - 1]);
    }
  }

  /** The mean of values that all lie in [lo, hi] lies in [lo, hi]. */
  lemma MeanWithin(s: seq<real>, lo: real, hi: real)
    requires |s| > 0
    requires forall i :: 0 <= i < |s| ==> lo <= s[i] <= hi
    ensures lo <= Sum(s) / |s| as real <= hi
  {
    SumBounds(s, lo, hi);
    var n := |s| as real;
    var total := Sum(s);
    assert lo <= total / n by {
      MulDivCancel(lo, n);
      DivMonotone(n * lo, total, n);
    }
    assert total / n <= hi by {
      MulDivCancel(hi, n);
      DivMonotone(total, n * hi, n);
    }
  }

  /** Dividing by a positive number keeps the order. */
  lemma DivMonotone(a: real, b: real, d: real)
    requires a <= b && d > 0.0
    ensures a / d <= b / d
  {
    assert b / d - a / d == (b - a) / d;
  }

  /** Dividing by a positive number keeps the sign. */
  lemma QuotientSign(a: real, d: real)
    requires d > 0.0
    ensures a > 0.0 ==> a / d > 0.0
    ensures a < 0.0 ==> a / d < 0.0
    ensures a == 0.0 ==> a / d == 0.0
  {
    assert (a / d) * d == a;
  }

  /** Negating the dividend negates the quotient. */
  lemma NegateQuotient(a: real, d: real)
    requires d != 0.0
    ensures (-a) / d == -(a / d)
  {
    assert (-(a / d)) * d == -a;
  }

  /** Multiplying by a non-negative number keeps the order. */
  lemma MulMonotone(k: real, a: real, b: real)
    requires k >= 0.0 && a <= b
    ensures k * a <= k * b
  {
    assert k * b - k * a == k * (b - a);
  }

  /** Largest element, as `Math.max(...s)`. */
  function MaxOf(s: seq<real>): (r: real)
    requires |s| > 0
    ensures forall i :: 0 <= i < |s| ==> s[i] <= r
    ensures exists i :: 0 <= i < |s| && s[i] == r
  {
    if |s| == 1 then s[0]
    else
      var m := MaxOf(s[..|s| - 1]);
      assert forall i :: 0 <= i < |s| - 1 ==> s[..|s| - 1][i] == s[i];
      if s[|s| - 1] >= m then s[|s| - 1] else m
  }

  /** Smallest element, as `Math.min(...s)`. */
  function MinOf(s: seq<real>): (r: real)
    requires |s| > 0
    ensures forall i :: 0 <= i < |s| ==> r <= s[i]
    ensures exists i :: 0 <= i < |s| && s[i] == r
  {
    if |s| == 1 then s[0]
    else
      var m := MinOf(s[..|s| - 1]);
      assert forall i :: 0 <= i < |s| - 1 ==> s[..|s| - 1][i] == s[i];
      if s[|s| - 1] <= m then s[|s| - 1] else m
  }

  /**
   * The result of an IEEE-754 division `a / b` of two finite numbers: a finite
   * quotient, or, when `b` is zero, an infinity or NaN.
   */
  datatype Ext = Finite(v: real) | PosInf | NegInf | NaN

  /** `(a / b) * 100` in IEEE-754 arithmetic, for finite `a` and `b`. */
  function Percent(a: real, b: real): (r: Ext)
    ensures b != 0.0 ==> r == Finite(a / b * 100.0)
    ensures b == 0.0 ==> (r.PosInf? <==> a > 0.0) && (r.NegInf? <==> a < 0.0)
  {
    if b != 0.0 then Finite(a / b * 100.0)
    else if a > 0.0 then PosInf
    else if a < 0.0 then NegInf
    else NaN
  }

  /** `x > t` in IEEE-754: NaN compares false, +infinity exceeds every finite t. */
  predicate ExtGreater(x: Ext, t: real)
  {
    match x
    case Finite(v) => v > t
    case PosInf => true
    case NegInf => false
    case NaN => false
  }

  /** `x < t` in IEEE-754. */
  predicate ExtLess(x: Ext, t: real)
  {
    match x
    case Finite(v) => v < t
    case PosInf => false
    case NegInf => true
    case NaN => false
  }
}
