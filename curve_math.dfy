/** Scalar interpolation helpers and the cubic Bézier curve on one axis,
    evaluated in exact real arithmetic.  These are the free functions at the
    top of curveProfileEditor.py; every one of them is total except the
    inverse interpolation, whose bounds must differ. */
module CurveMath {

  function Abs(x: real): (r: real)
    ensures r >= 0.0 && (r == x || r == -x)
  {
    if x < 0.0 then -x else x
  }

  function Min(a: real, b: real): (r: real)
    ensures r <= a && r <= b && (r == a || r == b)
  {
    if a <= b then a else b
  }

  function Max(a: real, b: real): (r: real)
    ensures r >= a && r >= b && (r == a || r == b)
  {
    if a >= b then a else b
  }

  lemma MulNonneg(x: real, y: real)
    ensures x >= 0.0 && y >= 0.0 ==> x * y >= 0.0
  {
  }

  /** What the solver needs to know about a quotient `n / d`. */
  lemma QuotientFacts(n: real, d: real)
    requires d != 0.0
    ensures n / d * d == n
    ensures n == 0.0 ==> n / d == 0.0
    ensures n == d ==> n / d == 1.0
    ensures (0.0 <= n <= d || d <= n <= 0.0) ==> 0.0 <= n / d <= 1.0
  {
    if 0.0 < n <= d {
      assert n / d * d == n;
    } else if d <= n < 0.0 {
      assert n / d * d == n;
    }
  }

  lemma ScaledQuotient(c: real, d: real)
    requires d != 0.0
    ensures (c * d) / d == c
  {
  }

  /** Dividing by a positive number keeps the sign. */
  lemma QuotientSign(n: real, d: real)
    ensures d > 0.0 && n >= 0.0 ==> n / d >= 0.0
    ensures d > 0.0 && n <= 0.0 ==> n / d <= 0.0
    ensures d > 0.0 && n >= d ==> n / d >= 1.0
  {
    if d > 0.0 {
      assert n / d * d == n;
    }
  }

  /** The point a fraction `t` of the way from `a` to `b`. */
  function Lerp(a: real, b: real, t: real): (r: real)
    ensures t == 0.0 ==> r == a
    ensures t == 1.0 ==> r == b
    ensures a <= b && 0.0 <= t <= 1.0 ==> a <= r <= b
    ensures r - a == t * (b - a)
  {
    MulNonneg(t, b - a);
    MulNonneg(1.0 - t, b - a);
    (1.0 - t) * a + b * t
  }

  /** The fraction of the way from `a` to `b` at which `v` lies; the source
      divides by `b - a`, so the bounds must differ. */
  function InvLerp(a: real, b: real, v: real): (r: real)
    requires a != b
    ensures v == a ==> r == 0.0
    ensures v == b ==> r == 1.0
    ensures (a <= v <= b || b <= v <= a) ==> 0.0 <= r <= 1.0
    ensures Lerp(a, b, r) == v
  {
    QuotientFacts(v - a, b - a);
    (v - a) / (b - a)
  }

  /** Maps `v` from the interval [iMin, iMax] onto [oMin, oMax]. */
  function Remap(iMin: real, iMax: real, oMin: real, oMax: real, v: real): (r: real)
    requires iMin != iMax
    ensures v == iMin ==> r == oMin
    ensures v == iMax ==> r == oMax
    ensures oMin != oMax ==> InvLerp(oMin, oMax, r) == InvLerp(iMin, iMax, v)
  {
    var t := InvLerp(iMin, iMax, v);
    Lerp(oMin, oMax, t)
  }

  lemma InvLerpOfLerp(a: real, b: real, t: real)
    requires a != b
    ensures InvLerp(a, b, Lerp(a, b, t)) == t
  {
  }

  /** The middle of an interval lies half way along it. */
  lemma InvLerpOfMidpoint(a: real, b: real)
    requires a != b
    ensures InvLerp(a, b, (a + b) / 2.0) == 0.5
  {
    assert (a + b) / 2.0 - a == 0.5 * (b - a);
    ScaledQuotient(0.5, b - a);
  }

  /** Remapping onto the same interval changes nothing (the two calls in
      the mouse handler map [0, 1] onto [0, 1]). */
  lemma RemapUnitIdentity(v: real)
    ensures Remap(0.0, 1.0, 0.0, 1.0, v) == v
  {
  }

  /** Remapping there and back returns the original value. */
  lemma RemapRoundTrip(iMin: real, iMax: real, oMin: real, oMax: real, v: real)
    requires iMin != iMax && oMin != oMax
    ensures Remap(oMin, oMax, iMin, iMax, Remap(iMin, iMax, oMin, oMax, v)) == v
  {
  }

  /** The Bernstein form B(t) = (1-t)³P0 + 3(1-t)²tP1 + 3(1-t)t²P2 + t³P3. */
  function CubicBezier(p0: real, p1: real, p2: real, p3: real, t: real): (r: real)
    ensures t == 0.0 ==> r == p0
    ensures t == 1.0 ==> r == p3
  {
    var u := 1.0 - t;
    var tt := t * t;
    var uu := u * u;
    var uuu := uu * u;
    var ttt := tt * t;
    uuu * p0 + 3.0 * uu * t * p1 + 3.0 * u * tt * p2 + ttt * p3
  }

  /** B'(t) = 3(1-t)²(P1-P0) + 6(1-t)t(P2-P1) + 3t²(P3-P2). */
  function CubicBezierDerivative(p0: real, p1: real, p2: real, p3: real, t: real): (r: real)
    ensures t == 0.0 ==> r == 3.0 * (p1 - p0)
    ensures t == 1.0 ==> r == 3.0 * (p3 - p2)
  {
    var u := 1.0 - t;
    var uu := u * u;
    var tt := t * t;
    3.0 * uu * (p1 - p0) + 6.0 * u * t * (p2 - p1) + 3.0 * tt * (p3 - p2)
  }

  /** Half the second derivative of the curve at `t`. */
  function HalfSecondDerivative(p0: real, p1: real, p2: real, p3: real, t: real): real
  {
    3.0 * ((1.0 - t) * (p2 - 2.0 * p1 + p0) + t * (p3 - 2.0 * p2 + p1))
  }

  /** A sixth of the (constant) third derivative of the curve. */
  function SixthThirdDerivative(p0: real, p1: real, p2: real, p3: real): real
  {
    p3 - 3.0 * p2 + 3.0 * p1 - p0
  }

  /** The same curve in power (monomial) form, an independent reference
      for the Bernstein evaluation. */
  function PowerForm(p0: real, p1: real, p2: real, p3: real, t: real): real
  {
    p0 + t * (3.0 * (p1 - p0)) + t * t * (3.0 * (p2 - 2.0 * p1 + p0))
       + t * t * t * SixthThirdDerivative(p0, p1, p2, p3)
  }

  lemma BernsteinIsPowerForm(p0: real, p1: real, p2: real, p3: real, t: real)
    ensures CubicBezier(p0, p1, p2, p3, t) == PowerForm(p0, p1, p2, p3, t)
  {
  }

  /** Handles placed symmetrically about the middle of the endpoints put the
      curve's midpoint, t = 1/2, at that middle. */
  lemma MidpointOfSymmetricCurve(p0: real, p1: real, p2: real, p3: real)
    requires p1 + p2 == p0 + p3
    ensures CubicBezier(p0, p1, p2, p3, 0.5) == (p0 + p3) / 2.0
  {
  }

  /** The slope of the power form, differentiated term by term. */
  function PowerFormSlope(p0: real, p1: real, p2: real, p3: real, t: real): real
  {
    3.0 * (p1 - p0) + 2.0 * t * (3.0 * (p2 - 2.0 * p1 + p0))
      + 3.0 * t * t * SixthThirdDerivative(p0, p1, p2, p3)
  }

  /** Taylor expansion of the power form around `t`. */
  lemma PowerFormShift(p0: real, p1: real, p2: real, p3: real, t: real, h: real)
    ensures PowerForm(p0, p1, p2, p3, t + h)
         == PowerForm(p0, p1, p2, p3, t)
            + h * PowerFormSlope(p0, p1, p2, p3, t)
            + h * h * HalfSecondDerivative(p0, p1, p2, p3, t)
            + h * h * h * SixthThirdDerivative(p0, p1, p2, p3)
  {
    assert (t + h) * (t + h) == t * t + 2.0 * t * h + h * h;
    assert (t + h) * (t + h) * (t + h) == t * t * t + 3.0 * t * t * h + 3.0 * t * h * h + h * h * h;
  }

  lemma DerivativeIsPowerFormSlope(p0: real, p1: real, p2: real, p3: real, t: real)
    ensures CubicBezierDerivative(p0, p1, p2, p3, t) == PowerFormSlope(p0, p1, p2, p3, t)
  {
  }

  /** The exact Taylor expansion of the cubic around `t`: its linear
      coefficient is the derivative, so `CubicBezierDerivative` really is
      the slope of `CubicBezier`. */
  lemma DerivativeIsSlope(p0: real, p1: real, p2: real, p3: real, t: real, h: real)
    ensures CubicBezier(p0, p1, p2, p3, t + h)
         == CubicBezier(p0, p1, p2, p3, t)
            + h * CubicBezierDerivative(p0, p1, p2, p3, t)
            + h * h * HalfSecondDerivative(p0, p1, p2, p3, t)
            + h * h * h * SixthThirdDerivative(p0, p1, p2, p3)
  {
    BernsteinIsPowerForm(p0, p1, p2, p3, t);
    BernsteinIsPowerForm(p0, p1, p2, p3, t + h);
    DerivativeIsPowerFormSlope(p0, p1, p2, p3, t);
    PowerFormShift(p0, p1, p2, p3, t, h);
  }

  /** A weighted average with non-negative weights summing to one lies
      between any common bounds of the averaged values. */
  lemma WeightedAverageWithinBounds(w0: real, w1: real, w2: real, w3: real,
                                    p0: real, p1: real, p2: real, p3: real, lo: real, hi: real)
    requires w0 >= 0.0 && w1 >= 0.0 && w2 >= 0.0 && w3 >= 0.0
    requires w0 + w1 + w2 + w3 == 1.0
    requires lo <= p0 <= hi && lo <= p1 <= hi && lo <= p2 <= hi && lo <= p3 <= hi
    ensures lo <= w0 * p0 + w1 * p1 + w2 * p2 + w3 * p3 <= hi
  {
    MulNonneg(w0, p0 - lo);
    MulNonneg(w1, p1 - lo);
    MulNonneg(w2, p2 - lo);
    MulNonneg(w3, p3 - lo);
    MulNonneg(w0, hi - p0);
    MulNonneg(w1, hi - p1);
    MulNonneg(w2, hi - p2);
    MulNonneg(w3, hi - p3);
    assert lo * (w0 + w1 + w2 + w3) == lo;
    assert hi * (w0 + w1 + w2 + w3) == hi;
  }

  /** Convex-hull property: for t in [0, 1] the curve stays between any
      common bounds of its control points. */
  lemma BezierWithinBounds(p0: real, p1: real, p2: real, p3: real, t: real, lo: real, hi: real)
    requires 0.0 <= t <= 1.0
    requires lo <= p0 <= hi && lo <= p1 <= hi && lo <= p2 <= hi && lo <= p3 <= hi
    ensures lo <= CubicBezier(p0, p1, p2, p3, t) <= hi
  {
    var u := 1.0 - t;
    var uu, tt := u * u, t * t;
    MulNonneg(u, u);
    MulNonneg(t, t);
    MulNonneg(uu, u);
    MulNonneg(uu, t);
    MulNonneg(u, tt);
    MulNonneg(tt, t);
    var w0, w1, w2, w3 := uu * u, 3.0 * uu * t, 3.0 * u * tt, tt * t;
    assert w0 + w1 + w2 + w3 == 1.0;
    WeightedAverageWithinBounds(w0, w1, w2, w3, p0, p1, p2, p3, lo, hi);
  }

  /** A weighted sum of four values. */
  function WeightedSum(w0: real, w1: real, w2: real, w3: real,
                       p0: real, p1: real, p2: real, p3: real): real
  {
    w0 * p0 + w1 * p1 + w2 * p2 + w3 * p3
  }

  /** The Bernstein evaluation is the weighted sum of the control points
      with the four Bernstein weights. */
  lemma BezierIsWeightedSum(p0: real, p1: real, p2: real, p3: real, t: real)
    ensures var u := 1.0 - t;
            CubicBezier(p0, p1, p2, p3, t)
              == WeightedSum(u * u * u, 3.0 * (u * u) * t, 3.0 * u * (t * t), t * t * t, p0, p1, p2, p3)
  {
  }

  /** One term of a weighted sum of shifted, scaled values. */
  lemma AffineTerm(w: real, p: real, a: real, d: real)
    ensures w * (a + p * d) == w * a + d * (w * p)
  {
  }

  /** Weights summing to one commute with a shift and a scale. */
  lemma WeightedSumOfAffine(w0: real, w1: real, w2: real, w3: real,
                            p0: real, p1: real, p2: real, p3: real, a: real, d: real)
    requires w0 + w1 + w2 + w3 == 1.0
    ensures WeightedSum(w0, w1, w2, w3, a + p0 * d, a + p1 * d, a + p2 * d, a + p3 * d)
         == a + d * WeightedSum(w0, w1, w2, w3, p0, p1, p2, p3)
  {
    AffineTerm(w0, p0, a, d);
    AffineTerm(w1, p1, a, d);
    AffineTerm(w2, p2, a, d);
    AffineTerm(w3, p3, a, d);
    assert w0 * a + w1 * a + w2 * a + w3 * a == a * (w0 + w1 + w2 + w3);
  }

  /** The four Bernstein weights sum to one. */
  lemma BernsteinWeightsSumToOne(t: real)
    ensures var u := 1.0 - t;
            u * u * u + 3.0 * (u * u) * t + 3.0 * u * (t * t) + t * t * t == 1.0
  {
  }

  /** Shifting and scaling every control point shifts and scales the curve. */
  lemma BezierOfAffine(p0: real, p1: real, p2: real, p3: real, t: real, a: real, d: real)
    ensures CubicBezier(a + p0 * d, a + p1 * d, a + p2 * d, a + p3 * d, t)
         == a + d * CubicBezier(p0, p1, p2, p3, t)
  {
    var u := 1.0 - t;
    BernsteinWeightsSumToOne(t);
    BezierIsWeightedSum(a + p0 * d, a + p1 * d, a + p2 * d, a + p3 * d, t);
    BezierIsWeightedSum(p0, p1, p2, p3, t);
    WeightedSumOfAffine(u * u * u, 3.0 * (u * u) * t, 3.0 * u * (t * t), t * t * t,
                        p0, p1, p2, p3, a, d);
  }

  /** Affine invariance: interpolating every control point between `a` and
      `b` interpolates the curve in the same way, so normalising the control
      points normalises the curve. */
  lemma BezierOfLerp(p0: real, p1: real, p2: real, p3: real, t: real, a: real, b: real)
    ensures CubicBezier(Lerp(a, b, p0), Lerp(a, b, p1), Lerp(a, b, p2), Lerp(a, b, p3), t)
         == Lerp(a, b, CubicBezier(p0, p1, p2, p3, t))
  {
    var d := b - a;
    assert Lerp(a, b, p0) == a + p0 * d && Lerp(a, b, p1) == a + p1 * d;
    assert Lerp(a, b, p2) == a + p2 * d && Lerp(a, b, p3) == a + p3 * d;
    BezierOfAffine(p0, p1, p2, p3, t, a, d);
    var c := CubicBezier(p0, p1, p2, p3, t);
    assert Lerp(a, b, c) == a + c * d;
  }
}
