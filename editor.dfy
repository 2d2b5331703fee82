/** The curve profile editor: a 400 x 400 canvas holding two cubic Bézier
    curves (the red one, whose handles move horizontally, and the blue one,
    whose handles move vertically), the Newton-Raphson solver that inverts a
    curve on its horizontal axis, and the sampling calls built on it. */
module CurveProfileEditor {
  import opened CurveMath

  /** Width and height of the widget, which is fixed in size. */
  const Size: real := 400.0

  /** Default stopping criteria of the solver. */
  const DefaultTolerance: real := 0.0001
  const DefaultMaxIterations: int := 10

  /** Below this magnitude the slope counts as flat and the solver stops. */
  const SlopeEpsilon: real := 0.000001

  /** Clamps a curve parameter into [0, 1], as `max(0, min(1, t))`. */
  function Clamp01(t: real): (r: real)
    ensures 0.0 <= r <= 1.0
    ensures 0.0 <= t <= 1.0 ==> r == t
    ensures t < 0.0 ==> r == 0.0
    ensures t > 1.0 ==> r == 1.0
  {
    Max(0.0, Min(1.0, t))
  }

  /** The solver's starting point: the parameter at which the straight line
      from `p0` to `p3` reaches `target`, or one half when the endpoints
      coincide, clamped into [0, 1]. */
  function InitialGuess(target: real, p0: real, p3: real): (r: real)
    ensures 0.0 <= r <= 1.0
    ensures p3 == p0 ==> r == 0.5
    ensures p3 != p0 && target == p0 ==> r == 0.0
    ensures p3 != p0 && target == p3 ==> r == 1.0
    ensures p3 != p0 && (p0 <= target <= p3 || p3 <= target <= p0) ==> Lerp(p0, p3, r) == target
    ensures p0 < p3 && target <= p0 ==> r == 0.0
    ensures p0 < p3 && target >= p3 ==> r == 1.0
  {
    var guess := if p3 != p0 then (target - p0) / (p3 - p0) else 0.5;
    assert p3 != p0 ==> guess == InvLerp(p0, p3, target);
    QuotientSign(target - p0, p3 - p0);
    Clamp01(guess)
  }

  /** Why the solver stopped. */
  datatype Exit = WithinTolerance | FlatSlope | OutOfIterations

  /** What the solver ends with: the parameter it returns, the number of
      loop bodies it entered and why it stopped. */
  datatype Solve = Solve(t: real, steps: nat, exit: Exit)

  /** The solver's loop, as a recursion on the bodies still allowed (`fuel`)
      starting from the parameter `t`. */
  function Newton(target: real, p0: real, p1: real, p2: real, p3: real,
                  tolerance: real, t: real, fuel: nat): (r: Solve)
    ensures r.steps <= fuel
    ensures r.steps == 0 <==> fuel == 0
    ensures r.steps == 0 ==> r.t == t
    ensures r.exit == OutOfIterations ==> r.steps == fuel
    ensures 0.0 <= t <= 1.0 ==> 0.0 <= r.t <= 1.0
    ensures r.exit == WithinTolerance ==> Abs(CubicBezier(p0, p1, p2, p3, r.t) - target) < tolerance
    ensures r.exit == FlatSlope ==>
              Abs(CubicBezier(p0, p1, p2, p3, r.t) - target) >= tolerance &&
              Abs(CubicBezierDerivative(p0, p1, p2, p3, r.t)) < SlopeEpsilon
    decreases fuel
  {
    if fuel == 0 then
      Solve(t, 0, OutOfIterations)
    else
      var current := CubicBezier(p0, p1, p2, p3, t);
      if Abs(current - target) < tolerance then
        Solve(t, 1, WithinTolerance)
      else
        var slope := CubicBezierDerivative(p0, p1, p2, p3, t);
        if Abs(slope) < SlopeEpsilon then
          Solve(t, 1, FlatSlope)
        else
          var next := Newton(target, p0, p1, p2, p3, tolerance,
                             Clamp01(t - (current - target) / slope), fuel - 1);
          Solve(next.t, next.steps + 1, next.exit)
  }

  /** The whole solve: initial guess, then at most `maxIterations` Newton
      steps (none when it is zero or negative). */
  function FindT(target: real, p0: real, p1: real, p2: real, p3: real,
                 tolerance: real, maxIterations: int): (r: Solve)
    ensures 0.0 <= r.t <= 1.0
    ensures r.steps <= (if maxIterations < 0 then 0 else maxIterations)
    ensures r.exit == OutOfIterations ==> r.steps == (if maxIterations < 0 then 0 else maxIterations)
    ensures maxIterations <= 0 ==> r.t == InitialGuess(target, p0, p3)
    ensures r.exit == WithinTolerance ==> Abs(CubicBezier(p0, p1, p2, p3, r.t) - target) < tolerance
    ensures r.exit == FlatSlope ==>
              Abs(CubicBezier(p0, p1, p2, p3, r.t) - target) >= tolerance &&
              Abs(CubicBezierDerivative(p0, p1, p2, p3, r.t)) < SlopeEpsilon
  {
    Newton(target, p0, p1, p2, p3, tolerance, InitialGuess(target, p0, p3),
           if maxIterations < 0 then 0 else maxIterations)
  }

  /** A start value already within tolerance is returned unchanged after
      one check. */
  lemma NewtonKeepsAcceptedStart(target: real, p0: real, p1: real, p2: real, p3: real,
                                 tolerance: real, t: real, fuel: nat)
    requires fuel >= 1
    requires Abs(CubicBezier(p0, p1, p2, p3, t) - target) < tolerance
    ensures Newton(target, p0, p1, p2, p3, tolerance, t, fuel) == Solve(t, 1, WithinTolerance)
  {
  }

  /** With distinct endpoints and at least one step allowed, asking for the
      first endpoint returns t = 0 at the first check. */
  lemma FindTAtStart(p0: real, p1: real, p2: real, p3: real, tolerance: real, maxIterations: int)
    ensures p3 != p0 && tolerance > 0.0 && maxIterations >= 1 ==>
              FindT(p0, p0, p1, p2, p3, tolerance, maxIterations) == Solve(0.0, 1, WithinTolerance)
  {
  }

  /** Likewise asking for the last endpoint returns t = 1. */
  lemma FindTAtEnd(p0: real, p1: real, p2: real, p3: real, tolerance: real, maxIterations: int)
    ensures p3 != p0 && tolerance > 0.0 && maxIterations >= 1 ==>
              FindT(p3, p0, p1, p2, p3, tolerance, maxIterations) == Solve(1.0, 1, WithinTolerance)
  {
  }

  /** Started at t = 0 with a target at or below the first endpoint and the
      curve leaving that endpoint upwards, every Newton step points below 0
      and is clamped back to 0. */
  lemma {:induction false} NewtonStaysAtZero(target: real, p0: real, p1: real, p2: real, p3: real,
                                             tolerance: real, fuel: nat)
    requires target <= p0 && p0 <= p1
    ensures Newton(target, p0, p1, p2, p3, tolerance, 0.0, fuel).t == 0.0
    decreases fuel
  {
    if fuel > 0 {
      var current := CubicBezier(p0, p1, p2, p3, 0.0);
      var slope := CubicBezierDerivative(p0, p1, p2, p3, 0.0);
      if Abs(current - target) >= tolerance && Abs(slope) >= SlopeEpsilon {
        QuotientSign(current - target, slope);
        assert Clamp01(0.0 - (current - target) / slope) == 0.0;
        NewtonStaysAtZero(target, p0, p1, p2, p3, tolerance, fuel - 1);
      }
    }
  }

  /** Started at t = 1 with a target at or beyond the last endpoint and the
      curve arriving there upwards, every Newton step points beyond 1 and
      is clamped back to 1. */
  lemma {:induction false} NewtonStaysAtOne(target: real, p0: real, p1: real, p2: real, p3: real,
                                            tolerance: real, fuel: nat)
    requires target >= p3 && p2 <= p3
    ensures Newton(target, p0, p1, p2, p3, tolerance, 1.0, fuel).t == 1.0
    decreases fuel
  {
    if fuel > 0 {
      var current := CubicBezier(p0, p1, p2, p3, 1.0);
      var slope := CubicBezierDerivative(p0, p1, p2, p3, 1.0);
      if Abs(current - target) >= tolerance && Abs(slope) >= SlopeEpsilon {
        QuotientSign(current - target, slope);
        assert Clamp01(1.0 - (current - target) / slope) == 1.0;
        NewtonStaysAtOne(target, p0, p1, p2, p3, tolerance, fuel - 1);
      }
    }
  }

  /** A target at or below the start of an increasing curve whose first
      handle does not dip below the start is solved at t = 0. */
  lemma FindTBelowStart(target: real, p0: real, p1: real, p2: real, p3: real,
                        tolerance: real, maxIterations: int)
    requires p0 < p3 && target <= p0 && p0 <= p1
    ensures FindT(target, p0, p1, p2, p3, tolerance, maxIterations).t == 0.0
  {
    NewtonStaysAtZero(target, p0, p1, p2, p3, tolerance,
                      if maxIterations < 0 then 0 else maxIterations);
  }

  /** A target at or beyond the end of an increasing curve whose second
      handle does not rise above the end is solved at t = 1. */
  lemma FindTBeyondEnd(target: real, p0: real, p1: real, p2: real, p3: real,
                       tolerance: real, maxIterations: int)
    requires p0 < p3 && target >= p3 && p2 <= p3
    ensures FindT(target, p0, p1, p2, p3, tolerance, maxIterations).t == 1.0
  {
    NewtonStaysAtOne(target, p0, p1, p2, p3, tolerance,
                     if maxIterations < 0 then 0 else maxIterations);
  }

  /** A flat curve (all four control points equal) away from the target:
      the start guess is one half, the slope there is zero, and the solver
      stops after one body without dividing. */
  lemma FindTOnFlatCurve(c: real, target: real, tolerance: real, maxIterations: int)
    requires Abs(c - target) >= tolerance && maxIterations >= 1
    ensures FindT(target, c, c, c, c, tolerance, maxIterations) == Solve(0.5, 1, FlatSlope)
  {
  }

  /** The concrete curve 20, 200, 200, 380 solved for 290 with the default
      settings: the linear guess 3/4 is refined three times and the fourth
      check is within tolerance. */
  lemma FindTConvergesOnSampleCurve()
    ensures FindT(290.0, 20.0, 200.0, 200.0, 380.0, DefaultTolerance, DefaultMaxIterations)
            == Solve(107605051.0 / 134837370.0, 4, WithinTolerance)
  {
    var t0, t1, t2, t3 := 0.75, 0.8, 407.0 / 510.0, 107605051.0 / 134837370.0;
    assert InitialGuess(290.0, 20.0, 380.0) == t0;
    assert CubicBezier(20.0, 200.0, 200.0, 380.0, t0) == 2185.0 / 8.0;
    assert CubicBezierDerivative(20.0, 200.0, 200.0, 380.0, t0) == 675.0 / 2.0;
    assert Clamp01(t0 - (2185.0 / 8.0 - 290.0) / (675.0 / 2.0)) == t1;
    assert CubicBezier(20.0, 200.0, 200.0, 380.0, t1) == 7268.0 / 25.0;
    assert CubicBezierDerivative(20.0, 200.0, 200.0, 380.0, t1) == 1836.0 / 5.0;
    assert Clamp01(t1 - (7268.0 / 25.0 - 290.0) / (1836.0 / 5.0)) == t2;
    assert CubicBezier(20.0, 200.0, 200.0, 380.0, t2) == 106858208.0 / 368475.0;
    assert CubicBezierDerivative(20.0, 200.0, 200.0, 380.0, t2) == 528774.0 / 1445.0;
    assert Clamp01(t2 - (106858208.0 / 368475.0 - 290.0) / (528774.0 / 1445.0)) == t3;
    assert CubicBezier(20.0, 200.0, 200.0, 380.0, t3)
        == 1974814540326473697999946.0 / 6809705311383394990425.0;
    assert Newton(290.0, 20.0, 200.0, 200.0, 380.0, DefaultTolerance, t3, 7)
        == Solve(t3, 1, WithinTolerance);
    assert Newton(290.0, 20.0, 200.0, 200.0, 380.0, DefaultTolerance, t2, 8)
        == Solve(t3, 2, WithinTolerance);
    assert Newton(290.0, 20.0, 200.0, 200.0, 380.0, DefaultTolerance, t1, 9)
        == Solve(t3, 3, WithinTolerance);
    assert Newton(290.0, 20.0, 200.0, 200.0, 380.0, DefaultTolerance, t0, 10)
        == Solve(t3, 4, WithinTolerance);
  }

  /** Control points of one axis of a curve. */
  datatype Axis = Axis(p0: real, p1: real, p2: real, p3: real)

  /** A point of the normalised [0, 1] x [0, 1] animation space. */
  datatype Point = Point(x: real, y: real)

  /** The four normalised control points reported for saving a preset. */
  datatype CurveValues = CurveValues(p0: Point, p1: Point, p2: Point, p3: Point)

  function Evaluate(a: Axis, t: real): real
  {
    CubicBezier(a.p0, a.p1, a.p2, a.p3, t)
  }

  /** The editor widget: a margin around the canvas and the two handle
      positions, in widget pixels. */
  class Example {
    var margin: real
    var x1: real
    var y1: real
    var x2: real
    var y2: real

    /** Left and top edge of the canvas. */
    function Low(): real
      reads this
    {
      margin
    }

    /** Right and bottom edge of the canvas. */
    function High(): real
      reads this
    {
      Size - margin
    }

    /** The editor's invariant: a non-degenerate canvas with every handle
        coordinate inside it. */
    predicate Valid()
      reads this
    {
      0.0 <= margin < Size / 2.0 &&
      Low() <= x1 <= High() && Low() <= y1 <= High() &&
      Low() <= x2 <= High() && Low() <= y2 <= High()
    }

    constructor ()
      ensures Valid()
      ensures margin == 20.0
      ensures x1 == 200.0 && y1 == 200.0 && x2 == 200.0 && y2 == 200.0
    {
      margin := 20.0;
      x1, y1 := 200.0, 200.0;
      x2, y2 := 200.0, 200.0;
    }

    /** A coordinate clamped into the canvas, as `min(max(margin, v), 400 - margin)`. */
    function ClampToCanvas(v: real): (r: real)
      reads this
      ensures margin <= Size - margin ==> Low() <= r <= High()
      ensures Low() <= v <= High() ==> r == v
    {
      Min(Max(margin, v), Size - margin)
    }

    /** Dragging to the pixel (posX, posY): the first handle follows the
        pointer, the second one mirrors it (its x from the pointer's y and
        its y from the pointer's x), each clamped into the canvas. */
    method MouseMoveEvent(posX: int, posY: int)
      requires Valid()
      modifies this
      ensures Valid()
      ensures margin == old(margin)
      ensures x1 == ClampToCanvas(posX as real)
      ensures y1 == ClampToCanvas(posY as real)
      ensures x2 == ClampToCanvas(Size - posY as real)
      ensures y2 == ClampToCanvas(Size - posX as real)
    {
      var width, height := Size, Size;
      var pX := posX as real / width;
      var pY := posY as real / height;
      var percentageX := Remap(0.0, 1.0, 0.0, 1.0, pX);
      var percentageY := Remap(0.0, 1.0, 0.0, 1.0, pY);
      var x1Value := Min(Max(margin, posX as real), Size - margin);
      var y1Value := Min(Max(margin, posY as real), Size - margin);
      var x2Value := Min(Max(margin, Size * (1.0 - percentageY)), Size - margin);
      var y2Value := Min(Max(margin, Size * (1.0 - percentageX)), Size - margin);
      assert Size * (1.0 - percentageY) == Size - posY as real by {
        RemapUnitIdentity(pY);
      }
      assert Size * (1.0 - percentageX) == Size - posX as real by {
        RemapUnitIdentity(pX);
      }
      x1 := x1Value;
      y1 := y1Value;
      x2 := x2Value;
      y2 := y2Value;
    }

    /** Newton-Raphson inversion of one axis: a parameter in [0, 1] at which
        the curve is meant to reach `targetX`. */
    static method FindTForX(targetX: real, p0X: real, p1X: real, p2X: real, p3X: real,
                            tolerance: real, maxIterations: int) returns (t: real)
      ensures 0.0 <= t <= 1.0
      ensures t == FindT(targetX, p0X, p1X, p2X, p3X, tolerance, maxIterations).t
    {
      t := if p3X != p0X then (targetX - p0X) / (p3X - p0X) else 0.5;
      t := Max(0.0, Min(1.0, t));
      var n: nat := if maxIterations < 0 then 0 else maxIterations;
      for i := 0 to n
        invariant 0.0 <= t <= 1.0
        invariant Newton(targetX, p0X, p1X, p2X, p3X, tolerance, t, n - i).t
               == FindT(targetX, p0X, p1X, p2X, p3X, tolerance, maxIterations).t
      {
        var currentX := CubicBezier(p0X, p1X, p2X, p3X, t);
        if Abs(currentX - targetX) < tolerance {
          return;
        }
        var dxDt := CubicBezierDerivative(p0X, p1X, p2X, p3X, t);
        if Abs(dxDt) < SlopeEpsilon {
          break;
        }
        t := t - (currentX - targetX) / dxDt;
        t := Max(0.0, Min(1.0, t));
      }
    }

    /** Horizontal control coordinates of the red (`useLmb`) or blue curve. */
    function ControlX(useLmb: bool): Axis
      reads this
    {
      if useLmb then Axis(margin, x1, x2, Size - margin)
      else Axis(margin, margin, Size - margin, Size - margin)
    }

    /** Vertical control coordinates of the red (`useLmb`) or blue curve. */
    function ControlY(useLmb: bool): Axis
      reads this
    {
      if useLmb then Axis(margin, margin, Size - margin, Size - margin)
      else Axis(margin, y1, y2, Size - margin)
    }

    /** The parameter the solver finds, with the default settings, for the
        widget coordinate `xValue` on the chosen curve's horizontal axis. */
    function SolvedT(xValue: real, useLmb: bool): (t: real)
      reads this
      ensures 0.0 <= t <= 1.0
      ensures margin != Size / 2.0 && xValue == Low() ==> t == 0.0
      ensures margin != Size / 2.0 && xValue == High() ==> t == 1.0
    {
      var xs := ControlX(useLmb);
      FindTAtStart(xs.p0, xs.p1, xs.p2, xs.p3, DefaultTolerance, DefaultMaxIterations);
      FindTAtEnd(xs.p0, xs.p1, xs.p2, xs.p3, DefaultTolerance, DefaultMaxIterations);
      FindT(xValue, xs.p0, xs.p1, xs.p2, xs.p3, DefaultTolerance, DefaultMaxIterations).t
    }

    /** The height of the chosen curve above the widget coordinate `xValue`:
        solve the horizontal axis for t, evaluate the vertical axis there. */
    function SampleAt(xValue: real, useLmb: bool): (y: real)
      reads this
      ensures Valid() ==> Low() <= y <= High()
      ensures margin != Size / 2.0 && xValue == Low() ==> y == Low()
      ensures margin != Size / 2.0 && xValue == High() ==> y == High()
    {
      var ys, t := ControlY(useLmb), SolvedT(xValue, useLmb);
      if Valid() then
        BezierWithinBounds(ys.p0, ys.p1, ys.p2, ys.p3, t, Low(), High());
        Evaluate(ys, t)
      else
        Evaluate(ys, t)
    }

    method SampleCurveAtX(xValue: real, useLmb: bool) returns (yValue: real)
      ensures yValue == SampleAt(xValue, useLmb)
    {
      var p0X, p0Y, p1X, p1Y, p2X, p2Y, p3X, p3Y;
      if useLmb {
        p0X, p0Y := margin, margin;
        p1X, p1Y := x1, margin;
        p2X, p2Y := x2, Size - margin;
        p3X, p3Y := Size - margin, Size - margin;
      } else {
        p0X, p0Y := margin, margin;
        p1X, p1Y := margin, y1;
        p2X, p2Y := Size - margin, y2;
        p3X, p3Y := Size - margin, Size - margin;
      }
      assert ControlX(useLmb) == Axis(p0X, p1X, p2X, p3X);
      assert ControlY(useLmb) == Axis(p0Y, p1Y, p2Y, p3Y);
      var t := FindTForX(xValue, p0X, p1X, p2X, p3X, DefaultTolerance, DefaultMaxIterations);
      assert t == SolvedT(xValue, useLmb);
      yValue := CubicBezier(p0Y, p1Y, p2Y, p3Y, t);
    }

    /** The curve in animation units: normalised time in, normalised amount
        out, flipped because the widget's vertical axis points down. */
    function NormalizedAt(timeNormalized: real, useLmb: bool): (amount: real)
      reads this
      requires margin != Size / 2.0
      ensures Valid() ==> 0.0 <= amount <= 1.0
      ensures timeNormalized == 0.0 ==> amount == 1.0
      ensures timeNormalized == 1.0 ==> amount == 0.0
    {
      1.0 - InvLerp(Low(), High(), SampleAt(Lerp(Low(), High(), timeNormalized), useLmb))
    }

    method SampleCurveNormalized(timeNormalized: real, useLmb: bool) returns (amountNormalized: real)
      requires margin != Size / 2.0
      ensures amountNormalized == NormalizedAt(timeNormalized, useLmb)
    {
      var xValue := Lerp(margin, Size - margin, timeNormalized);
      var yValue := SampleCurveAtX(xValue, useLmb);
      amountNormalized := InvLerp(margin, Size - margin, yValue);
      amountNormalized := 1.0 - amountNormalized;
    }

    /** The control points of the chosen curve in normalised coordinates:
        the endpoints are the corners (0, 0) and (1, 1), the locked handle
        coordinates are 0 and 1, and the free ones map back to the handle
        fields under the canvas interpolation. */
    function GetCurveValues(useLmb: bool): (r: CurveValues)
      reads this
      requires margin != Size / 2.0
      ensures r.p0 == Point(0.0, 0.0) && r.p3 == Point(1.0, 1.0)
      ensures useLmb ==> r.p1.y == 0.0 && r.p2.y == 1.0 &&
                         Lerp(Low(), High(), r.p1.x) == x1 && Lerp(Low(), High(), r.p2.x) == x2
      ensures !useLmb ==> r.p1.x == 0.0 && r.p2.x == 1.0 &&
                          Lerp(Low(), High(), r.p1.y) == y1 && Lerp(Low(), High(), r.p2.y) == y2
      ensures Valid() ==> 0.0 <= r.p1.x <= 1.0 && 0.0 <= r.p1.y <= 1.0 &&
                          0.0 <= r.p2.x <= 1.0 && 0.0 <= r.p2.y <= 1.0
    {
      if useLmb then
        CurveValues(Point(0.0, 0.0),
                    Point(InvLerp(margin, Size - margin, x1), 0.0),
                    Point(InvLerp(margin, Size - margin, x2), 1.0),
                    Point(1.0, 1.0))
      else
        CurveValues(Point(0.0, 0.0),
                    Point(0.0, InvLerp(margin, Size - margin, y1)),
                    Point(1.0, InvLerp(margin, Size - margin, y2)),
                    Point(1.0, 1.0))
    }
  }

  /** On a valid editor a coordinate left of the canvas is solved at t = 0
      and one right of it at t = 1: the handles stay inside the canvas, so
      the horizontal axis leaves its start and reaches its end upwards. */
  lemma SolvedTBeyondCanvas(e: Example, xValue: real, useLmb: bool)
    requires e.Valid()
    ensures xValue <= e.Low() ==> e.SolvedT(xValue, useLmb) == 0.0
    ensures xValue >= e.High() ==> e.SolvedT(xValue, useLmb) == 1.0
  {
    var xs := e.ControlX(useLmb);
    if xValue <= e.Low() {
      FindTBelowStart(xValue, xs.p0, xs.p1, xs.p2, xs.p3, DefaultTolerance, DefaultMaxIterations);
    }
    if xValue >= e.High() {
      FindTBeyondEnd(xValue, xs.p0, xs.p1, xs.p2, xs.p3, DefaultTolerance, DefaultMaxIterations);
    }
  }

  /** So sampling left of the canvas gives its top edge and sampling right
      of it gives its bottom edge. */
  lemma SampleBeyondCanvas(e: Example, xValue: real, useLmb: bool)
    requires e.Valid()
    ensures xValue <= e.Low() ==> e.SampleAt(xValue, useLmb) == e.Low()
    ensures xValue >= e.High() ==> e.SampleAt(xValue, useLmb) == e.High()
  {
    SolvedTBeyondCanvas(e, xValue, useLmb);
  }

  /** A normalised time before 0 gives amount 1 and one after 1 gives
      amount 0, the same as the ends of the time range. */
  lemma NormalizedBeyondUnit(e: Example, timeNormalized: real, useLmb: bool)
    requires e.Valid()
    ensures timeNormalized <= 0.0 ==> e.NormalizedAt(timeNormalized, useLmb) == 1.0
    ensures timeNormalized >= 1.0 ==> e.NormalizedAt(timeNormalized, useLmb) == 0.0
  {
    var lo, hi := e.Low(), e.High();
    var x := Lerp(lo, hi, timeNormalized);
    MulNonneg(-timeNormalized, hi - lo);
    MulNonneg(timeNormalized - 1.0, hi - lo);
    assert timeNormalized <= 0.0 ==> x <= lo;
    assert timeNormalized >= 1.0 ==> x >= hi;
    SampleBeyondCanvas(e, x, useLmb);
  }

  /** The normalised control points that `GetCurveValues` reports describe
      the very curve that is sampled: lerping the reported curve into the
      canvas gives the widget curve at every parameter, and the normalised
      sample is the reported curve's height flipped, `1 - y`, at the
      parameter the solver finds. */
  lemma SampleMatchesReportedCurve(e: Example, timeNormalized: real, useLmb: bool, t: real)
    requires e.margin != Size / 2.0
    ensures var v := e.GetCurveValues(useLmb);
            Lerp(e.Low(), e.High(), CubicBezier(v.p0.x, v.p1.x, v.p2.x, v.p3.x, t))
              == Evaluate(e.ControlX(useLmb), t) &&
            Lerp(e.Low(), e.High(), CubicBezier(v.p0.y, v.p1.y, v.p2.y, v.p3.y, t))
              == Evaluate(e.ControlY(useLmb), t)
    ensures var v := e.GetCurveValues(useLmb);
            var s := e.SolvedT(Lerp(e.Low(), e.High(), timeNormalized), useLmb);
            e.NormalizedAt(timeNormalized, useLmb)
              == 1.0 - CubicBezier(v.p0.y, v.p1.y, v.p2.y, v.p3.y, s)
  {
    var v := e.GetCurveValues(useLmb);
    var lo, hi := e.Low(), e.High();
    BezierOfLerp(v.p0.x, v.p1.x, v.p2.x, v.p3.x, t, lo, hi);
    BezierOfLerp(v.p0.y, v.p1.y, v.p2.y, v.p3.y, t, lo, hi);
    var s := e.SolvedT(Lerp(lo, hi, timeNormalized), useLmb);
    var ny := CubicBezier(v.p0.y, v.p1.y, v.p2.y, v.p3.y, s);
    BezierOfLerp(v.p0.y, v.p1.y, v.p2.y, v.p3.y, s, lo, hi);
    assert e.SampleAt(Lerp(lo, hi, timeNormalized), useLmb) == Lerp(lo, hi, ny);
    InvLerpOfLerp(lo, hi, ny);
  }

  /** Handles placed symmetrically about the centre of the canvas (as the
      initial ones, all at the centre, are) make the sampled curve map the
      middle of the animation to the middle of the amount range. */
  lemma SymmetricHandlesMapMidpointToMidpoint(e: Example, useLmb: bool)
    requires e.margin != Size / 2.0
    requires useLmb ==> e.x1 + e.x2 == Size
    requires !useLmb ==> e.y1 + e.y2 == Size
    ensures e.NormalizedAt(0.5, useLmb) == 0.5
  {
    var lo, hi := e.Low(), e.High();
    var xs, ys := e.ControlX(useLmb), e.ControlY(useLmb);
    assert Lerp(lo, hi, 0.5) == Size / 2.0;
    assert e.SolvedT(Size / 2.0, useLmb) == 0.5 by {
      assert (xs.p0 + xs.p3) / 2.0 == Size / 2.0;
      FindTOnSymmetricCurve(xs.p0, xs.p1, xs.p2, xs.p3, DefaultTolerance, DefaultMaxIterations);
    }
    assert e.SampleAt(Size / 2.0, useLmb) == Size / 2.0 by {
      assert (ys.p0 + ys.p3) / 2.0 == Size / 2.0;
      MidpointOfSymmetricCurve(ys.p0, ys.p1, ys.p2, ys.p3);
    }
    assert InvLerp(lo, hi, Size / 2.0) == 0.5 by {
      assert (lo + hi) / 2.0 == Size / 2.0;
      InvLerpOfMidpoint(lo, hi);
    }
  }

  /** A curve whose handles are placed symmetrically about the middle of its
      endpoints is solved at its middle value by the first guess, t = 1/2. */
  lemma FindTOnSymmetricCurve(p0: real, p1: real, p2: real, p3: real,
                              tolerance: real, maxIterations: int)
    requires p0 != p3 && p1 + p2 == p0 + p3
    requires tolerance > 0.0 && maxIterations >= 1
    ensures FindT((p0 + p3) / 2.0, p0, p1, p2, p3, tolerance, maxIterations)
         == Solve(0.5, 1, WithinTolerance)
  {
    var mid := (p0 + p3) / 2.0;
    assert InitialGuess(mid, p0, p3) == 0.5 by {
      InvLerpOfMidpoint(p0, p3);
    }
    assert Abs(CubicBezier(p0, p1, p2, p3, 0.5) - mid) < tolerance by {
      MidpointOfSymmetricCurve(p0, p1, p2, p3);
    }
    NewtonKeepsAcceptedStart(mid, p0, p1, p2, p3, tolerance, 0.5, maxIterations);
  }
}
