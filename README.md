# Curve profile editor: cubic Bézier remapping

A model of the mathematical core of `curveProfileEditor.py`, a small
animation-profile editor. The editor shows a 400 x 400 canvas with two
cubic Bézier curves from the top-left corner to the bottom-right corner of
the canvas (inset by a margin):

- the red curve, whose two handles move horizontally (`x1`, `x2`);
- the blue curve, whose two handles move vertically (`y1`, `y2`).

The curve maths is modelled in module `CurveMath` (`curve_math.dfy`):

- linear interpolation, its inverse and remapping;
- the Bernstein evaluation of a cubic on one axis and its derivative.

The editor is modelled in module `CurveProfileEditor` (`editor.dfy`):

- the Newton-Raphson solver that inverts a curve on its horizontal axis;
- the widget as a class with the fields `margin`, `x1`, `y1`, `x2`, `y2`;
- the mouse handler that overwrites the four handle fields;
- the sampling calls that turn the curve into an animation remapping;
- the report of the control points in normalised form.

All quantities are exact `real`s. The widget size is the constant 400: the
widget is fixed at 400 x 400 (curveProfileEditor.py:85), and the sampling
and clamping code uses the literal 400.

The solver loop is written as a method, `Example.FindTForX`. It is proved
against the recursive function `Newton`, one call per loop body. `Newton`
returns a `Solve` value with three parts:

- the parameter the loop ends with;
- the number of loop bodies entered;
- why the loop stopped: within tolerance, flat slope, or out of iterations.

The bounds of the solver are proved about that function:

- the result lies in [0, 1];
- at most `max_iterations` bodies run;
- a stop for tolerance really is within tolerance;
- a stop for a flat slope really has a slope below 1e-6.

Dafny checks every real division for a zero divisor. So the solver, its
initial guess and the Newton step are proved never to divide by zero.

The editor's invariant `Example.Valid()` says two things. The margin is in
[0, 200), so the canvas is not degenerate. Every handle coordinate lies in
[margin, 400 - margin]. The constructor, which models the initial values of
`__init__`, establishes it, and `MouseMoveEvent` preserves it.

Behaviour of the code worth noting:

- `sample_curve_normalized` flips its result, so it returns 1.0 at time 0
  and 0.0 at time 1.
- `get_curve_values` reports the same curve unflipped, with `p0 = (0, 0)`
  and `p3 = (1, 1)`. `SampleMatchesReportedCurve` proves that the
  normalised sample is `1 - y` of the reported curve.
- A negative `max_iterations` gives an empty `range` in the code, so the
  model runs no loop body in that case.

## Model

| member | source | states |
|---|---|---|
| `CurveMath.Lerp` | curveProfileEditor.py:17-18 | gives `a` at t = 0 and `b` at t = 1; stays within [a, b] for t in [0, 1]; moves `t * (b - a)` away from `a` |
| `CurveMath.InvLerp` | curveProfileEditor.py:20-21 | needs distinct bounds; gives 0 at `a` and 1 at `b`; lies in [0, 1] for a value between the bounds; `Lerp` of the result gives back the value |
| `CurveMath.Remap` | curveProfileEditor.py:23-25 | maps `iMin` to `oMin` and `iMax` to `oMax`; keeps the relative position of the value in its interval |
| `CurveMath.InvLerpOfLerp` | curveProfileEditor.py:17-21 | inverse interpolation undoes interpolation for distinct bounds |
| `CurveMath.InvLerpOfMidpoint` | curveProfileEditor.py:20-21 | the middle of an interval lies half way along it |
| `CurveMath.RemapUnitIdentity` | curveProfileEditor.py:172-173 | remapping [0, 1] onto [0, 1] is the identity |
| `CurveMath.RemapRoundTrip` | curveProfileEditor.py:23-25 | remapping there and back returns the original value |
| `CurveMath.CubicBezier` | curveProfileEditor.py:27-36 | the curve starts at `p0` (t = 0) and ends at `p3` (t = 1) |
| `CurveMath.CubicBezierDerivative` | curveProfileEditor.py:38-45 | the slope is `3(p1 - p0)` at t = 0 and `3(p3 - p2)` at t = 1 |
| `CurveMath.BernsteinIsPowerForm` | curveProfileEditor.py:27-36 | the Bernstein evaluation equals the power-form cubic with the same control points |
| `CurveMath.DerivativeIsSlope` | curveProfileEditor.py:27-45 | exact Taylor expansion of the curve around t, whose linear coefficient is `CubicBezierDerivative`: the derivative is the curve's slope |
| `CurveMath.MidpointOfSymmetricCurve` | curveProfileEditor.py:27-36 | handles symmetric about the middle of the endpoints put B(1/2) at that middle |
| `CurveMath.BezierWithinBounds` | curveProfileEditor.py:27-36 | convex hull: for t in [0, 1] the curve stays within any bounds of its control points |
| `CurveMath.BezierOfLerp` | curveProfileEditor.py:27-36 | affine invariance: interpolating the control points interpolates the curve |
| `CurveProfileEditor.Clamp01` | curveProfileEditor.py:219 | the clamp lies in [0, 1]; is the identity inside; gives the nearest end outside |
| `CurveProfileEditor.InitialGuess` | curveProfileEditor.py:217-219 | lies in [0, 1]; is 1/2 for coinciding endpoints; is 0 at target `p0` and 1 at target `p3`; hits the target on the straight line from `p0` to `p3`; for increasing endpoints, a target at or below `p0` gives 0 and one at or beyond `p3` gives 1 |
| `CurveProfileEditor.Newton` | curveProfileEditor.py:221-242 | result in [0, 1] when started there; at most `fuel` bodies; all of them when out of iterations; a tolerance stop is within tolerance; a flat-slope stop has slope below 1e-6 and is not within tolerance |
| `CurveProfileEditor.FindT` | curveProfileEditor.py:217-242 | result always in [0, 1], also with no loop body; at most `max_iterations` bodies, none when it is 0 or negative; the guess itself when no body runs; a tolerance stop is within tolerance; a flat-slope stop has slope below 1e-6 and is not within tolerance |
| `CurveProfileEditor.NewtonKeepsAcceptedStart` | curveProfileEditor.py:223-227 | a start already within tolerance is returned after one check |
| `CurveProfileEditor.FindTAtStart` | curveProfileEditor.py:217-227 | with distinct endpoints, positive tolerance and one allowed body, target `p0` returns t = 0 at the first check |
| `CurveProfileEditor.FindTAtEnd` | curveProfileEditor.py:217-227 | under the same conditions, target `p3` returns t = 1 at the first check |
| `CurveProfileEditor.NewtonStaysAtZero` | curveProfileEditor.py:221-240 | from t = 0, with the target at or below `p0` and `p0 <= p1`, every step is clamped back to 0, for any number of bodies |
| `CurveProfileEditor.NewtonStaysAtOne` | curveProfileEditor.py:221-240 | from t = 1, with the target at or beyond `p3` and `p2 <= p3`, every step is clamped back to 1 |
| `CurveProfileEditor.FindTBelowStart` | curveProfileEditor.py:217-242 | on increasing endpoints with `p0 <= p1`, a target at or below `p0` is solved at t = 0 |
| `CurveProfileEditor.FindTBeyondEnd` | curveProfileEditor.py:217-242 | on increasing endpoints with `p2 <= p3`, a target at or beyond `p3` is solved at t = 1 |
| `CurveProfileEditor.FindTOnFlatCurve` | curveProfileEditor.py:217-234 | four equal control points away from the target: guess 1/2, flat slope, stop after one body |
| `CurveProfileEditor.FindTConvergesOnSampleCurve` | curveProfileEditor.py:203-242 | curve 20, 200, 200, 380 solved for 290 with the defaults: within tolerance at the fourth check, at t = 107605051/134837370 |
| `CurveProfileEditor.FindTOnSymmetricCurve` | curveProfileEditor.py:217-227 | a symmetric curve is solved at its middle value by the first guess, t = 1/2 |
| `CurveProfileEditor.Example.constructor` | curveProfileEditor.py:69-75 | margin 20, all handle coordinates 200, and the editor invariant holds |
| `CurveProfileEditor.Example.ClampToCanvas` | curveProfileEditor.py:175-179 | the clamp lies in [margin, 400 - margin] and is the identity inside it |
| `CurveProfileEditor.Example.MouseMoveEvent` | curveProfileEditor.py:161-185 | handle 1 follows the pointer, clamped; handle 2 mirrors it (x from 400 - pointer y, y from 400 - pointer x), clamped; margin unchanged; the invariant is kept |
| `CurveProfileEditor.Example.FindTForX` | curveProfileEditor.py:203-242 | the loop returns a t in [0, 1] and equals the solver specification `FindT`, whose bounds are proved above |
| `CurveProfileEditor.Example.SolvedT` | curveProfileEditor.py:255-269 | solves the horizontal control coordinates `ControlX` of the chosen curve; the parameter lies in [0, 1]; it is 0 at the canvas's left edge and 1 at its right edge |
| `CurveProfileEditor.Example.SampleAt` | curveProfileEditor.py:244-274 | evaluates the vertical control coordinates `ControlY` at `SolvedT`; the sampled height stays within the canvas when the invariant holds; the left edge samples the top, the right edge the bottom |
| `CurveProfileEditor.Example.SampleCurveAtX` | curveProfileEditor.py:244-274 | picks the chosen curve's control points, solves x and evaluates y, as `SampleAt` specifies |
| `CurveProfileEditor.Example.NormalizedAt` | curveProfileEditor.py:276-301 | amount 1 at time 0 and 0 at time 1 (the flip); amount in [0, 1] when the invariant holds |
| `CurveProfileEditor.Example.SampleCurveNormalized` | curveProfileEditor.py:276-301 | interpolates time into the canvas, samples, inverse-interpolates and flips, as `NormalizedAt` specifies |
| `CurveProfileEditor.Example.GetCurveValues` | curveProfileEditor.py:303-327 | `p0 = (0, 0)` and `p3 = (1, 1)`; the locked coordinates are 0 and 1; the free ones map back to the handle fields; all lie in [0, 1] under the invariant |
| `CurveProfileEditor.SolvedTBeyondCanvas` | curveProfileEditor.py:217-269 | on a valid editor, a coordinate left of the canvas is solved at t = 0 and one right of it at t = 1 |
| `CurveProfileEditor.SampleBeyondCanvas` | curveProfileEditor.py:244-274 | on a valid editor, sampling left of the canvas gives its top edge and right of it its bottom edge |
| `CurveProfileEditor.NormalizedBeyondUnit` | curveProfileEditor.py:276-301 | on a valid editor, a time before 0 gives amount 1 and a time after 1 gives amount 0 |
| `CurveProfileEditor.SampleMatchesReportedCurve` | curveProfileEditor.py:276-327 | the reported normalised curve, interpolated into the canvas, is the sampled curve; the normalised sample is `1 - y` of the reported curve at the solved parameter |
| `CurveProfileEditor.SymmetricHandlesMapMidpointToMidpoint` | curveProfileEditor.py:276-301 | handles symmetric about the canvas centre (such as the initial ones) map time 1/2 to amount 1/2 |

## Left out

- Painting (`paintEvent`, `drawRectangle`, `drawDots`, `drawBezierCurve`, `drawLine`) and the repaint request `self.update()`: toolkit calls with no logic.
- Window setup in `__init__` and `initUI` (flags, colours, title, geometry), and the `lmb`/`rmb` button flags set by `mousePressEvent`/`mouseReleaseEvent`: toolkit state read only by painting.
- The live size read `self.geometry().width()/height()` in `mouseMoveEvent`: the widget has a fixed 400 x 400 size, so the constant 400 stands in for it.
- `_get_maya_window` and the global `_UI` singleton in `main`: calls into the host application and process-global state.
- Floating-point rounding: the model computes over exact reals. No claim is made about convergence rates of the solver, or about it reaching tolerance in general (only on the concrete curve above).
- CurveMath.InvLerp: requires distinct bounds; the code raises a division-by-zero error there instead.
- CurveMath.Remap: requires distinct input bounds, for the same reason.
- CurveProfileEditor.Example.NormalizedAt: requires a margin other than 200, so that the canvas interval is not empty; the editor's margin is always 20.
- CurveProfileEditor.Example.SampleCurveNormalized: requires a margin other than 200, as `NormalizedAt` does.
- CurveProfileEditor.Example.GetCurveValues: requires a margin other than 200, as `NormalizedAt` does.
- CurveProfileEditor.Example.MouseMoveEvent: requires the editor invariant, so that the clamp interval is not empty. The code clamps with any margin, but its margin is always 20.
