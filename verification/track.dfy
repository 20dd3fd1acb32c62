/** Curve bookkeeping of the track stepper (track/track.go): a curve
    f(x, y) = a*x^2 + b*y^2 + c*x*y + d*x + e*y + f between a start and an
    end point, its classification, straight-line coefficients, the unit
    conversion of conic records, and one step along a vertical line. The
    conic solvers the stepper uses for the other curve kinds are not part
    of this model. */
module Track {
  import opened Wrappers
  import opened Tolerance
  import opened Points

  /** Curve kinds: a general conic, a vertical line x = const, a line
      solvable for y, a curve quadratic in x and linear in y. */
  const XYQ := 0
  const XL := 1
  const XYL := 2
  const XQYL := 3

  /** Results of a step. */
  const NotFound := 0
  const StartPoint := 1
  const CenterPoint := 2
  const EndPoint := 3

  /** Go's [6]float64 coefficient array. */
  type Coeffs = s: seq<real> | |s| == 6 witness [0.0, 0.0, 0.0, 0.0, 0.0, 0.0]

  datatype Function = Function(Type: int, Start: FloatPoint, End: FloatPoint, sign: real, P: Coeffs)

  function Evaluate(f: Function, p: FloatPoint): real
  {
    f.P[0] * (p.X * p.X) + f.P[1] * (p.Y * p.Y) + f.P[2] * p.X * p.Y + f.P[3] * p.X + f.P[4] * p.Y + f.P[5]
  }

  /** The point test has no absolute value: every point where f is below
      50, however negative, counts as on the curve. */
  predicate IsPointOnFunction(f: Function, p: FloatPoint)
  {
    Evaluate(f, p) < 50.0
  }

  /** Both end points lie exactly on the curve (the error message is not
      modelled). */
  predicate Verify(f: Function)
  {
    Evaluate(f, f.Start) == 0.0 && Evaluate(f, f.End) == 0.0
  }

  /** The kind, chosen in the order XYQ, XL, XYL, XQYL. */
  function RecognizeType(f: Function): (r: Function)
    ensures r == f.(Type := r.Type)
    ensures r.Type == XYQ || r.Type == XL || r.Type == XYL || r.Type == XQYL
  {
    if !FloatEqual(f.P[1], 0.0) then f.(Type := XYQ)
    else if FloatEqual(f.P[2] * f.Start.X + f.P[4], 0.0) then f.(Type := XL)
    else if FloatEqual(f.P[0], 0.0) && FloatEqual(f.P[2], 0.0) then f.(Type := XYL)
    else f.(Type := XQYL)
  }

  /** The direction of travel: for a conic the given section sign (its
      computation is not modelled), for a vertical line +1 towards larger Y
      and -1 otherwise; the other kinds keep their sign. */
  function RecognizeSign(f: Function, xyqSign: int): (r: Function)
    ensures r == f.(sign := r.sign)
    ensures f.Type != XYQ && f.Type != XL ==> r == f
  {
    if f.Type == XYQ then f.(sign := xyqSign as real)
    else if f.Type == XL then f.(sign := if f.Start.Y < f.End.Y then 1.0 else -1.0)
    else f
  }

  /** The straight-line coefficients as written: k*x - y + b for a sloped
      line and -x for a vertical one, whatever its X. */
  function CalcLineFunc(f: Function): (r: Function)
    ensures r == f.(P := r.P)
    ensures r.P[0] == 0.0 && r.P[1] == 0.0 && r.P[2] == 0.0
  {
    if f.Start.X == f.End.X then
      f.(P := [0.0, 0.0, 0.0, -1.0, 0.0, 0.0])
    else
      var k := (f.End.Y - f.Start.Y) / (f.End.X - f.Start.X);
      var b := f.End.Y - k * f.End.X;
      f.(P := [0.0, 0.0, 0.0, k, -1.0, b])
  }

  /** The straight-line coefficients with the vertical line x = Start.X
      written as -x + Start.X. */
  function CalcLineFuncFixed(f: Function): (r: Function)
    ensures r == f.(P := r.P)
    ensures r.P[0] == 0.0 && r.P[1] == 0.0 && r.P[2] == 0.0
    ensures f.Start.X != f.End.X ==> r == CalcLineFunc(f)
  {
    if f.Start.X == f.End.X then
      f.(P := [0.0, 0.0, 0.0, -1.0, 0.0, f.Start.X])
    else
      CalcLineFunc(f)
  }

  /** The value of a curve with no quadratic terms is linear in the point. */
  lemma EvaluateLinear(f: Function, p: FloatPoint)
    requires f.P[0] == 0.0 && f.P[1] == 0.0 && f.P[2] == 0.0
    ensures Evaluate(f, p) == f.P[3] * p.X + f.P[4] * p.Y + f.P[5]
  {
  }

  /** Both ends of a verified curve pass the point test, but so does every
      point where f is far below zero: with f = -x, the point (1000, 0). */
  lemma PointTestOneSided(f: Function)
    ensures Verify(f) ==> IsPointOnFunction(f, f.Start) && IsPointOnFunction(f, f.End)
    ensures var g := f.(P := [0.0, 0.0, 0.0, -1.0, 0.0, 0.0]);
            IsPointOnFunction(g, FloatPoint(1000.0, 0.0)) && Evaluate(g, FloatPoint(1000.0, 0.0)) == -1000.0
  {
  }

  /** A sloped line through Start and End passes through both. */
  lemma {:induction false} CalcLineFuncSloped(f: Function)
    requires f.Start.X != f.End.X
    ensures Verify(CalcLineFunc(f))
    ensures CalcLineFunc(f).P[4] == -1.0
  {
    var r := CalcLineFunc(f);
    var dx, dy := f.End.X - f.Start.X, f.End.Y - f.Start.Y;
    var k := dy / dx;
    assert k * dx == dy;
    EvaluateLinear(r, f.Start);
    EvaluateLinear(r, f.End);
    assert Evaluate(r, f.Start) == k * f.Start.X - f.Start.Y + f.End.Y - k * f.End.X;
    assert k * f.Start.X - k * f.End.X == -(k * dx);
  }

  /** As written, a vertical line passes through its ends only on the Y
      axis: x = 5 from (5, 0) to (5, 10) fails Verify. */
  lemma CalcLineFuncVerticalFails(f: Function)
    requires f.Start.X == f.End.X && f.Start.X != 0.0
    ensures !Verify(CalcLineFunc(f))
    ensures !Verify(CalcLineFunc(Function(XL, FloatPoint(5.0, 0.0), FloatPoint(5.0, 10.0), 0.0, [0.0, 0.0, 0.0, 0.0, 0.0, 0.0])))
  {
    EvaluateLinear(CalcLineFunc(f), f.Start);
  }

  /** The corrected coefficients pass through both ends of every line. */
  lemma {:induction false} CalcLineFuncFixedVerifies(f: Function)
    ensures Verify(CalcLineFuncFixed(f))
  {
    if f.Start.X == f.End.X {
      EvaluateLinear(CalcLineFuncFixed(f), f.Start);
      EvaluateLinear(CalcLineFuncFixed(f), f.End);
    } else {
      CalcLineFuncSloped(f);
    }
  }

  /** A curve with no quadratic terms is a vertical line (XL) exactly when
      its y coefficient is below 0.008 in magnitude, and XYL otherwise; so
      line coefficients classify vertical lines as XL and sloped ones as
      XYL. */
  lemma {:induction false} RecognizeLineType(f: Function)
    requires f.P[0] == 0.0 && f.P[1] == 0.0 && f.P[2] == 0.0
    ensures RecognizeType(f).Type == (if Abs(f.P[4]) < 0.008 then XL else XYL)
    ensures RecognizeType(CalcLineFunc(f)).Type == (if f.Start.X == f.End.X then XL else XYL)
    ensures RecognizeType(CalcLineFuncFixed(f)).Type == (if f.Start.X == f.End.X then XL else XYL)
  {
    FloatEqualZero(0.0);
    FloatEqualZero(f.P[4]);
    FloatEqualZero(-1.0);
    assert f.P[2] * f.Start.X + f.P[4] == f.P[4];
    var c := CalcLineFunc(f);
    assert c.P[2] * c.Start.X + c.P[4] == c.P[4];
    var d := CalcLineFuncFixed(f);
    assert d.P[2] * d.Start.X + d.P[4] == d.P[4];
  }

  /** The kinds in priority order: a conic whenever the y^2 coefficient is
      not negligible; then a vertical line when the y slope at Start.X is
      negligible; then a line when the x^2 and x*y terms are; otherwise a
      curve quadratic in x. */
  lemma RecognizeTypePriority(f: Function)
    ensures RecognizeType(f).Type == XYQ <==> !FloatEqual(f.P[1], 0.0)
    ensures RecognizeType(f).Type == XL <==> FloatEqual(f.P[1], 0.0) && FloatEqual(f.P[2] * f.Start.X + f.P[4], 0.0)
    ensures RecognizeType(f).Type == XYL <==>
              FloatEqual(f.P[1], 0.0) && !FloatEqual(f.P[2] * f.Start.X + f.P[4], 0.0) &&
              FloatEqual(f.P[0], 0.0) && FloatEqual(f.P[2], 0.0)
    ensures RecognizeType(f).Type == XQYL <==>
              FloatEqual(f.P[1], 0.0) && !FloatEqual(f.P[2] * f.Start.X + f.P[4], 0.0) &&
              !(FloatEqual(f.P[0], 0.0) && FloatEqual(f.P[2], 0.0))
  {
  }

  /** Only a non-negligible y^2 coefficient makes a conic. */
  lemma RecognizeConic(f: Function)
    ensures RecognizeType(f).Type == XYQ <==> Abs(f.P[1]) >= 0.008
  {
    FloatEqualZero(f.P[1]);
  }

  /** On a vertical line the sign points from Start towards End. */
  lemma RecognizeSignTowardsEnd(f: Function, xyqSign: int)
    requires f.Type == XL
    ensures var r := RecognizeSign(f, xyqSign);
            (r.sign == 1.0 || r.sign == -1.0) && r.sign * (f.End.Y - f.Start.Y) >= 0.0
  {
  }

  /** A conic record of the track data: three points in metres, offset by
      7 m along X, and two radii. */
  datatype QuadraticCurve = QuadraticCurve(StartPoint: FloatPoint, CenterPoint: FloatPoint, EndPoint: FloatPoint,
                                           RA: real, RB: real, PHI: real)

  const StandardizeShift := FloatPoint(-7.0, 0.0)

  /** Converts to the controller's frame: each point shifted by (-7, 0) and
      scaled by 100, both radii scaled by 100, the angle kept. */
  function Standardize(q: QuadraticCurve): (r: QuadraticCurve)
    ensures r.PHI == q.PHI
  {
    q.(StartPoint := q.StartPoint.Shift(StandardizeShift).Scale(100.0),
       CenterPoint := q.CenterPoint.Shift(StandardizeShift).Scale(100.0),
       EndPoint := q.EndPoint.Shift(StandardizeShift).Scale(100.0),
       RA := q.RA * 100.0, RB := q.RB * 100.0)
  }

  /** The conversion back: scale by 1/100, then shift by (7, 0). */
  function Unstandardize(q: QuadraticCurve): QuadraticCurve
  {
    q.(StartPoint := q.StartPoint.Scale(0.01).Shift(StandardizeShift.SymmetryOrigin()),
       CenterPoint := q.CenterPoint.Scale(0.01).Shift(StandardizeShift.SymmetryOrigin()),
       EndPoint := q.EndPoint.Scale(0.01).Shift(StandardizeShift.SymmetryOrigin()),
       RA := q.RA * 0.01, RB := q.RB * 0.01)
  }

  /** Standardizing can be undone, so no two records collide. */
  lemma StandardizeRoundTrip(q: QuadraticCurve)
    ensures Unstandardize(Standardize(q)) == q
    ensures Standardize(q).StartPoint == FloatPoint((q.StartPoint.X - 7.0) * 100.0, q.StartPoint.Y * 100.0)
    ensures Standardize(q).CenterPoint == FloatPoint((q.CenterPoint.X - 7.0) * 100.0, q.CenterPoint.Y * 100.0)
    ensures Standardize(q).EndPoint == FloatPoint((q.EndPoint.X - 7.0) * 100.0, q.EndPoint.Y * 100.0)
    ensures Standardize(q).RA == 100.0 * q.RA && Standardize(q).RB == 100.0 * q.RB
  {
  }

  /** A *Function: recognizeType, recognizeSign and calcLineFunc update the
      function they point at in place. */
  class FunctionRef {
    var f: Function

    constructor (f0: Function)
      ensures f == f0
    {
      f := f0;
    }

    method ApplyRecognizeType()
      modifies this
      ensures f == RecognizeType(old(f))
    {
      var t := XQYL;
      if !FloatEqual(f.P[1], 0.0) {
        t := XYQ;
      } else if FloatEqual(f.P[2] * f.Start.X + f.P[4], 0.0) {
        t := XL;
      } else if FloatEqual(f.P[0], 0.0) && FloatEqual(f.P[2], 0.0) {
        t := XYL;
      }
      f := f.(Type := t);
    }

    /** xyqSign stands for the section sign the conic solver would compute. */
    method ApplyRecognizeSign(xyqSign: int)
      modifies this
      ensures f == RecognizeSign(old(f), xyqSign)
    {
      if f.Type == XYQ {
        f := f.(sign := xyqSign as real);
      } else if f.Type == XL {
        if f.Start.Y < f.End.Y {
          f := f.(sign := 1.0);
        } else {
          f := f.(sign := -1.0);
        }
      }
    }

    /** Writes the line coefficients as written: a sloped line then passes
        through both ends, a vertical one gets -x whatever its X. */
    method ApplyCalcLineFunc()
      modifies this
      ensures f == CalcLineFunc(old(f))
      ensures old(f).Start.X != old(f).End.X ==> Verify(f)
      ensures old(f).Start.X == old(f).End.X ==> f.P == [0.0, 0.0, 0.0, -1.0, 0.0, 0.0]
    {
      var g := f;
      if g.Start.X == g.End.X {
        f := g.(P := [0.0, 0.0, 0.0, -1.0, 0.0, 0.0]);
      } else {
        CalcLineFuncSloped(g);
        var k := (g.End.Y - g.Start.Y) / (g.End.X - g.Start.X);
        var b := g.End.Y - k * g.End.X;
        assert CalcLineFunc(g).P[3] == k;
        assert CalcLineFunc(g).P[5] == b;
        f := g.(P := [0.0, 0.0, 0.0, k, -1.0, b]);
      }
    }
  }

  /** A *QuadraticCurve, which standardize converts in place. */
  class QuadraticCurveRef {
    var q: QuadraticCurve

    constructor (q0: QuadraticCurve)
      ensures q == q0
    {
      q := q0;
    }

    method ApplyStandardize()
      modifies this
      ensures q == Standardize(old(q))
      ensures Unstandardize(q) == old(q)
    {
      StandardizeRoundTrip(q);
      q := q.(StartPoint := q.StartPoint.Shift(StandardizeShift).Scale(100.0));
      q := q.(CenterPoint := q.CenterPoint.Shift(StandardizeShift).Scale(100.0));
      q := q.(EndPoint := q.EndPoint.Shift(StandardizeShift).Scale(100.0));
      q := q.(RA := q.RA * 100.0);
      q := q.(RB := q.RB * 100.0);
    }
  }

  /** The candidate next point: on a vertical line current moved by sign *
      interval in Y, on the other kinds the point `solved` their conic
      solver finds (the solvers are not modelled, so it is given). */
  function Candidate(f: Function, current: FloatPoint, interval: real, solved: FloatPoint): FloatPoint
  {
    if f.Type == XL then FloatPoint(f.Start.X, current.Y + f.sign * interval) else solved
  }

  /** Whether the candidate is still within the end range, widened by 0.01:
      in Y on a vertical line, in X on the other kinds. */
  predicate CandidateInRange(f: Function, next: FloatPoint)
  {
    if f.Type == XL then FloatInCloseInterval(next.Y, f.Start.Y, f.End.Y, 0.01)
    else FloatInCloseInterval(next.X, f.Start.X, f.End.X, 0.01)
  }

  /** One step of the stepper from current. An unset current (zero) answers
      the start point and unknown kinds answer (0, 0) and NotFound. A
      candidate out of range answers the end; one too close to current to
      leave it panics (None); one that reaches the end answers the end; any
      other is a centre point. */
  function NextPoint(f: Function, current: FloatPoint, interval: real, solved: FloatPoint): (r: Option<(FloatPoint, int)>)
    ensures r.Some? ==> r.value.1 in {NotFound, StartPoint, CenterPoint, EndPoint}
    ensures r.Some? && r.value.1 == EndPoint ==> r.value.0 == f.End
    ensures r.Some? && r.value.1 == StartPoint ==> r.value.0 == f.Start
    ensures r.Some? && r.value.1 == CenterPoint ==>
              !r.value.0.Equal(current) && !r.value.0.Equal(f.End) &&
              FloatInCloseInterval(r.value.0.X, f.Start.X, f.End.X, 0.01)
  {
    if current.Equal(FloatPointZero) then Some((f.Start, StartPoint))
    else if !(f.Type == XYQ || f.Type == XL || f.Type == XYL || f.Type == XQYL) then
      Some((FloatPoint(0.0, 0.0), NotFound))
    else
      var next := Candidate(f, current, interval, solved);
      if !CandidateInRange(f, next) then Some((f.End, EndPoint))
      else if next.Equal(current) then None
      else if next.Equal(f.End) then Some((f.End, EndPoint))
      else Some((next, CenterPoint))
  }

  /** How far a point still is from the end of a vertical line, measured
      in the direction of travel; it is negative past the end. */
  function Remaining(f: Function, p: FloatPoint): real
  {
    if f.sign == 1.0 then f.End.Y - p.Y else p.Y - f.End.Y
  }

  /** How far a point is from the start of a vertical line, measured in
      the direction of travel. */
  function Travelled(f: Function, p: FloatPoint): real
  {
    if f.sign == 1.0 then p.Y - f.Start.Y else f.Start.Y - p.Y
  }

  /** A vertical line whose sign recognizeSign set, away from the Y axis so
      that no point on it reads as unset. */
  predicate VerticalTrack(f: Function)
  {
    f.Type == XL && (f.sign == 1.0 || f.sign == -1.0) && Remaining(f, f.Start) >= 0.0 &&
    Abs(f.Start.X) >= 0.008
  }

  /** One step on a vertical line from a point within the end range
      (widened by 0.01): the step never answers the start or NotFound; a
      centre point is current moved by the interval towards the end, so
      the remaining distance drops by exactly the interval, and it stays
      within the widened range. */
  lemma {:induction false} NextPointVerticalStep(f: Function, current: FloatPoint, interval: real, solved: FloatPoint)
    requires VerticalTrack(f) && interval > 0.0
    requires current.X == f.Start.X && Remaining(f, current) >= -0.01 && Travelled(f, current) >= -0.01
    ensures var r := NextPoint(f, current, interval, solved);
            r.None? || r.value.1 == EndPoint || r.value.1 == CenterPoint
    ensures var r := NextPoint(f, current, interval, solved);
            r.Some? && r.value.1 == CenterPoint ==>
              r.value.0.X == f.Start.X &&
              Remaining(f, r.value.0) == Remaining(f, current) - interval &&
              Remaining(f, r.value.0) >= -0.01 && Travelled(f, r.value.0) >= -0.01
  {
    FloatEqualZero(current.X);
    assert !current.Equal(FloatPointZero);
    var next := FloatPoint(f.Start.X, current.Y + f.sign * interval);
    assert Candidate(f, current, interval, solved) == next;
    if f.sign == 1.0 {
      assert next.Y == current.Y + interval;
    } else {
      assert next.Y == current.Y - interval;
    }
  }

  /** The stepper applied up to n times on a vertical line, stopping at the
      first answer that is not a centre point. */
  function Walk(f: Function, current: FloatPoint, interval: real, n: nat): (r: Option<(FloatPoint, int)>)
    ensures r.Some? && r.value.1 == EndPoint ==> r.value.0 == f.End
    decreases n
  {
    if n == 0 then Some((current, CenterPoint))
    else
      match NextPoint(f, current, interval, FloatPointZero)
      case None => None
      case Some((p, k)) => if k == CenterPoint then Walk(f, p, interval, n - 1) else Some((p, k))
  }

  /** Repeated steps along a vertical line end: once n steps of the
      interval cover the remaining distance (plus the 0.01 of the range),
      the walk has answered the end, or it has panicked on a step too small
      to leave current. */
  lemma {:induction false} WalkReachesEnd(f: Function, current: FloatPoint, interval: real, n: nat)
    requires VerticalTrack(f) && interval > 0.0
    requires current.X == f.Start.X && Remaining(f, current) >= -0.01 && Travelled(f, current) >= -0.01
    requires n as real * interval > Remaining(f, current) + 0.01
    ensures var r := Walk(f, current, interval, n);
            r.None? || r.value == (f.End, EndPoint)
    decreases n
  {
    assert n > 0;
    NextPointVerticalStep(f, current, interval, FloatPointZero);
    var r := NextPoint(f, current, interval, FloatPointZero);
    if r.Some? && r.value.1 == CenterPoint {
      var p := r.value.0;
      assert (n - 1) as real * interval == n as real * interval - interval;
      WalkReachesEnd(f, p, interval, n - 1);
    }
  }

  /** A vertical line away from the Y axis, once recognizeSign has set its
      sign, is walked from its start to its end (or to a panic) in as many
      steps as the interval needs to cover the distance between its ends. */
  lemma {:induction false} RecognizedVerticalWalk(f: Function, xyqSign: int, interval: real, n: nat)
    requires f.Type == XL && Abs(f.Start.X) >= 0.008 && interval > 0.0
    requires n as real * interval > Abs(f.End.Y - f.Start.Y) + 0.01
    ensures VerticalTrack(RecognizeSign(f, xyqSign))
    ensures var g := RecognizeSign(f, xyqSign);
            var r := Walk(g, g.Start, interval, n);
            r.None? || r.value == (f.End, EndPoint)
  {
    var g := RecognizeSign(f, xyqSign);
    assert Remaining(g, g.Start) == Abs(f.End.Y - f.Start.Y);
    WalkReachesEnd(g, g.Start, interval, n);
  }

  /** A vertical line's centre points stay on the line x = Start.X, within
      the end range, whatever the solver would have found. */
  lemma NextPointOnLine(f: Function, current: FloatPoint, interval: real, solved: FloatPoint)
    requires f.Type == XL
    requires NextPoint(f, current, interval, solved).Some? && NextPoint(f, current, interval, solved).value.1 == CenterPoint
    ensures var p := NextPoint(f, current, interval, solved).value.0;
            p.X == f.Start.X && p.Y == current.Y + f.sign * interval &&
            FloatInCloseInterval(p.Y, f.Start.Y, f.End.Y, 0.01)
    ensures forall other: FloatPoint :: NextPoint(f, current, interval, other) == NextPoint(f, current, interval, solved)
  {
  }

  /** An unset current always answers the start point, and unknown kinds
      answer NotFound. */
  lemma NextPointStartAndUnknown(f: Function, current: FloatPoint, interval: real, solved: FloatPoint)
    ensures NextPoint(f, FloatPointZero, interval, solved) == Some((f.Start, StartPoint))
    ensures !current.Equal(FloatPointZero) && !(0 <= f.Type <= 3) ==>
              NextPoint(f, current, interval, solved) == Some((FloatPointZero, NotFound))
  {
    FloatPointEqualReflexive(FloatPointZero);
  }

  /** Steps of a vertical line from (100, 0) to (100, 5000) going up by 10:
      from Y = 100 the step reaches Y = 110, but from Y = 2000 the step to
      2010 is within the relative tolerance of current and Go panics. */
  lemma NextPointSteps()
    ensures var f := Function(XL, FloatPoint(100.0, 0.0), FloatPoint(100.0, 5000.0), 1.0,
                              [0.0, 0.0, 0.0, -1.0, 0.0, 100.0]);
            NextPoint(f, FloatPoint(100.0, 100.0), 10.0, FloatPointZero) == Some((FloatPoint(100.0, 110.0), CenterPoint)) &&
            NextPoint(f, FloatPoint(100.0, 2000.0), 10.0, FloatPointZero).None? &&
            NextPoint(f, FloatPoint(100.0, 4995.0), 10.0, FloatPointZero) == Some((FloatPoint(100.0, 5000.0), EndPoint))
  {
  }
}
