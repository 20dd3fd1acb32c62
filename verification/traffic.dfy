/** A vehicle's position tests and the advance of its current route mark
    (traffic.go). The methods of AGV have value receivers: each works on a
    copy, so the caller's vehicle never changes. The model returns the copy
    as the method leaves it. */
module Traffic {
  import opened Wrappers
  import opened Tolerance
  import opened Points
  import opened Directions
  import Route

  const AGVWheelbase := 1200
  /** Tolerance along the direction of travel and across it. */
  const ToleranceParallel := 6.0
  const ToleranceVertical := 11.0

  /** Run states. */
  const Undefined := 0
  const Idle := 1
  const Run := 2
  const Fault := 3
  const Pause := 4
  const Manual := 5

  /** Motion states. */
  const MSUncertain := 0
  const MSStop := 1
  const MSStraight := 2
  const MSQTurn := 3
  const MSOblique := 4
  const MSUTurn := 5
  const MSSTurn := 6

  /** The fields of a vehicle that the modelled operations read or write. */
  datatype AGV = AGV(MotionStatus: int, Orientation: Direction, Position: FloatPoint,
                     Routes: seq<Route.SubRoute>,
                     Current: Route.Mark, CommandRM: Route.Mark, Claim: Route.Mark,
                     Trying: Route.Mark, Target: Route.Mark,
                     RunStatus: int, TryFailedCount: int)

  /** Standing or driving straight, within tolerance of p: the tighter
      tolerance along the heading, the looser across it. */
  predicate IsArrivalWithTolerance(v: AGV, p: IntPoint)
  {
    if v.MotionStatus != MSStop && v.MotionStatus != MSStraight then false
    else if v.Orientation == XInc || v.Orientation == XDec then
      FloatEqualTolerance(v.Position.X, p.ToFloatPoint().X, ToleranceParallel) &&
      FloatEqualTolerance(v.Position.Y, p.ToFloatPoint().Y, ToleranceVertical)
    else if v.Orientation == YInc || v.Orientation == YDec then
      FloatEqualTolerance(v.Position.X, p.ToFloatPoint().X, ToleranceVertical) &&
      FloatEqualTolerance(v.Position.Y, p.ToFloatPoint().Y, ToleranceParallel)
    else false
  }

  /** The guards read `XInc || (XDec && start.Y == end.Y)`: && binds tighter
      than ||, so only the decreasing orientations check that the line is
      axis-parallel. */
  predicate IsAGVOnLineWithTolerance(v: AGV, start: IntPoint, end: IntPoint)
  {
    if v.Orientation == XInc || (v.Orientation == XDec && start.Y == end.Y) then
      FloatEqualTolerance(start.ToFloatPoint().Y, v.Position.Y, ToleranceVertical)
    else if v.Orientation == YInc || (v.Orientation == YDec && start.X == end.X) then
      FloatEqualTolerance(start.ToFloatPoint().X, v.Position.X, ToleranceVertical)
    else false
  }

  predicate IsAGVOnSegmentWithTolerance(v: AGV, start: IntPoint, end: IntPoint)
  {
    if v.Orientation == XInc || (v.Orientation == XDec && start.Y == end.Y) then
      FloatEqualTolerance(start.ToFloatPoint().Y, v.Position.Y, ToleranceVertical) &&
      FloatInOpenInterval(v.Position.X, start.ToFloatPoint().X, end.ToFloatPoint().X, ToleranceParallel)
    else if v.Orientation == YInc || (v.Orientation == YDec && start.X == end.X) then
      FloatEqualTolerance(start.ToFloatPoint().X, v.Position.X, ToleranceVertical) &&
      FloatInOpenInterval(v.Position.Y, start.ToFloatPoint().Y, end.ToFloatPoint().Y, ToleranceParallel)
    else false
  }

  /** Whether the vehicle is on one of the straight legs of sub-route index.
      An oblique sub-route's two corner points are derived from its ends. */
  predicate IsAGVOnSubRoute(v: AGV, index: int)
    requires 0 <= index < |v.Routes|
  {
    var sr := v.Routes[index];
    if sr.Type == Route.Straight then
      IsAGVOnSegmentWithTolerance(v, sr.Start, sr.End)
    else if sr.Type == Route.QTurn then
      IsAGVOnSegmentWithTolerance(v, sr.Start, sr.RefPoints[0]) ||
      IsAGVOnSegmentWithTolerance(v, sr.RefPoints[1], sr.End)
    else if sr.Type == Route.Oblique then
      var (ref0, ref1) := ObliqueCorners(sr);
      IsAGVOnSegmentWithTolerance(v, sr.Start, ref0) || IsAGVOnSegmentWithTolerance(v, sr.End, ref1)
    else if sr.Type == Route.UTurn || sr.Type == Route.STurn then
      IsAGVOnSegmentWithTolerance(v, sr.Start, sr.RefPoints[0]) ||
      IsAGVOnSegmentWithTolerance(v, sr.End, sr.RefPoints[1])
    else false
  }

  /** The two corners of the rectangle spanned by an oblique sub-route's
      ends, in the order the source chooses them (the X difference is
      compared with the first parameter without taking its absolute value). */
  function ObliqueCorners(sr: Route.SubRoute): (r: (IntPoint, IntPoint))
    ensures {r.0, r.1} == {IntPoint(sr.Start.X, sr.End.Y), IntPoint(sr.End.X, sr.Start.Y)}
  {
    if sr.Start.X - sr.End.X == sr.RefParams[0] then
      (IntPoint(sr.Start.X, sr.End.Y), IntPoint(sr.End.X, sr.Start.Y))
    else
      (IntPoint(sr.End.X, sr.Start.Y), IntPoint(sr.Start.X, sr.End.Y))
  }

  /** The Stop/Straight search for the new mark index, from sub-route i up
      to the claimed index: the first sub-route the vehicle is on answers
      (the next index once the vehicle has arrived at its end). None is an
      index outside the route, where Go panics. */
  function StraightScan(v: AGV, i: int): (r: Option<int>)
    ensures 0 <= i && v.Claim.Index <= |v.Routes| ==> r.Some?
    ensures r.Some? && i <= v.Claim.Index ==>
              r.value == v.Current.Index || i <= r.value <= v.Claim.Index
    decreases v.Claim.Index - i
  {
    if i >= v.Claim.Index then Some(v.Current.Index)
    else if !(0 <= i < |v.Routes|) then None
    else if IsAGVOnSubRoute(v, i) then
      Some(if IsArrivalWithTolerance(v, v.Routes[i].End) && i < v.Claim.Index then i + 1 else i)
    else StraightScan(v, i + 1)
  }

  /** The index the copy's current mark holds when UpdateCurrentMark
      returns; None where Go panics on an index outside the route. */
  function MarkAfterUpdate(v: AGV): Option<int>
  {
    var cur := v.Current.Index;
    if cur == v.Claim.Index then Some(cur)
    else if v.MotionStatus == MSStop || v.MotionStatus == MSStraight then StraightScan(v, cur)
    else if v.MotionStatus == MSQTurn then
      if cur < v.CommandRM.Index + 1 then
        if !(0 <= cur + 1 < |v.Routes|) then None
        else
          var sr := v.Routes[cur + 1];
          if sr.Type == Route.QTurn &&
             FloatInCloseInterval(v.Position.X, sr.Start.ToFloatPoint().X, sr.End.ToFloatPoint().X, 0.3) &&
             FloatInCloseInterval(v.Position.Y, sr.Start.ToFloatPoint().Y, sr.End.ToFloatPoint().Y, 0.3)
          then Some(cur + 1) else Some(cur)
      else Some(cur)
    else if v.MotionStatus == MSOblique || v.MotionStatus == MSUTurn || v.MotionStatus == MSSTurn then
      if cur < v.Claim.Index + 1 then
        if !(0 <= cur + 1 < |v.Routes|) then None
        else if v.Routes[cur + 1].Type == TurnKind(v.MotionStatus) then Some(cur + 1)
        else Some(cur)
      else Some(cur)
    else Some(cur)
  }

  /** The sub-route kind each turning motion state advances over. */
  function TurnKind(ms: int): int
  {
    if ms == MSOblique then Route.Oblique
    else if ms == MSUTurn then Route.UTurn
    else if ms == MSSTurn then Route.STurn
    else Route.QTurn
  }

  /** Runs the body of UpdateCurrentMark on the receiver copy v and returns
      that copy; None where Go panics. */
  method UpdateCurrentMark(v: AGV) returns (r: Option<AGV>)
    ensures MarkAfterUpdate(v).None? ==> r.None?
    ensures MarkAfterUpdate(v).Some? ==>
              r == Some(v.(Current := v.Current.(Index := MarkAfterUpdate(v).value)))
  {
    if v.Current.Index == v.Claim.Index {
      return Some(v);
    }
    var newIdx := v.Current.Index;
    if v.MotionStatus == MSStop || v.MotionStatus == MSStraight {
      var i := newIdx;
      while i < v.Claim.Index
        invariant StraightScan(v, i) == StraightScan(v, v.Current.Index)
        invariant newIdx == v.Current.Index
        decreases v.Claim.Index - i
      {
        if !(0 <= i < |v.Routes|) {
          return None;
        }
        if IsAGVOnSubRoute(v, i) {
          if IsArrivalWithTolerance(v, v.Routes[i].End) && i < v.Claim.Index {
            newIdx := i + 1;
          } else {
            newIdx := i;
          }
          break;
        }
        i := i + 1;
      }
    } else if v.MotionStatus == MSQTurn {
      if v.Current.Index < v.CommandRM.Index + 1 {
        if !(0 <= v.Current.Index + 1 < |v.Routes|) {
          return None;
        }
        var sr := v.Routes[v.Current.Index + 1];
        if sr.Type == Route.QTurn &&
           FloatInCloseInterval(v.Position.X, sr.Start.ToFloatPoint().X, sr.End.ToFloatPoint().X, 0.3) &&
           FloatInCloseInterval(v.Position.Y, sr.Start.ToFloatPoint().Y, sr.End.ToFloatPoint().Y, 0.3) {
          newIdx := v.Current.Index + 1;
        }
      }
    } else if v.MotionStatus == MSOblique || v.MotionStatus == MSUTurn || v.MotionStatus == MSSTurn {
      if v.Current.Index < v.Claim.Index + 1 {
        if !(0 <= v.Current.Index + 1 < |v.Routes|) {
          return None;
        }
        if v.Routes[v.Current.Index + 1].Type == TurnKind(v.MotionStatus) {
          newIdx := v.Current.Index + 1;
        }
      }
    } else {
      return Some(v);
    }
    return Some(v.(Current := v.Current.(Index := newIdx)));
  }

  /** The receiver copy after Reset: every mark index zero, the claim moved
      to the vehicle's (truncated) position, the run state Idle. */
  function Reset(v: AGV): (r: AGV)
    ensures r.Current.Index == 0 && r.Claim.Index == 0 && r.Target.Index == 0 && r.CommandRM.Index == 0
    ensures r.Claim.Position == v.Position.ToIntPoint() && r.RunStatus == Idle
    ensures r.Routes == v.Routes && r.Position == v.Position && r.Trying == v.Trying
    ensures r.Current.Position == v.Current.Position && r.Target.Position == v.Target.Position &&
            r.CommandRM.Position == v.CommandRM.Position
    ensures r.MotionStatus == v.MotionStatus && r.Orientation == v.Orientation &&
            r.TryFailedCount == v.TryFailedCount
  {
    v.(Current := v.Current.(Index := 0), Claim := Route.Mark(0, v.Position.ToIntPoint()),
       Target := v.Target.(Index := 0), CommandRM := v.CommandRM.(Index := 0), RunStatus := Idle)
  }

  /** The receiver copy after ResetTrying: the trying mark back on the claim
      and no failed tries. */
  function ResetTrying(v: AGV): (r: AGV)
    ensures r.Trying == v.Claim && r.TryFailedCount == 0
    ensures r.Claim == v.Claim && r.Current == v.Current && r.Routes == v.Routes
    ensures r.Position == v.Position && r.Target == v.Target && r.CommandRM == v.CommandRM
    ensures r.RunStatus == v.RunStatus && r.MotionStatus == v.MotionStatus && r.Orientation == v.Orientation
  {
    v.(Trying := v.Claim, TryFailedCount := 0)
  }

  /** Arrival only while standing or driving straight, and then within the
      larger tolerance on both axes. */
  lemma ArrivalBounds(v: AGV, p: IntPoint)
    requires IsArrivalWithTolerance(v, p)
    ensures v.MotionStatus == MSStop || v.MotionStatus == MSStraight
    ensures IsValid(v.Orientation)
    ensures Abs(v.Position.X - p.X as real) < ToleranceVertical && Abs(v.Position.Y - p.Y as real) < ToleranceVertical
  {
  }

  /** Arrival along X is arrival along Y with the axes swapped. */
  lemma ArrivalAxesSwap(v: AGV, p: IntPoint)
    requires v.Orientation == XInc || v.Orientation == XDec
    ensures IsArrivalWithTolerance(v, p) ==
            IsArrivalWithTolerance(v.(Orientation := YInc, Position := FloatPoint(v.Position.Y, v.Position.X)),
                                   IntPoint(p.Y, p.X))
  {
  }

  /** The precedence of && over ||: an increasing orientation accepts a line
      that is not axis-parallel, the decreasing one refuses it. */
  lemma OnLinePrecedence(v: AGV)
    requires v.Position == FloatPoint(0.0, 0.0)
    ensures IsAGVOnLineWithTolerance(v.(Orientation := XInc), IntPoint(0, 0), IntPoint(100, 50))
    ensures !IsAGVOnLineWithTolerance(v.(Orientation := XDec), IntPoint(0, 0), IntPoint(100, 50))
  {
  }

  /** Being on a segment means being on its line, within 11 across it and
      within the ends widened by 6 along it. */
  lemma OnSegmentBounds(v: AGV, start: IntPoint, end: IntPoint)
    requires IsAGVOnSegmentWithTolerance(v, start, end)
    ensures IsAGVOnLineWithTolerance(v, start, end)
    ensures IsXDirection(v.Orientation) ==>
              Abs(start.Y as real - v.Position.Y) < ToleranceVertical &&
              Min(start.X as real, end.X as real) - ToleranceParallel < v.Position.X < Max(start.X as real, end.X as real) + ToleranceParallel
    ensures IsYDirection(v.Orientation) ==>
              Abs(start.X as real - v.Position.X) < ToleranceVertical &&
              Min(start.Y as real, end.Y as real) - ToleranceParallel < v.Position.Y < Max(start.Y as real, end.Y as real) + ToleranceParallel
    ensures IsValid(v.Orientation)
  {
  }

  /** Straight sub-routes test the segment between their ends, quarter turns
      either leg, unknown kinds nothing. */
  lemma OnSubRouteKinds(v: AGV, index: int)
    requires 0 <= index < |v.Routes|
    ensures v.Routes[index].Type == Route.Straight ==>
              IsAGVOnSubRoute(v, index) == IsAGVOnSegmentWithTolerance(v, v.Routes[index].Start, v.Routes[index].End)
    ensures v.Routes[index].Type == Route.QTurn ==>
              IsAGVOnSubRoute(v, index) ==
              (IsAGVOnSegmentWithTolerance(v, v.Routes[index].Start, v.Routes[index].RefPoints[0]) ||
               IsAGVOnSegmentWithTolerance(v, v.Routes[index].RefPoints[1], v.Routes[index].End))
    ensures !Route.IsKnownType(v.Routes[index].Type) ==> !IsAGVOnSubRoute(v, index)
  {
  }

  /** Nothing moves when the current mark is already the claimed one. */
  lemma UpdateAtClaim(v: AGV)
    requires v.Current.Index == v.Claim.Index
    ensures MarkAfterUpdate(v) == Some(v.Current.Index)
  {
  }

  /** Standing or driving straight, the mark stays within [Current, Claim]
      and the search cannot leave the route when the claim lies inside it. */
  lemma UpdateStraightBounds(v: AGV)
    requires v.MotionStatus == MSStop || v.MotionStatus == MSStraight
    requires v.Current.Index <= v.Claim.Index
    ensures MarkAfterUpdate(v).Some? ==> v.Current.Index <= MarkAfterUpdate(v).value <= v.Claim.Index
    ensures 0 <= v.Current.Index && v.Claim.Index <= |v.Routes| ==> MarkAfterUpdate(v).Some?
  {
  }

  /** The search leaves the mark alone when the vehicle is on none of the
      sub-routes it looks at. */
  lemma {:induction false} StraightScanNone(v: AGV, i: int)
    requires 0 <= i && v.Claim.Index <= |v.Routes|
    requires forall j :: i <= j < v.Claim.Index ==> !IsAGVOnSubRoute(v, j)
    ensures StraightScan(v, i) == Some(v.Current.Index)
    decreases v.Claim.Index - i
  {
    if i < v.Claim.Index {
      StraightScanNone(v, i + 1);
    }
  }

  /** The search answers from the first sub-route the vehicle is on: the
      next index once it has arrived at that sub-route's end. */
  lemma {:induction false} StraightScanFirst(v: AGV, i: int, j: int)
    requires 0 <= i <= j < v.Claim.Index <= |v.Routes|
    requires IsAGVOnSubRoute(v, j) && forall k :: i <= k < j ==> !IsAGVOnSubRoute(v, k)
    ensures StraightScan(v, i) == Some(if IsArrivalWithTolerance(v, v.Routes[j].End) then j + 1 else j)
    decreases j - i
  {
    if i < j {
      StraightScanFirst(v, i + 1, j);
    }
  }

  /** Turning, the mark moves at most one sub-route on. */
  lemma UpdateTurnStep(v: AGV)
    requires v.MotionStatus in {MSQTurn, MSOblique, MSUTurn, MSSTurn}
    ensures MarkAfterUpdate(v).Some? ==>
              MarkAfterUpdate(v).value == v.Current.Index || MarkAfterUpdate(v).value == v.Current.Index + 1
  {
  }

  /** Reset and ResetTrying settle after one application. */
  lemma ResetIdempotent(v: AGV)
    ensures Reset(Reset(v)) == Reset(v)
    ensures ResetTrying(ResetTrying(v)) == ResetTrying(v)
    ensures ResetTrying(Reset(v)).Trying == Route.Mark(0, v.Position.ToIntPoint())
  {
  }
}
