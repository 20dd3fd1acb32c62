/** Sub-routes of a vehicle's route and the directions it enters and leaves
    them in (route/route.go). */
module Route {
  import opened Points
  import opened Directions

  /** Sub-route kinds. */
  const Invalid := 0
  const Straight := 1
  const QTurn := 2
  const Oblique := 3
  const UTurn := 4
  const STurn := 5
  const Linkage := 9

  predicate IsKnownType(t: int)
  {
    t == Straight || t == QTurn || t == Oblique || t == UTurn || t == STurn
  }

  predicate IsTurnType(t: int)
  {
    t == QTurn || t == Oblique || t == UTurn || t == STurn
  }

  datatype Mark = Mark(Index: int, Position: IntPoint)

  function Abs(x: int): (r: int)
    ensures r >= 0 && (r == x || r == -x)
  {
    if x >= 0 then x else -x
  }

  lemma AbsNegate(x: int)
    ensures Abs(-x) == Abs(x)
  {
  }

  type Int32 = x: int | -0x8000_0000 <= x < 0x8000_0000

  /** Go's [6]int32 and [2]IntPoint arrays. */
  type Params6 = s: seq<Int32> | |s| == 6 witness [0, 0, 0, 0, 0, 0]
  type PointPair = s: seq<IntPoint> | |s| == 2 witness [IntPoint(0, 0), IntPoint(0, 0)]

  /** The fields of a sub-route that its direction logic reads. */
  datatype SubRoute = SubRoute(Type: int, MoveType: int, Start: IntPoint, End: IntPoint,
                               RefParams: Params6, RefPoints: PointPair)
  {
    /** The direction a vehicle enters the sub-route in and the direction of its
        second leg. */
    function InOutDirection(): (r: (Direction, Direction))
      ensures !IsKnownType(Type) ==> r == (DirErr, DirErr)
      ensures Type == Straight ==> r.0 == r.1 && IsValid(r.0)
      ensures IsTurnType(Type) ==>
                (IsXDirection(r.0) && IsYDirection(r.1)) || (IsYDirection(r.0) && IsXDirection(r.1))
    {
      if Type == Straight then
        if Start.X == End.X then
          if Start.Y < End.Y then (YInc, YInc) else (YDec, YDec)
        else
          if Start.Y < End.Y then (XInc, XInc) else (XDec, XDec)
      else if Type == QTurn then
        if Start.X == RefPoints[0].X then
          (if Start.Y < RefPoints[0].Y then YInc else YDec,
           if RefPoints[0].X < End.X then XInc else XDec)
        else
          (if Start.X < RefPoints[0].X then XInc else XDec,
           if RefPoints[0].Y < End.Y then YInc else YDec)
      else if Type == Oblique then
        if Abs(Start.X - End.X) == RefParams[0] then
          (if Start.Y < End.Y then YInc else YDec,
           if Start.X < End.X then XInc else XDec)
        else
          (if Start.X < End.X then XInc else XDec,
           if Start.Y < End.Y then YInc else YDec)
      else if Type == UTurn then
        if Start.X == RefPoints[0].X then
          // the source compares the start's Y with the second reference point's X
          (if Start.Y < RefPoints[1].X then YInc else YDec,
           if RefPoints[0].X < RefPoints[1].X then XInc else XDec)
        else
          (if Start.X < RefPoints[0].X then XInc else XDec,
           if RefPoints[0].Y < RefPoints[1].Y then YInc else YDec)
      else if Type == STurn then
        if Start.X == RefPoints[0].X then
          (if Start.Y < RefPoints[0].Y then YInc else YDec,
           if RefPoints[0].X < RefPoints[1].X then XInc else XDec)
        else
          (if Start.X < RefPoints[0].X then XInc else XDec,
           if RefPoints[0].Y < RefPoints[1].Y then YInc else YDec)
      else
        (DirErr, DirErr)
    }

    /** The heading (in degrees) of a vehicle at point p of the sub-route,
        reversed when the vehicle drives astern. */
    function HeadingOnSubRoute(p: IntPoint, isAstern: bool): (d: Degree)
      ensures !IsKnownType(Type) ==> d == -1.0
      ensures IsKnownType(Type) ==> d == 0.0 || d == 90.0 || d == 180.0 || d == 270.0
    {
      var (dirIn, assist) := InOutDirection();
      if !IsKnownType(Type) then -1.0
      else
        var heading :=
          if Type == QTurn then
            (if p.Equal(Start) then ToDegree(dirIn) else ToDegree(assist))
          else if Type == UTurn then
            (if p.Equal(Start) then ToDegree(dirIn) else ToDegree(Opposite(dirIn)))
          else ToDegree(dirIn);
        if isAstern then DegreeOpposite(heading) else heading
    }
  }

  /** A straight sub-route runs along Y when its ends share X, towards the
      larger Y; otherwise the source still chooses by comparing Y, so a
      horizontal segment (equal Y) always comes out as XDec. */
  lemma StraightDirections(sr: SubRoute)
    requires sr.Type == Straight
    ensures sr.Start.X == sr.End.X ==>
              sr.InOutDirection() == (if sr.Start.Y < sr.End.Y then (YInc, YInc) else (YDec, YDec))
    ensures sr.Start.X != sr.End.X ==>
              sr.InOutDirection() == (if sr.Start.Y < sr.End.Y then (XInc, XInc) else (XDec, XDec))
    ensures sr.Start.X != sr.End.X && sr.Start.Y == sr.End.Y ==> sr.InOutDirection() == (XDec, XDec)
  {
  }

  /** The two cases of route/route_test.go. */
  lemma InOutDirectionSamples()
    ensures SubRoute(QTurn, 10, IntPoint(199050, 22600), IntPoint(200350, 24000),
                     [400, 700, 1300, 0, 0, 0], [IntPoint(200350, 22600), IntPoint(0, 0)])
              .InOutDirection() == (XInc, YInc)
    ensures SubRoute(Oblique, 26, IntPoint(157450, 22600), IntPoint(154950, 21400),
                     [1200, 0, 0, 0, 0, 0], [IntPoint(0, 0), IntPoint(0, 0)])
              .InOutDirection() == (XDec, YDec)
  {
  }

  /** Driving astern reverses the heading of every known sub-route kind. */
  lemma AsternIsOpposite(sr: SubRoute, p: IntPoint)
    requires IsKnownType(sr.Type)
    ensures sr.HeadingOnSubRoute(p, true) == DegreeOpposite(sr.HeadingOnSubRoute(p, false))
    ensures DegreeOpposite(sr.HeadingOnSubRoute(p, true)) == sr.HeadingOnSubRoute(p, false)
  {
    DegreeOppositeInvolution(sr.HeadingOnSubRoute(p, false));
  }

  /** On a quarter turn the heading is the entry direction at the start point
      and the second leg's direction elsewhere. */
  lemma QTurnHeading(sr: SubRoute, p: IntPoint)
    requires sr.Type == QTurn
    ensures p == sr.Start ==> sr.HeadingOnSubRoute(p, false) == ToDegree(sr.InOutDirection().0)
    ensures p != sr.Start ==> sr.HeadingOnSubRoute(p, false) == ToDegree(sr.InOutDirection().1)
  {
  }

  /** Away from its start a U-turn heads back the way it came in. */
  lemma {:induction false} UTurnHeading(sr: SubRoute, p: IntPoint)
    requires sr.Type == UTurn && p != sr.Start
    ensures sr.HeadingOnSubRoute(p, false) == ToDegree(Opposite(sr.InOutDirection().0))
    ensures sr.HeadingOnSubRoute(p, false) == DegreeOpposite(sr.HeadingOnSubRoute(sr.Start, false))
  {
    OppositeCommutesWithToDegree(sr.InOutDirection().0);
  }
}
