/** Travel directions and headings (util/direction.go). A Direction is a Go
    int, so every integer is a value of the type and the tables send the ones
    outside XInc..YDec to an error value. A Degree is a float64. */
module Directions {
  import opened Tolerance

  type Direction = int
  type Degree = real

  const DirErr: Direction := 0
  const XInc: Direction := 1
  const XDec: Direction := 2
  const YInc: Direction := 3
  const YDec: Direction := 4

  predicate IsValid(d: Direction)
  {
    d == XInc || d == XDec || d == YInc || d == YDec
  }

  predicate IsXDirection(d: Direction)
  {
    d == XInc || d == XDec
  }

  predicate IsYDirection(d: Direction)
  {
    d == YInc || d == YDec
  }

  function Opposite(d: Direction): (r: Direction)
    ensures IsValid(d) <==> IsValid(r)
    ensures IsXDirection(r) == IsXDirection(d) && IsYDirection(r) == IsYDirection(d)
    ensures IsValid(d) ==> r != d
  {
    if d == XInc then XDec
    else if d == XDec then XInc
    else if d == YInc then YDec
    else if d == YDec then YInc
    else DirErr
  }

  function DirectionString(d: Direction): string
  {
    if d == XInc then "XInc"
    else if d == XDec then "XDec"
    else if d == YInc then "YInc"
    else if d == YDec then "YDec"
    else "Direction Error"
  }

  function ToDegree(d: Direction): (r: Degree)
    ensures IsValid(d) <==> 0.0 <= r < 360.0
  {
    if d == XInc then 0.0
    else if d == XDec then 180.0
    else if d == YInc then 90.0
    else if d == YDec then 270.0
    else -1.0
  }

  /** The opposite of the four axis headings; everything else is -1. */
  function DegreeOpposite(d: Degree): (r: Degree)
    ensures (d == 0.0 || d == 90.0 || d == 180.0 || d == 270.0) <==> r != -1.0
  {
    if d == 0.0 then 180.0
    else if d == 180.0 then 0.0
    else if d == 90.0 then 270.0
    else if d == 270.0 then 90.0
    else -1.0
  }

  predicate DegreeEqual(d: Degree, q: Degree)
  {
    FloatEqual(d, q)
  }

  function DegreeSymmetryXAxis(d: Degree): Degree
  {
    360.0 - d
  }

  lemma OppositeInvolution(d: Direction)
    ensures IsValid(d) ==> Opposite(Opposite(d)) == d
    ensures !IsValid(d) ==> Opposite(d) == DirErr
  {
  }

  lemma ToDegreeTable(d: Direction)
    ensures ToDegree(XInc) == 0.0 && ToDegree(YInc) == 90.0
    ensures ToDegree(XDec) == 180.0 && ToDegree(YDec) == 270.0
    ensures !IsValid(d) ==> ToDegree(d) == -1.0
  {
  }

  lemma DegreeOppositeInvolution(d: Degree)
    ensures (d == 0.0 || d == 90.0 || d == 180.0 || d == 270.0) ==> DegreeOpposite(DegreeOpposite(d)) == d
    ensures !(d == 0.0 || d == 90.0 || d == 180.0 || d == 270.0) ==> DegreeOpposite(d) == -1.0
  {
  }

  /** Turning round commutes with converting to a heading, for every integer:
      invalid directions go to -1 on both paths. */
  lemma OppositeCommutesWithToDegree(d: Direction)
    ensures ToDegree(Opposite(d)) == DegreeOpposite(ToDegree(d))
  {
  }

  lemma DegreeSymmetryXAxisInvolution(d: Degree)
    ensures DegreeSymmetryXAxis(DegreeSymmetryXAxis(d)) == d
    ensures DegreeSymmetryXAxis(d) + d == 360.0
  {
  }

  lemma DirectionStringsDistinct(d: Direction, e: Direction)
    requires IsValid(d) && IsValid(e) && d != e
    ensures DirectionString(d) != DirectionString(e)
    ensures DirectionString(d) != "Direction Error"
  {
  }

  lemma DirectionStringError(d: Direction)
    requires !IsValid(d)
    ensures DirectionString(d) == "Direction Error"
  {
  }
}
