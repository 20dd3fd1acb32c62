/** Axis-aligned and oriented bounding boxes (legume/obb.go). The cosine and
    sine that CreateOBB takes of the angle are not modelled: the x-axis vector
    is passed in and the y-axis is derived from it as the source does. */
module Obb {
  import opened Tolerance
  import opened Points
  import opened Directions

  datatype Vector = Vector(X: real, Y: real)
  {
    /** Length of this vector's shadow on the axis (times the axis length). */
    function Projection(axis: Vector): (r: real)
      ensures r >= 0.0
    {
      Abs(X * axis.X + Y * axis.Y)
    }

    function Dot(w: Vector): real
    {
      X * w.X + Y * w.Y
    }

    function Negate(): Vector
    {
      Vector(-X, -Y)
    }
  }

  datatype AABB = AABB(Center: FloatPoint, XHalfLength: real, YHalfLength: real)
  {
    /** Strict overlap of two axis-aligned boxes: boxes that only touch do not
        overlap. */
    predicate IsOverlap(b: AABB)
    {
      && Center.X + XHalfLength > b.Center.X - b.XHalfLength
      && Center.Y + YHalfLength > b.Center.Y - b.YHalfLength
      && b.Center.X + b.XHalfLength > Center.X - XHalfLength
      && b.Center.Y + b.YHalfLength > Center.Y - YHalfLength
    }
  }

  /** An oriented box: the embedded AABB's fields, the angle and the two axis
      vectors. */
  datatype OBB = OBB(Center: FloatPoint, XHalfLength: real, YHalfLength: real,
                     deg: Degree, xAxis: Vector, yAxis: Vector)
  {
    function Box(): AABB
    {
      AABB(Center, XHalfLength, YHalfLength)
    }

    /** The corners. The source scales copies of the axes and discards them,
        so the corners are the centre plus or minus the unit axes whatever the
        half-lengths. */
    function Vertexes(): (v: seq<FloatPoint>)
      ensures |v| == 4
    {
      [FloatPoint(Center.X + xAxis.X + yAxis.X, Center.Y + xAxis.Y + yAxis.Y),
       FloatPoint(Center.X + xAxis.X - yAxis.X, Center.Y + xAxis.Y - yAxis.Y),
       FloatPoint(Center.X - xAxis.X + yAxis.X, Center.Y - xAxis.Y + yAxis.Y),
       FloatPoint(Center.X - xAxis.X - yAxis.X, Center.Y - xAxis.Y - yAxis.Y)]
    }

    /** The centre moved by half the front/rear difference along the x-axis
        and half the inner/outer difference along the y-axis. */
    function Centroid(a: real, b: real, c: real, d: real): FloatPoint
    {
      FloatPoint(Center.X + 0.5 * ((a - b) * xAxis.X + (c - d) * yAxis.X),
                 Center.Y + 0.5 * ((a - b) * xAxis.Y + (c - d) * yAxis.Y))
    }

    function VectorOfCenters(b: OBB): Vector
    {
      Vector(Center.X - b.Center.X, Center.Y - b.Center.Y)
    }

    /** The separating-axis test as written: four axis tests, the first that
        fails answers false. The test on b's x-axis weighs b's own extent by
        b.YHalfLength. */
    predicate IsOverlap(b: OBB)
    {
      var v := VectorOfCenters(b);
      if !(b.xAxis.Projection(xAxis) * b.XHalfLength + b.yAxis.Projection(xAxis) * b.YHalfLength
           + xAxis.Projection(xAxis) * XHalfLength > v.Projection(xAxis)) then false
      else if !(b.xAxis.Projection(yAxis) * b.XHalfLength + b.yAxis.Projection(yAxis) * b.YHalfLength
                + yAxis.Projection(yAxis) * YHalfLength > v.Projection(yAxis)) then false
      else if !(xAxis.Projection(b.xAxis) * XHalfLength + yAxis.Projection(b.xAxis) * YHalfLength
                + b.xAxis.Projection(b.xAxis) * b.YHalfLength > v.Projection(b.xAxis)) then false
      else if !(xAxis.Projection(b.yAxis) * XHalfLength + yAxis.Projection(b.yAxis) * YHalfLength
                + b.yAxis.Projection(b.yAxis) * b.YHalfLength > v.Projection(b.yAxis)) then false
      else true
    }

    /** The separating-axis test with b's x-axis test weighted by
        b.XHalfLength. */
    predicate Overlaps(b: OBB)
    {
      var v := VectorOfCenters(b);
      && b.xAxis.Projection(xAxis) * b.XHalfLength + b.yAxis.Projection(xAxis) * b.YHalfLength
         + xAxis.Projection(xAxis) * XHalfLength > v.Projection(xAxis)
      && b.xAxis.Projection(yAxis) * b.XHalfLength + b.yAxis.Projection(yAxis) * b.YHalfLength
         + yAxis.Projection(yAxis) * YHalfLength > v.Projection(yAxis)
      && xAxis.Projection(b.xAxis) * XHalfLength + yAxis.Projection(b.xAxis) * YHalfLength
         + b.xAxis.Projection(b.xAxis) * b.XHalfLength > v.Projection(b.xAxis)
      && xAxis.Projection(b.yAxis) * XHalfLength + yAxis.Projection(b.yAxis) * YHalfLength
         + b.yAxis.Projection(b.yAxis) * b.YHalfLength > v.Projection(b.yAxis)
    }

    /** Mirror image across the X axis. Only the centre and angle are set;
        half-lengths and axes keep Go's zero values. */
    function SymmetryXAxis(): OBB
    {
      OBB(Center.SymmetryXAxis(), 0.0, 0.0, DegreeSymmetryXAxis(deg), Vector(0.0, 0.0), Vector(0.0, 0.0))
    }

    /** The source ignores both directions and mirrors across the X axis. */
    function Transform(d1: Direction, d2: Direction): OBB
    {
      OBB(Center.SymmetryXAxis(), 0.0, 0.0, DegreeSymmetryXAxis(deg), Vector(0.0, 0.0), Vector(0.0, 0.0))
    }
  }

  /** Builds a box from its centre, half-lengths, angle and x-axis (the
      cosine and sine of the angle); the y-axis is the x-axis turned a
      quarter anticlockwise. */
  function CreateOBB(c: FloatPoint, xh: real, yh: real, deg: Degree, xAxis: Vector): (o: OBB)
    ensures o.Center == c && o.XHalfLength == xh && o.YHalfLength == yh && o.deg == deg
    ensures o.xAxis == xAxis
  {
    OBB(c, xh, yh, deg, xAxis, Vector(-xAxis.Y, xAxis.X))
  }

  /** The two axes of a created box are orthogonal and equally long. */
  lemma CreatedAxesOrthogonal(c: FloatPoint, xh: real, yh: real, deg: Degree, xAxis: Vector)
    ensures var o := CreateOBB(c, xh, yh, deg, xAxis);
            o.xAxis.Dot(o.yAxis) == 0.0 && o.yAxis.Dot(o.yAxis) == o.xAxis.Dot(o.xAxis)
  {
  }

  const UnitX := Vector(1.0, 0.0)
  const UnitY := Vector(0.0, 1.0)

  /** The projection is the magnitude of the dot product. */
  lemma ProjectionDot(v: Vector, a: Vector)
    ensures v.Projection(a) == a.Dot(v) || v.Projection(a) == -a.Dot(v)
    ensures v.Projection(a) == Abs(v.Dot(a))
  {
  }

  lemma ProjectionSymmetric(v: Vector, a: Vector)
    ensures v.Projection(a) == a.Projection(v)
    ensures v.Negate().Projection(a) == v.Projection(a)
  {
    assert v.Negate().X * a.X + v.Negate().Y * a.Y == -(v.X * a.X + v.Y * a.Y);
  }

  lemma AabbOverlapSymmetric(a: AABB, b: AABB)
    ensures a.IsOverlap(b) == b.IsOverlap(a)
  {
  }

  /** Overlap of axis-aligned boxes is the strict inequality of centre
      distance and summed half-lengths on both axes. */
  lemma AabbOverlapDistance(a: AABB, b: AABB)
    ensures a.IsOverlap(b) <==>
              Abs(a.Center.X - b.Center.X) < a.XHalfLength + b.XHalfLength &&
              Abs(a.Center.Y - b.Center.Y) < a.YHalfLength + b.YHalfLength
  {
  }

  /** Unit boxes two apart only touch; 1.9 apart they overlap. */
  lemma AabbOverlapSamples()
    ensures !AABB(FloatPoint(0.0, 0.0), 1.0, 1.0).IsOverlap(AABB(FloatPoint(3.0, 0.0), 1.0, 1.0))
    ensures !AABB(FloatPoint(0.0, 0.0), 1.0, 1.0).IsOverlap(AABB(FloatPoint(2.0, 0.0), 1.0, 1.0))
    ensures AABB(FloatPoint(0.0, 0.0), 1.0, 1.0).IsOverlap(AABB(FloatPoint(1.9, 0.0), 1.0, 1.0))
  {
  }

  /** The four axis tests of the source fail exactly where the corrected
      test fails, except for the one on b's x-axis. */
  lemma IsOverlapAgreesOffBXAxis(o: OBB, b: OBB)
    requires b.XHalfLength == b.YHalfLength
    ensures o.IsOverlap(b) == o.Overlaps(b)
  {
  }

  /** With the x-axis (1, 0) the box's axes are the coordinate axes. */
  lemma CreateAxisAligned(c: FloatPoint, xh: real, yh: real, deg: Degree)
    ensures CreateOBB(c, xh, yh, deg, UnitX) == OBB(c, xh, yh, deg, UnitX, UnitY)
    ensures CreateOBB(c, xh, yh, deg, UnitX).Box() == AABB(c, xh, yh)
  {
  }

  /** For boxes whose axes are the coordinate axes the corrected test is the
      axis-aligned test. */
  lemma {:induction false} AxisAlignedOverlaps(c: FloatPoint, xh: real, yh: real, d: FloatPoint, xh': real, yh': real, deg: Degree, deg': Degree)
    requires xh >= 0.0 && yh >= 0.0 && xh' >= 0.0 && yh' >= 0.0
    ensures var o, b := OBB(c, xh, yh, deg, UnitX, UnitY), OBB(d, xh', yh', deg', UnitX, UnitY);
            o.Overlaps(b) == AABB(c, xh, yh).IsOverlap(AABB(d, xh', yh'))
  {
    CoordinateProjections(c.X - d.X, c.Y - d.Y);
    UnitAxesProjections(xh); UnitAxesProjections(yh);
    UnitAxesProjections(xh'); UnitAxesProjections(yh');
    AabbOverlapDistance(AABB(c, xh, yh), AABB(d, xh', yh'));
  }

  /** For the same boxes the source's test also demands that the x distance
      be below o's x half-length plus b's y half-length. */
  lemma {:induction false} AxisAlignedIsOverlap(c: FloatPoint, xh: real, yh: real, d: FloatPoint, xh': real, yh': real, deg: Degree, deg': Degree)
    requires xh >= 0.0 && yh >= 0.0 && xh' >= 0.0 && yh' >= 0.0
    ensures var o, b := OBB(c, xh, yh, deg, UnitX, UnitY), OBB(d, xh', yh', deg', UnitX, UnitY);
            o.IsOverlap(b) == (AABB(c, xh, yh).IsOverlap(AABB(d, xh', yh')) && Abs(c.X - d.X) < xh + yh')
  {
    CoordinateProjections(c.X - d.X, c.Y - d.Y);
    UnitAxesProjections(xh); UnitAxesProjections(yh);
    UnitAxesProjections(xh'); UnitAxesProjections(yh');
    AabbOverlapDistance(AABB(c, xh, yh), AABB(d, xh', yh'));
  }

  lemma CoordinateProjections(dx: real, dy: real)
    ensures Vector(dx, dy).Projection(UnitX) == Abs(dx)
    ensures Vector(dx, dy).Projection(UnitY) == Abs(dy)
  {
  }

  /** Weights of half-lengths in the axis tests of two axis-aligned boxes. */
  lemma UnitAxesProjections(h: real)
    ensures UnitX.Projection(UnitX) * h == h && UnitY.Projection(UnitY) * h == h
    ensures UnitY.Projection(UnitX) * h == 0.0 && UnitX.Projection(UnitY) * h == 0.0
  {
    Weight(UnitX.Projection(UnitX), h);
    Weight(UnitY.Projection(UnitY), h);
    Weight(UnitY.Projection(UnitX), h);
    Weight(UnitX.Projection(UnitY), h);
  }

  lemma Weight(p: real, h: real)
    ensures p == 1.0 ==> p * h == h
    ensures p == 0.0 ==> p * h == 0.0
  {
  }

  /** The corrected test does not depend on which box is the receiver. */
  lemma {:induction false} OverlapsSymmetric(o: OBB, b: OBB)
    ensures o.Overlaps(b) == b.Overlaps(o)
  {
    assert b.VectorOfCenters(o) == o.VectorOfCenters(b).Negate();
    ProjectionSymmetric(o.VectorOfCenters(b), o.xAxis);
    ProjectionSymmetric(o.VectorOfCenters(b), o.yAxis);
    ProjectionSymmetric(o.VectorOfCenters(b), b.xAxis);
    ProjectionSymmetric(o.VectorOfCenters(b), b.yAxis);
  }

  /** The source's test is not symmetric: a unit box inside the long reach of
      a 20-by-2 box is seen by the long box but does not see it, although the
      boxes overlap. */
  lemma IsOverlapAsymmetric()
    ensures !OBB(FloatPoint(0.0, 0.0), 1.0, 1.0, 0.0, UnitX, UnitY)
             .IsOverlap(OBB(FloatPoint(5.0, 0.0), 10.0, 1.0, 0.0, UnitX, UnitY))
    ensures OBB(FloatPoint(5.0, 0.0), 10.0, 1.0, 0.0, UnitX, UnitY)
             .IsOverlap(OBB(FloatPoint(0.0, 0.0), 1.0, 1.0, 0.0, UnitX, UnitY))
    ensures OBB(FloatPoint(0.0, 0.0), 1.0, 1.0, 0.0, UnitX, UnitY)
             .Overlaps(OBB(FloatPoint(5.0, 0.0), 10.0, 1.0, 0.0, UnitX, UnitY))
  {
    AxisAlignedIsOverlap(FloatPoint(0.0, 0.0), 1.0, 1.0, FloatPoint(5.0, 0.0), 10.0, 1.0, 0.0, 0.0);
    AxisAlignedIsOverlap(FloatPoint(5.0, 0.0), 10.0, 1.0, FloatPoint(0.0, 0.0), 1.0, 1.0, 0.0, 0.0);
    AxisAlignedOverlaps(FloatPoint(0.0, 0.0), 1.0, 1.0, FloatPoint(5.0, 0.0), 10.0, 1.0, 0.0, 0.0);
  }

  /** A box built with positive half-lengths and a non-zero axis (one of
      positive squared length) overlaps itself under both tests. */
  lemma {:induction false} SelfOverlap(c: FloatPoint, xh: real, yh: real, deg: Degree, xAxis: Vector)
    requires xh > 0.0 && yh > 0.0 && xAxis.Dot(xAxis) > 0.0
    ensures CreateOBB(c, xh, yh, deg, xAxis).IsOverlap(CreateOBB(c, xh, yh, deg, xAxis))
    ensures CreateOBB(c, xh, yh, deg, xAxis).Overlaps(CreateOBB(c, xh, yh, deg, xAxis))
  {
    var o := CreateOBB(c, xh, yh, deg, xAxis);
    var n := xAxis.Dot(xAxis);
    assert o.VectorOfCenters(o) == Vector(0.0, 0.0);
    assert Vector(0.0, 0.0).Projection(o.xAxis) == 0.0;
    assert Vector(0.0, 0.0).Projection(o.yAxis) == 0.0;
    assert o.xAxis.Projection(o.xAxis) == n;
    assert o.yAxis.Projection(o.yAxis) == n;
    assert o.yAxis.Projection(o.xAxis) == 0.0 && o.xAxis.Projection(o.yAxis) == 0.0;
    Weight(o.yAxis.Projection(o.xAxis), yh);
    Weight(o.xAxis.Projection(o.yAxis), xh);
    PositiveWeight(n, xh);
    PositiveWeight(n, yh);
  }

  lemma PositiveWeight(n: real, h: real)
    requires n > 0.0 && h > 0.0
    ensures n * h > 0.0
  {
  }

  lemma CentroidBalanced(o: OBB, a: real, c: real)
    ensures o.Centroid(a, a, c, c) == o.Center
  {
  }

  /** The corners do not depend on the half-lengths and average to the
      centre. */
  lemma VertexesIgnoreHalfLengths(o: OBB, xh: real, yh: real)
    ensures o.(XHalfLength := xh, YHalfLength := yh).Vertexes() == o.Vertexes()
    ensures var v := o.Vertexes();
            v[0].X + v[1].X + v[2].X + v[3].X == 4.0 * o.Center.X &&
            v[0].Y + v[1].Y + v[2].Y + v[3].Y == 4.0 * o.Center.Y
  {
  }

  /** Mirroring keeps only centre and angle, and Transform is the same
      mirror for every pair of directions. */
  lemma MirrorProperties(o: OBB, d1: Direction, d2: Direction)
    ensures o.Transform(d1, d2) == o.SymmetryXAxis()
    ensures o.SymmetryXAxis().Center == FloatPoint(o.Center.X, -o.Center.Y)
    ensures o.SymmetryXAxis().deg == 360.0 - o.deg
    ensures o.SymmetryXAxis().SymmetryXAxis().Center == o.Center
    ensures o.SymmetryXAxis().SymmetryXAxis().deg == o.deg
  {
  }

  /** A mirrored box has zero axes, so every axis test compares 0 > 0 and it
      overlaps nothing. */
  lemma MirrorOverlapsNothing(o: OBB, b: OBB)
    ensures !o.SymmetryXAxis().IsOverlap(b) && !o.SymmetryXAxis().Overlaps(b)
  {
    var m := o.SymmetryXAxis();
    assert b.xAxis.Projection(m.xAxis) == 0.0 && b.yAxis.Projection(m.xAxis) == 0.0;
    assert m.xAxis.Projection(m.xAxis) == 0.0;
  }
}
