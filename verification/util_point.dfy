/** Planar points (util/point.go). Go's value-receiver methods become members
    of the point datatypes; each returns a new point. */
module Points {
  import opened Tolerance

  /** Go's int(x) on a float64: truncation toward zero. */
  function Trunc(x: real): (r: int)
    ensures Abs(x - r as real) < 1.0
    ensures x >= 0.0 ==> 0 <= r && r as real <= x
    ensures x < 0.0 ==> r <= 0 && x <= r as real
  {
    if x >= 0.0 then x.Floor else -((-x).Floor)
  }

  datatype IntPoint = IntPoint(X: int, Y: int)
  {
    predicate Equal(q: IntPoint)
    {
      X == q.X && Y == q.Y
    }

    function ToFloatPoint(): FloatPoint
    {
      FloatPoint(X as real, Y as real)
    }
  }

  datatype FloatPoint = FloatPoint(X: real, Y: real)
  {
    /** Componentwise tolerant equality. */
    predicate Equal(q: FloatPoint)
    {
      FloatEqual(X, q.X) && FloatEqual(Y, q.Y)
    }

    function CenterPoint(q: FloatPoint): FloatPoint
    {
      FloatPoint((X + q.X) * 0.5, (Y + q.Y) * 0.5)
    }

    function ToIntPoint(): IntPoint
    {
      IntPoint(Trunc(X), Trunc(Y))
    }

    function Scale(scale: real): FloatPoint
    {
      FloatPoint(X * scale, Y * scale)
    }

    function Shift(shift: FloatPoint): FloatPoint
    {
      FloatPoint(X + shift.X, Y + shift.Y)
    }

    function SymmetryXAxis(): FloatPoint
    {
      FloatPoint(X, -Y)
    }

    function SymmetryYAxis(): FloatPoint
    {
      FloatPoint(-X, Y)
    }

    function SymmetryOrigin(): FloatPoint
    {
      FloatPoint(-X, -Y)
    }
  }

  const FloatPointZero := FloatPoint(0.0, 0.0)

  lemma FloatPointEqualReflexive(p: FloatPoint)
    ensures p.Equal(p)
  {
    FloatEqualReflexive(p.X);
    FloatEqualReflexive(p.Y);
  }

  lemma FloatPointEqualSymmetric(p: FloatPoint, q: FloatPoint)
    ensures p.Equal(q) == q.Equal(p)
  {
    FloatEqualSymmetric(p.X, q.X);
    FloatEqualSymmetric(p.Y, q.Y);
  }

  /** Tolerant equality is coarser than identity. */
  lemma FloatPointEqualTolerant()
    ensures FloatPoint(1000.0, 0.0).Equal(FloatPoint(1004.0, 0.001))
  {
  }

  lemma IntPointEqualIsIdentity(i: IntPoint, q: IntPoint)
    ensures i.Equal(q) <==> i == q
    ensures i.Equal(i) && i.Equal(q) == q.Equal(i)
  {
  }

  /** The midpoint is the componentwise average, whichever point is the receiver. */
  lemma CenterPointAverage(p: FloatPoint, q: FloatPoint)
    ensures p.CenterPoint(q) == q.CenterPoint(p)
    ensures p.CenterPoint(q).X * 2.0 == p.X + q.X && p.CenterPoint(q).Y * 2.0 == p.Y + q.Y
    ensures p.CenterPoint(p) == p
  {
  }

  lemma ShiftBack(p: FloatPoint, s: FloatPoint)
    ensures p.Shift(s).Shift(s.SymmetryOrigin()) == p
  {
  }

  lemma ScaleOne(p: FloatPoint)
    ensures p.Scale(1.0) == p
  {
  }

  lemma SymmetriesAreInvolutions(p: FloatPoint)
    ensures p.SymmetryXAxis().SymmetryXAxis() == p
    ensures p.SymmetryYAxis().SymmetryYAxis() == p
    ensures p.SymmetryOrigin().SymmetryOrigin() == p
  {
  }

  lemma SymmetryOriginComposes(p: FloatPoint)
    ensures p.SymmetryOrigin() == p.SymmetryXAxis().SymmetryYAxis()
    ensures p.SymmetryOrigin() == p.SymmetryYAxis().SymmetryXAxis()
  {
  }

  /** Every integer point survives the trip through float64 and back. */
  lemma {:induction false} IntPointRoundTrip(i: IntPoint)
    ensures i.ToFloatPoint().ToIntPoint() == i
  {
    TruncOfInt(i.X);
    TruncOfInt(i.Y);
  }

  lemma TruncOfInt(n: int)
    ensures Trunc(n as real) == n
  {
    if n < 0 {
      assert (-(n as real)).Floor == -n;
    }
  }

  /** Truncation goes toward zero, unlike Dafny's Floor. */
  lemma TruncTowardZero()
    ensures FloatPoint(-2.5, 2.5).ToIntPoint() == IntPoint(-2, 2)
  {
  }
}
