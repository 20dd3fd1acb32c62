/** Tolerant comparisons of float64 values (util/util.go), over reals. */
module Tolerance {

  function Abs(x: real): (r: real)
    ensures r >= 0.0 && (r == x || r == -x)
  {
    if x < 0.0 then -x else x
  }

  /** Go's math.Max and math.Min (NaN and signed zeros are not modelled). */
  function Max(a: real, b: real): (r: real)
    ensures r >= a && r >= b && (r == a || r == b)
  {
    if a > b then a else b
  }

  function Min(a: real, b: real): (r: real)
    ensures r <= a && r <= b && (r == a || r == b)
  {
    if a < b then a else b
  }

  /** Two values are equal when both are near zero, or when their difference
      is small relative to the larger of the two. When the larger is zero Go
      divides by zero and gets an infinity (or NaN), so the comparison fails.
      The relative test |(a - b) / max| < 0.005 is written multiplied out
      (FloatEqualRelative shows the two agree), which keeps it linear. */
  predicate FloatEqual(a: real, b: real)
  {
    if Abs(a) < 0.008 && Abs(b) < 0.008 then true
    else if Max(a, b) == 0.0 then false
    else Abs(a - b) < 0.005 * Abs(Max(a, b))
  }

  /** A quotient is below c in magnitude exactly when the numerator is
      below c times the denominator's magnitude. */
  lemma QuotientBound(d: real, m: real, c: real)
    requires m != 0.0 && c >= 0.0
    ensures Abs(d / m) < c <==> Abs(d) < c * Abs(m)
  {
    var q := d / m;
    assert d == q * m;
    var am, aq := Abs(m), Abs(q);
    assert Abs(d) == aq * am by {
      if m < 0.0 {
        if q < 0.0 { assert d == (-q) * (-m); } else { assert -d == q * (-m); }
      } else if q < 0.0 {
        assert -d == (-q) * m;
      }
    }
    if aq < c {
      assert aq * am < c * am;
    } else {
      assert aq * am >= c * am;
    }
  }

  /** Away from zero the test is the relative difference of util.go. */
  lemma FloatEqualRelative(a: real, b: real)
    requires !(Abs(a) < 0.008 && Abs(b) < 0.008) && Max(a, b) != 0.0
    ensures FloatEqual(a, b) <==> Abs((a - b) / Max(a, b)) < 0.005
  {
    QuotientBound(a - b, Max(a, b), 0.005);
  }

  predicate FloatEqualTolerance(a: real, b: real, tolerance: real)
  {
    Abs(a - b) < tolerance
  }

  predicate FloatInOpenInterval(a: real, b: real, c: real, tolerance: real)
  {
    a > Min(b, c) - tolerance && a < Max(b, c) + tolerance
  }

  predicate FloatInCloseInterval(a: real, b: real, c: real, tolerance: real)
  {
    !(a < Min(b, c) - tolerance || a > Max(b, c) + tolerance)
  }

  /** Two values below 0.008 in magnitude always compare equal. */
  lemma FloatEqualNearZero(a: real, b: real)
    requires Abs(a) < 0.008 && Abs(b) < 0.008
    ensures FloatEqual(a, b)
  {
  }

  lemma FloatEqualReflexive(a: real)
    ensures FloatEqual(a, a)
  {
  }

  lemma FloatEqualSymmetric(a: real, b: real)
    ensures FloatEqual(a, b) == FloatEqual(b, a)
  {
  }

  /** The division-by-zero branch: a value away from zero never equals zero
      from below, e.g. FloatEqual(-1, 0) is false because max(-1, 0) = 0. */
  lemma FloatEqualZeroMaximum(a: real)
    requires a <= -0.008
    ensures !FloatEqual(a, 0.0) && !FloatEqual(0.0, a)
  {
  }

  /** Against zero the test is an absolute one: below 0.008 in magnitude.
      A positive value differs from zero by 100% of itself, and a negative
      one meets the division-by-zero branch. */
  lemma FloatEqualZero(a: real)
    ensures FloatEqual(a, 0.0) <==> Abs(a) < 0.008
  {
  }

  /** The relative test is not transitive: 1000, 1004 and 1008 are pairwise
      neighbours but the ends differ by 0.8%. */
  lemma FloatEqualNotTransitive()
    ensures FloatEqual(1000.0, 1004.0) && FloatEqual(1004.0, 1008.0)
    ensures !FloatEqual(1000.0, 1008.0)
  {
  }

  lemma FloatEqualToleranceSymmetric(a: real, b: real, tolerance: real)
    ensures FloatEqualTolerance(a, b, tolerance) == FloatEqualTolerance(b, a, tolerance)
  {
  }

  /** No pair of values is within a tolerance that is not positive. */
  lemma FloatEqualToleranceNonPositive(a: real, b: real, tolerance: real)
    requires tolerance <= 0.0
    ensures !FloatEqualTolerance(a, b, tolerance)
  {
  }

  lemma OpenIntervalInClose(a: real, b: real, c: real, tolerance: real)
    requires FloatInOpenInterval(a, b, c, tolerance)
    ensures FloatInCloseInterval(a, b, c, tolerance)
  {
  }

  lemma IntervalsSymmetric(a: real, b: real, c: real, tolerance: real)
    ensures FloatInOpenInterval(a, b, c, tolerance) == FloatInOpenInterval(a, c, b, tolerance)
    ensures FloatInCloseInterval(a, b, c, tolerance) == FloatInCloseInterval(a, c, b, tolerance)
  {
  }

  /** With a non-negative tolerance both bounds lie in the closed interval. */
  lemma BoundsInCloseInterval(b: real, c: real, tolerance: real)
    requires tolerance >= 0.0
    ensures FloatInCloseInterval(b, b, c, tolerance) && FloatInCloseInterval(c, b, c, tolerance)
  {
  }
}
