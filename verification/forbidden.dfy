/** The registry of restricted zones (forbidden/forbidden_area.go): a map
    from zone id to zone and a flag recording that the map changed. The two
    package-level globals become the fields of one Registry object. */
module Forbidden {
  import opened Wrappers
  import opened Tolerance
  import opened Points
  import opened Obb

  /** Zone kinds. */
  const NoInNoOut := 0
  const IgnoreRelateAGV := 1
  const NoInOnlyOut := 2

  datatype ForbiddenArea = ForbiddenArea(ID: int, Type: int, RelateID: int, Min: IntPoint, Max: IntPoint, o: OBB)

  /** A zone and its box: centred between the corners, half the extents as
      half-lengths, angle 0 and so the coordinate axes (cos 0 = 1, sin 0 = 0). */
  function Create(id: int, t: int, rid: int, min: IntPoint, max: IntPoint): (a: ForbiddenArea)
    ensures a.ID == id && a.Type == t && a.RelateID == rid && a.Min == min && a.Max == max
    ensures a.o.Center.X - a.o.XHalfLength == min.X as real && a.o.Center.X + a.o.XHalfLength == max.X as real
    ensures a.o.Center.Y - a.o.YHalfLength == min.Y as real && a.o.Center.Y + a.o.YHalfLength == max.Y as real
    ensures a.o.deg == 0.0 && a.o.xAxis == UnitX && a.o.yAxis == UnitY
  {
    ForbiddenArea(id, t, rid, min, max,
                  CreateOBB(FloatPoint(0.5 * (min.X + max.X) as real, 0.5 * (min.Y + max.Y) as real),
                            0.5 * (max.X - min.X) as real, 0.5 * (max.Y - min.Y) as real, 0.0, UnitX))
  }

  /** The box of a zone is its corner rectangle: it holds exactly the points
      between the corners when min is below max on both axes. */
  lemma CreateCoversRectangle(id: int, t: int, rid: int, min: IntPoint, max: IntPoint, p: FloatPoint)
    requires min.X <= max.X && min.Y <= max.Y
    ensures var b := Create(id, t, rid, min, max).o.Box();
            b.XHalfLength >= 0.0 && b.YHalfLength >= 0.0 &&
            (Abs(p.X - b.Center.X) <= b.XHalfLength && Abs(p.Y - b.Center.Y) <= b.YHalfLength
             <==> min.X as real <= p.X <= max.X as real && min.Y as real <= p.Y <= max.Y as real)
  {
  }

  class Registry {
    var areas: map<int, ForbiddenArea>
    var modified: bool

    /** Every zone is stored under its own id. */
    ghost predicate Valid()
      reads this
    {
      forall id :: id in areas ==> areas[id].ID == id
    }

    constructor ()
      ensures Valid() && areas == map[] && !modified
    {
      areas := map[];
      modified := false;
    }

    /** Adds a zone under a new id; an existing id is refused and nothing
        changes. */
    method Add(id: int, t: int, rid: int, min: IntPoint, max: IntPoint) returns (ok: bool)
      requires Valid()
      modifies this
      ensures Valid()
      ensures id in old(areas) ==> !ok && areas == old(areas) && modified == old(modified)
      ensures id !in old(areas) ==> ok && areas == old(areas)[id := Create(id, t, rid, min, max)] && modified
    {
      if id in areas {
        return false;
      }
      areas := areas[id := Create(id, t, rid, min, max)];
      modified := true;
      return true;
    }

    /** The source's test is inverted: a present id answers false and stays;
        an absent id falls through to a delete that removes nothing, sets
        the flag and returns no value (None). */
    method Delete(id: int) returns (r: Option<bool>)
      requires Valid()
      modifies this
      ensures Valid() && areas == old(areas)
      ensures id in old(areas) ==> r == Some(false) && modified == old(modified)
      ensures id !in old(areas) ==> r.None? && modified
    {
      if id in areas {
        return Some(false);
      }
      areas := map k | k in areas && k != id :: areas[k];
      modified := true;
      return None;
    }

    /** Replaces the zone under a present id; an absent id is refused and
        nothing changes. */
    method Modify(id: int, t: int, rid: int, min: IntPoint, max: IntPoint) returns (ok: bool)
      requires Valid()
      modifies this
      ensures Valid()
      ensures id !in old(areas) ==> !ok && areas == old(areas) && modified == old(modified)
      ensures id in old(areas) ==> ok && areas == old(areas)[id := Create(id, t, rid, min, max)] && modified
      ensures areas.Keys == old(areas).Keys
    {
      if id !in areas {
        return false;
      }
      areas := areas[id := Create(id, t, rid, min, max)];
      modified := true;
      return true;
    }

    function IsAnyModified(): (r: bool)
      reads this
      ensures r <==> modified
    {
      modified
    }

    /** Sets the flag (to true, as written), so IsAnyModified holds after it. */
    method ResetModifiedFlag()
      modifies this
      ensures areas == old(areas) && modified
      ensures IsAnyModified()
    {
      modified := true;
    }
  }
}
