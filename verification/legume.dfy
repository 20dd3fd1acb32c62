/** The footprint ring of a vehicle and the cache of base footprints
    (legume/legume.go).

    Go's container/ring of n elements becomes an array of n slots; a ring
    element is a slot position, and the three cursors self, claimed and
    trying are positions. A slot holding Go's nil is None. A type assertion
    on a nil slot panics in Go; AppendBean reports that as ok == false and
    changes nothing, and the scans demand filled ranges of their callers. */
module LegumeRing {
  import opened Wrappers
  import opened Tolerance
  import opened Points
  import opened Directions
  import opened Obb

  /** Slots of the ring a stem footprint is built in. */
  const StemRingSize := 500
  /** Half-lengths of the boxes at both ends of a stem footprint. */
  const StraightHalfHeight := 850.0
  const StraightHalfWidth := 170.0

  /** A box of the footprint, numbered in the order it was appended. */
  datatype Bean = Bean(index: int, box: OBB, isStop: bool)

  /** The element after p in a ring of n. */
  function Next(p: nat, n: nat): (q: nat)
    requires p < n
    ensures q < n
  {
    if p + 1 == n then 0 else p + 1
  }

  /** The element before p in a ring of n. */
  function Prev(p: nat, n: nat): (q: nat)
    requires p < n
    ensures q < n && Next(q, n) == p
  {
    if p == 0 then n - 1 else p - 1
  }

  /** The element k steps after start. */
  function Pos(start: nat, k: nat, n: nat): (p: nat)
    requires start < n && k < n
    ensures p < n
  {
    if start + k < n then start + k else start + k - n
  }

  /** The number of steps a loop `for r := start; r != end; r = r.Next()`
      takes: end is reached after exactly that many steps and not before. */
  function Dist(start: nat, end: nat, n: nat): (d: nat)
    requires start < n && end < n
    ensures d < n && Pos(start, d, n) == end
    ensures forall k :: 0 <= k < d ==> Pos(start, k, n) != end
    ensures d == 0 <==> start == end
  {
    if start <= end then end - start else end + n - start
  }

  /** The slots a loop from start up to but excluding end visits, in order. */
  function Window(s: seq<Option<Bean>>, start: nat, end: nat): (w: seq<Option<Bean>>)
    requires start < |s| && end < |s|
    ensures |w| == Dist(start, end, |s|)
  {
    seq(Dist(start, end, |s|), k requires 0 <= k < Dist(start, end, |s|) => s[Pos(start, k, |s|)])
  }

  predicate Filled(w: seq<Option<Bean>>)
  {
    forall k :: 0 <= k < |w| ==> w[k].Some?
  }

  function Boxes(w: seq<Option<Bean>>): (b: seq<OBB>)
    requires Filled(w)
    ensures |b| == |w|
  {
    seq(|w|, k requires 0 <= k < |w| => w[k].value.box)
  }

  /** AppendBean's duplicate test: centre and angle equal within tolerance,
      half-lengths identical. */
  predicate SameBox(tail: OBB, o: OBB)
  {
    tail.Center.Equal(o.Center) && DegreeEqual(tail.deg, o.deg) &&
    tail.XHalfLength == o.XHalfLength && tail.YHalfLength == o.YHalfLength
  }

  /** A sequence of boxes extended by o unless o repeats its last box. */
  function AppendDistinct(w: seq<OBB>, o: OBB): (r: seq<OBB>)
    ensures |w| > 0 && SameBox(w[|w| - 1], o) ==> r == w
    ensures !(|w| > 0 && SameBox(w[|w| - 1], o)) ==> r == w + [o]
  {
    if |w| > 0 && SameBox(w[|w| - 1], o) then w else w + [o]
  }

  /** The boxes of xs with every box that repeats the last kept one dropped. */
  function Dedup(xs: seq<OBB>): (r: seq<OBB>)
    ensures |r| <= |xs|
    ensures |xs| > 0 ==> |r| > 0 && r[0] == xs[0]
    ensures |xs| > 0 ==> r[|r| - 1] == xs[|xs| - 1] || SameBox(r[|r| - 1], xs[|xs| - 1])
    ensures forall k :: 0 < k < |r| ==> !SameBox(r[k - 1], r[k])
  {
    if |xs| == 0 then []
    else if |xs| == 1 then [xs[0]]
    else AppendDistinct(Dedup(xs[..|xs| - 1]), xs[|xs| - 1])
  }

  /** The footprint a ring holds when every append since it was empty
      succeeded: the window from self to trying is filled, each bean's index
      is its place in the window, and no bean repeats the one before it. */
  predicate Chain(s: seq<Option<Bean>>, self: nat, trying: nat)
    requires self < |s| && trying < |s|
  {
    var w := Window(s, self, trying);
    && Filled(w)
    && (forall k :: 0 <= k < |w| ==> w[k].value.index == k && !w[k].value.isStop)
    && (forall k :: 0 < k < |w| ==> !SameBox(w[k - 1].value.box, w[k].value.box))
  }

  datatype AppendResult = AppendResult(slots: seq<Option<Bean>>, trying: nat, ok: bool)

  /** The slots and trying cursor after AppendBean(o); ok is false when Go
      would panic on a nil tail. */
  function Appended(s: seq<Option<Bean>>, self: nat, trying: nat, o: OBB): (r: AppendResult)
    requires self < |s| && trying < |s|
    ensures |r.slots| == |s| && r.trying < |s|
    ensures forall i :: 0 <= i < |s| && i != trying ==> r.slots[i] == s[i]
    ensures r.trying == trying || r.trying == Next(trying, |s|)
    ensures !r.ok ==> r.slots == s && r.trying == trying
    ensures r.ok && r.slots != s ==> r.trying == Next(trying, |s|) && r.slots[trying].Some? && r.slots[trying].value.box == o
  {
    if trying == self then
      AppendResult(s[trying := Some(Bean(0, o, false))], Next(trying, |s|), true)
    else
      match s[Prev(trying, |s|)]
      case None => AppendResult(s, trying, false)
      case Some(tail) =>
        if SameBox(tail.box, o) then AppendResult(s, trying, true)
        else AppendResult(s[trying := Some(Bean(tail.index + 1, o, false))], Next(trying, |s|), true)
  }

  /** An append with trying == self, as on an empty ring or once trying has
      come all the way round, writes bean 0 at trying and advances trying. */
  lemma AppendAtSelf(s: seq<Option<Bean>>, self: nat, o: OBB)
    requires self < |s|
    ensures Appended(s, self, self, o) ==
            AppendResult(s[self := Some(Bean(0, o, false))], Next(self, |s|), true)
  {
  }

  /** An append repeating the tail box changes nothing. */
  lemma AppendDuplicate(s: seq<Option<Bean>>, self: nat, trying: nat, o: OBB)
    requires self < |s| && trying < |s| && trying != self
    requires s[Prev(trying, |s|)].Some? && SameBox(s[Prev(trying, |s|)].value.box, o)
    ensures Appended(s, self, trying, o) == AppendResult(s, trying, true)
  {
  }

  lemma DistStep(self: nat, trying: nat, n: nat)
    requires self < n && trying < n
    ensures trying != self ==> Prev(trying, n) == Pos(self, Dist(self, trying, n) - 1, n)
    ensures Dist(self, trying, n) + 1 < n ==> Dist(self, Next(trying, n), n) == Dist(self, trying, n) + 1
    ensures Dist(self, trying, n) + 1 == n ==> Next(trying, n) == self
  {
  }

  /** Appending keeps a chain a chain, never panics on one, and, while the
      ring does not fill, extends the footprint by o unless o repeats its
      last box. Once the window would fill the ring, trying meets self and
      the window starts again empty. */
  lemma {:induction false} AppendKeepsChain(s: seq<Option<Bean>>, self: nat, trying: nat, o: OBB)
    requires self < |s| && trying < |s| && Chain(s, self, trying)
    ensures var r := Appended(s, self, trying, o);
            r.ok && Chain(r.slots, self, r.trying)
    ensures var r := Appended(s, self, trying, o);
            Dist(self, trying, |s|) + 1 < |s| ==>
              Boxes(Window(r.slots, self, r.trying)) == AppendDistinct(Boxes(Window(s, self, trying)), o)
    ensures var r := Appended(s, self, trying, o);
            Dist(self, trying, |s|) + 1 == |s| && r.slots != s ==> r.trying == self
  {
    var n := |s|;
    var r := Appended(s, self, trying, o);
    var d := Dist(self, trying, n);
    var w := Window(s, self, trying);
    DistStep(self, trying, n);
    if trying == self {
      AppendRestarts(s, self, o);
    } else {
      var p := Prev(trying, n);
      assert w[d - 1] == s[p];
      var tail := s[p].value;
      assert Boxes(w)[d - 1] == tail.box;
      if SameBox(tail.box, o) {
        assert r == AppendResult(s, trying, true);
      } else if d + 1 < n {
        AppendExtends(s, self, trying, o);
      } else {
        assert r.trying == self;
      }
    }
  }

  /** An append with trying on self starts the window again with o alone. */
  lemma {:induction false} AppendRestarts(s: seq<Option<Bean>>, self: nat, o: OBB)
    requires self < |s|
    ensures var r := Appended(s, self, self, o);
            r.ok && Chain(r.slots, self, r.trying) &&
            (|s| > 1 ==> Boxes(Window(r.slots, self, r.trying)) == [o])
  {
    var r := Appended(s, self, self, o);
    if |s| > 1 {
      var w' := Window(r.slots, self, r.trying);
      assert |w'| == 1 && w'[0] == r.slots[self];
      assert Boxes(w') == [o];
    }
  }

  /** An append of a box that does not repeat the tail, while the window
      does not fill the ring, adds bean d holding o to the end of the
      window. */
  lemma {:induction false} AppendExtends(s: seq<Option<Bean>>, self: nat, trying: nat, o: OBB)
    requires self < |s| && trying < |s| && trying != self && Chain(s, self, trying)
    requires Dist(self, trying, |s|) + 1 < |s|
    requires s[Prev(trying, |s|)].Some? && !SameBox(s[Prev(trying, |s|)].value.box, o)
    ensures var r := Appended(s, self, trying, o);
            r.ok && Chain(r.slots, self, r.trying) &&
            Boxes(Window(r.slots, self, r.trying)) == Boxes(Window(s, self, trying)) + [o]
  {
    var n := |s|;
    var r := Appended(s, self, trying, o);
    var d := Dist(self, trying, n);
    var w := Window(s, self, trying);
    DistStep(self, trying, n);
    assert w[d - 1] == s[Prev(trying, n)];
    var b := Bean(d, o, false);
    assert r.slots == s[trying := Some(b)];
    WindowGrows(s, self, trying, b);
    var w' := Window(r.slots, self, r.trying);
    assert w' == w + [Some(b)];
    assert Boxes(w') == Boxes(w) + [o];
  }

  /** Writing the slot at trying and moving trying on adds that slot to the
      end of the window, while the window does not fill the ring. */
  lemma {:induction false} WindowGrows(s: seq<Option<Bean>>, self: nat, trying: nat, b: Bean)
    requires self < |s| && trying < |s| && Dist(self, trying, |s|) + 1 < |s|
    ensures Window(s[trying := Some(b)], self, Next(trying, |s|)) == Window(s, self, trying) + [Some(b)]
  {
    var n := |s|;
    var d := Dist(self, trying, n);
    DistStep(self, trying, n);
    var w, w' := Window(s, self, trying), Window(s[trying := Some(b)], self, Next(trying, n));
    assert |w'| == d + 1;
    forall k | 0 <= k < d
      ensures w'[k] == w[k]
    {
      assert Pos(self, k, n) != trying;
    }
    assert w'[d] == Some(b);
  }

  /** The ring: slots, and the three cursors as slot positions. */
  class Legume {
    var slots: array<Option<Bean>>
    var self: nat
    var claimed: nat
    var trying: nat

    ghost predicate Valid()
      reads this
    {
      slots.Length > 0 && self < slots.Length && claimed < slots.Length && trying < slots.Length
    }

    /** A ring of n empty slots with all three cursors on its first slot. */
    constructor Init(n: nat)
      requires n > 0
      ensures Valid() && fresh(slots) && slots.Length == n
      ensures forall i :: 0 <= i < n ==> slots[i].None?
      ensures self == 0 && claimed == self && trying == self
    {
      slots := new Option<Bean>[n](_ => None);
      self := 0;
      claimed := 0;
      trying := 0;
    }

    /** Moves claimed to the slot after self and trying onto claimed. */
    method Reset()
      requires Valid()
      modifies this
      ensures Valid() && slots == old(slots) && self == old(self)
      ensures claimed == Next(self, slots.Length) && trying == claimed
    {
      claimed := Next(self, slots.Length);
      trying := claimed;
    }

    /** Appends box o after the tail unless it repeats the tail. */
    method AppendBean(o: OBB) returns (ok: bool)
      requires Valid()
      modifies this, slots
      ensures Valid() && slots == old(slots) && self == old(self) && claimed == old(claimed)
      ensures AppendResult(slots[..], trying, ok) == Appended(old(slots[..]), self, old(trying), o)
    {
      if trying == self {
        slots[trying] := Some(Bean(0, o, false));
        trying := Next(trying, slots.Length);
        return true;
      }
      var tail := slots[Prev(trying, slots.Length)];
      if tail.None? {
        return false;
      }
      if !SameBox(tail.value.box, o) {
        slots[trying] := Some(Bean(tail.value.index + 1, o, false));
        trying := Next(trying, slots.Length);
      }
      return true;
    }

    method GrowCenter(c: FloatPoint, xh: real, yh: real, deg: Degree, xAxis: Vector) returns (ok: bool)
      requires Valid()
      modifies this, slots
      ensures Valid() && slots == old(slots) && self == old(self) && claimed == old(claimed)
      ensures AppendResult(slots[..], trying, ok) ==
              Appended(old(slots[..]), self, old(trying), CreateOBB(c, xh, yh, deg, xAxis))
    {
      ok := AppendBean(CreateOBB(c, xh, yh, deg, xAxis));
    }

    /** Appends the box centred between a front and a rear point; the angle
        from front to rear and its cosine and sine are given. */
    method GrowFrontRear(f: FloatPoint, r: FloatPoint, xh: real, yh: real, deg: Degree, xAxis: Vector) returns (ok: bool)
      requires Valid()
      modifies this, slots
      ensures Valid() && slots == old(slots) && self == old(self) && claimed == old(claimed)
      ensures AppendResult(slots[..], trying, ok) ==
              Appended(old(slots[..]), self, old(trying), CreateOBB(f.CenterPoint(r), xh, yh, deg, xAxis))
    {
      ok := GrowCenter(f.CenterPoint(r), xh, yh, deg, xAxis);
    }

    /** Whether any box from start up to but excluding end overlaps o. */
    method IsOverlapWithObb(start: nat, end: nat, o: OBB) returns (found: bool)
      requires Valid() && start < slots.Length && end < slots.Length
      requires Filled(Window(slots[..], start, end))
      ensures var b := Boxes(Window(slots[..], start, end));
              found <==> exists k :: 0 <= k < |b| && o.IsOverlap(b[k])
    {
      ghost var b := Boxes(Window(slots[..], start, end));
      var n := slots.Length;
      var r := start;
      ghost var k := 0;
      while r != end
        invariant 0 <= k <= |b| && r == Pos(start, k, n)
        invariant forall i :: 0 <= i < k ==> !o.IsOverlap(b[i])
        decreases |b| - k
      {
        assert Window(slots[..], start, end)[k] == slots[r];
        if o.IsOverlap(slots[r].value.box) {
          assert o.IsOverlap(b[k]);
          return true;
        }
        r := Next(r, n);
        k := k + 1;
      }
      return false;
    }

    /** The first pair, in the order outer r then inner j, of a box of this
        ring from start to end and a box of q from qStart to qEnd that
        overlap; r and j are their slot positions. */
    method IsOverlapWithLegume(start: nat, end: nat, q: Legume, qStart: nat, qEnd: nat)
      returns (found: bool, r: Option<nat>, j: Option<nat>)
      requires Valid() && start < slots.Length && end < slots.Length
      requires q.Valid() && qStart < q.slots.Length && qEnd < q.slots.Length
      requires Filled(Window(slots[..], start, end)) && Filled(Window(q.slots[..], qStart, qEnd))
      ensures var w, v := Boxes(Window(slots[..], start, end)), Boxes(Window(q.slots[..], qStart, qEnd));
              found <==> exists a, b :: 0 <= a < |w| && 0 <= b < |v| && w[a].IsOverlap(v[b])
      ensures !found ==> r.None? && j.None?
      ensures var w, v := Boxes(Window(slots[..], start, end)), Boxes(Window(q.slots[..], qStart, qEnd));
              found ==> exists a, b :: 0 <= a < |w| && 0 <= b < |v| &&
                          r == Some(Pos(start, a, slots.Length)) && j == Some(Pos(qStart, b, q.slots.Length)) &&
                          w[a].IsOverlap(v[b]) && NoOverlapBefore(w, v, a, b)
    {
      ghost var w := Boxes(Window(slots[..], start, end));
      ghost var v := Boxes(Window(q.slots[..], qStart, qEnd));
      var n, qn := slots.Length, q.slots.Length;
      var x := start;
      ghost var a := 0;
      while x != end
        invariant 0 <= a <= |w| && x == Pos(start, a, n)
        invariant forall a', b' :: 0 <= a' < a && 0 <= b' < |v| ==> !w[a'].IsOverlap(v[b'])
        decreases |w| - a
      {
        assert Window(slots[..], start, end)[a] == slots[x];
        var y := qStart;
        ghost var b := 0;
        while y != qEnd
          invariant 0 <= b <= |v| && y == Pos(qStart, b, qn)
          invariant forall b' :: 0 <= b' < b ==> !w[a].IsOverlap(v[b'])
          decreases |v| - b
        {
          assert Window(q.slots[..], qStart, qEnd)[b] == q.slots[y];
          if slots[x].value.box.IsOverlap(q.slots[y].value.box) {
            assert w[a].IsOverlap(v[b]) && NoOverlapBefore(w, v, a, b);
            return true, Some(x), Some(y);
          }
          y := Next(y, qn);
          b := b + 1;
        }
        x := Next(x, n);
        a := a + 1;
      }
      return false, None, None;
    }
  }

  /** No pair before (a, b) in outer-then-inner order overlaps. */
  predicate NoOverlapBefore(w: seq<OBB>, v: seq<OBB>, a: nat, b: nat)
  {
    forall a', b' :: 0 <= a' < |w| && 0 <= b' < |v| && (a' < a || (a' == a && b' < b)) ==>
      !w[a'].IsOverlap(v[b'])
  }

  /** After Reset on a ring of more than one slot the window from self to
      trying is the single slot at self. */
  lemma ResetWindow(s: seq<Option<Bean>>, self: nat)
    requires self < |s| && |s| > 1
    ensures Window(s, self, Next(self, |s|)) == [s[self]]
  {
  }

  lemma {:induction false} DedupSnoc(xs: seq<OBB>, o: OBB)
    ensures Dedup(xs + [o]) == AppendDistinct(Dedup(xs), o)
  {
    if |xs| > 0 {
      assert (xs + [o])[..|xs|] == xs;
    }
  }

  /** One append of a build that started from an empty window: the window
      stays a chain and, while fewer boxes than slots were appended, holds
      the deduplicated boxes appended so far. */
  lemma {:induction false} AppendTracksDedup(s: seq<Option<Bean>>, self: nat, trying: nat, boxes: seq<OBB>, o: OBB)
    requires self < |s| && trying < |s| && Chain(s, self, trying)
    requires |boxes| < |s| ==> Boxes(Window(s, self, trying)) == Dedup(boxes)
    ensures var r := Appended(s, self, trying, o);
            r.ok && Chain(r.slots, self, r.trying) &&
            (|boxes| + 1 < |s| ==> Boxes(Window(r.slots, self, r.trying)) == Dedup(boxes + [o]))
  {
    AppendKeepsChain(s, self, trying, o);
    DedupSnoc(boxes, o);
  }

  /** The pose of a vehicle at one point of a track: front and rear axle
      points, the angle from front to rear and its cosine and sine. */
  datatype Sample = Sample(front: FloatPoint, rear: FloatPoint, deg: Degree, xAxis: Vector)

  /** What a stem build reads from the track of a move type: the pose at the
      start, the poses the curve stepper produces (None when it reports
      failure) and the pose at the end. */
  datatype StemTrack = StemTrack(first: Sample, walk: Option<seq<Sample>>, last: Sample)

  function SampleBox(p: Sample, xh: real, yh: real): OBB
  {
    CreateOBB(p.front.CenterPoint(p.rear), xh, yh, p.deg, p.xAxis)
  }

  /** The boxes the stepper's poses are grown into: zero half-lengths. */
  function WalkBoxes(walk: seq<Sample>): (r: seq<OBB>)
    ensures |r| == |walk|
  {
    seq(|walk|, i requires 0 <= i < |walk| => SampleBox(walk[i], 0.0, 0.0))
  }

  /** Every box a stem build appends, in order. */
  function StemBoxes(t: StemTrack, walk: seq<Sample>): (r: seq<OBB>)
    ensures |r| == |walk| + 2
  {
    [SampleBox(t.first, StraightHalfHeight, StraightHalfWidth)] + WalkBoxes(walk) +
    [SampleBox(t.last, StraightHalfHeight, StraightHalfWidth)]
  }

  function CacheKey(moveType: int, d1: Direction, d2: Direction): int
  {
    moveType * 100 + d1 * 10 + d2
  }

  /** Keys of single-digit directions identify the move type and both
      directions. */
  lemma CacheKeyInjective(m: int, d1: Direction, d2: Direction, m': int, e1: Direction, e2: Direction)
    requires 0 <= d1 < 10 && 0 <= d2 < 10 && 0 <= e1 < 10 && 0 <= e2 < 10
    ensures CacheKey(m, d1, d2) == CacheKey(m', e1, e2) <==> m == m' && d1 == e1 && d2 == e2
  {
    if m < m' {
      assert CacheKey(m', e1, e2) >= CacheKey(m, d1, d2) + 1;
    } else if m' < m {
      assert CacheKey(m, d1, d2) >= CacheKey(m', e1, e2) + 1;
    } else if d1 < e1 {
      assert CacheKey(m', e1, e2) >= CacheKey(m, d1, d2) + 1;
    } else if e1 < d1 {
      assert CacheKey(m, d1, d2) >= CacheKey(m', e1, e2) + 1;
    }
  }

  /** Builds a stem footprint: a fresh ring of 500, the start box, the boxes
      of the stepper's poses and the end box. Recentring the beans is left
      out: the source edits copies of them, so the ring is unchanged. */
  method BuildStem(t: StemTrack, walk: seq<Sample>) returns (lg: Legume)
    ensures fresh(lg) && fresh(lg.slots)
    ensures lg.Valid() && lg.slots.Length == StemRingSize
    ensures Chain(lg.slots[..], lg.self, lg.trying)
    ensures |walk| + 2 < StemRingSize ==>
              Boxes(Window(lg.slots[..], lg.self, lg.trying)) == Dedup(StemBoxes(t, walk))
  {
    lg := new Legume.Init(StemRingSize);
    var box := SampleBox(t.first, StraightHalfHeight, StraightHalfWidth);
    AppendTracksDedup(lg.slots[..], lg.self, lg.trying, [], box);
    var ok := lg.GrowFrontRear(t.first.front, t.first.rear, StraightHalfHeight, StraightHalfWidth, t.first.deg, t.first.xAxis);
    ghost var boxes := [box];
    for i := 0 to |walk|
      invariant lg.Valid() && fresh(lg) && fresh(lg.slots) && lg.slots.Length == StemRingSize
      invariant Chain(lg.slots[..], lg.self, lg.trying)
      invariant boxes == [box] + WalkBoxes(walk[..i])
      invariant |boxes| < StemRingSize ==> Boxes(Window(lg.slots[..], lg.self, lg.trying)) == Dedup(boxes)
    {
      var next := SampleBox(walk[i], 0.0, 0.0);
      AppendTracksDedup(lg.slots[..], lg.self, lg.trying, boxes, next);
      ok := lg.GrowFrontRear(walk[i].front, walk[i].rear, 0.0, 0.0, walk[i].deg, walk[i].xAxis);
      assert WalkBoxes(walk[..i + 1]) == WalkBoxes(walk[..i]) + [next];
      boxes := boxes + [next];
    }
    box := SampleBox(t.last, StraightHalfHeight, StraightHalfWidth);
    AppendTracksDedup(lg.slots[..], lg.self, lg.trying, boxes, box);
    ok := lg.GrowFrontRear(t.last.front, t.last.rear, StraightHalfHeight, StraightHalfWidth, t.last.deg, t.last.xAxis);
    assert walk[..|walk|] == walk;
    boxes := boxes + [box];
    assert boxes == StemBoxes(t, walk);
  }

  /** The global map of base footprints, keyed by CacheKey. */
  class LegumeCache {
    var entries: map<int, Legume>

    /** Every cached footprint is a well-formed ring. */
    ghost predicate Valid()
      reads this, entries.Values
    {
      forall k :: k in entries ==> entries[k].Valid()
    }

    constructor ()
      ensures Valid() && entries == map[]
    {
      entries := map[];
    }

    /** The footprint of a move type on its canonical (XInc, YInc) heading:
        looked up, or built in a fresh ring of 500 and stored. */
    method StemLegume(moveType: int, track: Option<StemTrack>) returns (l: Option<Legume>)
      requires Valid()
      modifies this
      ensures Valid()
      ensures var key := CacheKey(moveType, XInc, YInc);
              l.Some? ==> key in entries && entries[key] == l.value && l.value.Valid()
      ensures var key := CacheKey(moveType, XInc, YInc);
              key in old(entries) ==> entries == old(entries) && l == Some(old(entries)[key])
      ensures var key := CacheKey(moveType, XInc, YInc);
              key !in old(entries) && (track.None? || track.value.walk.None?) ==>
                entries == old(entries) && l.None?
      ensures var key := CacheKey(moveType, XInc, YInc);
              key !in old(entries) && track.Some? && track.value.walk.Some? ==>
                && l.Some? && fresh(l.value) && fresh(l.value.slots)
                && entries == old(entries)[key := l.value]
                && l.value.Valid() && l.value.slots.Length == StemRingSize
                && Chain(l.value.slots[..], l.value.self, l.value.trying)
                && (|track.value.walk.value| + 2 < StemRingSize ==>
                      Boxes(Window(l.value.slots[..], l.value.self, l.value.trying)) ==
                      Dedup(StemBoxes(track.value, track.value.walk.value)))
    {
      var key := CacheKey(moveType, XInc, YInc);
      if key in entries {
        return Some(entries[key]);
      }
      if track.None? || track.value.walk.None? {
        return None;
      }
      var lg := BuildStem(track.value, track.value.walk.value);
      entries := entries[key := lg];
      return Some(lg);
    }

    /** The footprint of a move type entering in d1 and leaving in d2. A miss
        for a pair other than (XInc, YInc) dereferences a nil footprint in
        the source; crashed reports that, after the stem has been built and
        stored. */
    method BaseLegume(moveType: int, d1: Direction, d2: Direction, track: Option<StemTrack>)
      returns (l: Option<Legume>, crashed: bool)
      requires Valid()
      modifies this
      ensures Valid()
      ensures var key := CacheKey(moveType, d1, d2);
              l.Some? ==> key in entries && entries[key] == l.value && l.value.Valid()
      ensures var key := CacheKey(moveType, d1, d2);
              key !in old(entries) && d1 == XInc && d2 == YInc && track.Some? && track.value.walk.Some? ==>
                && l.Some? && fresh(l.value) && fresh(l.value.slots)
                && entries == old(entries)[key := l.value]
                && l.value.slots.Length == StemRingSize
                && Chain(l.value.slots[..], l.value.self, l.value.trying)
                && (|track.value.walk.value| + 2 < StemRingSize ==>
                      Boxes(Window(l.value.slots[..], l.value.self, l.value.trying)) ==
                      Dedup(StemBoxes(track.value, track.value.walk.value)))
      ensures var key := CacheKey(moveType, d1, d2);
              key in old(entries) ==> entries == old(entries) && l == Some(old(entries)[key]) && !crashed
      ensures var key, stem := CacheKey(moveType, d1, d2), CacheKey(moveType, XInc, YInc);
              key !in old(entries) ==>
                && (l.Some? ==> !crashed && d1 == XInc && d2 == YInc)
                && (crashed <==> !(d1 == XInc && d2 == YInc) &&
                                 (stem in old(entries) || (track.Some? && track.value.walk.Some?)))
                && (d1 == XInc && d2 == YInc ==> (l.Some? <==> track.Some? && track.value.walk.Some?))
      ensures var stem := CacheKey(moveType, XInc, YInc);
              entries == old(entries) || (stem !in old(entries) && entries.Keys == old(entries).Keys + {stem} &&
                                          forall k :: k in old(entries) ==> entries[k] == old(entries)[k])
    {
      var key := CacheKey(moveType, d1, d2);
      if key in entries {
        return Some(entries[key]), false;
      }
      var sl := StemLegume(moveType, track);
      if sl.None? {
        return None, false;
      }
      if d1 == XInc && d2 == YInc {
        return sl, false;
      }
      return None, true;
    }
  }
}
