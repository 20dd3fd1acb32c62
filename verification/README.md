# JasmineGo traffic controller core, modelled in Dafny

JasmineGo is a traffic controller for automated guided vehicles (AGVs). It
follows vehicles along routes made of sub-routes: straight runs, quarter
turns, oblique moves, U-turns and S-turns. For each vehicle it tracks the
current, claimed and trying route marks. It models the space a vehicle
sweeps as a "legume": a ring of oriented bounding boxes ("beans"). It keeps
a registry of restricted zones and turns the conic track records of each
move type into curve functions that a stepper walks.

This project models the exactly stateable layer of that system:

- tolerant float comparisons, points and direction tables (`Tolerance`,
  `Points`, `Directions`);
- the entry/exit directions and headings of sub-routes (`Route`);
- axis-aligned and oriented box overlap (`Obb`);
- the footprint ring buffer with its three cursors, its overlap scans and
  the cache of base footprints (`LegumeRing`);
- the restricted-zone registry (`Forbidden`);
- the vehicle position predicates and the route-mark update (`Traffic`);
- the curve bookkeeping of the track stepper (`Track`).

`float64` is modelled as `real` and Go `int` as unbounded `int`. Where the
source divides by zero or panics, the model makes that outcome explicit:
`false`, `None` or `ok == false`. Go methods with value receivers work on a
copy, so they are functions that return the new value. Pointer-receiver and
global-state mutators are Dafny methods on classes:

- `Legume` holds the ring as an `array` of slots;
- `LegumeCache` holds the global base-footprint map;
- `Registry` holds the global zone map and its flag;
- `FunctionRef` and `QuadraticCurveRef` hold the curve values that
  `recognizeType`, `recognizeSign`, `calcLineFunc` and `standardize` update
  in place.

The trigonometry the source uses is not modelled; its results are passed in
as inputs:

- the cosine and sine in `CreateOBB` become the box's x-axis vector;
- the angle `DegreeTo` gives becomes the angle of a footprint box;
- the points the conic solvers find become `NextPoint`'s `solved` argument.

The track data read from JSON become the `track` argument of the cache
methods.

## Model

| member | source | states |
|---|---|---|
| Tolerance.FloatEqualNearZero | util/util.go:8-10 | two values both below 0.008 in magnitude compare equal |
| Tolerance.FloatEqualReflexive | util/util.go:7-13 | every value equals itself |
| Tolerance.FloatEqualSymmetric | util/util.go:7-13 | the comparison does not depend on argument order |
| Tolerance.FloatEqualRelative | util/util.go:12 | away from zero, `FloatEqual` is exactly the relative test abs((a-b)/max(a,b)) < 0.005 |
| Tolerance.FloatEqualZeroMaximum | util/util.go:7-13 | when max(a,b) is 0 and a is not near zero, Go divides by zero and the comparison is false both ways round |
| Tolerance.FloatEqualZero | util/util.go:7-13 | comparing with 0 is the absolute test abs(a) < 0.008 |
| Tolerance.FloatEqualNotTransitive | util/util.go:12 | 1000 ≈ 1004 and 1004 ≈ 1008, but 1000 and 1008 do not compare equal |
| Tolerance.FloatEqualToleranceSymmetric | util/util.go:15-17 | the absolute test is symmetric |
| Tolerance.FloatEqualToleranceNonPositive | util/util.go:15-17 | no pair is within a tolerance ≤ 0 |
| Tolerance.OpenIntervalInClose | util/util.go:19-25 | the open interval test implies the closed one |
| Tolerance.IntervalsSymmetric | util/util.go:19-25 | both interval tests are symmetric in the two bounds |
| Tolerance.BoundsInCloseInterval | util/util.go:23-25 | with tolerance ≥ 0 both bounds lie in the closed interval |
| Points.Trunc | util/point.go:43-45 | Go's `int()` conversion truncates toward zero and stays within 1 of its argument |
| Points.FloatPointEqualReflexive | util/point.go:12-14 | tolerant point equality is reflexive |
| Points.FloatPointEqualSymmetric | util/point.go:12-14 | tolerant point equality is symmetric |
| Points.FloatPointEqualTolerant | util/point.go:12-14 | (1000, 0) equals (1004, 0.001), so equality is coarser than identity |
| Points.IntPointEqualIsIdentity | util/point.go:51-53 | integer point equality is identity, so it is reflexive and symmetric |
| Points.CenterPointAverage | util/point.go:16-18 | the midpoint is the componentwise average, symmetric in the two points, and a point's midpoint with itself is the point |
| Points.ShiftBack | util/point.go:59-61 | shifting by s and then by -s gives back the point |
| Points.ScaleOne | util/point.go:55-57 | scaling by 1 is the identity |
| Points.SymmetriesAreInvolutions | util/point.go:67-77 | each of the three reflections undoes itself |
| Points.SymmetryOriginComposes | util/point.go:67-77 | reflecting in the origin is reflecting in both axes, in either order |
| Points.IntPointRoundTrip | util/point.go:43-45 | an integer point converted to float and back is unchanged |
| Points.TruncOfInt | util/point.go:43-45 | truncating an integral value gives that integer |
| Points.TruncTowardZero | util/point.go:43-45 | (-2.5, 2.5) truncates to (-2, 2), not to Dafny's floor |
| Directions.Opposite | util/direction.go:18-31 | the opposite is valid iff the direction is valid, stays on the same axis, and differs from a valid direction |
| Directions.ToDegree | util/direction.go:48-61 | exactly the valid directions map into [0, 360) |
| Directions.DegreeOpposite | util/direction.go:63-76 | exactly the headings 0, 90, 180 and 270 have an opposite other than -1 |
| Directions.OppositeInvolution | util/direction.go:18-31 | `Opposite` is an involution on the four directions and sends every other value to DirErr |
| Directions.ToDegreeTable | util/direction.go:48-61 | XInc→0, YInc→90, XDec→180, YDec→270, anything else → -1 |
| Directions.DegreeOppositeInvolution | util/direction.go:63-76 | the heading opposite is an involution on the four axis headings and -1 elsewhere |
| Directions.OppositeCommutesWithToDegree | util/direction.go:18-76 | `ToDegree(Opposite(d)) == DegreeOpposite(ToDegree(d))` for every integer d |
| Directions.DegreeSymmetryXAxisInvolution | util/direction.go:90-92 | mirroring a heading is 360 - d and undoes itself |
| Directions.DirectionStringsDistinct | util/direction.go:33-46 | the four valid directions have four distinct names, none of them the error text |
| Directions.DirectionStringError | util/direction.go:33-46 | every other value prints as "Direction Error" |
| Route.Abs | route/route.go:13-18 | the result is non-negative and is x or -x |
| Route.AbsNegate | route/route.go:13-18 | `abs(-x) == abs(x)` |
| Route.SubRoute.InOutDirection | route/route.go:47-169 | unknown kinds give (DirErr, DirErr); straight runs give equal valid directions; each turn gives one X and one Y direction |
| Route.SubRoute.HeadingOnSubRoute | route/route.go:171-207 | unknown kinds give -1; known kinds give one of 0, 90, 180 and 270 |
| Route.StraightDirections | route/route.go:48-61 | a vertical straight run goes YInc iff Start.Y < End.Y; any other straight run is chosen by Y, so a horizontal one is always (XDec, XDec) |
| Route.InOutDirectionSamples | route/route_test.go:8-37 | the QTurn sample gives (XInc, YInc) and the Oblique sample gives (XDec, YDec) |
| Route.AsternIsOpposite | route/route.go:202-206 | driving astern gives the opposite of the forward heading, and the reverse |
| Route.QTurnHeading | route/route.go:178-183 | on a quarter turn the heading is the entry direction at Start and the second leg's direction elsewhere |
| Route.UTurnHeading | route/route.go:188-193 | away from its start a U-turn heads opposite to its entry heading |
| Obb.Vector.Projection | legume/obb.go:33-35 | the projection is non-negative |
| Obb.ProjectionDot | legume/obb.go:33-35 | the projection is the magnitude of the dot product, so it is ± the dot product |
| Obb.OBB.Vertexes | legume/obb.go:61-70 | a box has four corners |
| Obb.CreateOBB | legume/obb.go:51-59 | the box keeps the given centre, half-lengths, angle and x-axis |
| Obb.CreatedAxesOrthogonal | legume/obb.go:56-57 | the derived y-axis is orthogonal to the x-axis and as long |
| Obb.ProjectionSymmetric | legume/obb.go:33-35 | `v.Projection(a) == a.Projection(v)`, and negating v does not change it |
| Obb.AabbOverlapSymmetric | legume/obb.go:14-19 | axis-aligned overlap is symmetric |
| Obb.AabbOverlapDistance | legume/obb.go:14-19 | axis-aligned boxes overlap iff, on both axes, the centre distance is strictly below the summed half-lengths |
| Obb.AabbOverlapSamples | legume/obb.go:14-19 | unit boxes 3 or 2 apart do not overlap (touching is not overlap); 1.9 apart they do |
| Obb.IsOverlapAgreesOffBXAxis | legume/obb.go:79-104 | when b's half-lengths are equal, the test as written agrees with the corrected test |
| Obb.CreateAxisAligned | legume/obb.go:51-59 | with the x-axis (1, 0) the box's axes are the coordinate axes and its AABB part is the same box |
| Obb.AxisAlignedOverlaps | legume/obb.go:79-104 | for boxes on the coordinate axes the corrected four-axis test is exactly the axis-aligned test |
| Obb.AxisAlignedIsOverlap | legume/obb.go:79-104 | for the same boxes the test as written also demands an x distance below o's x half-length plus b's y half-length |
| Obb.OverlapsSymmetric | legume/obb.go:79-104 | the corrected test does not depend on which box is the receiver |
| Obb.IsOverlapAsymmetric | legume/obb.go:93-96 | the test as written is not symmetric; see Findings |
| Obb.SelfOverlap | legume/obb.go:51-104 | a created box with positive half-lengths and a non-zero axis overlaps itself under both tests |
| Obb.CentroidBalanced | legume/obb.go:72-77 | equal front/rear and inner/outer offsets leave the centre unchanged |
| Obb.VertexesIgnoreHalfLengths | legume/obb.go:61-70 | the corners are centre ± xAxis ± yAxis whatever the half-lengths, and they average to the centre |
| Obb.MirrorProperties | legume/obb.go:106-116 | `Transform` is the X-axis mirror for every pair of directions; the mirror has centre (x, -y) and angle 360 - deg, and mirroring twice restores centre and angle |
| Obb.MirrorOverlapsNothing | legume/obb.go:106-116 | a mirrored box has zero axes and half-lengths and so overlaps nothing under either test |
| LegumeRing.Next | legume/legume.go:34 | the element after a slot is a slot |
| LegumeRing.Prev | legume/legume.go:57 | the element before p is the slot whose next is p |
| LegumeRing.Pos | legume/legume.go:76 | walking k steps from a slot stays in the ring |
| LegumeRing.Dist | legume/legume.go:75-82 | a loop `r := start; r != end; r = r.Next()` runs d < n steps, reaches end after exactly d and not before, and runs 0 steps iff start == end |
| LegumeRing.Window | legume/legume.go:75-82 | the slots such a loop visits: as many as it runs steps |
| LegumeRing.Boxes | legume/legume.go:14-18 | one box per filled slot |
| LegumeRing.AppendDistinct | legume/legume.go:57-64 | a box sequence is extended by o unless o repeats its last box |
| LegumeRing.Dedup | legume/legume.go:47-65 | the boxes with repeats of the last kept box dropped: no longer than the input, same first box, last box equal or a repeat of the input's last box, and no two neighbours repeat |
| LegumeRing.Appended | legume/legume.go:47-65 | an append writes only the trying slot and moves trying at most one slot; a panic changes nothing; a write stores o and moves trying on |
| LegumeRing.AppendAtSelf | legume/legume.go:50-55 | with trying on self, the box is stored with index 0 and trying moves on |
| LegumeRing.AppendDuplicate | legume/legume.go:57-64 | appending a repeat of the tail box changes nothing |
| LegumeRing.DistStep | legume/legume.go:50-63 | moving trying on lengthens the window from self by one, until it wraps back onto self |
| LegumeRing.AppendKeepsChain | legume/legume.go:47-65 | appending to a well-formed window (filled, numbered 0.., no stops, no adjacent repeats) never panics and keeps it well formed; before the ring fills, the window's boxes become `AppendDistinct` of the old ones |
| LegumeRing.AppendRestarts | legume/legume.go:50-55 | an append with trying on self never panics and starts the window again holding o alone |
| LegumeRing.AppendExtends | legume/legume.go:57-64 | an append of a box that does not repeat the tail, before the ring fills, keeps the chain and adds o to the end of the window's boxes |
| LegumeRing.WindowGrows | legume/legume.go:60-63 | writing the trying slot and moving trying on adds that slot to the end of the window |
| LegumeRing.Legume.Init | legume/legume.go:26-31 | a ring of n empty slots with self, claimed and trying on one slot |
| LegumeRing.Legume.Reset | legume/legume.go:33-36 | claimed moves to the slot after self and trying onto claimed; slots and self are unchanged |
| LegumeRing.Legume.AppendBean | legume/legume.go:47-65 | the new slots, trying cursor and panic flag are those of `Appended`; self and claimed are unchanged |
| LegumeRing.Legume.GrowCenter | legume/legume.go:67-69 | appends the box created from the centre, half-lengths, angle and axis |
| LegumeRing.Legume.GrowFrontRear | legume/legume.go:71-73 | appends the box centred midway between the front and rear points |
| LegumeRing.Legume.IsOverlapWithObb | legume/legume.go:75-82 | the answer is true iff `o.IsOverlap` holds, as written, for some box of the window from start to end |
| LegumeRing.Legume.IsOverlapWithLegume | legume/legume.go:84-93 | the answer is true iff `IsOverlap` holds, as written, for some pair of boxes from the two windows; the slots returned are those of the first such pair in loop order, and None, None when there is none |
| LegumeRing.ResetWindow | legume/legume.go:33-36 | after `Reset` the window from self to trying is the single slot self |
| LegumeRing.DedupSnoc | legume/legume.go:47-65 | deduplicating a sequence with one more box is `AppendDistinct` of the deduplicated prefix |
| LegumeRing.AppendTracksDedup | legume/legume.go:47-65 | a build that appends boxes one by one to an empty window holds their deduplication |
| LegumeRing.WalkBoxes | legume/legume.go:187 | the stepper's poses give one zero-sized box each |
| LegumeRing.StemBoxes | legume/legume.go:185-203 | a stem build appends the start box, the walk boxes and the end box |
| LegumeRing.CacheKeyInjective | legume/legume.go:171 | the key moveType*100 + d1*10 + d2 identifies move type and directions when both are single digits |
| LegumeRing.BuildStem | legume/legume.go:183-203 | a fresh well-formed ring of 500 whose window holds the deduplicated stem boxes, while they fit |
| LegumeRing.LegumeCache.constructor | legume/legume.go:163 | the cache starts empty, so every cached footprint is a well-formed ring |
| LegumeRing.LegumeCache.StemLegume | legume/legume.go:170-207 | a cached footprint is returned as is; a missing track or a failed walk gives None and changes nothing; otherwise the built footprint is stored under the (XInc, YInc) key and returned; whatever is returned is the well-formed ring cached under that key |
| LegumeRing.LegumeCache.BaseLegume | legume/legume.go:209-234 | a cached footprint is returned as is; whatever is returned is the well-formed ring cached under the key asked for, so a second call returns the same footprint; an uncached canonical (XInc, YInc) pair builds, stores and returns a fresh ring of 500 holding the deduplicated stem boxes while they fit; any other uncached pair reaches the nil `Init` and panics; only the stem key is ever added |
| Forbidden.Create | forbidden/forbidden_area.go:24-28 | the zone keeps its fields and its box spans exactly min..max, at angle 0 on the coordinate axes |
| Forbidden.CreateCoversRectangle | forbidden/forbidden_area.go:24-28 | a point lies in the zone's box iff it lies between the corners |
| Forbidden.Registry.constructor | forbidden/forbidden_area.go:21-22 | no zones and the flag clear |
| Forbidden.Registry.Add | forbidden/forbidden_area.go:30-43 | an existing id is refused with nothing changed; a new id is stored and sets the flag |
| Forbidden.Registry.Delete | forbidden/forbidden_area.go:45-56 | the inverted test: a present id answers false and stays; an absent id deletes nothing, sets the flag and returns no value |
| Forbidden.Registry.Modify | forbidden/forbidden_area.go:58-71 | an absent id is refused with nothing changed; a present id is replaced and sets the flag; the set of ids never changes |
| Forbidden.Registry.IsAnyModified | forbidden/forbidden_area.go:73-75 | answers the flag |
| Forbidden.Registry.ResetModifiedFlag | forbidden/forbidden_area.go:77-79 | sets the flag to true, so `IsAnyModified` holds afterwards |
| Traffic.ObliqueCorners | traffic.go:122-129 | the two derived corners are the two other corners of the rectangle spanned by Start and End |
| Traffic.StraightScan | traffic.go:162-171 | the scan cannot index outside the route when the claim lies within it, and its answer is the unchanged mark or an index between the start and the claim |
| Traffic.UpdateCurrentMark | traffic.go:152-209 | the receiver copy with its current index set to `MarkAfterUpdate`; None where Go indexes outside the route |
| Traffic.Reset | traffic.go:211-220 | the copy has all four mark indices 0, the claim at the truncated position and the run state Idle; route, position, trying mark, the positions of the current, target and command marks, motion status, orientation and failure count are kept |
| Traffic.ResetTrying | traffic.go:222-225 | the copy's trying mark is the claim and its failure count 0; claim, current, target and command marks, route, position, run and motion status and orientation are kept |
| Traffic.ArrivalBounds | traffic.go:70-84 | arrival needs a Stop or Straight motion and a valid orientation, and puts the vehicle within 11 of the point on both axes |
| Traffic.ArrivalAxesSwap | traffic.go:70-84 | arrival along X is arrival along Y with the coordinates swapped |
| Traffic.OnLinePrecedence | traffic.go:86-94 | `&&` binds tighter than `\|\|`: XInc accepts a sloped line that XDec refuses |
| Traffic.OnSegmentBounds | traffic.go:96-106 | being on a segment means being on its line, within 11 across it and within the ends widened by 6 along it |
| Traffic.OnSubRouteKinds | traffic.go:108-150 | a straight run tests its own segment, a quarter turn either leg, and an unknown kind nothing |
| Traffic.UpdateAtClaim | traffic.go:153-155 | a mark already at the claim does not move |
| Traffic.UpdateStraightBounds | traffic.go:157-171 | standing or driving straight, the mark stays between Current and Claim, and the update cannot fail when the claim lies within the route |
| Traffic.StraightScanNone | traffic.go:162-171 | when the vehicle is on none of the sub-routes from i up to the claim, the scan keeps the current mark |
| Traffic.StraightScanFirst | traffic.go:162-171 | the scan answers from the first sub-route the vehicle is on: its index, or the next index once the vehicle has arrived at that sub-route's end |
| Traffic.UpdateTurnStep | traffic.go:173-202 | while turning, the mark moves on by at most one sub-route |
| Traffic.ResetIdempotent | traffic.go:211-225 | both resets settle after one application, and ResetTrying after Reset puts the trying mark at index 0 on the truncated position |
| Track.RecognizeType | track/track.go:70-80 | only the type changes, and it is one of XYQ, XL, XYL and XQYL |
| Track.RecognizeTypePriority | track/track.go:70-80 | each type is chosen exactly when its test passes and every earlier test fails |
| Track.RecognizeConic | track/track.go:71-72 | the type is XYQ iff the y² coefficient is at least 0.008 in magnitude |
| Track.RecognizeLineType | track/track.go:70-80 | a curve without quadratic terms is XL iff its y coefficient is below 0.008 in magnitude, else XYL; line coefficients make vertical lines XL and sloped ones XYL |
| Track.RecognizeSign | track/track.go:82-95 | only the sign changes; kinds other than XYQ and XL keep theirs |
| Track.RecognizeSignTowardsEnd | track/track.go:87-92 | on a vertical line the sign is ±1 and points from Start towards End |
| Track.EvaluateLinear | track/track.go:35-38 | without quadratic terms the curve value is d·x + e·y + f |
| Track.PointTestOneSided | track/track.go:40-42 | the ends of a verified curve pass the point test, and so does any point far below the curve, such as (1000, 0) for f = -x |
| Track.CalcLineFunc | track/track.go:367-383 | only the coefficients change, and the quadratic ones are zero |
| Track.CalcLineFuncSloped | track/track.go:376-381 | a sloped line passes `Verify` and has y coefficient -1 |
| Track.CalcLineFuncVerticalFails | track/track.go:372-375 | as written, a vertical line off the Y axis fails `Verify`; see Findings |
| Track.CalcLineFuncFixed | track/track.go:367-383 | only the coefficients change, the quadratic ones are zero, and sloped lines agree with the source |
| Track.CalcLineFuncFixedVerifies | track/track.go:367-383 | with the corrected vertical case every line passes through both ends |
| Track.FunctionRef.constructor | track/track.go:20-25 | holds the given function |
| Track.FunctionRef.ApplyRecognizeType | track/track.go:70-80 | the function in place becomes `RecognizeType` of the old one |
| Track.FunctionRef.ApplyRecognizeSign | track/track.go:82-95 | the function in place becomes `RecognizeSign` of the old one |
| Track.FunctionRef.ApplyCalcLineFunc | track/track.go:367-383 | the function in place becomes `CalcLineFunc` of the old one, as written: a sloped line then passes `Verify`, a vertical one gets the coefficients of -x |
| Track.Standardize | track/track.go:292-300 | the angle PHI is kept |
| Track.StandardizeRoundTrip | track/track.go:292-300 | each point becomes ((x - 7)·100, y·100), the radii are scaled by 100, and the conversion is undone exactly by scaling by 1/100 and shifting by (7, 0) |
| Track.QuadraticCurveRef.constructor | track/track.go:285-288 | holds the given curve record |
| Track.QuadraticCurveRef.ApplyStandardize | track/track.go:292-300 | the record in place becomes `Standardize` of the old one, which `Unstandardize` recovers |
| Track.NextPoint | track/track.go:579-632 | a start answer is Start and an end answer is End; a centre point is neither current nor End and lies within the X range of the ends widened by 0.01 |
| Track.NextPointStartAndUnknown | track/track.go:585-587 | an unset current answers (Start, StartPoint); an unknown kind answers ((0, 0), NotFound) |
| Track.NextPointVerticalStep | track/track.go:597-631 | on a vertical line, from a point within the end range widened by 0.01, a step answers End, panics (None) or gives a centre point; a centre point is on x = Start.X, the distance left to End drops by exactly the interval, and it stays within the widened range |
| Track.Walk | track/track.go:579-632 | repeating the step, a walk that stops on an end answer stops on End |
| Track.WalkReachesEnd | track/track.go:597-631 | once n steps of the interval cover the distance left to End plus 0.01, n steps from a point in range have answered End or panicked |
| Track.RecognizedVerticalWalk | track/track.go:82-95 | a vertical line off the Y axis, signed by `RecognizeSign`, is walked from Start to End (or to a panic) in any n steps with n·interval above the distance between the ends plus 0.01 |
| Track.NextPointOnLine | track/track.go:597-601 | a vertical line's centre point lies on x = Start.X, sign·interval beyond current, within the end range, whatever the solvers would find |
| Track.NextPointSteps | track/track.go:597-631 | on (100,0)-(100,5000) with step 10: from y 100 the step reaches (100, 110); from y 2000 it panics because 2010 is within 0.5% of 2000; from y 4995 it answers End |

## Left out

- Conic numerics of track/track.go are not modelled: `XSolverXYQ`,
  `YSolverXYQ`, `dxXYQ`, `dxXQYL`, `dxXYL`, the inflection-point searches,
  the section signs, `calcEllipseFunc`, `calcHyperbolaFunc`,
  `ToFunctionArrayAndSplit`, the log10 normalisation in `toFunction`, and
  all of `NextPointRef`. They are floating-point Newton iterations on sqrt,
  sin, cos and log10.
- Track.NextPoint: the XYQ, XQYL and XYL branches take the solver's point
  as the `solved` argument. The model keeps their control flow (range test
  on X, stall, end) but not the numbers.
- Track.WalkReachesEnd and Track.RecognizedVerticalWalk: require the line
  to lie at least 0.008 off the Y axis. Nearer, a point on it compares
  equal to (0, 0), reads as unset, and the step restarts at Start. They
  also say nothing about which of End and the panic is reached; the panic
  comes from the 0.5% tolerance, as `NextPointSteps` shows.
- Track.RecognizeSign: the XYQ sign comes from the section-sign solver, so
  it is an argument.
- The trigonometry and square roots are not modelled: the cos/sin in
  `CreateOBB` (the x-axis is an argument), `DegreeTo`, `Distance`, `ToRad`,
  `ToSlope` and `Slope.ToDegree`.
- I/O and printing are not modelled: `LoadFromJSONFile`, `GetTrack` (its
  result is the `track` argument of the cache methods), `ToCCode`, every
  JSON `String` method and `log` calls.
- `GetOBBSize` always succeeds in the source. The recentring loop in
  `stemLegume` (legume/legume.go:196-201) edits copies of the beans, so it
  leaves the ring unchanged and is omitted.
- `GrowAlongTrack` (legume/legume.go:117-161) is not modelled: it is driven
  by the numeric stepper. Its poses are the `walk` argument of `StemTrack`,
  and None stands for its error.
- `GrowStraightSlice` (legume/legume.go:95-109) builds a local function and
  discards it, so it has no effect to model.
- LegumeRing.Legume.Init: requires n > 0. `ring.New` with n ≤ 0 gives a nil
  ring, on which every later call panics. The unused `n` field and
  `gLEGUME_RINGBUFFER_SIZE` are not modelled.
- LegumeRing.Legume.IsOverlapWithObb and
  LegumeRing.Legume.IsOverlapWithLegume: both require every slot in their
  windows to be filled, where Go would panic on a nil slot. They scan with
  `IsOverlap` as written, so they inherit its asymmetry (see Findings).
- LegumeRing.BuildStem and LegumeRing.LegumeCache.StemLegume: the equality
  with the deduplicated stem boxes is stated only while they fit in the
  500 slots. Beyond that the ring wraps onto self and the model states only
  that the window stays well formed.
- The stem build reads `t.Front[0]` and the last element of `t.Front` and
  `t.Rear`. On an empty track Go panics there; the model's `StemTrack`
  always has a first and a last pose.
- Forbidden.Registry.constructor: the source declares `gFobiddenAreas` and
  never allocates it. Its first `Add` would panic on the nil map; the model
  starts from an empty map.
- Traffic: the value receivers mean `UpdateCurrentMark`, `Reset` and
  `ResetTrying` change only a copy. The caller's vehicle never changes. The
  model returns the copy as the method leaves it.
- Traffic.AGV models only the fields the modelled operations read or write;
  the status, command and result records are not modelled.
- Obb.SelfOverlap: requires the axis to have positive squared length. This
  is weaker than "non-zero axis" over reals, which the source's
  `cos`/`sin` axes always satisfy.
- Integer overflow of Go's `int` and `int32`, NaN and infinities are not
  modelled, except that division by zero in `FloatEqual` is made explicit.
- There is no concurrency in the source; the global maps are fields of the
  `LegumeCache` and `Registry` objects.

## Findings

| source | as written | input that shows it | evidently intended | confidence | as-written member | corrected member |
|---|---|---|---|---|---|---|
| legume/obb.go:93-96 | the test on b's x-axis weighs b's own extent by `b.YHalfLength` | o a 2×2 box at (0,0), b a 20×2 box at (5,0), both on the coordinate axes: `o.IsOverlap(b)` is false while `b.IsOverlap(o)` is true, and the boxes overlap | weigh it by `b.XHalfLength`, as the other three tests weigh each box's own axis | not executed | Obb.IsOverlapAsymmetric | Obb.OverlapsSymmetric |
| track/track.go:372-375 | a vertical line x = c gets coefficients (0,0,0,-1,0,0), i.e. -x = 0 | Start (5,0), End (5,10): `Evaluate` is -5 at both ends, so `Verify` fails | constant term `Start.X`, giving -x + c = 0, which vanishes at both ends | not executed | Track.CalcLineFuncVerticalFails | Track.CalcLineFuncFixedVerifies |
