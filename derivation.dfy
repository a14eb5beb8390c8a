/** The common state of a drawing feature as a value, the rule that decides
    which property changes mark a feature touched, and the geometry each kind
    of feature derives in its calculateGeometry. The classes in module Drawing
    are specified by these functions. */
module Derivation {
  import opened Geometry

  /** Every property a drawing feature registers (DrawingFeature.h). The
      Dimension links First and Second are not here: they are never
      registered, so they never notify their owner. */
  datatype Prop =
    // Drawing::Feature
    | StartPoint | EndPoint | LineWidth | LineColor | LineStyle | Construction
    // Drawing::Line
    | Length | Angle
    // Drawing::Circle
    | Center | CircleRadius | FirstAngle | LastAngle
    // Drawing::Rectangle
    | Width | Height | Rounded | CornerRadius
    // Drawing::Polygon
    | Points | Sides | PolygonRadius | Closed
    // Drawing::Text
    | TextString | FontName | FontSize | Position | Rotation | Justification
    // Drawing::Dimension
    | DimLinePosition | FormatSpec | TextSize | ShowUnits

  /** App::PropertyColor: red, green, blue and transparency. */
  datatype Color = Color(r: real, g: real, b: real, a: real)

  /** The properties every feature carries, and its touched status. */
  datatype FeatureState = FeatureState(
    startPoint: Vec,
    endPoint: Vec,
    lineWidth: real,
    lineColor: Color,
    lineStyle: int,
    construction: bool,
    touched: bool)

  /** A freshly constructed feature: every property at its default, and not
      touched, because the defaults are stored before the property is attached
      to its owner. */
  const DefaultState: FeatureState :=
    FeatureState(Origin, Origin, 1.0, Color(0.0, 0.0, 0.0, 0.0), 0, false, false)

  /** The properties for which Feature::onChanged calls touch(). */
  predicate MarksTouched(p: Prop) {
    p.StartPoint? || p.EndPoint? || p.LineWidth? || p.LineColor? || p.LineStyle?
  }

  /** The state after Feature::onChanged(p). */
  function Notified(s: FeatureState, p: Prop): FeatureState {
    if MarksTouched(p) then s.(touched := true) else s
  }

  /** `StartPoint.setValue(v)`: store, then notify. */
  function WithStartPoint(s: FeatureState, v: Vec): FeatureState {
    Notified(s.(startPoint := v), StartPoint)
  }

  /** `EndPoint.setValue(v)`: store, then notify. */
  function WithEndPoint(s: FeatureState, v: Vec): FeatureState {
    Notified(s.(endPoint := v), EndPoint)
  }

  /** Two states agree on everything but StartPoint, EndPoint and the touched
      status. */
  predicate SameAppearance(a: FeatureState, b: FeatureState) {
    a.lineWidth == b.lineWidth && a.lineColor == b.lineColor &&
    a.lineStyle == b.lineStyle && a.construction == b.construction
  }

  // ---------------------------------------------------------------------------
  // Touch rule
  // ---------------------------------------------------------------------------

  /** Notification sets the touched status exactly for the five properties of
      MarksTouched; any other property, Construction and every kind-specific
      one included, leaves the state as it was. */
  lemma NotifiedTouchesExactlyFive(s: FeatureState, p: Prop)
    ensures Notified(s, p).touched == (s.touched || MarksTouched(p))
    ensures !MarksTouched(p) ==> Notified(s, p) == s
  {
  }

  /** Notification never clears the touched status and is idempotent. */
  lemma NotifiedMonotoneAndIdempotent(s: FeatureState, p: Prop)
    ensures s.touched ==> Notified(s, p).touched
    ensures Notified(Notified(s, p), p) == Notified(s, p)
  {
  }

  // ---------------------------------------------------------------------------
  // Line
  // ---------------------------------------------------------------------------

  /** The end of a line of the given length leaving `start` at `angle` degrees
      in the XY plane. */
  function LineEnd(start: Vec, length: real, angle: real, n: Numerics): (e: Vec)
    ensures e.x == start.x + n.cos(Radians(angle)) * length
    ensures e.y == start.y + n.sin(Radians(angle)) * length
    ensures e.z == start.z
  {
    Add(start, Scale(Vec(n.cos(Radians(angle)), n.sin(Radians(angle)), 0.0), length))
  }

  /** Line::calculateGeometry on the common state. */
  function LineRecomputed(s: FeatureState, length: real, angle: real, n: Numerics): (r: FeatureState)
    ensures r.endPoint == LineEnd(s.startPoint, length, angle, n)
    ensures r.startPoint == s.startPoint && r.touched
    ensures SameAppearance(r, s)
  {
    WithEndPoint(s, LineEnd(s.startPoint, length, angle, n))
  }

  /** Line::getDirection on the two points it reads. */
  function DirectionBetween(start: Vec, end: Vec, n: Numerics): Vec {
    n.normalize(Sub(end, start))
  }

  /** After a recompute the direction is the normalised (cos, sin, 0) scaled
      by the length, whatever the start point is. */
  lemma LineDirectionAfterRecompute(s: FeatureState, length: real, angle: real, n: Numerics)
    ensures var r := LineRecomputed(s, length, angle, n);
      DirectionBetween(r.startPoint, r.endPoint, n)
        == n.normalize(Vec(n.cos(Radians(angle)) * length, n.sin(Radians(angle)) * length, 0.0))
  {
    var r := LineRecomputed(s, length, angle, n);
    assert Sub(r.endPoint, r.startPoint)
        == Vec(n.cos(Radians(angle)) * length, n.sin(Radians(angle)) * length, 0.0);
  }

  /** A line of length zero ends where it starts. */
  lemma ZeroLengthLineIsAPoint(s: FeatureState, angle: real, n: Numerics)
    ensures LineRecomputed(s, 0.0, angle, n).endPoint == s.startPoint
  {
  }

  lemma LineRecomputeIdempotent(s: FeatureState, length: real, angle: real, n: Numerics)
    ensures LineRecomputed(LineRecomputed(s, length, angle, n), length, angle, n)
         == LineRecomputed(s, length, angle, n)
  {
  }

  // ---------------------------------------------------------------------------
  // Circle
  // ---------------------------------------------------------------------------

  /** The point at `angle` degrees on the circle of `radius` around `center`,
      in the plane z = center.z. */
  function ArcPoint(center: Vec, radius: real, angle: real, n: Numerics): (p: Vec)
    ensures p.x == center.x + radius * n.cos(Radians(angle))
    ensures p.y == center.y + radius * n.sin(Radians(angle))
    ensures p.z == center.z
  {
    var a := Radians(angle);
    Vec(center.x + radius * n.cos(a), center.y + radius * n.sin(a), center.z)
  }

  /** Circle::calculateGeometry on the common state. */
  function CircleRecomputed(s: FeatureState, center: Vec, radius: real,
                            firstAngle: real, lastAngle: real, n: Numerics): (r: FeatureState)
    ensures r.startPoint == ArcPoint(center, radius, firstAngle, n)
    ensures r.endPoint == ArcPoint(center, radius, lastAngle, n)
    ensures r.startPoint.z == center.z && r.endPoint.z == center.z
    ensures r.touched && SameAppearance(r, s)
  {
    WithEndPoint(WithStartPoint(s, ArcPoint(center, radius, firstAngle, n)),
                 ArcPoint(center, radius, lastAngle, n))
  }

  /** The derived points do not depend on what StartPoint and EndPoint held. */
  lemma CircleIgnoresOldEnds(s: FeatureState, t: FeatureState, center: Vec, radius: real,
                             firstAngle: real, lastAngle: real, n: Numerics)
    requires SameAppearance(s, t)
    ensures CircleRecomputed(s, center, radius, firstAngle, lastAngle, n)
         == CircleRecomputed(t, center, radius, firstAngle, lastAngle, n)
  {
  }

  /** Equal angles give coincident end points. */
  lemma CircleEqualAnglesCoincide(s: FeatureState, center: Vec, radius: real, angle: real, n: Numerics)
    ensures var r := CircleRecomputed(s, center, radius, angle, angle, n);
      r.startPoint == r.endPoint
  {
  }

  lemma CircleRecomputeIdempotent(s: FeatureState, center: Vec, radius: real,
                                  firstAngle: real, lastAngle: real, n: Numerics)
    ensures var r := CircleRecomputed(s, center, radius, firstAngle, lastAngle, n);
      CircleRecomputed(r, center, radius, firstAngle, lastAngle, n) == r
  {
  }

  /** The tolerance of Circle::isFullCircle. */
  const FullCircleTolerance: real := 0.000001

  /** |lastAngle - firstAngle - 360| < 1e-6 */
  predicate SweepsFullTurn(firstAngle: real, lastAngle: real) {
    Abs(lastAngle - firstAngle - 360.0) < FullCircleTolerance
  }

  /** The sweep test as a window around 360 degrees, both directions. */
  lemma FullTurnWindow(firstAngle: real, lastAngle: real)
    ensures SweepsFullTurn(firstAngle, lastAngle)
        <==> 360.0 - FullCircleTolerance < lastAngle - firstAngle < 360.0 + FullCircleTolerance
  {
  }

  /** Turning both angles by the same amount does not change the test, and
      the default angles 0 and 360 pass it. */
  lemma FullTurnShiftInvariant(firstAngle: real, lastAngle: real, d: real)
    ensures SweepsFullTurn(firstAngle + d, lastAngle + d) == SweepsFullTurn(firstAngle, lastAngle)
    ensures SweepsFullTurn(0.0, 360.0)
    ensures !SweepsFullTurn(0.0, 180.0)
  {
  }

  // ---------------------------------------------------------------------------
  // Rectangle
  // ---------------------------------------------------------------------------

  /** The corner opposite `start`; z is carried over from `start`. */
  function RectangleCorner(start: Vec, width: real, height: real): (c: Vec)
    ensures Sub(c, start) == Vec(width, height, 0.0)
  {
    Vec(start.x + width, start.y + height, start.z)
  }

  /** Rectangle::calculateGeometry on the common state. */
  function RectangleRecomputed(s: FeatureState, width: real, height: real): (r: FeatureState)
    ensures r.endPoint == Vec(s.startPoint.x + width, s.startPoint.y + height, s.startPoint.z)
    ensures r.startPoint == s.startPoint && r.touched && SameAppearance(r, s)
  {
    WithEndPoint(s, RectangleCorner(s.startPoint, width, height))
  }

  lemma RectangleRecomputeIdempotent(s: FeatureState, width: real, height: real)
    ensures RectangleRecomputed(RectangleRecomputed(s, width, height), width, height)
         == RectangleRecomputed(s, width, height)
  {
  }

  // ---------------------------------------------------------------------------
  // Polygon
  // ---------------------------------------------------------------------------

  /** Polygon::calculateGeometry on the common state. */
  function PolygonRecomputed(s: FeatureState, points: seq<Vec>): (r: FeatureState)
    ensures points != [] ==> r.startPoint == points[0] && r.endPoint == points[|points| - 1]
    ensures points != [] ==> r.touched && SameAppearance(r, s)
    ensures points == [] ==> r == s
  {
    if points == [] then s
    else WithEndPoint(WithStartPoint(s, points[0]), points[|points| - 1])
  }

  lemma PolygonRecomputeIdempotent(s: FeatureState, points: seq<Vec>)
    ensures PolygonRecomputed(PolygonRecomputed(s, points), points) == PolygonRecomputed(s, points)
  {
  }

  /** C++ `int`. */
  newtype Int32 = x: int | -0x8000_0000 <= x < 0x8000_0000

  /** `static_cast<int>(points.size())`: the size reduced modulo 2^32 into the
      range of a 32-bit two's-complement int. */
  function SizeAsInt(size: nat): (i: Int32)
    ensures i as int <= size
    ensures size < 0x8000_0000 ==> i as int == size
  {
    var m := size % 0x1_0000_0000;
    if m < 0x8000_0000 then m as Int32 else (m - 0x1_0000_0000) as Int32
  }

  /** The guard of Polygon::removePoint. */
  predicate RemoveInRange(points: seq<Vec>, index: Int32) {
    0 <= index && index < SizeAsInt(|points|)
  }

  /** For every list shorter than 2^31 points the guard is the plain bounds
      check. */
  lemma RemoveGuardIsBoundsCheck(points: seq<Vec>, index: Int32)
    requires |points| < 0x8000_0000
    ensures RemoveInRange(points, index) <==> 0 <= index as int < |points|
  {
  }

  /** The point list after Polygon::removePoint(index). */
  function PointsAfterRemove(points: seq<Vec>, index: Int32): (r: seq<Vec>)
    ensures RemoveInRange(points, index) ==>
      |r| == |points| - 1 &&
      (forall k :: 0 <= k < index as int ==> r[k] == points[k]) &&
      (forall k :: index as int <= k < |r| ==> r[k] == points[k + 1])
    ensures !RemoveInRange(points, index) ==> r == points
  {
    if RemoveInRange(points, index) then
      points[..index] + points[index + 1..]
    else
      points
  }

  /** Removing a point takes exactly that one occurrence out of the list. */
  lemma RemoveTakesOutOnePoint(points: seq<Vec>, index: Int32)
    requires RemoveInRange(points, index)
    ensures multiset(PointsAfterRemove(points, index)) + multiset{points[index]} == multiset(points)
  {
    var i := index as int;
    assert points == points[..i] + [points[i]] + points[i + 1..];
  }

  /** addPoint followed by removePoint of the last index is the identity. */
  lemma RemoveUndoesAdd(points: seq<Vec>, p: Vec)
    requires |points| < 0x7FFF_FFFF
    ensures PointsAfterRemove(points + [p], |points| as Int32) == points
  {
    var appended := points + [p];
    assert appended[..|points|] == points;
  }

  /** After addPoint(p) a recompute ends the polygon at p, and starts it at p
      only when p is the sole point. */
  lemma RecomputeAfterAdd(s: FeatureState, points: seq<Vec>, p: Vec)
    ensures PolygonRecomputed(s, points + [p]).endPoint == p
    ensures PolygonRecomputed(s, points + [p]).startPoint == if points == [] then p else points[0]
  {
  }

  /** After removing the first point of a list of at least two, a recompute
      starts the polygon at the old second point and keeps its end. */
  lemma RecomputeAfterRemoveFirst(s: FeatureState, points: seq<Vec>)
    requires 2 <= |points| < 0x8000_0000
    ensures var r := PolygonRecomputed(s, PointsAfterRemove(points, 0));
      r.startPoint == points[1] && r.endPoint == points[|points| - 1]
  {
    var rest := PointsAfterRemove(points, 0);
    assert rest[0] == points[1];
    assert rest[|rest| - 1] == points[|points| - 1];
  }

  // ---------------------------------------------------------------------------
  // Text
  // ---------------------------------------------------------------------------

  /** Text::calculateGeometry on the common state. */
  function TextRecomputed(s: FeatureState, position: Vec): (r: FeatureState)
    ensures r.startPoint == position && r.endPoint == position
    ensures r.touched && SameAppearance(r, s)
  {
    WithEndPoint(WithStartPoint(s, position), position)
  }

  /** Whatever StartPoint and EndPoint held, and however often it runs, the
      text recompute leaves the same state. */
  lemma TextRecomputeForgetsOldEnds(s: FeatureState, t: FeatureState, position: Vec)
    requires SameAppearance(s, t)
    ensures TextRecomputed(s, position) == TextRecomputed(t, position)
    ensures TextRecomputed(TextRecomputed(s, position), position) == TextRecomputed(s, position)
  {
  }

  // ---------------------------------------------------------------------------
  // Dimension
  // ---------------------------------------------------------------------------

  /** Dimension::calculateDimension, given whether each link is set and the
      dimension's own StartPoint and EndPoint. */
  function MeasuredDistance(firstSet: bool, secondSet: bool, start: Vec, end: Vec, n: Numerics): (d: real)
    ensures !firstSet || !secondSet ==> d == 0.0
    ensures firstSet && secondSet ==> d == EuclideanLength(Sub(end, start), n)
    ensures Sound(n) ==> 0.0 <= d
  {
    if !firstSet || !secondSet then 0.0 else EuclideanLength(Sub(end, start), n)
  }

  /** The measured distance does not depend on the orientation of the two
      points. */
  lemma MeasuredDistanceSymmetric(firstSet: bool, secondSet: bool, start: Vec, end: Vec, n: Numerics)
    ensures MeasuredDistance(firstSet, secondSet, start, end, n)
         == MeasuredDistance(firstSet, secondSet, end, start, n)
  {
    LengthOfDifferenceSymmetric(start, end, n);
  }
}
