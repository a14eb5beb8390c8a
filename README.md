# Drawing feature objects: a verified model

This project models the drawing feature objects of the FreeCAD Drawing
workbench (`Drawing::Feature` and its kinds Line, Circle, Rectangle, Polygon,
Text and Dimension). Each kind stores inputs: a line's length and angle, a
circle's centre, radius and angles, a polygon's point list, and so on. Its
`calculateGeometry` derives the common StartPoint and/or EndPoint from them.
`Feature::onChanged` calls `touch()` for five common properties.

Layout:

- `geometry.dfy` (module `Geometry`): `Vec` is Base::Vector3d with exact
  reals. `Numerics` bundles `cos`, `sin`, `sqrt` and Base::Vector3d::Normalize
  as parameters that the model does not interpret. `EuclideanLength` is
  Base::Vector3d::Length.
- `derivation.dfy` (module `Derivation`): the common state of a feature as a
  value (`FeatureState`), the property names (`Prop`), and the touch rule
  (`MarksTouched`, `Notified`). It also holds one specification function per
  kind's recompute (`LineRecomputed`, `CircleRecomputed`, ...) and the
  polygon list edits. The lemmas about all of these are in this module too.
- `features.dfy` (module `Drawing`): one class per C++ class. The C++
  inheritance from `Drawing::Feature` is modelled by composition. Each kind
  owns a `base: Feature` object that holds the six common properties and the
  touched bit. Its methods write StartPoint and EndPoint through
  `SetStartPoint`/`SetEndPoint`, which store the value and then run
  `OnChanged`, as `setValue` does. Every recompute and every setter of the
  common state is specified by the matching function of `Derivation` applied
  to the old state. `Polygon.SetPoints`, `Polygon.AddPoint` and
  `Polygon.RemovePoint` state the new point list directly (old list, old list
  plus the point, `PointsAfterRemove` of the old list).

Modelling decisions:

- The touched status starts false. A constructor stores each default while
  the property is not yet attached to its owner, so no `onChanged` runs.
- Every store through a setter notifies the owner, whether or not the value
  changed.
- `removePoint` compares its `int` index with `static_cast<int>(points.size())`.
  The model spells out that cast: the size is reduced modulo 2^32 into the
  32-bit range (`SizeAsInt`). `RemoveGuardIsBoundsCheck` shows that for any
  list shorter than 2^31 points the guard is the plain bounds check.
- The Dimension links First and Second are declared but never registered as
  properties. They are nullable references (`Feature?`) that start null and
  never notify the owner.

Behaviour of the code worth noting:

- `calculateDimension` measures the dimension's own EndPoint − StartPoint
  (DrawingFeature.cpp:355-358), not anything read from the linked objects.
  Its reads frame leaves the linked objects out.
- `Dimension::execute` only calls `updateDimensionText`
  (DrawingFeature.cpp:332-336); it does not recompute any geometry.
- The five notifying properties touch the feature on every store, whether or
  not the stored value differs from the old one.
- A recompute that writes StartPoint or EndPoint leaves the feature touched,
  because those writes go through `onChanged` (DrawingFeature.cpp:89-92).
  A Polygon recompute on an empty list writes nothing and leaves the touched
  bit as it was. Clearing the bit is the document's job.
- Nothing in the repository ever sets `First` or `Second`. Their registration
  is commented out (DrawingFeature.cpp:324-325) and no caller stores a link.
  So on every path the program can reach, `calculateDimension` returns 0.0.
  The model is more general and also covers set links.

## Model

| member | source | states |
|---|---|---|
| Geometry.EuclideanLength | src/Mod/Drawing/App/DrawingFeature.cpp:358 | the length of a vector is never negative when sqrt is non-negative on non-negative arguments |
| Geometry.LengthOfDifferenceSymmetric | src/Mod/Drawing/App/DrawingFeature.cpp:355-358 | the length of point2 − point1 equals the length of point1 − point2 |
| Derivation.NotifiedTouchesExactlyFive | src/Mod/Drawing/App/DrawingFeature.cpp:87-95 | onChanged sets touched exactly for StartPoint, EndPoint, LineWidth, LineColor, LineStyle; Construction and every kind-specific property leave the state as it was |
| Derivation.NotifiedMonotoneAndIdempotent | src/Mod/Drawing/App/DrawingFeature.cpp:87-95 | notification never clears touched, and notifying twice is the same as once |
| Derivation.LineEnd | src/Mod/Drawing/App/DrawingFeature.cpp:122-127 | the end is start + Length·(cos θ, sin θ) with θ = Angle·π/180, and its z equals the start's z |
| Derivation.LineRecomputed | src/Mod/Drawing/App/DrawingFeature.cpp:120-130 | a line recompute writes EndPoint = LineEnd(StartPoint, Length, Angle), keeps StartPoint and the appearance properties, and leaves the feature touched |
| Derivation.LineDirectionAfterRecompute | src/Mod/Drawing/App/DrawingFeature.cpp:120-138 | after a recompute, getDirection is Normalize of (Length·cos θ, Length·sin θ, 0), whatever the start point |
| Derivation.ZeroLengthLineIsAPoint | src/Mod/Drawing/App/DrawingFeature.cpp:120-130 | with Length 0 the recomputed EndPoint equals StartPoint |
| Derivation.LineRecomputeIdempotent | src/Mod/Drawing/App/DrawingFeature.cpp:120-130 | recomputing a line twice gives the same state as once |
| Derivation.ArcPoint | src/Mod/Drawing/App/DrawingFeature.cpp:171-179 | the arc point is Center + Radius·(cos, sin) of the angle in radians, with z = Center.z |
| Derivation.CircleRecomputed | src/Mod/Drawing/App/DrawingFeature.cpp:165-183 | a circle recompute writes StartPoint and EndPoint at FirstAngle and LastAngle on the arc, both with z = Center.z, keeps the appearance and leaves the feature touched |
| Derivation.CircleIgnoresOldEnds | src/Mod/Drawing/App/DrawingFeature.cpp:165-183 | the result does not depend on the StartPoint and EndPoint held before |
| Derivation.CircleEqualAnglesCoincide | src/Mod/Drawing/App/DrawingFeature.cpp:165-183 | equal first and last angles give StartPoint == EndPoint |
| Derivation.CircleRecomputeIdempotent | src/Mod/Drawing/App/DrawingFeature.cpp:165-183 | recomputing a circle twice gives the same state as once |
| Derivation.FullTurnWindow | src/Mod/Drawing/App/DrawingFeature.cpp:185-190 | the full-circle test holds if and only if LastAngle − FirstAngle lies strictly between 360 − 1e-6 and 360 + 1e-6 |
| Derivation.FullTurnShiftInvariant | src/Mod/Drawing/App/DrawingFeature.cpp:185-190 | shifting both angles by the same amount does not change the test; the defaults 0 and 360 pass it, 0 and 180 do not |
| Derivation.RectangleCorner | src/Mod/Drawing/App/DrawingFeature.cpp:223 | the corner is start displaced by exactly (Width, Height, 0), so its z is the start's z |
| Derivation.RectangleRecomputed | src/Mod/Drawing/App/DrawingFeature.cpp:217-225 | a rectangle recompute sets EndPoint to (Start.x + Width, Start.y + Height, Start.z), keeps StartPoint and the appearance, and leaves the feature touched |
| Derivation.RectangleRecomputeIdempotent | src/Mod/Drawing/App/DrawingFeature.cpp:217-225 | recomputing a rectangle twice gives the same state as once |
| Derivation.PolygonRecomputed | src/Mod/Drawing/App/DrawingFeature.cpp:252-259 | on a non-empty list StartPoint is the first point and EndPoint the last; the feature is touched; on an empty list the state is unchanged, touched included |
| Derivation.PolygonRecomputeIdempotent | src/Mod/Drawing/App/DrawingFeature.cpp:252-259 | recomputing a polygon twice gives the same state as once |
| Derivation.SizeAsInt | src/Mod/Drawing/App/DrawingFeature.cpp:271 | the cast of the list size to int never exceeds the size, and is exact below 2^31 |
| Derivation.RemoveGuardIsBoundsCheck | src/Mod/Drawing/App/DrawingFeature.cpp:271 | for lists shorter than 2^31 points the removePoint guard holds if and only if 0 <= index < size |
| Derivation.PointsAfterRemove | src/Mod/Drawing/App/DrawingFeature.cpp:268-275 | when the guard holds, the list is one shorter, the points before index are kept and the later ones move down by one; otherwise the list is unchanged |
| Derivation.RemoveTakesOutOnePoint | src/Mod/Drawing/App/DrawingFeature.cpp:268-275 | removal takes exactly one occurrence of the indexed point out of the list's multiset |
| Derivation.RemoveUndoesAdd | src/Mod/Drawing/App/DrawingFeature.cpp:261-275 | removing the last index after addPoint gives back the original list |
| Derivation.RecomputeAfterAdd | src/Mod/Drawing/App/DrawingFeature.cpp:252-266 | after addPoint(p) a recompute sets EndPoint = p, and StartPoint = p only when p is the sole point |
| Derivation.RecomputeAfterRemoveFirst | src/Mod/Drawing/App/DrawingFeature.cpp:252-275 | after removing index 0 from a list of at least two points, a recompute starts at the old second point and keeps the end |
| Derivation.TextRecomputed | src/Mod/Drawing/App/DrawingFeature.cpp:308-313 | a text recompute sets StartPoint and EndPoint both to Position, keeps the appearance, and leaves the feature touched |
| Derivation.TextRecomputeForgetsOldEnds | src/Mod/Drawing/App/DrawingFeature.cpp:308-313 | the result does not depend on the StartPoint/EndPoint held before, and recomputing twice equals once |
| Derivation.MeasuredDistance | src/Mod/Drawing/App/DrawingFeature.cpp:343-359 | the distance is 0 when either link is unset, otherwise the length of EndPoint − StartPoint; it is never negative |
| Derivation.MeasuredDistanceSymmetric | src/Mod/Drawing/App/DrawingFeature.cpp:355-358 | swapping the two measured points does not change the distance |
| Drawing.Feature.constructor | src/Mod/Drawing/App/DrawingFeature.cpp:47-57 | a new feature has both points at the origin, line width 1, colour (0,0,0,0), style 0, Construction false, and is not touched |
| Drawing.Feature.OnChanged | src/Mod/Drawing/App/DrawingFeature.cpp:87-95 | the new state is the old one with touched set exactly when the property is one of the five |
| Drawing.Feature.SetStartPoint | src/Mod/Drawing/App/DrawingFeature.cpp:181 | StartPoint takes the value and the feature is touched; nothing else changes |
| Drawing.Feature.SetEndPoint | src/Mod/Drawing/App/DrawingFeature.cpp:129 | EndPoint takes the value and the feature is touched; nothing else changes |
| Drawing.Line.constructor | src/Mod/Drawing/App/DrawingFeature.cpp:103-107 | defaults Length 10, Angle 0 over a fresh common part |
| Drawing.Line.CalculateGeometry | src/Mod/Drawing/App/DrawingFeature.cpp:120-130 | the common state becomes LineRecomputed of the old one; only the common part may change |
| Drawing.Line.Execute | src/Mod/Drawing/App/DrawingFeature.cpp:109-113 | same effect as CalculateGeometry |
| Drawing.Line.GetDirection | src/Mod/Drawing/App/DrawingFeature.cpp:132-138 | reads only StartPoint and EndPoint; the value is Normalize(EndPoint − StartPoint) |
| Drawing.Circle.constructor | src/Mod/Drawing/App/DrawingFeature.cpp:146-152 | defaults Center origin, Radius 5, angles 0 and 360, and the new circle is a full circle |
| Drawing.Circle.CalculateGeometry | src/Mod/Drawing/App/DrawingFeature.cpp:165-183 | the common state becomes CircleRecomputed of the old one |
| Drawing.Circle.Execute | src/Mod/Drawing/App/DrawingFeature.cpp:154-158 | same effect as CalculateGeometry |
| Drawing.Circle.IsFullCircle | src/Mod/Drawing/App/DrawingFeature.cpp:185-190 | reads only FirstAngle and LastAngle; true if and only if LastAngle − FirstAngle is within 1e-6 of 360 |
| Drawing.Rectangle.constructor | src/Mod/Drawing/App/DrawingFeature.cpp:198-204 | defaults Width 10, Height 5, not rounded, CornerRadius 1 |
| Drawing.Rectangle.CalculateGeometry | src/Mod/Drawing/App/DrawingFeature.cpp:217-225 | the common state becomes RectangleRecomputed of the old one |
| Drawing.Rectangle.Execute | src/Mod/Drawing/App/DrawingFeature.cpp:206-210 | same effect as CalculateGeometry |
| Drawing.Polygon.constructor | src/Mod/Drawing/App/DrawingFeature.cpp:233-239 | defaults: no points, 6 sides, Radius 5, closed |
| Drawing.Polygon.SetPoints | src/Mod/Drawing/App/DrawingFeature.cpp:265 | Points takes the list; the other polygon fields and the common state, touched included, are unchanged |
| Drawing.Polygon.CalculateGeometry | src/Mod/Drawing/App/DrawingFeature.cpp:252-259 | the common state becomes PolygonRecomputed of the old one; an empty list writes nothing |
| Drawing.Polygon.Execute | src/Mod/Drawing/App/DrawingFeature.cpp:241-245 | same effect as CalculateGeometry |
| Drawing.Polygon.AddPoint | src/Mod/Drawing/App/DrawingFeature.cpp:261-266 | Points becomes the old list with p appended; nothing else changes |
| Drawing.Polygon.RemovePoint | src/Mod/Drawing/App/DrawingFeature.cpp:268-275 | Points becomes PointsAfterRemove of the old list; when the guard fails nothing at all is written |
| Drawing.Text.constructor | src/Mod/Drawing/App/DrawingFeature.cpp:285-295 | defaults "Text", "Arial", size 12, Position origin, rotation 0, justification 0 |
| Drawing.Text.CalculateGeometry | src/Mod/Drawing/App/DrawingFeature.cpp:308-313 | the common state becomes TextRecomputed of the old one |
| Drawing.Text.Execute | src/Mod/Drawing/App/DrawingFeature.cpp:297-301 | same effect as CalculateGeometry |
| Drawing.Dimension.Execute | src/Mod/Drawing/App/DrawingFeature.cpp:332-336 | on the ordinary path the wrapper changes neither the dimension nor its common part |
| Drawing.Dimension.constructor | src/Mod/Drawing/App/DrawingFeature.cpp:321-330 | both links null; defaults DimLinePosition origin, "%.2f", TextSize 3, ShowUnits true |
| Drawing.Dimension.CalculateDimension | src/Mod/Drawing/App/DrawingFeature.cpp:343-359 | 0 when First or Second is null, else the length of the dimension's own EndPoint − StartPoint; never negative; reads neither linked object |

## Left out

- `Feature::mustExecute`, `Feature::execute` and `Feature::recompute`
  (DrawingFeature.cpp:61-74) only forward to App::DocumentObject, which is
  not part of this model. Each kind's `Execute` therefore ends after
  `calculateGeometry`. There is no scheduler, dependency graph or recompute
  order.
- `DocumentObject::onChanged` (DrawingFeature.cpp:94) is outside the model.
  The touched bit changes only through this override's `touch()`. Clearing the
  bit is done by the document and is not modelled either.
- `Dimension::execute` and `Dimension::updateDimensionText`
  (DrawingFeature.cpp:332-336, 361-374) format the value with `snprintf` into a
  256-byte local buffer and then discard it. On the ordinary path no state
  changes; `Dimension.Execute` computes the value and keeps nothing. The
  formatting itself is not modelled.
- Two defects of `updateDimensionText` are outside the model. If the
  formatted text is 253 characters or longer, `strcat(buffer, " mm")` at
  DrawingFeature.cpp:370 writes past the end of the buffer (ShowUnits
  defaults to true, :329). The user-supplied FormatSpec is passed unchecked to
  `snprintf` at :367, so a format that does not take exactly one double (such
  as "%s") is undefined behaviour.
- Floating point is left out. Doubles and floats are exact reals, so rounding,
  NaN and infinities are not modelled. M_PI is its decimal expansion.
- `cos`, `sin`, `sqrt` and Base::Vector3d::Normalize are uninterpreted
  parameters. The only fact assumed about them is that `sqrt` is non-negative
  on non-negative arguments (`Sound`), and only where a contract says so.
- CircleRecomputed: does not prove that a full circle's StartPoint equals its
  EndPoint (for example (5,0,0) for radius 5 and angles 0 and 360). That would
  need cos and sin to be periodic, and they are uninterpreted here.
- Line.GetDirection: says nothing about a zero-length direction, because that
  behaviour belongs to Normalize, which is not interpreted.
- The enumeration checks of LineStyle and Justification are done by
  App::PropertyEnumeration, which is not part of this model. Both are plain
  integer indices here.
- The kind-specific properties (Length, Width, Points, ...) are stored by
  plain field assignment. Feature::onChanged does not touch the feature for
  them. `Notified` and `NotifiedTouchesExactlyFive` state that rule. Points is
  the only kind-specific property that DrawingFeature.cpp itself writes, and
  it goes through `SetPoints`. Callers write the others through `setValue`
  (for example Command.cpp:252-253 and AppDrawingPy.cpp:97-98). That call
  reaches the override, which does not touch the feature for them, so a plain
  field assignment has the same effect on the modelled state.
- First and Second are modelled as nullable references to drawing features.
  PropertyLinkSub can link any document object and carries sub-element names;
  neither is modelled.
- `getViewProviderName` and `getPyObject` are presentation and scripting
  hooks, so they are left out. So are the GUI commands, view providers,
  workbench, Python bindings, scripts and build files.
