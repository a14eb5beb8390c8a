/** The drawing feature objects (namespace Drawing). C++ inheritance from
    Drawing::Feature is modelled by composition: each kind owns the `base`
    object that holds the common properties and the touched status, and its
    methods write StartPoint and EndPoint through that object. */
module Drawing {
  import opened Geometry
  import opened Derivation

  /** Drawing::Feature: the common properties and the touched status. */
  class Feature {
    var startPoint: Vec
    var endPoint: Vec
    var lineWidth: real
    var lineColor: Color
    /** Index into Solid, Dashed, Dotted, DashDot. */
    var lineStyle: int
    var construction: bool
    /** The document object's Touch status bit. */
    var touched: bool

    /** The abstract value of the object. */
    function State(): FeatureState
      reads this
    {
      FeatureState(startPoint, endPoint, lineWidth, lineColor, lineStyle, construction, touched)
    }

    constructor ()
      ensures State() == DefaultState
    {
      startPoint, endPoint := Origin, Origin;
      lineWidth := 1.0;
      lineColor := Color(0.0, 0.0, 0.0, 0.0);
      lineStyle := 0;
      construction := false;
      touched := false;
    }

    /** Feature::onChanged: touch() for the five geometry and appearance
        properties. */
    method OnChanged(p: Prop)
      modifies this
      ensures State() == Notified(old(State()), p)
    {
      if p == StartPoint || p == EndPoint || p == LineWidth || p == LineColor || p == LineStyle {
        touched := true;
      }
    }

    /** StartPoint.setValue(v) */
    method SetStartPoint(v: Vec)
      modifies this
      ensures State() == WithStartPoint(old(State()), v)
    {
      startPoint := v;
      OnChanged(StartPoint);
    }

    /** EndPoint.setValue(v) */
    method SetEndPoint(v: Vec)
      modifies this
      ensures State() == WithEndPoint(old(State()), v)
    {
      endPoint := v;
      OnChanged(EndPoint);
    }
  }

  /** Drawing::Line */
  class Line {
    const base: Feature
    var length: real
    /** In degrees. */
    var angle: real

    constructor ()
      ensures fresh(base) && base.State() == DefaultState
      ensures length == 10.0 && angle == 0.0
    {
      base := new Feature();
      length, angle := 10.0, 0.0;
    }

    /** Line::calculateGeometry: EndPoint from StartPoint, Length and Angle. */
    method CalculateGeometry(n: Numerics)
      modifies base
      ensures base.State() == LineRecomputed(old(base.State()), length, angle, n)
    {
      var start := base.startPoint;
      var a := Radians(angle);
      var direction := Vec(n.cos(a), n.sin(a), 0.0);
      base.SetEndPoint(Add(start, Scale(direction, length)));
    }

    /** Line::execute; the forward to Feature::execute reaches the document
        object's own execute, which is not part of this model. */
    method Execute(n: Numerics)
      modifies base
      ensures base.State() == LineRecomputed(old(base.State()), length, angle, n)
    {
      CalculateGeometry(n);
    }

    /** Line::getDirection: reads StartPoint and EndPoint only. */
    function GetDirection(n: Numerics): (d: Vec)
      reads base`startPoint, base`endPoint
      ensures d == n.normalize(Vec(base.endPoint.x - base.startPoint.x,
                                   base.endPoint.y - base.startPoint.y,
                                   base.endPoint.z - base.startPoint.z))
    {
      DirectionBetween(base.startPoint, base.endPoint, n)
    }
  }

  /** Drawing::Circle */
  class Circle {
    const base: Feature
    var center: Vec
    var radius: real
    /** In degrees. */
    var firstAngle: real
    /** In degrees. */
    var lastAngle: real

    constructor ()
      ensures fresh(base) && base.State() == DefaultState
      ensures center == Origin && radius == 5.0 && firstAngle == 0.0 && lastAngle == 360.0
      ensures IsFullCircle()
    {
      base := new Feature();
      center, radius := Origin, 5.0;
      firstAngle, lastAngle := 0.0, 360.0;
    }

    /** Circle::calculateGeometry: StartPoint and EndPoint on the arc. */
    method CalculateGeometry(n: Numerics)
      modifies base
      ensures base.State() == CircleRecomputed(old(base.State()), center, radius, firstAngle, lastAngle, n)
    {
      var first := Radians(firstAngle);
      var last := Radians(lastAngle);
      var start := Vec(center.x + radius * n.cos(first), center.y + radius * n.sin(first), center.z);
      var end := Vec(center.x + radius * n.cos(last), center.y + radius * n.sin(last), center.z);
      assert start == ArcPoint(center, radius, firstAngle, n);
      assert end == ArcPoint(center, radius, lastAngle, n);
      base.SetStartPoint(start);
      base.SetEndPoint(end);
    }

    /** Circle::execute */
    method Execute(n: Numerics)
      modifies base
      ensures base.State() == CircleRecomputed(old(base.State()), center, radius, firstAngle, lastAngle, n)
    {
      CalculateGeometry(n);
    }

    /** Circle::isFullCircle: reads the two angles only. */
    function IsFullCircle(): (full: bool)
      reads this`firstAngle, this`lastAngle
      ensures full <==> 360.0 - FullCircleTolerance < lastAngle - firstAngle < 360.0 + FullCircleTolerance
    {
      FullTurnWindow(firstAngle, lastAngle);
      SweepsFullTurn(firstAngle, lastAngle)
    }
  }

  /** Drawing::Rectangle */
  class Rectangle {
    const base: Feature
    var width: real
    var height: real
    var rounded: bool
    var cornerRadius: real

    constructor ()
      ensures fresh(base) && base.State() == DefaultState
      ensures width == 10.0 && height == 5.0 && !rounded && cornerRadius == 1.0
    {
      base := new Feature();
      width, height := 10.0, 5.0;
      rounded, cornerRadius := false, 1.0;
    }

    /** Rectangle::calculateGeometry: EndPoint is StartPoint moved by Width
        and Height. */
    method CalculateGeometry()
      modifies base
      ensures base.State() == RectangleRecomputed(old(base.State()), width, height)
    {
      var start := base.startPoint;
      base.SetEndPoint(Vec(start.x + width, start.y + height, start.z));
    }

    /** Rectangle::execute */
    method Execute()
      modifies base
      ensures base.State() == RectangleRecomputed(old(base.State()), width, height)
    {
      CalculateGeometry();
    }
  }

  /** Drawing::Polygon */
  class Polygon {
    const base: Feature
    var points: seq<Vec>
    var sides: int
    var radius: real
    var closed: bool

    constructor ()
      ensures fresh(base) && base.State() == DefaultState
      ensures points == [] && sides == 6 && radius == 5.0 && closed
    {
      base := new Feature();
      points := [];
      sides, radius, closed := 6, 5.0, true;
    }

    /** Points.setValues(ps): store, then notify; Points does not touch. */
    method SetPoints(ps: seq<Vec>)
      modifies this, base
      ensures points == ps
      ensures sides == old(sides) && radius == old(radius) && closed == old(closed)
      ensures base.State() == old(base.State())
    {
      points := ps;
      base.OnChanged(Points);
    }

    /** Polygon::calculateGeometry: StartPoint and EndPoint are the first and
        last points; an empty list writes nothing. */
    method CalculateGeometry()
      modifies base
      ensures base.State() == PolygonRecomputed(old(base.State()), points)
      ensures points == [] ==> unchanged(base)
    {
      if points != [] {
        base.SetStartPoint(points[0]);
        base.SetEndPoint(points[|points| - 1]);
      }
    }

    /** Polygon::execute */
    method Execute()
      modifies base
      ensures base.State() == PolygonRecomputed(old(base.State()), points)
    {
      CalculateGeometry();
    }

    /** Polygon::addPoint: append at the end. */
    method AddPoint(p: Vec)
      modifies this, base
      ensures points == old(points) + [p]
      ensures sides == old(sides) && radius == old(radius) && closed == old(closed)
      ensures base.State() == old(base.State())
    {
      var ps := points;
      ps := ps + [p];
      SetPoints(ps);
    }

    /** Polygon::removePoint: erase the point at `index` when the guard holds;
        otherwise nothing is written. */
    method RemovePoint(index: Int32)
      modifies this, base
      ensures points == PointsAfterRemove(old(points), index)
      ensures sides == old(sides) && radius == old(radius) && closed == old(closed)
      ensures base.State() == old(base.State())
      ensures !RemoveInRange(old(points), index) ==> unchanged(this, base)
    {
      var ps := points;
      if 0 <= index && index < SizeAsInt(|ps|) {
        ps := ps[..index] + ps[index + 1..];
        SetPoints(ps);
      }
    }
  }

  /** Drawing::Text */
  class Text {
    const base: Feature
    var textString: string
    var fontName: string
    var fontSize: real
    var position: Vec
    /** In degrees. */
    var rotation: real
    /** Index into Left, Center, Right. */
    var justification: int

    constructor ()
      ensures fresh(base) && base.State() == DefaultState
      ensures textString == "Text" && fontName == "Arial" && fontSize == 12.0
      ensures position == Origin && rotation == 0.0 && justification == 0
    {
      base := new Feature();
      textString, fontName, fontSize := "Text", "Arial", 12.0;
      position, rotation, justification := Origin, 0.0, 0;
    }

    /** Text::calculateGeometry: both ends at the anchor Position. */
    method CalculateGeometry()
      modifies base
      ensures base.State() == TextRecomputed(old(base.State()), position)
    {
      var pos := position;
      base.SetStartPoint(pos);
      base.SetEndPoint(pos);
    }

    /** Text::execute */
    method Execute()
      modifies base
      ensures base.State() == TextRecomputed(old(base.State()), position)
    {
      CalculateGeometry();
    }
  }

  /** Drawing::Dimension */
  class Dimension {
    const base: Feature
    /** The First and Second links: declared but never registered as
        properties, so they start unset and never notify. */
    var first: Feature?
    var second: Feature?
    var dimLinePosition: Vec
    var formatSpec: string
    var textSize: real
    var showUnits: bool

    constructor ()
      ensures fresh(base) && base.State() == DefaultState
      ensures first == null && second == null
      ensures dimLinePosition == Origin && formatSpec == "%.2f" && textSize == 3.0 && showUnits
    {
      base := new Feature();
      first, second := null, null;
      dimLinePosition, formatSpec := Origin, "%.2f";
      textSize, showUnits := 3.0, true;
    }

    /** Dimension::execute: updateDimensionText computes the dimension and
        formats it into a local buffer that is then discarded, so on the
        ordinary path nothing changes. */
    method Execute(n: Numerics)
      ensures unchanged(this, base)
    {
      var value := CalculateDimension(n);
    }

    /** Dimension::calculateDimension: 0 unless both links are set, then the
        length of the dimension's own EndPoint - StartPoint. The reads clause
        leaves out the linked objects: their geometry is never consulted. */
    function CalculateDimension(n: Numerics): (d: real)
      reads this`first, this`second, base`startPoint, base`endPoint
      ensures first == null || second == null ==> d == 0.0
      ensures first != null && second != null ==>
        d == EuclideanLength(Sub(base.endPoint, base.startPoint), n)
      ensures Sound(n) ==> 0.0 <= d
    {
      MeasuredDistance(first != null, second != null, base.startPoint, base.endPoint, n)
    }
  }
}
