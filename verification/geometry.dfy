/**
 The geometry value types of mathscapes: points and the shapes built from
 them, all in logical (untransformed) coordinates.

 Python's class hierarchy Polygon -> Tri/Quad -> Rect becomes one Polygon
 datatype carrying the class it was built as; the class-name string that
 the device's `draw` dispatches on is recovered by `ClassName`.
 */
module Geometry {

  /** A point in logical coordinates. */
  datatype Point = Point(x: real, y: real)

  /** The double that `tan(pi / 2)` evaluates to. The only proofs that use
      its value need no more than its being positive. */
  const TanHalfPi: real := 16331239353195370.0

  /** The tangent of a line's angle when it does not compare equal to
      tan(pi / 2); an angle whose tangent does is drawn by the vertical branch. */
  type Slope = m: real | m != TanHalfPi

  /** The direction of an infinite line. `Sloped(m)` stands for an angle whose
      tangent is `m`; `Vertical` is the angle whose tangent compares equal to
      tan(pi / 2), which the source treats separately. */
  datatype Direction = Sloped(m: Slope) | Vertical

  /** An infinite line: a direction and the intercept `c`. */
  datatype Line = Line(dir: Direction, c: real)

  /** `Line(theta, c)` as `_drawLine` sees it, from the tangent of theta: the
      vertical branch is taken exactly when the tangent equals tan(pi / 2). */
  function LineOf(tanTheta: real, c: real): (line: Line)
    ensures line.c == c
    ensures line.dir.Vertical? <==> tanTheta == TanHalfPi
    ensures line.dir.Sloped? ==> line.dir.m == tanTheta
  {
    if tanTheta != TanHalfPi then Line(Sloped(tanTheta), c) else Line(Vertical, c)
  }

  datatype LineSegment = LineSegment(p1: Point, p2: Point)

  /** A ray from `p` at angle `theta`; the angle is kept but never used. */
  datatype Ray = Ray(p: Point, theta: real)

  datatype Ellipse = Ellipse(p: Point, w: real, h: real)

  /** The Python class a polygon value was constructed as. */
  datatype PolygonClass = PlainPolygon | TriClass | QuadClass | RectClass

  datatype Polygon = Polygon(cls: PolygonClass, points: seq<Point>)

  /** Everything that can be handed to the device's `draw`. */
  datatype Geometry =
    | PointShape(point: Point)
    | LineShape(line: Line)
    | SegmentShape(segment: LineSegment)
    | RayShape(ray: Ray)
    | EllipseShape(ellipse: Ellipse)
    | PolygonShape(polygon: Polygon)

  /** The name of the Python class of `g`, as `__class__.__name__` reports it. */
  function ClassName(g: Geometry): (name: string)
    ensures name == "Point" <==> g.PointShape?
    ensures name == "LineSegment" <==> g.SegmentShape?
    ensures name == "Line" <==> g.LineShape?
    ensures name == "Ray" <==> g.RayShape?
  {
    match g
    case PointShape(_) => "Point"
    case LineShape(_) => "Line"
    case SegmentShape(_) => "LineSegment"
    case RayShape(_) => "Ray"
    case EllipseShape(_) => "Ellipse"
    case PolygonShape(poly) =>
      match poly.cls
      case PlainPolygon => "Polygon"
      case TriClass => "Tri"
      case QuadClass => "Quad"
      case RectClass => "Rect"
  }

  /** The point counts the subclasses fix, and the corner layout of a Rect:
      anchor, anchor + (w, 0), anchor + (w, h), anchor + (0, h), with shared
      edges axis-aligned. A plain Polygon takes any list. */
  predicate WellFormed(poly: Polygon)
  {
    match poly.cls
    case PlainPolygon => true
    case TriClass => |poly.points| == 3
    case QuadClass => |poly.points| == 4
    case RectClass =>
      && |poly.points| == 4
      && poly.points[1].y == poly.points[0].y
      && poly.points[2].x == poly.points[1].x
      && poly.points[3].y == poly.points[2].y
      && poly.points[3].x == poly.points[0].x
  }

  /** `Tri(p1, p2, p3)`: a well-formed triangle holding its arguments in order. */
  function Tri(p1: Point, p2: Point, p3: Point): (t: Polygon)
    ensures WellFormed(t) && ClassName(PolygonShape(t)) == "Tri"
    ensures |t.points| == 3 && t.points[0] == p1 && t.points[1] == p2 && t.points[2] == p3
  {
    Polygon(TriClass, [p1, p2, p3])
  }

  /** `Quad(p1, p2, p3, p4)`: a well-formed quadrilateral holding its arguments in order. */
  function Quad(p1: Point, p2: Point, p3: Point, p4: Point): (q: Polygon)
    ensures WellFormed(q) && ClassName(PolygonShape(q)) == "Quad"
    ensures |q.points| == 4
    ensures q.points[0] == p1 && q.points[1] == p2 && q.points[2] == p3 && q.points[3] == p4
  {
    Polygon(QuadClass, [p1, p2, p3, p4])
  }

  /** `Rect(p, w, h)`: the corners are computed from the anchor; the second
      and third corners share the x of `p.x + w`, the last two the y of `p.y + h`. */
  function Rect(p: Point, w: real, h: real): (r: Polygon)
    ensures WellFormed(r) && ClassName(PolygonShape(r)) == "Rect"
    ensures r.points[0] == p
    ensures r.points[2].x - r.points[0].x == w && r.points[2].y - r.points[0].y == h
  {
    var p2 := Point(p.x + w, p.y);
    var p3 := Point(p2.x, p.y + h);
    var p4 := Point(p.x, p.y + h);
    Polygon(RectClass, [p, p2, p3, p4])
  }

  /** The anchor, width and height a rectangle's corners encode. */
  function RectAnchor(r: Polygon): Point
    requires WellFormed(r) && r.cls == RectClass
  {
    r.points[0]
  }

  function RectWidth(r: Polygon): real
    requires WellFormed(r) && r.cls == RectClass
  {
    r.points[1].x - r.points[0].x
  }

  function RectHeight(r: Polygon): real
    requires WellFormed(r) && r.cls == RectClass
  {
    r.points[3].y - r.points[0].y
  }

  /** A Rect is the Quad of its four computed corners in the order anchor,
      anchor + (w, 0), anchor + (w, h), anchor + (0, h). */
  lemma RectCorners(p: Point, w: real, h: real)
    ensures Rect(p, w, h).points
         == Quad(p, Point(p.x + w, p.y), Point(p.x + w, p.y + h), Point(p.x, p.y + h)).points
  {
  }

  /** Round trip: anchor, width and height are recovered from a Rect's corners. */
  lemma RectRoundTrip(p: Point, w: real, h: real)
    ensures RectAnchor(Rect(p, w, h)) == p
    ensures RectWidth(Rect(p, w, h)) == w
    ensures RectHeight(Rect(p, w, h)) == h
  {
  }

  /** Every well-formed rectangle is the Rect of its anchor, width and height. */
  lemma RectFromCorners(r: Polygon)
    requires WellFormed(r) && r.cls == RectClass
    ensures Rect(RectAnchor(r), RectWidth(r), RectHeight(r)) == r
  {
    assert Rect(RectAnchor(r), RectWidth(r), RectHeight(r)).points == r.points;
  }
}
