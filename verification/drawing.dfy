/**
 The drawing engine of a mathscapes `Device`. The cairo context is replaced
 by the trace of operations the renderers send to it, so every renderer is
 a function from the device state and a shape to that trace.
 */
module Drawing {

  import opened Geometry
  import opened Devices

  /** One call on the backend context. `Disc(cx, cy, radius)` is the full
      circle `arc(cx, cy, radius, 0, 2 pi)`. */
  datatype Op =
    | SetSourceRGBA(color: Color)
    | SetLineWidth(lineWidth: real)
    | MoveTo(x: real, y: real)
    | LineTo(x: real, y: real)
    | Stroke
    | Disc(cx: real, cy: real, radius: real)
    | Fill
    | SetFontSize(size: real)
    | ShowText(text: string)

  /** Where a logical point lands in the unit square of the surface. */
  function ToSurface(d: Device, p: Point): Point
  {
    Point(ScaleToWidth(d, p.x), ScaleToHeight(d, p.y))
  }

  /** The logical window the surface shows. */
  predicate Visible(d: Device, p: Point)
  {
    && -d.origin.x <= p.x <= d.width - d.origin.x
    && -d.origin.y <= p.y <= d.height - d.origin.y
  }

  /** `_drawPoint`: a disc in the current colour, centred where the point
      lands, whose radius is the stored stroke. */
  function DrawPoint(d: Device, p: Point): (ops: seq<Op>)
    ensures |ops| == 3 && ops[0] == SetSourceRGBA(d.color) && ops[2] == Fill
    ensures ops[1].Disc? && ops[1].radius == d.stroke
    ensures ops[1].cx * d.width == p.x + d.origin.x && ops[1].cy * d.height == p.y + d.origin.y
  {
    var c := ToSurface(d, p);
    [SetSourceRGBA(d.color), Disc(c.x, c.y, d.stroke), Fill]
  }

  /** `_drawLineSegment`: colour and line width from the state, then a
      stroked path from where p1 lands to where p2 lands. */
  function DrawLineSegment(d: Device, seg: LineSegment): (ops: seq<Op>)
    ensures |ops| == 5 && ops[0] == SetSourceRGBA(d.color) && ops[1] == SetLineWidth(d.stroke)
    ensures ops[2].MoveTo? && ops[2].x * d.width == seg.p1.x + d.origin.x
                           && ops[2].y * d.height == seg.p1.y + d.origin.y
    ensures ops[3].LineTo? && ops[3].x * d.width == seg.p2.x + d.origin.x
                           && ops[3].y * d.height == seg.p2.y + d.origin.y
    ensures ops[4] == Stroke
  {
    var a := ToSurface(d, seg.p1);
    var b := ToSurface(d, seg.p2);
    [SetSourceRGBA(d.color), SetLineWidth(d.stroke), MoveTo(a.x, a.y), LineTo(b.x, b.y), Stroke]
  }

  /** The points the source's formulas place on `line`: y = m x + c for a
      sloped line, x = -c + y / tan(pi / 2) in the vertical branch. */
  predicate OnLine(line: Line, p: Point)
  {
    match line.dir
    case Sloped(m) => p.y == m * p.x + line.c
    case Vertical => (p.x + line.c) * TanHalfPi == p.y
  }

  /** The clipping step of `_drawLine`: a sloped line is cut at the left and
      right edges of the visible x-range, a vertical one at the top and
      bottom edges of the visible y-range; both ends lie on the line. */
  function ClipLine(d: Device, line: Line): (seg: LineSegment)
    ensures OnLine(line, seg.p1) && OnLine(line, seg.p2)
    ensures line.dir.Sloped? ==> seg.p1.x == -d.origin.x && seg.p2.x == d.width - d.origin.x
    ensures line.dir.Vertical? ==> seg.p1.y == -d.origin.y && seg.p2.y == d.height - d.origin.y
  {
    match line.dir
    case Sloped(m) =>
      var x1 := -d.origin.x;
      var x2 := d.width - d.origin.x;
      LineSegment(Point(x1, m * x1 + line.c), Point(x2, m * x2 + line.c))
    case Vertical =>
      var y1 := -d.origin.y;
      var y2 := d.height - d.origin.y;
      LineSegment(Point(-line.c + y1 / TanHalfPi, y1), Point(-line.c + y2 / TanHalfPi, y2))
  }

  /** `_drawLine`: the clipped segment, drawn as a segment. It spans the
      whole surface: a sloped line from the left edge (x = 0) to the right
      edge (x = 1), a vertical one from the top edge (y = 0) to the bottom
      edge (y = 1). */
  function DrawLine(d: Device, line: Line): (ops: seq<Op>)
    ensures |ops| == 5 && ops[2].MoveTo? && ops[3].LineTo?
    ensures line.dir.Sloped? ==> ops[2].x == 0.0 && ops[3].x == 1.0
    ensures line.dir.Vertical? ==> ops[2].y == 0.0 && ops[3].y == 1.0
  {
    ScaleEdges(d);
    DrawLineSegment(d, ClipLine(d, line))
  }

  /** `_drawRay`: does nothing. */
  function DrawRay(d: Device, ray: Ray): (ops: seq<Op>)
    ensures ops == []
  {
    []
  }

  /** `draw`: four independent tests of the class name, in source order.
      It emits something exactly for points, segments and lines. */
  function Draw(d: Device, g: Geometry): (ops: seq<Op>)
    ensures ops == [] <==> !(g.PointShape? || g.SegmentShape? || g.LineShape?)
  {
    var name := ClassName(g);
    (if name == "Point" then DrawPoint(d, g.point) else [])
    + (if name == "LineSegment" then DrawLineSegment(d, g.segment) else [])
    + (if name == "Line" then DrawLine(d, g.line) else [])
    + (if name == "Ray" then DrawRay(d, g.ray) else [])
  }

  /** `text(txt, loc)`: colour, font size from the state, a move to where
      `loc` lands, and the string. */
  function Text(d: Device, txt: string, loc: Point): (ops: seq<Op>)
    ensures |ops| == 4 && ops[0] == SetSourceRGBA(d.color)
    ensures ops[1] == SetFontSize(d.textSize)
    ensures ops[2].MoveTo? && ops[2].x * d.width == loc.x + d.origin.x
                           && ops[2].y * d.height == loc.y + d.origin.y
    ensures ops[3] == ShowText(txt)
  {
    var at := ToSurface(d, loc);
    [SetSourceRGBA(d.color), SetFontSize(d.textSize), MoveTo(at.x, at.y), ShowText(txt)]
  }

  /** The class-name dispatch is the exhaustive match over the variants:
      Point, LineSegment and Line reach their renderers, a Ray reaches the
      empty ray renderer, and every other shape is ignored. */
  lemma DrawByVariant(d: Device, g: Geometry)
    ensures Draw(d, g) == match g
      case PointShape(p) => DrawPoint(d, p)
      case SegmentShape(s) => DrawLineSegment(d, s)
      case LineShape(l) => DrawLine(d, l)
      case RayShape(r) => DrawRay(d, r)
      case EllipseShape(_) => []
      case PolygonShape(_) => []
  {
  }

  /** A drawn point's disc centre is on the surface exactly when the point is
      in the visible window. */
  lemma PointOnSurfaceIff(d: Device, p: Point)
    requires d.width > 0.0 && d.height > 0.0
    ensures Visible(d, p) <==>
      (0.0 <= DrawPoint(d, p)[1].cx <= 1.0 && 0.0 <= DrawPoint(d, p)[1].cy <= 1.0)
  {
    ScaleToWidthUnitRange(d, p.x);
    ScaleToHeightUnitRange(d, p.y);
  }

  /** A drawn segment starts and ends on the surface exactly when both of
      its ends are in the visible window. */
  lemma SegmentOnSurfaceIff(d: Device, seg: LineSegment)
    requires d.width > 0.0 && d.height > 0.0
    ensures Visible(d, seg.p1) && Visible(d, seg.p2) <==>
      var ops := DrawLineSegment(d, seg);
      && 0.0 <= ops[2].x <= 1.0 && 0.0 <= ops[2].y <= 1.0
      && 0.0 <= ops[3].x <= 1.0 && 0.0 <= ops[3].y <= 1.0
  {
    ScaleToWidthUnitRange(d, seg.p1.x);
    ScaleToHeightUnitRange(d, seg.p1.y);
    ScaleToWidthUnitRange(d, seg.p2.x);
    ScaleToHeightUnitRange(d, seg.p2.y);
  }

  /** The vertical branch does not draw at x = -c exactly: each end is off
      by its y divided by tan(pi / 2), a tiny amount that grows with y. */
  lemma VerticalLineOffset(d: Device, c: real)
    ensures var seg := ClipLine(d, Line(Vertical, c));
      && (seg.p1.x + c) * TanHalfPi == -d.origin.y
      && (seg.p2.x + c) * TanHalfPi == d.height - d.origin.y
      && (d.height - d.origin.y != -d.origin.y ==> seg.p1.x != seg.p2.x)
  {
  }

  /** A sloped line is drawn exactly as the segment between the points of
      the line above the left and right edges of the visible range. */
  lemma SlopedLineIsEdgeSegment(d: Device, m: Slope, c: real)
    ensures DrawLine(d, Line(Sloped(m), c))
         == DrawLineSegment(d, LineSegment(Point(-d.origin.x, m * -d.origin.x + c),
                                           Point(d.width - d.origin.x, m * (d.width - d.origin.x) + c)))
  {
    assert ClipLine(d, Line(Sloped(m), c))
        == LineSegment(Point(-d.origin.x, m * -d.origin.x + c),
                       Point(d.width - d.origin.x, m * (d.width - d.origin.x) + c));
  }

  /** Clipping the line built from the tangent `t` follows the source's own
      test and formulas, with `t` in place of tan(theta): the x-edges when
      `t` differs from tan(pi / 2), the y-edges and a division by `t` when it
      does not. */
  lemma ClipLineOf(d: Device, t: real, c: real)
    ensures ClipLine(d, LineOf(t, c)) ==
      if t != TanHalfPi then
        LineSegment(Point(-d.origin.x, t * -d.origin.x + c),
                    Point(d.width - d.origin.x, t * (d.width - d.origin.x) + c))
      else
        LineSegment(Point(-c + -d.origin.y / t, -d.origin.y),
                    Point(-c + (d.height - d.origin.y) / t, d.height - d.origin.y))
  {
  }

  /** On an untranslated 100 x 100 surface the line y = 5 is clipped to the
      segment from (0, 5) to (100, 5). */
  lemma HorizontalLineClip(d: Device)
    requires d.width == 100.0 && d.height == 100.0 && d.origin == Point(0.0, 0.0)
    ensures ClipLine(d, Line(Sloped(0.0), 5.0)) == LineSegment(Point(0.0, 5.0), Point(100.0, 5.0))
  {
  }

  /** That segment lands at height 0.05 across the whole surface. */
  lemma HorizontalLineExample(d: Device)
    requires d.width == 100.0 && d.height == 100.0 && d.origin == Point(0.0, 0.0)
    ensures DrawLine(d, Line(Sloped(0.0), 5.0))
         == [SetSourceRGBA(d.color), SetLineWidth(d.stroke), MoveTo(0.0, 0.05), LineTo(1.0, 0.05), Stroke]
  {
    HorizontalLineClip(d);
    UnitSquareLanding(d, Point(0.0, 5.0));
    UnitSquareLanding(d, Point(100.0, 5.0));
  }

  /** On an untranslated 100 x 100 surface a point lands at a hundredth of
      its coordinates. */
  lemma UnitSquareLanding(d: Device, p: Point)
    requires d.width == 100.0 && d.height == 100.0 && d.origin == Point(0.0, 0.0)
    ensures ToSurface(d, p) == Point(p.x / 100.0, p.y / 100.0)
  {
  }
}
