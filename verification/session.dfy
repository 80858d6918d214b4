/**
 A sequence of calls on one `Device`, in the order client code issues them,
 and the trace of backend operations they produce. Setters and `translate`
 change the state and emit nothing; `draw` and `text` emit and change nothing.
 */
module Session {

  import opened Wrappers
  import opened Geometry
  import opened Devices
  import opened Drawing

  datatype Command =
    | TranslateBy(dx: real, dy: real)
    | ColorTo(color: Color)
    | StrokeTo(stroke: real)
    | TextSizeTo(size: real)
    | DrawShape(shape: Geometry)
    | TextAt(text: string, loc: Point)

  datatype Outcome = Outcome(device: Device, ops: seq<Op>)

  /** Calls that only read the state. */
  predicate IsRendering(cmd: Command)
  {
    cmd.DrawShape? || cmd.TextAt?
  }

  /** One call: the state afterwards and what it emitted. */
  function Step(d: Device, cmd: Command): (out: Outcome)
    ensures out.device.width == d.width && out.device.height == d.height
    ensures IsRendering(cmd) ==> out.device == d
    ensures !IsRendering(cmd) ==> out.ops == []
  {
    match cmd
    case TranslateBy(dx, dy) => Outcome(Translate(d, dx, dy), [])
    case ColorTo(c) => Outcome(SetColor(d, c), [])
    case StrokeTo(s) => Outcome(SetStroke(d, s), [])
    case TextSizeTo(size) => Outcome(SetTextSize(d, size), [])
    case DrawShape(g) => Outcome(d, Draw(d, g))
    case TextAt(txt, loc) => Outcome(d, Text(d, txt, loc))
  }

  /** A whole sequence of calls, first to last; the traces are concatenated
      in call order. The extent never changes, and calls that only render
      leave the state as it was. */
  function Run(d: Device, cmds: seq<Command>): (out: Outcome)
    ensures out.device.width == d.width && out.device.height == d.height
    ensures (forall i | 0 <= i < |cmds| :: IsRendering(cmds[i])) ==> out.device == d
    decreases |cmds|
  {
    if cmds == [] then Outcome(d, [])
    else
      var first := Step(d, cmds[0]);
      var rest := Run(first.device, cmds[1..]);
      Outcome(rest.device, first.ops + rest.ops)
  }

  /** Running two sequences one after the other is running their
      concatenation. */
  lemma {:induction false} RunAppend(d: Device, a: seq<Command>, b: seq<Command>)
    ensures Run(d, a + b).device == Run(Run(d, a).device, b).device
    ensures Run(d, a + b).ops == Run(d, a).ops + Run(Run(d, a).device, b).ops
    decreases |a|
  {
    if a == [] {
      assert a + b == b;
    } else {
      var first := Step(d, a[0]);
      var e := first.device;
      var x := first.ops;
      assert (a + b)[0] == a[0];
      assert (a + b)[1..] == a[1..] + b;
      RunAppend(e, a[1..], b);
      var mid := Run(e, a[1..]);
      var last := Run(mid.device, b);
      assert x + (mid.ops + last.ops) == (x + mid.ops) + last.ops;
    }
  }

  /** A single call runs as one step. */
  lemma RunSingle(d: Device, cmd: Command)
    ensures Run(d, [cmd]) == Step(d, cmd)
  {
    assert [cmd][1..] == [];
    var first := Step(d, cmd);
    assert first.ops + [] == first.ops;
  }

  /** Two calls run as one step after the other. */
  lemma RunPair(d: Device, c1: Command, c2: Command)
    ensures Run(d, [c1, c2]).device == Step(Step(d, c1).device, c2).device
    ensures Run(d, [c1, c2]).ops == Step(d, c1).ops + Step(Step(d, c1).device, c2).ops
  {
    assert [c1] + [c2] == [c1, c2];
    RunAppend(d, [c1], [c2]);
    RunSingle(d, c1);
    RunSingle(Step(d, c1).device, c2);
  }

  /** Two translations in a row act as one by the summed offsets. */
  lemma TranslatesCompose(d: Device, dx1: real, dy1: real, dx2: real, dy2: real)
    ensures Run(d, [TranslateBy(dx1, dy1), TranslateBy(dx2, dy2)])
         == Run(d, [TranslateBy(dx1 + dx2, dy1 + dy2)])
  {
    TranslateCompose(d, dx1, dy1, dx2, dy2);
    RunPair(d, TranslateBy(dx1, dy1), TranslateBy(dx2, dy2));
    RunSingle(d, TranslateBy(dx1 + dx2, dy1 + dy2));
  }

  /** Drawing a ray, an ellipse or any polygon changes nothing: appending it
      to any sequence of calls leaves both the state and the trace as they
      were. */
  lemma {:induction false} SilentShapeIsNoOp(d: Device, cmds: seq<Command>, g: Geometry)
    requires g.RayShape? || g.EllipseShape? || g.PolygonShape?
    ensures Run(d, cmds + [DrawShape(g)]) == Run(d, cmds)
  {
    RunAppend(d, cmds, [DrawShape(g)]);
    var e := Run(d, cmds).device;
    assert Run(e, [DrawShape(g)]) == Outcome(e, []);
    assert Run(d, cmds).ops + [] == Run(d, cmds).ops;
  }

  /** After color(c), the point's colour call receives exactly c, as it was
      stored, with no clamping on the way. */
  lemma PointPaintedInSetColor(d: Device, c: Color, p: Point)
    ensures |Run(d, [ColorTo(c), DrawShape(PointShape(p))]).ops| == 3
    ensures Run(d, [ColorTo(c), DrawShape(PointShape(p))]).ops[0] == SetSourceRGBA(c)
  {
    RunPair(d, ColorTo(c), DrawShape(PointShape(p)));
    var e := SetColor(d, c);
    DrawByVariant(e, PointShape(p));
  }

  /** A stroke request is drawn with the width it was stored as: the
      requested width shifted by the origin's x, over the device width. */
  lemma SegmentDrawnWithSetStroke(d: Device, s: real, seg: LineSegment)
    ensures var ops := Run(d, [StrokeTo(s), DrawShape(SegmentShape(seg))]).ops;
      |ops| == 5 && ops[1].SetLineWidth? && ops[1].lineWidth * d.width == s + d.origin.x
  {
    RunStrokeThenSegment(d, s, seg);
    assert SetStroke(d, s).stroke * d.width == s + d.origin.x;
  }

  /** After stroke(s), a segment is drawn with the stored stroke as its
      line width. */
  lemma RunStrokeThenSegment(d: Device, s: real, seg: LineSegment)
    ensures var ops := Run(d, [StrokeTo(s), DrawShape(SegmentShape(seg))]).ops;
      |ops| == 5 && ops[1] == SetLineWidth(SetStroke(d, s).stroke)
  {
    var e := SetStroke(d, s);
    RunPair(d, StrokeTo(s), DrawShape(SegmentShape(seg)));
    StepDrawsSegment(e, seg);
    assert [] + DrawLineSegment(e, seg) == DrawLineSegment(e, seg);
  }

  lemma StepDrawsSegment(d: Device, seg: LineSegment)
    ensures Step(d, DrawShape(SegmentShape(seg))).ops == DrawLineSegment(d, seg)
  {
    DrawByVariant(d, SegmentShape(seg));
  }

  /** A text-size request is used as size over width, wherever the origin is. */
  lemma TextDrawnWithSetSize(d: Device, size: real, txt: string, loc: Point)
    ensures |Run(d, [TextSizeTo(size), TextAt(txt, loc)]).ops| == 4
    ensures Run(d, [TextSizeTo(size), TextAt(txt, loc)]).ops[1].SetFontSize?
    ensures Run(d, [TextSizeTo(size), TextAt(txt, loc)]).ops[1].size * d.width == size
  {
    RunPair(d, TextSizeTo(size), TextAt(txt, loc));
  }

  /** Drawing a line as a call emits what the line renderer emits. */
  lemma RunDrawLine(d: Device, line: Line)
    ensures Run(d, [DrawShape(LineShape(line))]).ops == DrawLine(d, line)
  {
    RunSingle(d, DrawShape(LineShape(line)));
    StepDrawsLine(d, line);
  }

  /** A horizontal line y = 5 on a fresh 100 x 100 device is drawn in opaque
      black with the default stroke, from (0, 0.05) to (1, 0.05), that is,
      from logical (0, 5) to logical (100, 5). */
  lemma FreshDeviceLineExample(d: Device)
    requires NewDevice(100.0, 100.0) == Success(d)
    ensures Run(d, [DrawShape(LineShape(Line(Sloped(0.0), 5.0)))]).ops
         == [SetSourceRGBA(Black), SetLineWidth(0.01), MoveTo(0.0, 0.05), LineTo(1.0, 0.05), Stroke]
  {
    var line := Line(Sloped(0.0), 5.0);
    assert Run(d, [DrawShape(LineShape(line))]).ops == DrawLine(d, line) by {
      RunDrawLine(d, line);
    }
    assert DrawLine(d, line)
        == [SetSourceRGBA(Black), SetLineWidth(0.01), MoveTo(0.0, 0.05), LineTo(1.0, 0.05), Stroke] by {
      FreshDeviceDrawsLine(d);
    }
  }

  /** Drawing a line as one step emits what the line renderer emits. */
  lemma StepDrawsLine(d: Device, line: Line)
    ensures Step(d, DrawShape(LineShape(line))).ops == DrawLine(d, line)
  {
    DrawByVariant(d, LineShape(line));
  }

  lemma FreshDeviceDrawsLine(d: Device)
    requires NewDevice(100.0, 100.0) == Success(d)
    ensures DrawLine(d, Line(Sloped(0.0), 5.0))
         == [SetSourceRGBA(Black), SetLineWidth(0.01), MoveTo(0.0, 0.05), LineTo(1.0, 0.05), Stroke]
  {
    FreshSquareDevice(d);
    HorizontalLineExample(d);
  }

  lemma FreshSquareDevice(d: Device)
    requires NewDevice(100.0, 100.0) == Success(d)
    ensures d.color == Black && d.stroke == 0.01
    ensures d.width == 100.0 && d.height == 100.0 && d.origin == Point(0.0, 0.0)
  {
  }
}
