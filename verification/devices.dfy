/**
 The state of a mathscapes `Device` apart from its cairo surface: the
 extent, the logical origin, and the paint attributes (colour, stroke
 width, text size). Every operation that the Python class performs by
 mutating `self` is a function here from the old state to the new one.
 */
module Devices {

  import opened Wrappers
  import opened Geometry
  import opened Interpolation

  /** An RGBA colour, stored exactly as given (no range check). */
  datatype Color = Color(r: real, g: real, b: real, a: real)

  datatype DeviceState = DeviceState(
    width: real,
    height: real,
    origin: Point,
    color: Color,
    stroke: real,
    textSize: real)

  /** A device that construction let through: its extent is nonzero in both
      directions, so the scaling below never divides by zero. */
  type Device = d: DeviceState | d.width != 0.0 && d.height != 0.0
    witness DeviceState(1.0, 1.0, Point(0.0, 0.0), Color(0.0, 0.0, 0.0, 1.0), 1.0, 12.0)

  /** Construction fails on a zero extent: the context scale by
      (width, height) is singular, and the default stroke divides by width. */
  datatype DeviceError = SingularExtent

  const Black := Color(0.0, 0.0, 0.0, 1.0)

  /** `Device(width, height)`: opaque black, stroke of one logical unit,
      text size twelve logical units, origin at (0, 0). */
  function NewDevice(width: real, height: real): (r: Result<Device, DeviceError>)
    ensures r.Failure? <==> width == 0.0 || height == 0.0
    ensures r.Success? ==>
      && r.value.width == width && r.value.height == height
      && r.value.color == Black
      && r.value.stroke * width == 1.0
      && r.value.textSize * width == 12.0
      && r.value.origin == Point(0.0, 0.0)
  {
    if width == 0.0 || height == 0.0 then Failure(SingularExtent)
    else Success(DeviceState(width, height, Point(0.0, 0.0), Black, 1.0 / width, 12.0 / width))
  }

  /** The two halves of the state: where things land, and how they are painted. */
  predicate SameFrame(d: Device, e: Device)
  {
    d.width == e.width && d.height == e.height && d.origin == e.origin
  }

  predicate SamePaint(d: Device, e: Device)
  {
    d.color == e.color && d.stroke == e.stroke && d.textSize == e.textSize
  }

  /** `translate(x, y)`: moves the origin by (dx, dy) and nothing else. */
  function Translate(d: Device, dx: real, dy: real): (r: Device)
    ensures r.origin.x - d.origin.x == dx && r.origin.y - d.origin.y == dy
    ensures r.width == d.width && r.height == d.height
    ensures SamePaint(d, r)
  {
    d.(origin := Point(d.origin.x + dx, d.origin.y + dy))
  }

  /** `_scaleToWidth(x)`: maps the visible logical x-range
      [-origin.x, width - origin.x] onto [0, 1]; it reduces to
      (x + origin.x) / width. */
  function ScaleToWidth(d: Device, x: real): (u: real)
    ensures u * d.width == x + d.origin.x
  {
    Map(x, -d.origin.x, d.width - d.origin.x, 0.0, 1.0).value
  }

  /** `_scaleToHeight(y)`: the same for y, height and origin.y. */
  function ScaleToHeight(d: Device, y: real): (v: real)
    ensures v * d.height == y + d.origin.y
  {
    Map(y, -d.origin.y, d.height - d.origin.y, 0.0, 1.0).value
  }

  /** `color(r, g, b, a)`: stores the colour verbatim. */
  function SetColor(d: Device, c: Color): (r: Device)
    ensures r.color == c
    ensures SameFrame(d, r) && r.stroke == d.stroke && r.textSize == d.textSize
  {
    d.(color := c)
  }

  /** `stroke(s)`: stores the width through the origin-aware x scaling, so
      the stored value is (s + origin.x) / width. */
  function SetStroke(d: Device, s: real): (r: Device)
    ensures r.stroke == ScaleToWidth(d, s)
    ensures r.stroke * d.width == s + d.origin.x
    ensures SameFrame(d, r) && r.color == d.color && r.textSize == d.textSize
  {
    d.(stroke := ScaleToWidth(d, s))
  }

  /** `textSize(size)`: stores size / width, whatever the origin. */
  function SetTextSize(d: Device, size: real): (r: Device)
    ensures r.textSize * d.width == size
    ensures SameFrame(d, r) && r.color == d.color && r.stroke == d.stroke
  {
    d.(textSize := size / d.width)
  }

  /** The left and right edges of the visible logical range map to 0 and 1,
      and so do the top and bottom edges; this holds for any origin. */
  lemma ScaleEdges(d: Device)
    ensures ScaleToWidth(d, -d.origin.x) == 0.0
    ensures ScaleToWidth(d, d.width - d.origin.x) == 1.0
    ensures ScaleToHeight(d, -d.origin.y) == 0.0
    ensures ScaleToHeight(d, d.height - d.origin.y) == 1.0
  {
    MapEndpoints(-d.origin.x, d.width - d.origin.x, 0.0, 1.0);
    MapEndpoints(-d.origin.y, d.height - d.origin.y, 0.0, 1.0);
  }

  /** With a positive width, x scaling is strictly increasing. */
  lemma ScaleToWidthStrictlyIncreasing(d: Device, x: real, x': real)
    requires d.width > 0.0
    ensures x < x' <==> ScaleToWidth(d, x) < ScaleToWidth(d, x')
  {
    MapStrictlyIncreasing(x, x', -d.origin.x, d.width - d.origin.x, 0.0, 1.0);
  }

  /** With a positive height, y scaling is strictly increasing. */
  lemma ScaleToHeightStrictlyIncreasing(d: Device, y: real, y': real)
    requires d.height > 0.0
    ensures y < y' <==> ScaleToHeight(d, y) < ScaleToHeight(d, y')
  {
    MapStrictlyIncreasing(y, y', -d.origin.y, d.height - d.origin.y, 0.0, 1.0);
  }

  /** With a positive width, x lands in [0, 1] exactly when it lies in the
      visible range [-origin.x, width - origin.x]. */
  lemma ScaleToWidthUnitRange(d: Device, x: real)
    requires d.width > 0.0
    ensures -d.origin.x <= x <= d.width - d.origin.x <==> 0.0 <= ScaleToWidth(d, x) <= 1.0
  {
    ScaleEdges(d);
    ScaleToWidthStrictlyIncreasing(d, x, -d.origin.x);
    ScaleToWidthStrictlyIncreasing(d, d.width - d.origin.x, x);
  }

  /** With a positive height, y lands in [0, 1] exactly when it lies in the
      visible range [-origin.y, height - origin.y]. */
  lemma ScaleToHeightUnitRange(d: Device, y: real)
    requires d.height > 0.0
    ensures -d.origin.y <= y <= d.height - d.origin.y <==> 0.0 <= ScaleToHeight(d, y) <= 1.0
  {
    ScaleEdges(d);
    ScaleToHeightStrictlyIncreasing(d, y, -d.origin.y);
    ScaleToHeightStrictlyIncreasing(d, d.height - d.origin.y, y);
  }

  /** Translating by (dx, dy) makes a coordinate land where the coordinate
      shifted by (dx, dy) landed before. */
  lemma TranslateShiftsScaling(d: Device, dx: real, dy: real, x: real, y: real)
    ensures ScaleToWidth(Translate(d, dx, dy), x) == ScaleToWidth(d, x + dx)
    ensures ScaleToHeight(Translate(d, dx, dy), y) == ScaleToHeight(d, y + dy)
  {
    var t := Translate(d, dx, dy);
    var u, u' := ScaleToWidth(t, x), ScaleToWidth(d, x + dx);
    assert (u - u') * d.width == 0.0;
    var v, v' := ScaleToHeight(t, y), ScaleToHeight(d, y + dy);
    assert (v - v') * d.height == 0.0;
  }

  /** Two translations leave the same device as one by the summed offsets. */
  lemma TranslateCompose(d: Device, dx1: real, dy1: real, dx2: real, dy2: real)
    ensures Translate(Translate(d, dx1, dy1), dx2, dy2) == Translate(d, dx1 + dx2, dy1 + dy2)
  {
  }

  /** The construction defaults are what the setters would store for a
      stroke of 1 and a text size of 12 at the initial origin. */
  lemma DefaultsAreSetterValues(width: real, height: real)
    requires NewDevice(width, height).Success?
    ensures SetStroke(NewDevice(width, height).value, 1.0) == NewDevice(width, height).value
    ensures SetTextSize(NewDevice(width, height).value, 12.0) == NewDevice(width, height).value
  {
    var d := NewDevice(width, height).value;
    var s := SetStroke(d, 1.0).stroke;
    assert (s - d.stroke) * width == 0.0;
    var t := SetTextSize(d, 12.0).textSize;
    assert (t - d.textSize) * width == 0.0;
  }

  /** The stored stroke depends on the origin: after moving the origin by dx,
      the same stroke request stores a value larger by dx / width. */
  lemma StrokeDependsOnOrigin(d: Device, dx: real, dy: real, s: real)
    ensures SetStroke(Translate(d, dx, dy), s).stroke - SetStroke(d, s).stroke == dx / d.width
  {
    TranslateShiftsScaling(d, dx, dy, s, 0.0);
    var a, b := SetStroke(Translate(d, dx, dy), s).stroke, SetStroke(d, s).stroke;
    assert (a - b) * d.width == dx;
  }

  /** The stored text size does not depend on the origin. */
  lemma TextSizeIgnoresOrigin(d: Device, dx: real, dy: real, size: real)
    ensures SetTextSize(Translate(d, dx, dy), size).textSize == SetTextSize(d, size).textSize
  {
  }
}
