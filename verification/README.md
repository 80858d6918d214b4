# mathscapes: coordinate mapping and drawing, in Dafny

This project models the core of `mathscapes.py`, a small library that draws planar geometry
(points, lines, segments, rays, polygons) on a cairo vector surface. A `Device` keeps a logical
origin and an extent. It maps logical coordinates into the unit square that its cairo context
is scaled to. It also keeps the paint attributes (colour, stroke width, text size) that the
renderers read.

The cairo context is replaced by a trace of the operations sent to it
(`SetSourceRGBA`, `SetLineWidth`, `MoveTo`, `LineTo`, `Stroke`, `Disc`, `Fill`, `SetFontSize`,
`ShowText`). So every renderer is a pure function from the device state and a shape to a
list of operations. Every mutation of `self` is a function from the old state to the new one.

Modules, leaves first:

- `Wrappers` (`wrappers.dfy`): the `Result` type used where the source raises.
- `Geometry` (`geometry.dfy`): `Point`, `Line`, `LineSegment`, `Ray`, `Ellipse` and `Polygon`.
  `Tri`, `Quad` and `Rect` are constructor functions of `Polygon` that keep the class they stand
  for, and `ClassName` gives the Python class name that `draw` dispatches on.
- `Interpolation` (`interpolation.dfy`): the module-level `map`.
- `Devices` (`devices.dfy`): the device state, construction defaults, `translate`,
  `_scaleToWidth`, `_scaleToHeight`, and the `color`, `stroke` and `textSize` setters.
- `Drawing` (`drawing.dfy`): `_drawPoint`, `_drawLineSegment`, line clipping, `_drawLine`,
  `_drawRay`, `draw` and `text`.
- `Session` (`session.dfy`): a sequence of calls on one device, and the trace they produce.

Modelling choices:

- Python floats are Dafny `real`s, and rounding is not modelled.
- `tan(theta)` of a line becomes its direction: `Sloped(m)` with `m` the tangent, or
  `Vertical` for the angle whose tangent compares equal to `tan(pi/2)`. So the source's float
  comparison becomes an explicit tag. `TanHalfPi` is the double that `tan(pi/2)` evaluates to.
  A `Slope` can never equal it, so a line whose tangent compares equal always takes the vertical
  branch. `LineOf` builds a line from a tangent by exactly the source's test. The vertical branch
  divides by `TanHalfPi`.
- A device exists only if construction succeeded. Construction fails on a zero width or height:
  the context scale is singular and the default stroke divides by the width. So the `Device`
  subset type has a nonzero extent, and scaling never divides by zero. The properties about
  ranges and ordering additionally need a positive extent.
- `draw` is modelled as written: four independent tests of the class-name string.
  `DrawByVariant` proves this equals an exhaustive match over the shapes.

Behaviour worth noting (modelled as the code does it):

- `stroke(s)` goes through the origin-aware x scaling. The stored width is `(s + origin.x) / width`,
  so it depends on the origin (`StrokeDependsOnOrigin`). It is not simply `s / width`.
- A "vertical" line is computed as `x = -c + y / tan(pi/2)` at each end, not as `x = -c`
  (`VerticalLineOffset`). In exact real arithmetic the ends therefore sit slightly off `x = -c`
  and differ from each other. In doubles that offset rounds away once `|c|` is large
  compared with `|y|`.
- A plain `Polygon` accepts a point list of any length. The fixed counts belong only to `Tri`,
  `Quad` and `Rect`.
- Negative extents are not rejected by the code, and the model accepts them too.

## Model

| member | source | states |
|---|---|---|
| Interpolation.Map | mathscapes.py:61-62 | fails exactly when the source range is empty (Python's division by zero); otherwise the result divides the target range in the same proportion as the value divides the source range |
| Interpolation.MapEndpoints | mathscapes.py:61-62 | for a non-empty source range, its start maps to the target start and its stop to the target stop |
| Interpolation.MapStrictlyIncreasing | mathscapes.py:61-62 | between two increasing ranges, one value is below another exactly when its image is below the other's image |
| Interpolation.MapInverse | mathscapes.py:61-62 | mapping back with the ranges swapped returns the original value |
| Geometry.LineOf | mathscapes.py:145 | a line takes the vertical branch exactly when its tangent equals tan(pi/2), and otherwise keeps that tangent as its slope |
| Geometry.ClassName | mathscapes.py:117-123 | the class name is "Point", "LineSegment", "Line" or "Ray" exactly for the matching shape, so each of the four tests in draw picks out one shape and no other |
| Geometry.Tri | mathscapes.py:37-40 | a Tri holds exactly its three arguments, in argument order |
| Geometry.Quad | mathscapes.py:42-45 | a Quad holds exactly its four arguments, in argument order |
| Geometry.Rect | mathscapes.py:47-54 | a Rect is well formed: four corners with axis-aligned edges, the anchor first, and the opposite corner offset by (w, h) |
| Geometry.RectCorners | mathscapes.py:47-54 | the corners are the anchor, anchor+(w,0), anchor+(w,h), anchor+(0,h) in that order, the same points a Quad of them holds |
| Geometry.RectRoundTrip | mathscapes.py:47-54 | the anchor, width and height are recovered from a Rect's corners |
| Geometry.RectFromCorners | mathscapes.py:47-54 | every well-formed rectangle is the Rect of its recovered anchor, width and height |
| Devices.NewDevice | mathscapes.py:90-95 | construction fails exactly on a zero extent; otherwise the colour is opaque black, the stroke is one over the width, the text size is twelve over the width, and the origin is (0,0) |
| Devices.Translate | mathscapes.py:97-99 | the origin moves by exactly (dx, dy); the extent, colour, stroke and text size are unchanged |
| Devices.ScaleToWidth | mathscapes.py:101-102 | the result times the width is x plus origin.x, so it reduces to (x + origin.x) / width |
| Devices.ScaleToHeight | mathscapes.py:104-105 | the result times the height is y plus origin.y, so it reduces to (y + origin.y) / height |
| Devices.SetColor | mathscapes.py:107-108 | the colour is stored verbatim with no clamping, and nothing else changes |
| Devices.SetStroke | mathscapes.py:110-111 | the stored stroke is the x scaling of the request, (s + origin.x) / width; nothing else changes |
| Devices.SetTextSize | mathscapes.py:113-114 | the stored text size times the width is the request; nothing else changes |
| Devices.ScaleEdges | mathscapes.py:101-105 | for any origin, the left and right visible edges map to 0 and 1, and so do the top and bottom edges |
| Devices.ScaleToWidthStrictlyIncreasing | mathscapes.py:101-102 | with a positive width, x scaling preserves and reflects strict order |
| Devices.ScaleToHeightStrictlyIncreasing | mathscapes.py:104-105 | with a positive height, y scaling preserves and reflects strict order |
| Devices.ScaleToWidthUnitRange | mathscapes.py:101-102 | with a positive width, x lands in [0,1] exactly when it is in [-origin.x, width - origin.x] |
| Devices.ScaleToHeightUnitRange | mathscapes.py:104-105 | with a positive height, y lands in [0,1] exactly when it is in [-origin.y, height - origin.y] |
| Devices.TranslateShiftsScaling | mathscapes.py:97-105 | after translate(dx, dy), a coordinate lands where the coordinate shifted by (dx, dy) landed before |
| Devices.TranslateCompose | mathscapes.py:97-99 | two translations leave the same device as one translation by the summed offsets |
| Devices.DefaultsAreSetterValues | mathscapes.py:92-114 | the construction defaults are exactly what stroke(1) and textSize(12) store on a fresh device |
| Devices.StrokeDependsOnOrigin | mathscapes.py:110-111 | moving the origin by dx makes the same stroke request store a value larger by dx / width |
| Devices.TextSizeIgnoresOrigin | mathscapes.py:113-114 | the stored text size does not depend on the origin |
| Drawing.DrawPoint | mathscapes.py:126-131 | sets the current colour, emits a disc whose radius is the stored stroke and whose centre is where the point lands, then fills |
| Drawing.DrawLineSegment | mathscapes.py:133-141 | sets the current colour and the stored stroke as line width, moves to where p1 lands, draws a line to where p2 lands, then strokes |
| Drawing.ClipLine | mathscapes.py:143-154 | both ends lie on the line; a sloped line is cut at x = -origin.x and x = width - origin.x, and a vertical one at y = -origin.y and y = height - origin.y |
| Drawing.Text | mathscapes.py:160-166 | sets the current colour and the stored text size, moves to where the location lands, and shows the string |
| Drawing.DrawByVariant | mathscapes.py:116-124 | the class-name dispatch equals the exhaustive match: Point, LineSegment and Line reach their renderers, Ray reaches the empty ray renderer, and Ellipse and every polygon class emit nothing |
| Drawing.Draw | mathscapes.py:116-124 | draw emits nothing exactly when the shape is not a Point, LineSegment or Line |
| Drawing.PointOnSurfaceIff | mathscapes.py:126-131 | with a positive extent, a point's disc centre is in the unit square exactly when the point is in the visible window |
| Drawing.SegmentOnSurfaceIff | mathscapes.py:133-141 | with a positive extent, both ends of a drawn segment are in the unit square exactly when both ends are in the visible window |
| Drawing.VerticalLineOffset | mathscapes.py:150-154 | in the vertical branch each end is off x = -c by its y over tan(pi/2), so in exact arithmetic the two ends differ in x whenever the visible y-range is non-empty |
| Drawing.DrawLine | mathscapes.py:143-155 | a drawn line is a five-operation segment; a sloped line runs from surface x 0 to x 1, and a vertical one from surface y 0 to y 1 |
| Drawing.DrawRay | mathscapes.py:157-158 | drawing a ray emits nothing |
| Drawing.ClipLineOf | mathscapes.py:145-154 | for every tangent t, clipping the line built from t gives the source's branch: the x-edge points t·x + c when t differs from tan(pi/2), and otherwise the y-edge points -c + y / t |
| Drawing.SlopedLineIsEdgeSegment | mathscapes.py:145-155 | drawing a sloped line is exactly drawing the segment between its points above the two visible x-edges |
| Drawing.HorizontalLineClip | mathscapes.py:145-149 | on an untranslated 100 by 100 device the line y = 5 is clipped to (0,5)-(100,5) |
| Drawing.HorizontalLineExample | mathscapes.py:133-155 | on an untranslated 100 by 100 device the line y = 5 is drawn from (0, 0.05) to (1, 0.05) |
| Session.Step | mathscapes.py:97-124 | a call never changes the extent; draw and text leave the state unchanged, and the setters and translate emit nothing |
| Session.Run | mathscapes.py:97-166 | a sequence of calls never changes the extent, and one made only of draw and text calls leaves the state unchanged |
| Session.RunAppend | mathscapes.py:97-166 | running two call sequences one after the other gives the same state and trace as running their concatenation |
| Session.TranslatesCompose | mathscapes.py:97-99 | two translate calls in a row have the same effect and trace as one by the summed offsets |
| Session.SilentShapeIsNoOp | mathscapes.py:116-124 | drawing a Ray, an Ellipse or any polygon after any calls changes neither the state nor the trace |
| Session.PointPaintedInSetColor | mathscapes.py:107-131 | for a point drawn after color(c), set_source_rgba receives exactly c, as stored |
| Session.SegmentDrawnWithSetStroke | mathscapes.py:110-141 | a segment drawn after stroke(s) gets the line width (s + origin.x) / width |
| Session.TextDrawnWithSetSize | mathscapes.py:113-166 | text drawn after textSize(size) gets the font size size / width, whatever the origin |
| Session.FreshDeviceLineExample | mathscapes.py:92-155 | on a fresh 100 by 100 device, drawing the line y = 5 emits opaque black, line width 0.01, a move to (0, 0.05), a line to (1, 0.05), and a stroke |

## Left out

- Surface and context creation, the output file name, and the format switch (mathscapes.py:65-90) are I/O against cairo. This includes the fallthrough that leaves the surface `None`. Of this code the model keeps only the failure on a zero extent.
- Float rounding: all arithmetic is exact over the reals. So, for example, `(width - origin.x) - (-origin.x)` is exactly `width` here.
- The values of `math.tan` and `math.pi` are transcendental floats. A line's angle is given by its tangent, or by the `Vertical` tag, and a ray keeps its angle without using it.
- `TanHalfPi` is the double that `tan(pi/2)` evaluates to. No proof depends on its value beyond its being positive.
- `select_font_face` in `text` is left out. `show_text` is kept only as a `ShowText` operation that carries the string, with no glyph rendering.
- `Disc(cx, cy, r)` stands for the full circle `arc(cx, cy, r, 0, 2*pi)`. Cairo's path semantics, such as a connecting line from an existing current point, are not modelled.
- Rays, ellipses and polygons have no renderer in the source, and none is invented here.
- Points and point lists are given value semantics, while in Python they are mutable objects shared by reference. Two consequences are not modelled. First, `translate` moves the device's own `origin` object in place (mathscapes.py:94, 98-99). So a caller holding that object, and later drawing it, sees it moved with the device. Second, `Rect` keeps the caller's anchor object as its first corner (mathscapes.py:49). So changing that point afterwards moves one corner only, and the Python object need not stay `WellFormed`.
- Cairo clamps colour components to [0, 1] inside `set_source_rgba`. The trace records the arguments of the call, not the colour cairo ends up painting with.
- Drawing.VerticalLineOffset: the offset from `x = -c` and the conjunct that the two ends differ in x are exact-real results. Double rounding erases them once `|c|` is large compared with `|y|`. For example, `c = 100` on an untranslated 100 by 100 device puts both ends at exactly `x = -100` in the program.
- Devices.NewDevice: fails only on a zero extent. Cairo's own behaviour on negative or otherwise unusable sizes is foreign code and is not modelled.
