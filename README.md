# rfSwiftUI custom shapes, in Dafny

A model of the geometric core of the rfSwiftUI package. It covers three shapes:

- Two insettable shapes, `Diamond` and `Squiggle`. Each stores one value, the inset amount, which is half the width of a stroke drawn along the outline.
  - `inset(by:)` returns a copy with a larger inset.
  - `path(in:)` builds the outline for a bounding rectangle.
  - The diamond converts its inset into a per-axis offset corrected for the aspect ratio (`insets(in:insetAmount:)`). Because of this correction, a stroke of width 2 × inset centred on the inset outline touches the un-inset rhombus, whatever the aspect ratio. The squiggle applies its inset as it is.
- The `VStripes` view's path: `numberOfStripes + 1` vertical lines, evenly spaced across the view and stroked at half their spacing.

The files are:

- `geometry.dfy` (module `Geometry`)
  - points and standardized rectangles (`Rect`, width and height ≥ 0);
  - the predicate `IsDiagonal`, which replaces `sqrt(w² + h²)` with a given non-negative root;
  - the path commands (`MoveTo`, `LineTo`, `CurveTo`, `CloseSubpath`). A `Path` is the sequence of commands that built it.
- `custom_shapes.dfy` (module `CustomShapes`)
  - `Diamond` and `Squiggle` as datatypes with member functions;
  - `Insets`;
  - lemmas about the outlines they produce.
- `striped_shapes.dfy` (module `StripedShapes`)
  - the stripe loop as a method with a `for` loop;
  - `StripeCommand`, the function it is proved against, and lemmas about stripe positions.

Coordinates follow the toolkit: y grows downwards, so `MinY` is the top side.

## Model

| member | source | states |
|---|---|---|
| CustomShapes.Insets | Sources/rfSwiftUI/CustomShapes.swift:37-44 | A rectangle with a zero side gives exactly (0, 0) and no division is made. Otherwise the X offset times the height, and the Y offset times the width, both equal inset × diagonal. |
| Geometry.DiagonalUnique | Sources/rfSwiftUI/CustomShapes.swift:39-40 | The non-negative root of w² + h² is unique, so passing the diagonal as a parameter determines every result. |
| Geometry.DiagonalExceedsSides | Sources/rfSwiftUI/CustomShapes.swift:39-40 | The diagonal is at least each side, and strictly larger than a side when the other side is positive. |
| CustomShapes.InsetsTransposed | Sources/rfSwiftUI/CustomShapes.swift:40-42 | Exchanging width and height exchanges the two offsets. |
| CustomShapes.InsetsSquare | Sources/rfSwiftUI/CustomShapes.swift:40-42 | A square rectangle gets equal offsets on both axes. |
| CustomShapes.InsetsLinear | Sources/rfSwiftUI/CustomShapes.swift:41-42 | Scaling the inset by k scales both offsets by k. |
| CustomShapes.InsetsNonNegative | Sources/rfSwiftUI/CustomShapes.swift:41-42 | A non-negative inset gives non-negative offsets. |
| CustomShapes.InsetsExceedAmount | Sources/rfSwiftUI/CustomShapes.swift:40-42 | On a rectangle with both sides positive, a positive inset gives an offset strictly larger than the inset on each axis. |
| CustomShapes.InsetsExamples | Tests/rfSwiftUITests/CustomShapesTests.swift:12-36 | Inset 10 on 100×100 gives (d/10, d/10). On 100×200 it gives (d/20, d/10), and on 200×100 (d/10, d/20). On the empty rectangle it gives (0, 0). |
| CustomShapes.Diamond.InsetBy | Sources/rfSwiftUI/CustomShapes.swift:31-35 | The copy's inset amount is the old amount plus `amount`. |
| CustomShapes.DiamondInsetByZero | Sources/rfSwiftUI/CustomShapes.swift:31-35 | `inset(by: 0)` gives back the same diamond. |
| CustomShapes.DiamondInsetByTwice | Sources/rfSwiftUI/CustomShapes.swift:31-35 | Two successive insets equal one inset by their sum. |
| CustomShapes.Diamond.Vertices | Sources/rfSwiftUI/CustomShapes.swift:47-51 | Left and right lie on midY, and top and bottom on midX. The vertices are symmetric about the centre and pulled in from the sides by the offsets. With a zero inset or a zero side they are the side midpoints. |
| CustomShapes.Diamond.PathIn | Sources/rfSwiftUI/CustomShapes.swift:46-60 | The path is exactly Move(left), Line(top), Line(right), Line(bottom), Close: five commands whatever the inset. |
| CustomShapes.DiamondSquarePath | Tests/rfSwiftUITests/CustomShapesTests.swift:6-9 | With no inset, the path in a 100×100 square visits (0,50), (50,0), (100,50), (50,100) and closes. |
| CustomShapes.DiamondEdgesAtInsetDistance | Sources/rfSwiftUI/CustomShapes.swift:37-58 | Each of the 8 segment end points lies at depth inset × diagonal beneath the matching edge of the un-inset rhombus. That depth is a Euclidean distance of exactly the inset amount, so each inset edge runs parallel to its un-inset edge at that distance. |
| CustomShapes.DiamondNotInverted | Sources/rfSwiftUI/CustomShapes.swift:41-51 | Left stays left of right, and top above bottom, exactly when 2 × inset × diagonal ≤ width × height. Both axes fold over at the same inset. |
| CustomShapes.DiamondTranslated | Sources/rfSwiftUI/CustomShapes.swift:47-51 | Moving the rectangle moves every vertex by the same amount. |
| CustomShapes.Squiggle.InsetBy | Sources/rfSwiftUI/CustomShapes.swift:81-85 | The copy's inset amount is the old amount plus `amount`. |
| CustomShapes.SquiggleInsetByZero | Sources/rfSwiftUI/CustomShapes.swift:81-85 | `inset(by: 0)` gives back the same squiggle. |
| CustomShapes.SquiggleInsetByTwice | Sources/rfSwiftUI/CustomShapes.swift:81-85 | Two successive insets equal one inset by their sum. |
| CustomShapes.Squiggle.PathIn | Sources/rfSwiftUI/CustomShapes.swift:87-101 | The path is exactly Move(left), Curve(right, c1, c2), Move(right), Curve(left, c3, c4), with left = (minX + a, maxY) and right = (maxX − a, minY). The control points have x = width × 0.25 or × 0.75, not offset by minX, and y = minY − h + 2a, maxY + a, maxY + h − 2a and minY − a. |
| CustomShapes.SquiggleHalfTurnSymmetric | Sources/rfSwiftUI/CustomShapes.swift:88-99 | The second curve is the first turned half a turn about the rectangle's centre exactly when the rectangle's origin has x = 0. |
| CustomShapes.SquiggleInsetUncorrected | Sources/rfSwiftUI/CustomShapes.swift:88-89 | The squiggle's ends move in by exactly the inset amount, while the diamond's left vertex moves in by inset × diagonal / height. |
| StripedShapes.Stripes | Sources/rfSwiftUI/StripedShapes.swift:28-45 | The path has 2 × (numberOfStripes + 1) commands, and command i is StripeCommand(i). The stroke width times 2 × numberOfStripes equals the view width. |
| StripedShapes.StripeSegment | Sources/rfSwiftUI/StripedShapes.swift:36-40 | Line n is Move((n × step, 0)) followed by Line((n × step, height)), a vertical segment spanning the full height. |
| StripedShapes.StripesSpanWidth | Sources/rfSwiftUI/StripedShapes.swift:33-38 | The first line is at x = 0 and the last at x = width. The range is inclusive. |
| StripedShapes.StripesEvenlySpaced | Sources/rfSwiftUI/StripedShapes.swift:33-38 | Neighbouring lines are exactly one step apart. |
| StripedShapes.StripesIncreasing | Sources/rfSwiftUI/StripedShapes.swift:33-38 | When the width is positive, the line positions strictly increase with n. |
| StripedShapes.StripeWidthIsHalfStep | Sources/rfSwiftUI/StripedShapes.swift:33-34 | The stroke width, step / 2, equals width / (2 × numberOfStripes). |

## Left out

- SwiftUI view composition is not modelled: the demo views, previews, `ContentView`, the `GeometryReader` wrapper and the `.striped`, `.opacity`, `.clipShape` and `.overlay` modifiers. It is declarative UI with no computation of its own. The view size the `GeometryReader` provides becomes the `width` and `height` parameters of `Stripes`.
- Stroking and filling are not modelled: `.stroke(lineWidth:)`, the `stroke(_:lineWidth:fill:)` and `strokeBorder(_:lineWidth:fill:)` extensions, and rendering in general. The model returns the stroke width but does not draw.
- `NiceButtonStyle` and `niceButton` are left out. They are UI styling only.
- Arithmetic is on `real`, not IEEE `CGFloat`. Rounding and the exact decimals of `Path.description` are not modelled.
- `sqrt` is not computed. The diagonal is a parameter constrained by `IsDiagonal` to be the non-negative root of w² + h². `DiagonalUnique` shows that this pins it down.
- Rectangles with a negative width or height are not modelled, because `CGRect` standardisation never produces them here. `Rect` requires both sides ≥ 0.
- The `init(insetAmount:)` initialisers are the datatype constructors `Diamond(a)` and `Squiggle(a)`. The Swift default argument of 0 corresponds to writing `Diamond(0.0)`.
- The `Path` builder is not modelled as a mutable object. Each `path(in:)` is a function that returns the sequence of commands the builder receives, in order. The stripe loop is a method that appends to a sequence.
- The opaque `some InsettableShape` result type is not modelled. `InsetBy` returns the concrete shape type, which is what the Swift code returns.
- The `Hexagon` tests are left out. The `Hexagon` type is not part of this model.
- The scratch `insets` function in Tests/rfSwiftUITests/rfSwiftUITests.swift:11-17 is left out. It only prints and is not the shipped behaviour.
