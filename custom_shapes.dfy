/**
 * The two insettable custom shapes, Diamond and Squiggle.
 *
 * Both are value types with one stored property, the inset amount (half the
 * width of a stroke drawn along the outline). `InsetBy` returns a copy with a
 * larger inset; `PathIn` builds the outline for a given bounding rectangle.
 * The diamond converts its inset into an aspect-corrected offset per axis
 * (`Insets`); the squiggle applies its inset as it is.
 */
module CustomShapes {
  import opened Geometry

  /**
   * The per-axis offset that pulls the diamond's vertices inwards by
   * `insetAmount`, measured perpendicular to its sloped edges. The X offset is
   * divided by the height and the Y offset by the width. A rectangle with a
   * zero side gives the zero offset and no division is made.
   */
  function Insets(rect: Rect, insetAmount: real, diagonal: real): (p: Point)
    requires IsDiagonal(rect, diagonal)
    ensures rect.width == 0.0 || rect.height == 0.0 ==> p == Zero
    ensures rect.width != 0.0 && rect.height != 0.0 ==>
      p.x * rect.height == insetAmount * diagonal && p.y * rect.width == insetAmount * diagonal
  {
    if rect.width == 0.0 || rect.height == 0.0 then Zero
    else Point(insetAmount * diagonal / rect.height, insetAmount * diagonal / rect.width)
  }

  /** Exchanging width and height exchanges the two offsets. */
  lemma InsetsTransposed(rect: Rect, insetAmount: real, diagonal: real)
    requires IsDiagonal(rect, diagonal)
    ensures IsDiagonal(rect.Transposed(), diagonal)
    ensures var p := Insets(rect, insetAmount, diagonal);
      Insets(rect.Transposed(), insetAmount, diagonal) == Point(p.y, p.x)
  {
  }

  /** A square rectangle gets the same offset on both axes. */
  lemma InsetsSquare(rect: Rect, insetAmount: real, diagonal: real)
    requires IsDiagonal(rect, diagonal) && rect.width == rect.height
    ensures Insets(rect, insetAmount, diagonal).x == Insets(rect, insetAmount, diagonal).y
  {
  }

  /** The offset is linear in the inset amount. */
  lemma InsetsLinear(rect: Rect, k: real, insetAmount: real, diagonal: real)
    requires IsDiagonal(rect, diagonal)
    ensures var p := Insets(rect, insetAmount, diagonal);
      Insets(rect, k * insetAmount, diagonal) == Point(k * p.x, k * p.y)
  {
    if rect.width != 0.0 && rect.height != 0.0 {
      assert k * insetAmount * diagonal / rect.height == k * (insetAmount * diagonal / rect.height);
      assert k * insetAmount * diagonal / rect.width == k * (insetAmount * diagonal / rect.width);
    }
  }

  /** A non-negative inset amount gives a non-negative offset. */
  lemma InsetsNonNegative(rect: Rect, insetAmount: real, diagonal: real)
    requires IsDiagonal(rect, diagonal) && insetAmount >= 0.0
    ensures Insets(rect, insetAmount, diagonal).x >= 0.0
    ensures Insets(rect, insetAmount, diagonal).y >= 0.0
  {
    if rect.width != 0.0 && rect.height != 0.0 {
      QuotientNonNegative(insetAmount, diagonal, rect.height);
      QuotientNonNegative(insetAmount, diagonal, rect.width);
    }
  }

  lemma QuotientNonNegative(a: real, d: real, h: real)
    requires a >= 0.0 && d >= 0.0 && h > 0.0
    ensures a * d / h >= 0.0
  {
  }

  /**
   * On a rectangle with both sides positive, a positive inset becomes a
   * strictly larger offset on each axis: the diagonal exceeds either side.
   */
  lemma InsetsExceedAmount(rect: Rect, insetAmount: real, diagonal: real)
    requires IsDiagonal(rect, diagonal) && rect.width > 0.0 && rect.height > 0.0 && insetAmount > 0.0
    ensures Insets(rect, insetAmount, diagonal).x > insetAmount
    ensures Insets(rect, insetAmount, diagonal).y > insetAmount
  {
    DiagonalExceedsSides(rect, diagonal);
    QuotientExceeds(insetAmount, diagonal, rect.height);
    QuotientExceeds(insetAmount, diagonal, rect.width);
  }

  lemma QuotientExceeds(a: real, d: real, h: real)
    requires a > 0.0 && h > 0.0 && d > h
    ensures a * d / h > a
  {
    assert a * d > a * h;
  }

  /**
   * The offsets for rectangles of 100 x 100, 100 x 200 and 200 x 100 with
   * inset 10, and for the empty rectangle: equal offsets on the square, the
   * larger offset on the shorter side's axis, zero on the empty rectangle.
   */
  lemma InsetsExamples(diagonal: real)
    ensures IsDiagonal(Rectangle(0.0, 0.0, 100.0, 100.0), diagonal) ==>
      Insets(Rectangle(0.0, 0.0, 100.0, 100.0), 10.0, diagonal) == Point(diagonal / 10.0, diagonal / 10.0)
    ensures IsDiagonal(Rectangle(0.0, 0.0, 100.0, 200.0), diagonal) ==>
      Insets(Rectangle(0.0, 0.0, 100.0, 200.0), 10.0, diagonal) == Point(diagonal / 20.0, diagonal / 10.0)
    ensures IsDiagonal(Rectangle(0.0, 0.0, 200.0, 100.0), diagonal) ==>
      Insets(Rectangle(0.0, 0.0, 200.0, 100.0), 10.0, diagonal) == Point(diagonal / 10.0, diagonal / 20.0)
    ensures IsDiagonal(Rectangle(0.0, 0.0, 0.0, 0.0), diagonal) ==>
      Insets(Rectangle(0.0, 0.0, 0.0, 0.0), 10.0, diagonal) == Zero
  {
  }

  /** The four vertices of a rhombus outline. */
  datatype Rhombus = Rhombus(left: Point, top: Point, right: Point, bottom: Point)

  /** The midpoints of the four sides of a rectangle. */
  function SideMidpoints(rect: Rect): Rhombus {
    Rhombus(Point(rect.MinX(), rect.MidY()), Point(rect.MidX(), rect.MinY()),
            Point(rect.MaxX(), rect.MidY()), Point(rect.MidX(), rect.MaxY()))
  }

  /**
   * Scaled depth of point (at horizontal distance dx from the nearer vertical
   * side and vertical distance dy from the nearer horizontal side) beneath the
   * edge of the un-inset rhombus that cuts that corner. The edge's normal is
   * (height, width) whose length is the diagonal, so the Euclidean distance is
   * this value divided by the diagonal.
   */
  function EdgeDepth(rect: Rect, dx: real, dy: real): real {
    rect.height * dx + rect.width * dy - rect.width * rect.height / 2.0
  }

  /** A rhombus (diamond) drawn within its rectangle, its vertices on the side midpoints. */
  datatype Diamond = Diamond(insetAmount: real) {

    /** A copy with the inset amount increased by `amount`; this value is unchanged. */
    function InsetBy(amount: real): (s: Diamond)
      ensures s.insetAmount == insetAmount + amount
    {
      this.(insetAmount := insetAmount + amount)
    }

    /**
     * The vertices of the outline: left and right on the horizontal mid line,
     * top and bottom on the vertical mid line, placed symmetrically about the
     * centre and pulled in from the sides by the offsets.
     */
    function Vertices(rect: Rect, diagonal: real): (v: Rhombus)
      requires IsDiagonal(rect, diagonal)
      ensures v.left.y == rect.MidY() && v.right.y == rect.MidY()
      ensures v.top.x == rect.MidX() && v.bottom.x == rect.MidX()
      ensures v.left.x + v.right.x == rect.MinX() + rect.MaxX()
      ensures v.top.y + v.bottom.y == rect.MinY() + rect.MaxY()
      ensures v.left.x - rect.MinX() == Insets(rect, insetAmount, diagonal).x
      ensures v.top.y - rect.MinY() == Insets(rect, insetAmount, diagonal).y
      ensures insetAmount == 0.0 || rect.width == 0.0 || rect.height == 0.0 ==> v == SideMidpoints(rect)
    {
      var insets := Insets(rect, insetAmount, diagonal);
      Rhombus(Point(rect.MinX() + insets.x, rect.MidY()), Point(rect.MidX(), rect.MinY() + insets.y),
              Point(rect.MaxX() - insets.x, rect.MidY()), Point(rect.MidX(), rect.MaxY() - insets.y))
    }

    /**
     * The outline: one closed subpath visiting left, top, right and bottom,
     * five commands whatever the inset.
     */
    function PathIn(rect: Rect, diagonal: real): (p: Path)
      requires IsDiagonal(rect, diagonal)
      ensures |p| == 5 && p[0].MoveTo? && p[1].LineTo? && p[2].LineTo? && p[3].LineTo?
      ensures p[4] == CloseSubpath
      ensures var v := Vertices(rect, diagonal);
        p[0].point == v.left && p[1].point == v.top && p[2].point == v.right && p[3].point == v.bottom
    {
      var v := Vertices(rect, diagonal);
      [MoveTo(v.left), LineTo(v.top), LineTo(v.right), LineTo(v.bottom), CloseSubpath]
    }
  }

  /** With no inset, the outline in a 100 x 100 square visits (0, 50), (50, 0), (100, 50), (50, 100). */
  lemma DiamondSquarePath(diagonal: real)
    requires IsDiagonal(Rectangle(0.0, 0.0, 100.0, 100.0), diagonal)
    ensures Diamond(0.0).PathIn(Rectangle(0.0, 0.0, 100.0, 100.0), diagonal) ==
      [ MoveTo(Point(0.0, 50.0)), LineTo(Point(50.0, 0.0)), LineTo(Point(100.0, 50.0)),
        LineTo(Point(50.0, 100.0)), CloseSubpath ]
  {
  }

  /** `inset(by: 0)` gives back the same diamond. */
  lemma DiamondInsetByZero(d: Diamond)
    ensures d.InsetBy(0.0) == d
  {
  }

  /** Two successive insets add up. */
  lemma DiamondInsetByTwice(d: Diamond, a: real, b: real)
    ensures d.InsetBy(a).InsetBy(b) == d.InsetBy(a + b)
  {
  }

  /**
   * Every edge of the inset outline runs parallel to the matching edge of the
   * un-inset rhombus at depth insetAmount * diagonal, that is at Euclidean
   * distance insetAmount: a stroke of width 2 * insetAmount centred on the
   * inset outline touches the un-inset one, whatever the aspect ratio.
   */
  lemma DiamondEdgesAtInsetDistance(d: Diamond, rect: Rect, diagonal: real)
    requires IsDiagonal(rect, diagonal) && rect.width > 0.0 && rect.height > 0.0
    ensures var v, a := d.Vertices(rect, diagonal), d.insetAmount * diagonal;
      // upper-left edge, from left to top
      && EdgeDepth(rect, v.left.x - rect.MinX(), v.left.y - rect.MinY()) == a
      && EdgeDepth(rect, v.top.x - rect.MinX(), v.top.y - rect.MinY()) == a
      // upper-right edge, from top to right
      && EdgeDepth(rect, rect.MaxX() - v.top.x, v.top.y - rect.MinY()) == a
      && EdgeDepth(rect, rect.MaxX() - v.right.x, v.right.y - rect.MinY()) == a
      // lower-right edge, from right to bottom
      && EdgeDepth(rect, rect.MaxX() - v.right.x, rect.MaxY() - v.right.y) == a
      && EdgeDepth(rect, rect.MaxX() - v.bottom.x, rect.MaxY() - v.bottom.y) == a
      // lower-left edge, from bottom to left
      && EdgeDepth(rect, v.bottom.x - rect.MinX(), rect.MaxY() - v.bottom.y) == a
      && EdgeDepth(rect, v.left.x - rect.MinX(), rect.MaxY() - v.left.y) == a
  {
    var p := Insets(rect, d.insetAmount, diagonal);
    assert rect.height * p.x == d.insetAmount * diagonal;
    assert rect.width * p.y == d.insetAmount * diagonal;
  }

  /**
   * The inset outline keeps its orientation (left of right, top above bottom)
   * exactly while 2 * insetAmount * diagonal <= width * height; both axes fold
   * over at the same inset.
   */
  lemma DiamondNotInverted(d: Diamond, rect: Rect, diagonal: real)
    requires IsDiagonal(rect, diagonal) && rect.width > 0.0 && rect.height > 0.0
    ensures var v := d.Vertices(rect, diagonal);
      v.left.x <= v.right.x <==> 2.0 * d.insetAmount * diagonal <= rect.width * rect.height
    ensures var v := d.Vertices(rect, diagonal);
      v.top.y <= v.bottom.y <==> 2.0 * d.insetAmount * diagonal <= rect.width * rect.height
  {
    var p := Insets(rect, d.insetAmount, diagonal);
    ScaleCompare(p.x, rect.width / 2.0, rect.height);
    ScaleCompare(p.y, rect.height / 2.0, rect.width);
  }

  /** Multiplying both sides by a positive factor keeps the comparison. */
  lemma ScaleCompare(a: real, b: real, c: real)
    requires c > 0.0
    ensures a <= b <==> a * c <= b * c
  {
    if a <= b {
      assert (b - a) * c >= 0.0;
    } else {
      assert (a - b) * c > 0.0;
    }
  }

  /** Moving the rectangle moves every vertex of the diamond by the same amount. */
  lemma DiamondTranslated(d: Diamond, rect: Rect, diagonal: real, dx: real, dy: real)
    requires IsDiagonal(rect, diagonal)
    ensures IsDiagonal(rect.Translated(dx, dy), diagonal)
    ensures var v, u := d.Vertices(rect, diagonal), d.Vertices(rect.Translated(dx, dy), diagonal);
      && u.left == Point(v.left.x + dx, v.left.y + dy)
      && u.top == Point(v.top.x + dx, v.top.y + dy)
      && u.right == Point(v.right.x + dx, v.right.y + dy)
      && u.bottom == Point(v.bottom.x + dx, v.bottom.y + dy)
  {
  }

  /** An open, tilde-like curve drawn within its rectangle. */
  datatype Squiggle = Squiggle(insetAmount: real) {

    /** A copy with the inset amount increased by `amount`; this value is unchanged. */
    function InsetBy(amount: real): (s: Squiggle)
      ensures s.insetAmount == insetAmount + amount
    {
      this.(insetAmount := insetAmount + amount)
    }

    /**
     * The outline: two subpaths, each one cubic curve. The first runs from
     * the lower-left end to the upper-right end, the second runs back. The
     * ends are pulled in horizontally by exactly the inset amount, with no
     * correction for the aspect ratio. The control points' x values are
     * fixed fractions of the width, not offset by the rectangle's origin.
     */
    function PathIn(rect: Rect): (p: Path)
      ensures |p| == 4 && p[0].MoveTo? && p[1].CurveTo? && p[2].MoveTo? && p[3].CurveTo?
      ensures p[0].point == Point(rect.MinX() + insetAmount, rect.MaxY())
      ensures p[2].point == Point(rect.MaxX() - insetAmount, rect.MinY())
      ensures p[1].to == p[2].point && p[3].to == p[0].point
      ensures p[1].control1 == Point(rect.width * 0.25, rect.MinY() - rect.height + 2.0 * insetAmount)
      ensures p[1].control2 == Point(rect.width * 0.75, rect.MaxY() + insetAmount)
      ensures p[3].control1 == Point(rect.width * 0.75, rect.MaxY() + rect.height - 2.0 * insetAmount)
      ensures p[3].control2 == Point(rect.width * 0.25, rect.MinY() - insetAmount)
    {
      var left := Point(rect.MinX() + insetAmount, rect.MaxY());
      var right := Point(rect.MaxX() - insetAmount, rect.MinY());
      [ MoveTo(left),
        CurveTo(right, Point(rect.width * 0.25, rect.MinY() - rect.height + insetAmount * 2.0),
                       Point(rect.width * 0.75, rect.MaxY() + insetAmount)),
        MoveTo(right),
        CurveTo(left, Point(rect.width * 0.75, rect.MaxY() + rect.height - insetAmount * 2.0),
                      Point(rect.width * 0.25, rect.MinY() - insetAmount)) ]
    }
  }

  /** `inset(by: 0)` gives back the same squiggle. */
  lemma SquiggleInsetByZero(s: Squiggle)
    ensures s.InsetBy(0.0) == s
  {
  }

  /** Two successive insets add up. */
  lemma SquiggleInsetByTwice(s: Squiggle, a: real, b: real)
    ensures s.InsetBy(a).InsetBy(b) == s.InsetBy(a + b)
  {
  }

  /** The point reflection of q through c (a half turn about c). */
  function HalfTurn(q: Point, c: Point): Point {
    Point(2.0 * c.x - q.x, 2.0 * c.y - q.y)
  }

  /**
   * The second curve of a squiggle path is the first one turned by half a turn
   * about the rectangle's centre (same end points swapped, control points
   * reflected), exactly when the rectangle's origin has x == 0. Elsewhere the
   * control points, which ignore the origin, break the symmetry.
   */
  lemma SquiggleHalfTurnSymmetric(s: Squiggle, rect: Rect)
    ensures var p, c := s.PathIn(rect), Point(rect.MidX(), rect.MidY());
      (&& p[2].point == HalfTurn(p[0].point, c)
       && p[3].to == HalfTurn(p[1].to, c)
       && p[3].control1 == HalfTurn(p[1].control1, c)
       && p[3].control2 == HalfTurn(p[1].control2, c))
      <==> rect.x == 0.0
  {
  }

  /**
   * Squiggle and Diamond treat the inset differently: the squiggle's ends move
   * in by exactly the inset amount, while for a rectangle larger than a point
   * the diamond's left vertex moves in by insetAmount * diagonal / height.
   */
  lemma SquiggleInsetUncorrected(s: Squiggle, rect: Rect, diagonal: real)
    requires IsDiagonal(rect, diagonal)
    ensures s.PathIn(rect)[0].point.x - rect.MinX() == s.insetAmount
    ensures rect.MaxX() - s.PathIn(rect)[2].point.x == s.insetAmount
    ensures rect.width != 0.0 && rect.height != 0.0 ==>
      (Diamond(s.insetAmount).Vertices(rect, diagonal).left.x - rect.MinX()) * rect.height
        == s.insetAmount * diagonal
  {
  }
}
