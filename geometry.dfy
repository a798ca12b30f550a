/**
 * Plane geometry shared by the shapes: points, standardized rectangles,
 * the rectangle's diagonal, and the commands a path is built from.
 *
 * Coordinates follow the toolkit's convention: y grows downwards, so
 * `MinY` is the top side of a rectangle and `MaxY` its bottom side.
 */
module Geometry {

  datatype Point = Point(x: real, y: real)

  /** The origin, the toolkit's `.zero` point. */
  const Zero := Point(0.0, 0.0)

  /** A rectangle given by its origin and its size. */
  datatype Rectangle = Rectangle(x: real, y: real, width: real, height: real) {

    function MinX(): real { x }
    function MidX(): real { x + width / 2.0 }
    function MaxX(): real { x + width }
    function MinY(): real { y }
    function MidY(): real { y + height / 2.0 }
    function MaxY(): real { y + height }

    /** The same rectangle moved by (dx, dy). */
    function Translated(dx: real, dy: real): Rectangle {
      Rectangle(x + dx, y + dy, width, height)
    }

    /** The rectangle with width and height exchanged, origin kept. */
    function Transposed(): Rectangle {
      Rectangle(x, y, height, width)
    }
  }

  /** A standardized rectangle: its size is never negative. */
  type Rect = r: Rectangle | r.width >= 0.0 && r.height >= 0.0
    witness Rectangle(0.0, 0.0, 0.0, 0.0)

  /**
   * `diagonal` is the square root of width^2 + height^2, the length of the
   * rectangle's diagonal. The square root itself is not computed here.
   */
  predicate IsDiagonal(rect: Rect, diagonal: real) {
    diagonal >= 0.0 && diagonal * diagonal == rect.width * rect.width + rect.height * rect.height
  }

  /** The non-negative square root is unique, so a model parameterised by it is well defined. */
  lemma DiagonalUnique(rect: Rect, d1: real, d2: real)
    requires IsDiagonal(rect, d1) && IsDiagonal(rect, d2)
    ensures d1 == d2
  {
    RootUnique(d1, d2, rect.width * rect.width + rect.height * rect.height);
  }

  /** Two non-negative square roots of the same number are equal. */
  lemma RootUnique(d1: real, d2: real, s: real)
    requires d1 >= 0.0 && d2 >= 0.0 && d1 * d1 == s && d2 * d2 == s
    ensures d1 == d2
  {
    DifferenceOfSquares(d1, d2);
    if d1 + d2 > 0.0 && d1 != d2 {
      if d2 - d1 > 0.0 {
        MulPositive(d2 - d1, d2 + d1);
      } else {
        MulPositive(d1 - d2, d2 + d1);
        DifferenceOfSquares(d2, d1);
      }
      assert false;
    }
  }

  /** The diagonal is at least as long as either side, and longer when the other side is not zero. */
  lemma DiagonalExceedsSides(rect: Rect, diagonal: real)
    requires IsDiagonal(rect, diagonal)
    ensures diagonal >= rect.width && diagonal >= rect.height
    ensures rect.width > 0.0 ==> diagonal > rect.height
    ensures rect.height > 0.0 ==> diagonal > rect.width
  {
    RootExceeds(rect.width, rect.height, diagonal);
    RootExceeds(rect.height, rect.width, diagonal);
  }

  /** A non-negative root of w * w + h * h is at least h, and more than h unless w is zero. */
  lemma RootExceeds(w: real, h: real, d: real)
    requires d >= 0.0 && h >= 0.0 && d * d == w * w + h * h
    ensures d >= h
    ensures w != 0.0 ==> d > h
  {
    if d < h {
      DifferenceOfSquares(h, d);
      MulNegative(d - h, d + h);
      SquareNonNegative(w);
      assert false;
    } else if d == h && w != 0.0 {
      assert w * w == 0.0;
      SquareZero(w);
      assert false;
    }
  }

  // Arithmetic helpers. Each states one fact about products of distinct
  // factors, which the solver handles better than facts about squares.

  lemma MulPositive(a: real, b: real)
    requires a > 0.0 && b > 0.0
    ensures a * b > 0.0
  {
  }

  lemma MulNegative(a: real, b: real)
    requires a < 0.0 && b > 0.0
    ensures a * b < 0.0
  {
  }

  lemma SquareNonNegative(a: real)
    ensures a * a >= 0.0
  {
  }

  lemma SquareZero(a: real)
    requires a * a == 0.0
    ensures a == 0.0
  {
    if a != 0.0 {
      QuotientOfSquare(a);
      assert false;
    }
  }

  lemma QuotientOfSquare(a: real)
    requires a != 0.0
    ensures (a * a) / a == a
  {
  }

  lemma DifferenceOfSquares(a: real, b: real)
    ensures (b - a) * (b + a) == b * b - a * a
  {
  }

  /** One drawing command of a path. */
  datatype PathCommand =
    | MoveTo(point: Point)
    | LineTo(point: Point)
    | CurveTo(to: Point, control1: Point, control2: Point)
    | CloseSubpath

  /** A path is the ordered sequence of commands that built it. */
  type Path = seq<PathCommand>
}
