/**
 * The vertical stripe pattern: `NumberOfStripes + 1` vertical lines evenly
 * spaced across a view of the given size, stroked at half their spacing so
 * that stripes and gaps have the same width.
 */
module StripedShapes {
  import opened Geometry

  const NumberOfStripes: nat := 8

  /** Horizontal distance between neighbouring lines. */
  function Step(width: real): real {
    width / NumberOfStripes as real
  }

  /** The x position of line n. */
  function StripeX(width: real, n: int): real {
    n as real * Step(width)
  }

  /**
   * Command i of the stripe path: even commands start line i / 2 at the top
   * edge, odd ones finish it at the bottom edge.
   */
  function StripeCommand(width: real, height: real, i: nat): PathCommand {
    var x := StripeX(width, i / 2);
    if i % 2 == 0 then MoveTo(Point(x, 0.0)) else LineTo(Point(x, height))
  }

  /**
   * The stripe view's body for a view of size width x height: the path of
   * vertical lines, one for each n in 0 ... NumberOfStripes (both ends
   * included), and the width it is stroked with.
   */
  method Stripes(width: real, height: real) returns (path: Path, lineWidth: real)
    ensures |path| == 2 * (NumberOfStripes + 1)
    ensures forall i | 0 <= i < |path| :: path[i] == StripeCommand(width, height, i)
    ensures lineWidth * 2.0 * NumberOfStripes as real == width
  {
    var step := width / NumberOfStripes as real;
    var stripeWidth := step / 2.0;
    var y := height;
    path := [];
    for n := 0 to NumberOfStripes + 1
      invariant |path| == 2 * n
      invariant forall i | 0 <= i < |path| :: path[i] == StripeCommand(width, height, i)
    {
      var xn := n as real * step;
      StripeSegment(width, height, n);
      path := path + [MoveTo(Point(xn, 0.0)), LineTo(Point(xn, y))];
    }
    lineWidth := stripeWidth;
  }

  /**
   * Commands 2n and 2n + 1 form line n: a vertical segment at StripeX(n) from
   * the top edge (y == 0) to the bottom edge (y == height).
   */
  lemma StripeSegment(width: real, height: real, n: nat)
    ensures StripeCommand(width, height, 2 * n) == MoveTo(Point(StripeX(width, n), 0.0))
    ensures StripeCommand(width, height, 2 * n + 1) == LineTo(Point(StripeX(width, n), height))
  {
  }

  /** The first line is on the left edge and the last on the right edge. */
  lemma StripesSpanWidth(width: real)
    ensures StripeX(width, 0) == 0.0
    ensures StripeX(width, NumberOfStripes) == width
  {
  }

  /** Neighbouring lines are exactly one step apart. */
  lemma StripesEvenlySpaced(width: real, n: int)
    ensures StripeX(width, n + 1) - StripeX(width, n) == Step(width)
  {
  }

  /** On a view of positive width the lines run strictly from left to right. */
  lemma StripesIncreasing(width: real, m: int, n: int)
    requires width > 0.0 && m < n
    ensures StripeX(width, m) < StripeX(width, n)
  {
    MulPositive((n - m) as real, Step(width));
    assert StripeX(width, n) - StripeX(width, m) == (n - m) as real * Step(width);
  }

  /** The stroke is half a step wide: width / (2 * NumberOfStripes). */
  lemma StripeWidthIsHalfStep(width: real)
    ensures Step(width) / 2.0 == width / (2.0 * NumberOfStripes as real)
  {
  }
}
