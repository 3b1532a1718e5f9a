/**
 * Placement of a label: the configuration gives each element's position
 * and size as fractions of the window, and the UI turns them into pixel
 * bounds with Java's `(int)` cast of a `double`. Doubles are idealised as
 * reals here.
 */
module Layout {
  import opened JavaLang

  /** Fractions of the window's width and height, as read from the element. */
  datatype Geometry = Geometry(left: real, top: real, width: real, height: real)

  datatype Bounds = Bounds(x: int, y: int, w: int, h: int)

  /** Rounding toward zero. */
  function Trunc(r: real): (t: int)
    ensures 0.0 <= r ==> 0 <= t && t as real <= r < t as real + 1.0
    ensures r < 0.0 ==> t <= 0 && t as real - 1.0 < r <= t as real
  {
    if r >= 0.0 then r.Floor else -((-r).Floor)
  }

  /** Java's narrowing `(int)` of a `double`: truncate, then saturate at the `int` limits. */
  function NarrowToInt(r: real): (n: int)
    ensures InInt(n)
    ensures InInt(Trunc(r)) ==> n == Trunc(r)
    ensures Trunc(r) < MIN_INT ==> n == MIN_INT
    ensures Trunc(r) > MAX_INT ==> n == MAX_INT
  {
    var t := Trunc(r);
    if t < MIN_INT then MIN_INT else if t > MAX_INT then MAX_INT else t
  }

  /** `fraction * side` as the `double` product `setSize` forms. */
  function Scale(fraction: real, side: int): real {
    fraction * side as real
  }

  /** The bounds `setSize` gives a label in a window of `width` by `height` pixels. */
  function PixelBounds(g: Geometry, width: int, height: int): (b: Bounds)
    ensures InInt(b.x) && InInt(b.y) && InInt(b.w) && InInt(b.h)
  {
    Bounds(
      NarrowToInt(Scale(g.left, width)),
      NarrowToInt(Scale(g.top, height)),
      NarrowToInt(Scale(g.width, width)),
      NarrowToInt(Scale(g.height, height)))
  }

  predicate IsFraction(f: real) {
    0.0 <= f <= 1.0
  }

  lemma ScaleFraction(f: real, side: int)
    requires IsFraction(f) && 0 <= side
    ensures 0.0 <= Scale(f, side) <= side as real
  {
    var s := side as real;
    assert s - f * s == (1.0 - f) * s;
  }

  lemma ScaleSum(f: real, g: real, side: int)
    ensures Scale(f + g, side) == Scale(f, side) + Scale(g, side)
  {
  }

  /** A span of at most `side` pixels narrows to an `int` between 0 and `side`. */
  lemma NarrowWithin(p: real, side: int)
    requires side <= MAX_INT
    requires 0.0 <= p
    requires p <= side as real
    ensures 0 <= NarrowToInt(p) <= side
    ensures NarrowToInt(p) as real <= p
  {
    var t := Trunc(p);
    assert t as real <= side as real;
  }

  /** Two adjacent spans, each rounded toward zero, stay within the side they share. */
  lemma AdjacentSpans(f: real, g: real, side: int)
    requires IsFraction(f) && IsFraction(g) && f + g <= 1.0 && 0 <= side <= MAX_INT
    ensures NarrowToInt(Scale(f, side)) + NarrowToInt(Scale(g, side)) <= side
  {
    ScaleFraction(f, side);
    ScaleFraction(g, side);
    ScaleFraction(f + g, side);
    ScaleSum(f, g, side);
    NarrowWithin(Scale(f, side), side);
    NarrowWithin(Scale(g, side), side);
  }

  /**
   * With fractional geometry every coordinate lands inside the window, and
   * an element that ends within the window (left + width <= 1) is not
   * pushed past its right edge by the rounding; likewise vertically.
   */
  lemma BoundsWithinWindow(g: Geometry, width: int, height: int)
    requires IsFraction(g.left) && IsFraction(g.top) && IsFraction(g.width) && IsFraction(g.height)
    requires 0 <= width <= MAX_INT && 0 <= height <= MAX_INT
    ensures var b := PixelBounds(g, width, height);
      && 0 <= b.x <= width && 0 <= b.w <= width
      && 0 <= b.y <= height && 0 <= b.h <= height
      && (g.left + g.width <= 1.0 ==> b.x + b.w <= width)
      && (g.top + g.height <= 1.0 ==> b.y + b.h <= height)
  {
    ScaleFraction(g.left, width);
    ScaleFraction(g.width, width);
    ScaleFraction(g.top, height);
    ScaleFraction(g.height, height);
    NarrowWithin(Scale(g.left, width), width);
    NarrowWithin(Scale(g.width, width), width);
    NarrowWithin(Scale(g.top, height), height);
    NarrowWithin(Scale(g.height, height), height);
    if g.left + g.width <= 1.0 {
      AdjacentSpans(g.left, g.width, width);
    }
    if g.top + g.height <= 1.0 {
      AdjacentSpans(g.top, g.height, height);
    }
  }
}
