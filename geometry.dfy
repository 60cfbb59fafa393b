// The CoreGraphics value types the resize code works with (CGSize, CGPoint,
// CGRect), over exact reals instead of floating point.
module Geometry {

  datatype Size = Size(width: real, height: real)

  datatype Point = Point(x: real, y: real)

  datatype Rect = Rect(origin: Point, size: Size)

  /** Both dimensions strictly positive. */
  predicate IsPositive(s: Size) {
    s.width > 0.0 && s.height > 0.0
  }

  /** Swift's `min`: the second argument when it is smaller, else the first. */
  function Min(a: real, b: real): (r: real)
    ensures r <= a && r <= b
    ensures r == a || r == b
  {
    if b < a then b else a
  }

  /** Swift's `max`: the second argument when it is not smaller, else the first. */
  function Max(a: real, b: real): (r: real)
    ensures r >= a && r >= b
    ensures r == a || r == b
  {
    if b >= a then b else a
  }

  /** Two sizes have the same aspect ratio (stated without division). */
  predicate SameAspect(a: Size, b: Size) {
    a.width * b.height == a.height * b.width
  }

  /**
   * `CGSizeApplyAffineTransform` of a uniform `CGAffineTransformMakeScale`:
   * both sides multiplied by the same ratio, which keeps the aspect ratio.
   */
  function Scaled(size: Size, ratio: real): (r: Size)
    ensures SameAspect(r, size)
  {
    assert (size.width * ratio) * size.height == (size.height * ratio) * size.width;
    Size(size.width * ratio, size.height * ratio)
  }

  /** The size with width and height exchanged. */
  function Swapped(s: Size): Size {
    Size(s.height, s.width)
  }

  /** Point `p` lies in the closed rectangle `r` (whose size is non-negative). */
  predicate InRect(p: Point, r: Rect) {
    r.origin.x <= p.x <= r.origin.x + r.size.width &&
    r.origin.y <= p.y <= r.origin.y + r.size.height
  }

  /** The rectangle at the origin with the given size: a canvas of that size. */
  function Bounds(s: Size): Rect {
    Rect(Point(0.0, 0.0), s)
  }
}
