/**
 * The Core Graphics value types the tracker computes with. `CGFloat` is
 * modelled as `real`: floating-point rounding is not part of this model.
 */
module Geometry {

  datatype Point = Point(x: real, y: real)

  datatype Size = Size(width: real, height: real)

  /** A mouse delta (Core Graphics hands it over as a `CGPoint`). */
  datatype Delta = Delta(dx: real, dy: real)

  /** A length, the type of `Delta.magnitude`: never negative. */
  type Length = r: real | 0.0 <= r

  /** `CGPoint.zero`. */
  const ZeroPoint := Point(0.0, 0.0)

  /** A delta that moves nothing. */
  const NoMotion := Delta(0.0, 0.0)

  function Abs(r: real): (a: real)
    ensures 0.0 <= a && (a == r || a == -r)
  {
    if r < 0.0 then -r else r
  }

  /** `point += delta`. */
  function Offset(p: Point, d: Delta): Point
  {
    Point(p.x + d.dx, p.y + d.dy)
  }

  /** `size += delta`: the delta is added to width and height. */
  function Grow(s: Size, d: Delta): Size
  {
    Size(s.width + d.dx, s.height + d.dy)
  }

  function Combine(a: Delta, b: Delta): Delta
  {
    Delta(a.dx + b.dx, a.dy + b.dy)
  }

  function Area(s: Size): real
  {
    s.width * s.height
  }
}
