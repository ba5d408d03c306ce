/** Points and line segments in surface coordinates, shared by the scene, the
    cropper and the generation loop. */
module Geometry {

  datatype Point = Point(x: real, y: real)

  /** A straight line segment as produced by the line-selection engine. */
  datatype Segment = Segment(p1: Point, p2: Point)

  /** The point a fraction `t` of the way from `a` to `b`. */
  function Lerp(a: Point, b: Point, t: real): Point
  {
    Point(a.x + (b.x - a.x) * t, a.y + (b.y - a.y) * t)
  }

  function Max(a: real, b: real): real { if a >= b then a else b }

  /** A value drawn by `Math.random()`: in [0, 1). */
  predicate UnitDraw(r: real) { 0.0 <= r < 1.0 }
}
