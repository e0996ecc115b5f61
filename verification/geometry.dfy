/**
 Plane geometry of the drawing surface. The trigonometric functions and
 the constant pi are supplied by the caller as `Trig`: nothing proved
 about the trees depends on their values, so they stay uninterpreted.
 */
module Geometry {

  datatype Point = Point(x: real, y: real)

  datatype Trig = Trig(cos: real -> real, sin: real -> real, pi: real)

  /** The far end of a segment of length `len` leaving `start` at `angle`. */
  function EndPoint(trig: Trig, start: Point, angle: real, len: real): Point {
    Point(start.x + trig.cos(angle) * len, start.y + trig.sin(angle) * len)
  }

  function Midpoint(a: Point, b: Point): Point {
    Point((a.x + b.x) / 2.0, (a.y + b.y) / 2.0)
  }
}
