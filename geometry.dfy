/**
 * Scene coordinates. manim works with 3-D points; every point the core
 * computes lies in the plane z = 0. Shapes are kept as plain data: a line
 * is its two endpoints, a text is its string and the point it is moved to.
 */
module Geometry {

  datatype Point = Point(x: real, y: real, z: real)

  /** A point of the drawing plane, `array([x, y, 0])`. */
  function Flat(x: real, y: real): (p: Point)
    ensures p.x == x && p.y == y && p.z == 0.0
  {
    Point(x, y, 0.0)
  }

  /** A 2-D point as callers write it, `(x, y)`. */
  datatype XY = XY(x: real, y: real)

  /** A pair of points `((x1, y1), (x2, y2))`, as passed to the constructors. */
  datatype EndPoints = EndPoints(first: XY, second: XY)

  /** A manim `Line` from `start` to `end`. */
  datatype Segment = Segment(start: Point, end: Point)

  /** A text mobject: its string and the point it was moved to. */
  datatype Label = Label(text: string, at: Point)

  function Abs(r: real): (a: real)
    ensures a >= 0.0 && (a == r || a == -r)
  {
    if r < 0.0 then -r else r
  }

  predicate IsVertical(s: Segment) {
    s.start.x == s.end.x
  }

  predicate IsHorizontal(s: Segment) {
    s.start.y == s.end.y
  }

  /** One more step of a running coordinate: `x0 + n*s` followed by `+ s`. */
  lemma StepForward(x0: real, n: int, s: real)
    ensures x0 + (n as real) * s + s == x0 + ((n + 1) as real) * s
  {
  }

  /** The same, walking downwards. */
  lemma StepBackward(y0: real, n: int, s: real)
    ensures y0 - (n as real) * s - s == y0 - ((n + 1) as real) * s
  {
  }

  /** Half a step past step `k` is the midpoint of step `k + 1`. */
  lemma HalfStep(x0: real, k: int, s: real)
    ensures x0 + (k as real) * s + s / 2.0 == x0 + ((k + 1) as real - 0.5) * s
  {
  }
}
