/** A value that may be absent. */
module Wrappers {
  datatype Option<+T> = None | Some(value: T)
}

/**
 * The browser geometry the placement reads: points and the rendered lower path.
 * The path's length and its point at a given arc length are browser queries
 * (getTotalLength, getPointAtLength); the model takes them as given.
 */
module Geometry {
  datatype Point = Point(x: real, y: real)

  /** A rendered path: its total arc length and the point at each arc length. */
  datatype Curve = Curve(totalLen: real, pointAt: real -> Point)

  /** Math.abs */
  function Abs(r: real): (a: real)
    ensures a >= 0.0 && (a == r || a == -r)
  {
    if r < 0.0 then -r else r
  }

  /** Math.max on two numbers */
  function Max(a: real, b: real): (m: real)
    ensures m >= a && m >= b && (m == a || m == b)
  {
    if a < b then b else a
  }

  /** Math.min on two numbers */
  function Min(a: real, b: real): (m: real)
    ensures m <= a && m <= b && (m == a || m == b)
  {
    if b < a then b else a
  }
}
