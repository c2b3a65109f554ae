/**
 * recomputePathsFixed: the two decorative quadratic curves are derived from
 * the fixed reference size 860x300 only, never from the device.
 */
module Curves {
  import opened Wrappers
  import opened Geometry

  const REF_WIDTH: int := 860
  const REF_HEIGHT: int := 300

  /** Math.round: the nearest integer, halves rounding up. */
  function Round(x: real): (r: int)
    ensures x - 0.5 < r as real <= x + 0.5
  {
    (x + 0.5).Floor
  }

  function MaxInt(a: int, b: int): int { if a < b then b else a }
  function MinInt(a: int, b: int): int { if b < a then b else a }

  /** The five numbers the path data is built from. */
  datatype Layout = Layout(margin: int, topY: int, topCtrlY: int, bottomY: int, bottomCtrlY: int)

  /** The arithmetic of recomputePathsFixed on the reference constants. */
  function FixedLayout(): (l: Layout)
    ensures l == Layout(43, 156, -56, 234, 126)
  {
    var w := REF_WIDTH as real;
    var h := REF_HEIGHT as real;
    Layout(
      MaxInt(30, Round(w * 0.05)),
      MaxInt(52, Round(h * 0.52)),
      Round(h * 0.08) - 80,
      MinInt(REF_HEIGHT - 30, Round(h * 0.78)),
      Round(h * 0.42))
  }

  /** `M start Q control end`: a quadratic Bezier path. */
  datatype Quad = Quad(start: Point, control: Point, end: Point)

  /** The upper ("curve-top") and lower ("curve-bottom") paths. */
  datatype Paths = Paths(top: Quad, bottom: Quad)

  /** The two path definitions written for a layout. */
  function PathsOf(l: Layout): Paths {
    var w := REF_WIDTH as real;
    Paths(
      Quad(Point(l.margin as real, l.topY as real), Point(w / 2.0, l.topCtrlY as real),
           Point(w - l.margin as real, l.topY as real)),
      Quad(Point(l.margin as real, l.bottomY as real), Point(w / 2.0, l.bottomCtrlY as real),
           Point(w - l.margin as real, l.bottomY as real)))
  }

  /** Both endpoints at one height and the control point midway between them in x. */
  predicate SymmetricAbout(q: Quad, axis: real) {
    q.start.y == q.end.y && q.control.x == axis && q.start.x + q.end.x == 2.0 * axis
  }

  /**
   * recomputePathsFixed with its DOM guards: nothing is written unless the
   * svg root and both path elements exist. When they do, both curves run from
   * x = 43 to x = 817 and are symmetric about x = 430; the upper one bulges
   * up (its control point is above its ends), as does the lower one, whose
   * ends lie below the upper one's.
   */
  function RecomputePaths(svgPresent: bool, topPresent: bool, bottomPresent: bool): (r: Option<Paths>)
    ensures r.Some? <==> svgPresent && topPresent && bottomPresent
    ensures r.Some? ==> r.value == PathsOf(FixedLayout())
    ensures r.Some? ==>
      && SymmetricAbout(r.value.top, 430.0) && SymmetricAbout(r.value.bottom, 430.0)
      && r.value.top.start.x == r.value.bottom.start.x == 43.0
      && r.value.top.end.x == r.value.bottom.end.x == 817.0
      && r.value.top.control.y < r.value.top.start.y < r.value.bottom.start.y
      && r.value.bottom.control.y < r.value.bottom.start.y
  {
    if !svgPresent then None
    else if !topPresent || !bottomPresent then None
    else Some(PathsOf(FixedLayout()))
  }
}
