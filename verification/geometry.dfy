/** Canvas coordinates and the small amount of arithmetic the pages share.
    Numbers are reals: rounding of the platform's doubles is not modelled. */
module Geometry {

  /** Width and height of the photo-strip canvas, in canvas pixels. */
  const WIDTH: real := 1176.0
  const HEIGHT: real := 1470.0
  /** Height of one half of the strip (one photo). */
  const HALF: real := HEIGHT / 2.0

  datatype Point = Point(x: real, y: real)

  /** An axis-aligned rectangle: top-left corner and size. */
  datatype Rect = Rect(x: real, y: real, w: real, h: real)

  /** `Math.min` on two finite numbers. */
  function Min(a: real, b: real): (r: real)
    ensures r <= a && r <= b
    ensures r == a || r == b
  {
    if a <= b then a else b
  }

  /** `Math.max` on two finite numbers. */
  function Max(a: real, b: real): (r: real)
    ensures r >= a && r >= b
    ensures r == a || r == b
  {
    if a >= b then a else b
  }

  function Abs(a: real): (r: real)
    ensures r >= 0.0
    ensures r == a || r == -a
  {
    if a < 0.0 then -a else a
  }

  /** `Math.max(lo, Math.min(hi, v))`, the clamp idiom the pages use. */
  function Clamp(lo: real, hi: real, v: real): (r: real)
    ensures lo <= hi ==> lo <= r <= hi
    ensures lo <= v <= hi ==> r == v
    ensures v < lo ==> r == lo
    ensures lo <= hi && hi < v ==> r == hi
  {
    Max(lo, Min(hi, v))
  }
}
