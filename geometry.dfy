/** Chambers on the canvas and the lab's clamping helper. */
module Geometry {

  /** An axis-aligned chamber: top-left corner (x, y), width w, height h. */
  datatype Box = Box(x: real, y: real, w: real, h: real)

  function Abs(v: real): real {
    if v < 0.0 then -v else v
  }

  /** `clamp(v, a, b)`, that is `Math.max(a, Math.min(b, v))`. */
  function Clamp(v: real, a: real, b: real): (r: real)
    ensures a <= r
    ensures a <= b ==> r <= b
    ensures a <= v <= b ==> r == v
    ensures v <= a ==> r == a
    ensures a <= b <= v ==> r == b
  {
    var low := if v < b then v else b;
    if a < low then low else a
  }
}
