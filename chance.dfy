/** The lab's random draws. Every `Math.random()` value is passed in as a unit draw. */
module Chance {

  /** What `Math.random()` can return: a number in [0, 1). */
  predicate Unit(u: real) {
    0.0 <= u < 1.0
  }

  /** A unit draw scales a non-negative span into [0, span], strictly below a positive span. */
  lemma ScaleBounds(u: real, span: real)
    requires Unit(u) && 0.0 <= span
    ensures 0.0 <= u * span <= span
    ensures 0.0 < span ==> u * span < span
  {
    assert 0.0 <= u * span;
    assert u * span == span - (1.0 - u) * span;
    if 0.0 < span {
      assert (1.0 - u) * span > 0.0;
    }
  }

  /** `rnd(lo, hi)`: the unit draw `u` stretched onto [lo, hi). */
  function Rnd(u: real, lo: real, hi: real): (r: real)
    ensures Unit(u) && lo <= hi ==> lo <= r <= hi
    ensures Unit(u) && lo < hi ==> r < hi
  {
    var span := hi - lo;
    var offset := u * span;
    assert Unit(u) && lo <= hi ==> 0.0 <= offset <= span && (lo < hi ==> offset < span) by {
      if Unit(u) && lo <= hi {
        ScaleBounds(u, span);
      }
    }
    offset + lo
  }

  /** `Math.floor(rnd(1, 3))`: how many CO2 bubbles one conversion releases. */
  function BurstSize(u: real): (n: int)
    ensures Unit(u) ==> n == 1 || n == 2
  {
    Rnd(u, 1.0, 3.0).Floor
  }
}
