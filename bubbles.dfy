/** The CO2 bubbles: released by a conversion, rising, aged and pruned every tick. */
module Bubbles {
  import opened Chance

  /** One bubble object of `co2Bubbles`. */
  datatype Bubble = Bubble(x: real, y: real, r: real, vy: real, life: real)

  /** Seconds a new bubble lives. */
  const BUBBLE_LIFE: real := 1.2

  /** The three draws for one bubble: horizontal offset, radius, rising speed. */
  datatype PuffDraw = PuffDraw(ux: real, ur: real, uvy: real)

  predicate UnitPuff(d: PuffDraw) {
    Unit(d.ux) && Unit(d.ur) && Unit(d.uvy)
  }

  /** One bubble released at (x, y) by `co2Burst`. */
  function Puff(x: real, y: real, d: PuffDraw): (b: Bubble)
    requires UnitPuff(d)
    ensures b.y == y && b.life == BUBBLE_LIFE
    ensures x - 6.0 <= b.x < x + 6.0 && 2.0 <= b.r < 4.0
    ensures -35.0 <= b.vy < -20.0
  {
    Bubble(x + Rnd(d.ux, -6.0, 6.0), y, Rnd(d.ur, 2.0, 4.0), Rnd(d.uvy, -35.0, -20.0), BUBBLE_LIFE)
  }

  /** The bubbles released at (x, y), one per draw. */
  function Puffs(x: real, y: real, ds: seq<PuffDraw>): seq<Bubble>
    requires forall k :: 0 <= k < |ds| ==> UnitPuff(ds[k])
  {
    seq(|ds|, k requires 0 <= k < |ds| && UnitPuff(ds[k]) => Puff(x, y, ds[k]))
  }

  /** A bubble after `dt` seconds: risen by `vy * dt`, its life shortened by `dt`. */
  function Aged(b: Bubble, dt: real): Bubble {
    b.(y := b.y + b.vy * dt, life := b.life - dt)
  }

  /** A bubble stays while it has life left and has not risen above the cut-off line `floor`. */
  predicate Survives(b: Bubble, floor: real) {
    b.life > 0.0 && b.y >= floor
  }

  /** The aged bubbles of `s` that survive, in their original order. */
  function Pruned(s: seq<Bubble>, dt: real, floor: real): seq<Bubble> {
    if s == [] then []
    else
      var b := Aged(s[0], dt);
      (if Survives(b, floor) then [b] else []) + Pruned(s[1..], dt, floor)
  }

  /** The positions in `s` of the bubbles that survive ageing, in increasing order. */
  function KeptIndices(s: seq<Bubble>, dt: real, floor: real): seq<nat> {
    if s == [] then []
    else
      (if Survives(Aged(s[0], dt), floor) then [0] else []) +
      Shift(KeptIndices(s[1..], dt, floor))
  }

  /** Every position of `ks` moved one place on. */
  function Shift(ks: seq<nat>): seq<nat> {
    seq(|ks|, k requires 0 <= k < |ks| => ks[k] + 1)
  }

  /** Every bubble that pruning keeps is alive and below the cut-off line. */
  lemma {:induction false} PrunedSurvive(s: seq<Bubble>, dt: real, floor: real)
    ensures |Pruned(s, dt, floor)| <= |s|
    ensures forall b :: b in Pruned(s, dt, floor) ==> Survives(b, floor)
  {
    if s != [] {
      PrunedSurvive(s[1..], dt, floor);
    }
  }

  /** The k-th survivor is the aged bubble at the k-th kept position. */
  lemma {:induction false} KeptMatchesPruned(s: seq<Bubble>, dt: real, floor: real)
    ensures |KeptIndices(s, dt, floor)| == |Pruned(s, dt, floor)|
    ensures forall k :: 0 <= k < |KeptIndices(s, dt, floor)| ==>
              KeptIndices(s, dt, floor)[k] < |s| &&
              Pruned(s, dt, floor)[k] == Aged(s[KeptIndices(s, dt, floor)[k]], dt)
  {
    if s != [] {
      var tail := s[1..];
      KeptMatchesPruned(tail, dt, floor);
      var kt, pt := KeptIndices(tail, dt, floor), Pruned(tail, dt, floor);
      var ks, ps := KeptIndices(s, dt, floor), Pruned(s, dt, floor);
      var b := Aged(s[0], dt);
      var sh := Shift(kt);
      forall k | 0 <= k < |kt|
        ensures sh[k] < |s| && pt[k] == Aged(s[sh[k]], dt)
      {
        assert tail[kt[k]] == s[kt[k] + 1];
      }
      if Survives(b, floor) {
        assert ks == [0] + sh && ps == [b] + pt;
      } else {
        assert ks == sh && ps == pt;
      }
    }
  }

  /** Kept positions are strictly increasing: survivors keep their relative order. */
  lemma {:induction false} KeptIncreasing(s: seq<Bubble>, dt: real, floor: real)
    ensures forall k, l :: 0 <= k < l < |KeptIndices(s, dt, floor)| ==>
              KeptIndices(s, dt, floor)[k] < KeptIndices(s, dt, floor)[l]
  {
    if s != [] {
      KeptIncreasing(s[1..], dt, floor);
    }
  }

  /** A position is kept exactly when the bubble there survives ageing. */
  lemma {:induction false} KeptExactly(s: seq<Bubble>, dt: real, floor: real)
    ensures forall i :: 0 <= i < |s| ==>
              (i in KeptIndices(s, dt, floor) <==> Survives(Aged(s[i], dt), floor))
  {
    if s != [] {
      var tail := s[1..];
      KeptExactly(tail, dt, floor);
      var kt := KeptIndices(tail, dt, floor);
      var shifted := Shift(kt);
      var head: seq<nat> := if Survives(Aged(s[0], dt), floor) then [0] else [];
      assert KeptIndices(s, dt, floor) == head + shifted;
      assert forall j :: j in shifted ==> j > 0;
      forall i | 0 < i < |s|
        ensures i in shifted <==> (i - 1) in kt
      {
        if i - 1 in kt {
          var k :| 0 <= k < |kt| && kt[k] == i - 1;
          assert shifted[k] == i;
        }
      }
      forall i | 0 < i < |s|
        ensures s[i] == tail[i - 1]
      {
      }
    }
  }
}
