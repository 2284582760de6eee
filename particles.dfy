/** The particles of the lab: their lifecycle THCA -> converting -> THC, counting, motion. */
module Particles {
  import opened Geometry
  import opened Chance

  /** The molecule a particle stands for (`"THCA"` or `"THC"` in the page). */
  datatype Form = THCA | THC

  /** One particle object; the page updates its fields in place, the model writes a new value back. */
  datatype Particle = Particle(
    id: nat, x: real, y: real, vx: real, vy: real, r: real,
    state: Form, converting: bool)

  /** Where a particle is in its one-way lifecycle. */
  datatype Phase = Waiting | Migrating | Converted

  /** Waiting: THCA, not converting; Migrating: converting (still THCA); Converted: THC. */
  function PhaseOf(p: Particle): Phase {
    if p.state == THC then Converted
    else if p.converting then Migrating
    else Waiting
  }

  function Rank(ph: Phase): nat {
    match ph
    case Waiting => 0
    case Migrating => 1
    case Converted => 2
  }

  /** Number of particles of `s` in phase `ph`. */
  function Tally(s: seq<Particle>, ph: Phase): nat {
    if s == [] then 0
    else (if PhaseOf(s[0]) == ph then 1 else 0) + Tally(s[1..], ph)
  }

  /** Every particle is in exactly one phase, so the three tallies add up to the whole ensemble. */
  lemma {:induction false} Conservation(s: seq<Particle>)
    ensures Tally(s, Waiting) + Tally(s, Migrating) + Tally(s, Converted) == |s|
  {
    if s != [] {
      Conservation(s[1..]);
    }
  }

  /** Overwriting one particle moves it from its old phase's tally to its new phase's tally. */
  lemma {:induction false} TallyUpdate(s: seq<Particle>, i: nat, q: Particle, ph: Phase)
    requires i < |s|
    ensures Tally(s[i := q], ph) ==
            Tally(s, ph) - (if PhaseOf(s[i]) == ph then 1 else 0) + (if PhaseOf(q) == ph then 1 else 0)
  {
    if i == 0 {
      assert s[i := q][1..] == s[1..];
    } else {
      assert s[i := q][1..] == s[1..][i - 1 := q];
      TallyUpdate(s[1..], i - 1, q, ph);
    }
  }

  /** When every particle is in phase `ph`, the tally of `ph` is the whole ensemble and the others are empty. */
  lemma {:induction false} TallyUniform(s: seq<Particle>, ph: Phase, other: Phase)
    requires forall i :: 0 <= i < |s| ==> PhaseOf(s[i]) == ph
    requires other != ph
    ensures Tally(s, ph) == |s| && Tally(s, other) == 0
  {
    if s != [] {
      TallyUniform(s[1..], ph, other);
    }
  }

  /** Pointwise, no particle of `t` is behind the same particle of `s` in the lifecycle. */
  predicate Advanced(s: seq<Particle>, t: seq<Particle>) {
    |s| == |t| && forall i :: 0 <= i < |s| ==> Rank(PhaseOf(s[i])) <= Rank(PhaseOf(t[i]))
  }

  /** Pointwise, every particle of `t` is where it was in `s` or exactly one phase further on. */
  predicate OneStep(s: seq<Particle>, t: seq<Particle>) {
    Advanced(s, t) && forall i :: 0 <= i < |s| ==> Rank(PhaseOf(t[i])) <= Rank(PhaseOf(s[i])) + 1
  }

  /** Moving forward in the lifecycle never adds a waiting particle nor removes a converted one. */
  lemma {:induction false} AdvanceCounts(s: seq<Particle>, t: seq<Particle>)
    requires Advanced(s, t)
    ensures Tally(t, Waiting) <= Tally(s, Waiting)
    ensures Tally(s, Converted) <= Tally(t, Converted)
  {
    if s != [] {
      assert Rank(PhaseOf(s[0])) <= Rank(PhaseOf(t[0]));
      assert Advanced(s[1..], t[1..]) by {
        forall i | 0 <= i < |s| - 1
          ensures Rank(PhaseOf(s[1..][i])) <= Rank(PhaseOf(t[1..][i]))
        {
          assert s[1..][i] == s[i + 1] && t[1..][i] == t[i + 1];
        }
      }
      AdvanceCounts(s[1..], t[1..]);
    }
  }

  /** The stochastic step: a waiting particle whose draw succeeds starts converting. */
  function Decide(p: Particle, go: bool): (q: Particle)
    ensures PhaseOf(q) == if PhaseOf(p) == Waiting && go then Migrating else PhaseOf(p)
    ensures q == p.(converting := q.converting)
  {
    if PhaseOf(p) == Waiting && go then p.(converting := true) else p
  }

  /** The particle's disc lies inside the chamber. */
  predicate InBox(p: Particle, box: Box) {
    box.x + p.r <= p.x <= box.x + box.w - p.r &&
    box.y + p.r <= p.y <= box.y + box.h - p.r
  }

  /** The chamber is wide and tall enough for the particle's disc. */
  predicate Fits(p: Particle, box: Box) {
    2.0 * p.r <= box.w && 2.0 * p.r <= box.h
  }

  /** A waiting particle is in the left chamber, a converted one in the right, a migrating one in either. */
  predicate Placed(p: Particle, left: Box, right: Box) {
    match PhaseOf(p)
    case Waiting => InBox(p, left)
    case Migrating => InBox(p, left) || InBox(p, right)
    case Converted => InBox(p, right)
  }

  /** `keepInBox(p, box)`: push the disc back from each wall it crosses and reflect its velocity away from that wall. */
  method KeepInBox(p: Particle, box: Box) returns (q: Particle)
    ensures q == p.(x := q.x, y := q.y, vx := q.vx, vy := q.vy)
    ensures Abs(q.vx) == Abs(p.vx) && Abs(q.vy) == Abs(p.vy)
    ensures Fits(p, box) ==> InBox(q, box)
    ensures InBox(p, box) ==> q == p
    ensures box.x <= p.x - p.r && p.x + p.r <= box.x + box.w ==> q.x == p.x && q.vx == p.vx
    ensures box.y <= p.y - p.r && p.y + p.r <= box.y + box.h ==> q.y == p.y && q.vy == p.vy
    ensures Fits(p, box) && p.x - p.r < box.x ==> q.x == box.x + p.r && q.vx >= 0.0
    ensures Fits(p, box) && p.x + p.r > box.x + box.w ==> q.x == box.x + box.w - p.r && q.vx <= 0.0
    ensures Fits(p, box) && p.y - p.r < box.y ==> q.y == box.y + p.r && q.vy >= 0.0
    ensures Fits(p, box) && p.y + p.r > box.y + box.h ==> q.y == box.y + box.h - p.r && q.vy <= 0.0
  {
    q := p;
    if q.x - q.r < box.x {
      q := q.(x := box.x + q.r, vx := Abs(q.vx));
    }
    if q.x + q.r > box.x + box.w {
      q := q.(x := box.x + box.w - q.r, vx := -Abs(q.vx));
    }
    if q.y - q.r < box.y {
      q := q.(y := box.y + q.r, vy := Abs(q.vy));
    }
    if q.y + q.r > box.y + box.h {
      q := q.(y := box.y + box.h - q.r, vy := -Abs(q.vy));
    }
  }

  /**
   * One particle's step of the motion loop: jitter and cap the velocity, move, steer a
   * converting particle towards its slot in the right chamber and finalise it as THC once it
   * is past the gate, then keep it in the chamber of its phase. `ux`, `uy` are the jitter draws.
   */
  method Move(p: Particle, dt: real, viz: real, ux: real, uy: real, left: Box, right: Box)
    returns (q: Particle, crossed: bool)
    ensures q.id == p.id && q.r == p.r
    ensures crossed ==> p.converting
    ensures q.state == (if crossed then THC else p.state)
    ensures q.converting == (p.converting && !crossed)
    ensures Fits(p, left) && Fits(p, right) ==>
              if PhaseOf(q) == Waiting then InBox(q, left) else InBox(q, right)
    ensures !p.converting && 0.0 <= viz ==> Abs(q.vx) <= 90.0 * viz && Abs(q.vy) <= 90.0 * viz
  {
    var vx := p.vx + Rnd(ux, -15.0, 15.0) * dt * viz;
    var vy := p.vy + Rnd(uy, -15.0, 15.0) * dt * viz;
    var vmax := 90.0 * viz;
    vx := Clamp(vx, -vmax, vmax);
    vy := Clamp(vy, -vmax, vmax);
    q := p.(vx := vx, vy := vy, x := p.x + vx * dt, y := p.y + vy * dt);
    crossed := false;

    if q.converting {
      var targetX := right.x + 20.0 + (q.id % 4) as real * 16.0;
      var targetY := right.y + 30.0 + (q.id % 6) as real * 18.0;
      q := q.(vx := q.vx + (targetX - q.x) * 0.8 * dt, vy := q.vy + (targetY - q.y) * 0.8 * dt);
      if q.x > right.x + q.r + 2.0 {
        q := q.(converting := false, state := THC);
        crossed := true;
        q := KeepInBox(q, right);
        return;
      }
    }

    if q.state == THCA && !q.converting {
      q := KeepInBox(q, left);
    } else {
      q := KeepInBox(q, right);
    }
  }

  /** The five draws `spawnParticles` makes for one particle, in the order radius, x, y, vx, vy. */
  datatype SpawnDraw = SpawnDraw(ur: real, ux: real, uy: real, uvx: real, uvy: real)

  predicate UnitSpawn(d: SpawnDraw) {
    Unit(d.ur) && Unit(d.ux) && Unit(d.uy) && Unit(d.uvx) && Unit(d.uvy)
  }

  /** A chamber has room for a disc of radius below 10 plus the 4-pixel spawn margin on each side. */
  predicate Roomy(box: Box) {
    box.w >= 28.0 && box.h >= 28.0
  }

  /** The particle number `i` that `spawnParticles` creates in the left chamber. */
  function Spawned(i: nat, d: SpawnDraw, left: Box): (p: Particle)
    requires UnitSpawn(d)
    ensures p.id == i && p.state == THCA && !p.converting && PhaseOf(p) == Waiting
    ensures 7.0 <= p.r < 10.0
    ensures -30.0 <= p.vx <= 30.0 && -30.0 <= p.vy <= 30.0
    ensures Roomy(left) ==> InBox(p, left)
  {
    var r := Rnd(d.ur, 7.0, 10.0);
    Particle(
      i,
      Rnd(d.ux, left.x + r + 4.0, left.x + left.w - r - 4.0),
      Rnd(d.uy, left.y + r + 4.0, left.y + left.h - r - 4.0),
      Rnd(d.uvx, -30.0, 30.0),
      Rnd(d.uvy, -30.0, 30.0),
      r, THCA, false)
  }
}
