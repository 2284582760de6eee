/**
 * The Decarb Lab: 24 particles that turn from THCA into THC, releasing CO2, with the THCA, THC
 * and CO2 counters the page displays, the CO2 bubbles, and the start/pause/reset controls.
 */
module Lab {
  import opened Geometry
  import opened Chance
  import opened Particles
  import opened Bubbles

  /** Number of particles the lab spawns. */
  const N0: nat := 24

  /** Largest time step, in seconds, one animation frame may advance the lab. */
  const MAX_DT: real := 0.05

  /** The left (THCA) chamber of a canvas `width` by `height` pixels. */
  function LeftBox(width: nat, height: nat): Box {
    var midX := (width / 2) as real;
    Box(20.0, 50.0, midX - 25.0, height as real - 70.0)
  }

  /** The right (THC) chamber of a canvas `width` by `height` pixels. */
  function RightBox(width: nat, height: nat): Box {
    var midX := (width / 2) as real;
    Box(midX + 5.0, 50.0, width as real - (midX + 25.0), height as real - 70.0)
  }

  /** The two chambers never overlap, and on a canvas of at least 106 by 98 pixels both have room for spawning. */
  lemma ChamberLayout(width: nat, height: nat)
    ensures LeftBox(width, height).x + LeftBox(width, height).w < RightBox(width, height).x
    ensures width >= 106 && height >= 98 ==> Roomy(LeftBox(width, height)) && Roomy(RightBox(width, height))
  {
  }

  /** `Math.min((now - last) / 1000, 0.05)`: the seconds one frame advances the lab. */
  function FrameDt(now: real, last: real): (dt: real)
    ensures dt <= MAX_DT
    ensures dt <= (now - last) / 1000.0
    ensures (now - last) / 1000.0 <= MAX_DT ==> dt == (now - last) / 1000.0
  {
    var raw := (now - last) / 1000.0;
    if raw < MAX_DT then raw else MAX_DT
  }

  /** The draws one tick makes for one particle: velocity jitter, the conversion roll, the burst size and its bubbles. */
  datatype FrameDraw = FrameDraw(jx: real, jy: real, roll: real, burst: real, puffs: seq<PuffDraw>)

  predicate UnitFrame(d: FrameDraw) {
    Unit(d.jx) && Unit(d.jy) && Unit(d.roll) && Unit(d.burst) &&
    |d.puffs| >= BurstSize(d.burst) &&
    forall k :: 0 <= k < |d.puffs| ==> UnitPuff(d.puffs[k])
  }

  /** The discrete part of a particle: what drawing and counting depend on. */
  datatype Tag = Tag(id: nat, state: Form, converting: bool)

  function TagsOf(s: seq<Particle>): seq<Tag> {
    seq(|s|, i requires 0 <= i < |s| => Tag(s[i].id, s[i].state, s[i].converting))
  }

  /** The discrete state of the lab: particle tags, the three counters, how many bubbles, and the run flag. */
  datatype Snapshot = Snapshot(tags: seq<Tag>, thca: int, thc: int, co2: int, bubbleCount: nat, running: bool)

  /** The discrete state right after a reset. */
  function ResetSnapshot(): Snapshot {
    Snapshot(seq(N0, i requires 0 <= i < N0 => Tag(i, THCA, false)), N0, 0, 0, 0, false)
  }

  /** Particle `i` has id `i`, converts only from THCA, and has a radius drawn from [7, 10). */
  predicate Sound(p: Particle, i: int) {
    p.id == i && (p.converting ==> p.state == THCA) && 7.0 <= p.r < 10.0
  }

  predicate AllSound(s: seq<Particle>) {
    forall i :: 0 <= i < |s| ==> Sound(s[i], i)
  }

  predicate AllPlaced(s: seq<Particle>, left: Box, right: Box) {
    forall i :: 0 <= i < |s| ==> Placed(s[i], left, right)
  }

  /**
   * One step of the motion loop took `p` to `q`: the phase is kept, except that a converting
   * particle may finish as THC; and a particle that was not converting respects the speed cap.
   */
  predicate Moved(p: Particle, q: Particle, viz: real) {
    (PhaseOf(q) == PhaseOf(p) || (PhaseOf(p) == Migrating && PhaseOf(q) == Converted)) &&
    (!p.converting && 0.0 <= viz ==> Abs(q.vx) <= 90.0 * viz && Abs(q.vy) <= 90.0 * viz)
  }

  /**
   * Over a whole tick `p` became `q`: it stayed in its phase or moved one phase forward, a
   * waiting particle started converting exactly when its roll `go` succeeded, and a particle
   * that was not converting respects the speed cap.
   */
  predicate Ticked(p: Particle, q: Particle, go: bool, viz: real) {
    Rank(PhaseOf(p)) <= Rank(PhaseOf(q)) <= Rank(PhaseOf(p)) + 1 &&
    (PhaseOf(p) == Waiting ==> (PhaseOf(q) == Migrating <==> go)) &&
    (!p.converting && 0.0 <= viz ==> Abs(q.vx) <= 90.0 * viz && Abs(q.vy) <= 90.0 * viz)
  }

  /** A motion step followed by the stochastic step is one tick of the particle's lifecycle. */
  lemma MoveThenDecide(p: Particle, m: Particle, go: bool, viz: real)
    requires Moved(p, m, viz)
    ensures Ticked(p, Decide(m, go), go, viz)
  {
  }

  /** Replacing one particle by a sound, placed one keeps the whole ensemble sound and placed. */
  lemma UpdateKeeps(s: seq<Particle>, i: nat, q: Particle, left: Box, right: Box)
    requires i < |s|
    ensures AllSound(s) && Sound(q, i) ==> AllSound(s[i := q])
    ensures AllPlaced(s, left, right) && Placed(q, left, right) ==> AllPlaced(s[i := q], left, right)
  {
  }

  /** The stochastic step starts `p` converting: it is waiting and its roll is below `pStep`. */
  predicate Starts(p: Particle, d: FrameDraw, pStep: real) {
    PhaseOf(p) == Waiting && d.roll < pStep
  }

  predicate AllUnit(ds: seq<FrameDraw>) {
    forall k :: 0 <= k < |ds| ==> UnitFrame(ds[k])
  }

  /** How many of the first `k` particles of `s` the stochastic loop starts converting. */
  function Started(s: seq<Particle>, ds: seq<FrameDraw>, pStep: real, k: nat): (n: nat)
    requires k <= |s| && k <= |ds|
    ensures n <= k
  {
    if k == 0 then 0
    else Started(s, ds, pStep, k - 1) + (if Starts(s[k - 1], ds[k - 1], pStep) then 1 else 0)
  }

  /** The CO2 the stochastic loop releases over the first `k` particles of `s`: one or two per conversion started. */
  function Bursts(s: seq<Particle>, ds: seq<FrameDraw>, pStep: real, k: nat): (n: int)
    requires k <= |s| && k <= |ds| && AllUnit(ds)
    ensures Started(s, ds, pStep, k) <= n <= 2 * Started(s, ds, pStep, k)
  {
    if k == 0 then 0
    else Bursts(s, ds, pStep, k - 1) + (if Starts(s[k - 1], ds[k - 1], pStep) then BurstSize(ds[k - 1].burst) else 0)
  }

  /** The bubbles `co2Burst` releases for particle `p`, at its position clamped 10 px inside the left chamber. */
  function BurstAt(p: Particle, d: FrameDraw, left: Box): seq<Bubble>
    requires UnitFrame(d)
  {
    Puffs(Clamp(p.x, left.x + 10.0, left.x + left.w - 10.0),
          Clamp(p.y, left.y + 10.0, left.y + left.h - 10.0),
          d.puffs[..BurstSize(d.burst)])
  }

  /** The bubbles the stochastic loop appends over the first `k` particles of `s`, in particle order. */
  function Releases(s: seq<Particle>, ds: seq<FrameDraw>, pStep: real, left: Box, k: nat): seq<Bubble>
    requires k <= |s| && k <= |ds| && AllUnit(ds)
  {
    if k == 0 then []
    else
      Releases(s, ds, pStep, left, k - 1) +
      (if Starts(s[k - 1], ds[k - 1], pStep) then BurstAt(s[k - 1], ds[k - 1], left) else [])
  }

  /** One bubble is appended per unit of CO2 counted. */
  lemma {:induction false} ReleasesMatchBursts(s: seq<Particle>, ds: seq<FrameDraw>, pStep: real, left: Box, k: nat)
    requires k <= |s| && k <= |ds| && AllUnit(ds)
    ensures |Releases(s, ds, pStep, left, k)| == Bursts(s, ds, pStep, k)
  {
    if k > 0 {
      ReleasesMatchBursts(s, ds, pStep, left, k - 1);
    }
  }

  /** With no chance of conversion nothing starts, no CO2 is counted and no bubble is released. */
  lemma {:induction false} NoChanceNoRelease(s: seq<Particle>, ds: seq<FrameDraw>, pStep: real, left: Box, k: nat)
    requires k <= |s| && k <= |ds| && AllUnit(ds) && pStep <= 0.0
    ensures Started(s, ds, pStep, k) == 0 && Bursts(s, ds, pStep, k) == 0
    ensures Releases(s, ds, pStep, left, k) == []
  {
    if k > 0 {
      NoChanceNoRelease(s, ds, pStep, left, k - 1);
      assert UnitFrame(ds[k - 1]);
    }
  }

  /** Which conversions start depends only on which particles are waiting, so two ensembles with the same waiting ones start and release alike. */
  lemma {:induction false} StartsByWaiting(s: seq<Particle>, t: seq<Particle>, ds: seq<FrameDraw>, pStep: real, k: nat)
    requires k <= |s| && k <= |t| && k <= |ds| && AllUnit(ds)
    requires forall i :: 0 <= i < k ==> (PhaseOf(s[i]) == Waiting <==> PhaseOf(t[i]) == Waiting)
    ensures Started(s, ds, pStep, k) == Started(t, ds, pStep, k)
    ensures Bursts(s, ds, pStep, k) == Bursts(t, ds, pStep, k)
  {
    if k > 0 {
      StartsByWaiting(s, t, ds, pStep, k - 1);
    }
  }

  /**
   * The stochastic loop after its first `idx` particles, started from ensemble `before`,
   * counters `thca0`, `co20` and bubbles `bubbles0`: those particles took `Decide`, the rest are
   * untouched, and the counters and bubbles moved by exactly what those conversions released.
   */
  predicate Progress(cur: seq<Particle>, thca: int, co2: int, bubs: seq<Bubble>,
                     before: seq<Particle>, ds: seq<FrameDraw>, pStep: real, left: Box, idx: nat,
                     thca0: int, co20: int, bubbles0: seq<Bubble>)
  {
    |cur| == N0 && |before| == N0 && |ds| == N0 && AllUnit(ds) && idx <= N0 &&
    (forall j :: idx <= j < N0 ==> cur[j] == before[j]) &&
    (forall j :: 0 <= j < idx ==> cur[j] == Decide(before[j], ds[j].roll < pStep)) &&
    thca == thca0 - Started(before, ds, pStep, idx) &&
    co2 == co20 + Bursts(before, ds, pStep, idx) &&
    bubs == bubbles0 + Releases(before, ds, pStep, left, idx)
  }

  /** One more particle through the stochastic step: progress advances by exactly its conversion, if it starts one. */
  lemma ProgressStep(cur: seq<Particle>, thca: int, co2: int, bubs: seq<Bubble>,
                     before: seq<Particle>, ds: seq<FrameDraw>, pStep: real, left: Box, idx: nat,
                     thca0: int, co20: int, bubbles0: seq<Bubble>)
    requires idx < N0 && Progress(cur, thca, co2, bubs, before, ds, pStep, left, idx, thca0, co20, bubbles0)
    ensures cur[idx] == before[idx] && UnitFrame(ds[idx])
    ensures Starts(before[idx], ds[idx], pStep) ==>
      Progress(cur[idx := before[idx].(converting := true)], thca - 1, co2 + BurstSize(ds[idx].burst),
               bubs + BurstAt(before[idx], ds[idx], left), before, ds, pStep, left, idx + 1, thca0, co20, bubbles0)
    ensures !Starts(before[idx], ds[idx], pStep) ==>
      Progress(cur[idx := Decide(before[idx], ds[idx].roll < pStep)], thca, co2, bubs,
               before, ds, pStep, left, idx + 1, thca0, co20, bubbles0)
  {
  }

  class DecarbLab {
    const leftBox: Box
    const rightBox: Box
    var particles: array<Particle>
    var bubbles: seq<Bubble>
    var thcaCount: int
    var thcCount: int
    var co2Count: int
    var running: bool
    var lastT: real
    var vizSpeed: real

    /** Both chambers have room for spawning and for any particle's disc. */
    predicate Spacious() {
      Roomy(leftBox) && Roomy(rightBox)
    }

    /**
     * The lab's invariant: the counters match the particles, every conversion started has
     * released one or two CO2, no more bubbles are alive than CO2 released, and each particle
     * lies in the chamber of its phase.
     */
    ghost predicate Valid()
      reads this, particles
    {
      particles.Length == N0 &&
      AllSound(particles[..]) &&
      thcaCount == Tally(particles[..], Waiting) &&
      thcCount == Tally(particles[..], Converted) &&
      N0 - thcaCount <= co2Count <= 2 * (N0 - thcaCount) &&
      |bubbles| <= co2Count &&
      (Spacious() ==> AllPlaced(particles[..], leftBox, rightBox))
    }

    ghost function Snap(): Snapshot
      reads this, particles
    {
      Snapshot(TagsOf(particles[..]), thcaCount, thcCount, co2Count, |bubbles|, running)
    }

    /** Counters and particles agree: THCA + THC + converting is the whole ensemble, and a converting particle is THCA. */
    lemma CountersBalance()
      requires Valid()
      ensures thcaCount + thcCount + Tally(particles[..], Migrating) == N0
      ensures forall i :: 0 <= i < N0 && particles[i].converting ==> particles[i].state == THCA
    {
      Conservation(particles[..]);
    }

    /** Builds the lab on a canvas `width` by `height`, at clock time `now`, and spawns the particles. */
    constructor (width: nat, height: nat, now: real, draws: seq<SpawnDraw>)
      requires |draws| == N0 && forall k :: 0 <= k < |draws| ==> UnitSpawn(draws[k])
      ensures Valid() && fresh(particles)
      ensures leftBox == LeftBox(width, height) && rightBox == RightBox(width, height)
      ensures Snap() == ResetSnapshot()
      ensures lastT == now && vizSpeed == 1.0
    {
      leftBox := LeftBox(width, height);
      rightBox := RightBox(width, height);
      particles := new Particle[0];
      bubbles := [];
      running := false;
      lastT := now;
      vizSpeed := 1.0;
      thcCount, thcaCount, co2Count := 0, N0, 0;
      new;
      SpawnParticles(draws);
    }

    /** `spawnParticles`: a fresh ensemble of N0 waiting particles in the left chamber, counters back to (N0, 0, 0), no bubbles. */
    method SpawnParticles(draws: seq<SpawnDraw>)
      requires |draws| == N0 && forall k :: 0 <= k < |draws| ==> UnitSpawn(draws[k])
      modifies this`particles, this`thcaCount, this`thcCount, this`co2Count, this`bubbles
      ensures Valid() && fresh(particles)
      ensures forall i :: 0 <= i < N0 ==> particles[i] == Spawned(i, draws[i], leftBox)
      ensures TagsOf(particles[..]) == ResetSnapshot().tags
      ensures thcaCount == N0 && thcCount == 0 && co2Count == 0 && bubbles == []
    {
      var ensemble := new Particle[N0];
      particles := ensemble;
      thcCount, thcaCount, co2Count, bubbles := 0, N0, 0, [];
      for i := 0 to N0
        invariant particles == ensemble
        invariant thcCount == 0 && thcaCount == N0 && co2Count == 0 && bubbles == []
        invariant forall j :: 0 <= j < i ==> ensemble[j] == Spawned(j, draws[j], leftBox)
      {
        ensemble[i] := Spawned(i, draws[i], leftBox);
      }
      ghost var spawned := ensemble[..];
      assert forall i :: 0 <= i < N0 ==> spawned[i] == Spawned(i, draws[i], leftBox);
      assert forall i :: 0 <= i < N0 ==> PhaseOf(spawned[i]) == Waiting;
      TallyUniform(spawned, Waiting, Converted);
      assert AllSound(spawned);
      assert Spacious() ==> AllPlaced(spawned, leftBox, rightBox);
      assert TagsOf(spawned) == ResetSnapshot().tags;
    }

    /** `co2Burst(x, y)`: release one or two bubbles at (x, y) and add as many to the CO2 counter. */
    method CO2Burst(x: real, y: real, u: real, puffs: seq<PuffDraw>)
      requires Unit(u) && |puffs| >= BurstSize(u)
      requires forall k :: 0 <= k < |puffs| ==> UnitPuff(puffs[k])
      modifies this`bubbles, this`co2Count
      ensures co2Count == old(co2Count) + BurstSize(u)
      ensures bubbles == old(bubbles) + Puffs(x, y, puffs[..BurstSize(u)])
    {
      var n := BurstSize(u);
      for i := 0 to n
        invariant co2Count == old(co2Count)
        invariant bubbles == old(bubbles) + Puffs(x, y, puffs[..i])
      {
        assert Puffs(x, y, puffs[..i + 1]) == Puffs(x, y, puffs[..i]) + [Puff(x, y, puffs[i])];
        bubbles := bubbles + [Puff(x, y, puffs[i])];
      }
      co2Count := co2Count + n;
    }

    /** The motion loop of `tick`: every particle takes one `Move`; each that crosses the gate is counted as THC. */
    method MoveParticles(dt: real, draws: seq<FrameDraw>)
      requires Valid() && |draws| == N0
      modifies this`thcCount, particles
      ensures Valid()
      ensures forall i :: 0 <= i < N0 ==> Moved(old(particles[i]), particles[i], vizSpeed)
    {
      ghost var before := particles[..];
      for i := 0 to N0
        invariant forall j :: i <= j < N0 ==> particles[j] == before[j]
        invariant forall j :: 0 <= j < i ==> Moved(before[j], particles[j], vizSpeed)
        invariant AllSound(particles[..])
        invariant Spacious() ==> AllPlaced(particles[..], leftBox, rightBox)
        invariant thcaCount == Tally(particles[..], Waiting)
        invariant thcCount == Tally(particles[..], Converted)
      {
        MoveOne(i, dt, draws[i]);
      }
    }

    /** The body of the motion loop for particle `i`: move it, write it back, and count it as THC if it crossed the gate. */
    method MoveOne(i: nat, dt: real, d: FrameDraw)
      requires i < particles.Length
      requires AllSound(particles[..]) && (Spacious() ==> AllPlaced(particles[..], leftBox, rightBox))
      requires thcaCount == Tally(particles[..], Waiting) && thcCount == Tally(particles[..], Converted)
      modifies this`thcCount, particles
      ensures particles[..] == old(particles[..])[i := particles[i]]
      ensures Moved(old(particles[i]), particles[i], vizSpeed)
      ensures AllSound(particles[..]) && (Spacious() ==> AllPlaced(particles[..], leftBox, rightBox))
      ensures thcaCount == Tally(particles[..], Waiting) && thcCount == Tally(particles[..], Converted)
    {
      var p := particles[i];
      var q, crossed := Move(p, dt, vizSpeed, d.jx, d.jy, leftBox, rightBox);
      ghost var prev := particles[..];
      particles[i] := q;
      assert particles[..] == prev[i := q];
      TallyUpdate(prev, i, q, Waiting);
      TallyUpdate(prev, i, q, Converted);
      UpdateKeeps(prev, i, q, leftBox, rightBox);
      if crossed {
        thcCount := thcCount + 1;
      }
    }

    /** The stochastic loop of `tick`: each waiting particle whose roll is below `pStep` starts converting and releases CO2. */
    method ConvertParticles(pStep: real, draws: seq<FrameDraw>)
      requires Valid() && |draws| == N0 && forall k :: 0 <= k < |draws| ==> UnitFrame(draws[k])
      modifies this`thcaCount, this`co2Count, this`bubbles, particles
      ensures Valid()
      ensures forall i :: 0 <= i < N0 ==> particles[i] == Decide(old(particles[i]), draws[i].roll < pStep)
      ensures thcaCount == old(thcaCount) - Started(old(particles[..]), draws, pStep, N0)
      ensures co2Count == old(co2Count) + Bursts(old(particles[..]), draws, pStep, N0)
      ensures bubbles == old(bubbles) + Releases(old(particles[..]), draws, pStep, leftBox, N0)
    {
      ghost var before := particles[..];
      for idx := 0 to N0
        invariant Valid()
        invariant Progress(particles[..], thcaCount, co2Count, bubbles, before, draws, pStep, leftBox, idx,
                           old(thcaCount), old(co2Count), old(bubbles))
      {
        ConvertOne(idx, pStep, draws, before, old(thcaCount), old(co2Count), old(bubbles));
      }
    }

    /** The body of the stochastic loop for particle `idx`: skip it unless it is waiting and its roll succeeds. */
    method ConvertOne(idx: nat, pStep: real, draws: seq<FrameDraw>, ghost before: seq<Particle>,
                      ghost thca0: int, ghost co20: int, ghost bubbles0: seq<Bubble>)
      requires idx < N0 && Valid()
      requires Progress(particles[..], thcaCount, co2Count, bubbles, before, draws, pStep, leftBox, idx, thca0, co20, bubbles0)
      modifies this`thcaCount, this`co2Count, this`bubbles, particles
      ensures Valid()
      ensures Progress(particles[..], thcaCount, co2Count, bubbles, before, draws, pStep, leftBox, idx + 1, thca0, co20, bubbles0)
    {
      ProgressStep(particles[..], thcaCount, co2Count, bubbles, before, draws, pStep, leftBox, idx, thca0, co20, bubbles0);
      var p := particles[idx];
      if p.state != THCA || p.converting || !(draws[idx].roll < pStep) {
        assert particles[..][idx := Decide(before[idx], draws[idx].roll < pStep)] == particles[..];
        return;
      }
      StartConverting(idx, draws[idx]);
    }

    /** The body of the stochastic loop for a waiting particle whose roll succeeded: mark it converting, count it, release CO2. */
    method StartConverting(idx: nat, d: FrameDraw)
      requires Valid() && idx < N0 && PhaseOf(particles[idx]) == Waiting && UnitFrame(d)
      modifies this`thcaCount, this`co2Count, this`bubbles, particles
      ensures Valid()
      ensures particles[..] == old(particles[..])[idx := old(particles[idx]).(converting := true)]
      ensures thcaCount == old(thcaCount) - 1
      ensures co2Count == old(co2Count) + BurstSize(d.burst)
      ensures bubbles == old(bubbles) + BurstAt(old(particles[idx]), d, leftBox)
    {
      var p := particles[idx];
      var q := p.(converting := true);
      ghost var prev := particles[..];
      particles[idx] := q;
      assert particles[..] == prev[idx := q];
      TallyUpdate(prev, idx, q, Waiting);
      TallyUpdate(prev, idx, q, Converted);
      UpdateKeeps(prev, idx, q, leftBox, rightBox);
      thcaCount := thcaCount - 1;
      CO2Burst(
        Clamp(p.x, leftBox.x + 10.0, leftBox.x + leftBox.w - 10.0),
        Clamp(p.y, leftBox.y + 10.0, leftBox.y + leftBox.h - 10.0),
        d.burst, d.puffs);
    }

    /** The bubble loop of `tick`: walking backwards, age each bubble by `dt` and splice out the dead or escaped ones. */
    method AgeBubbles(dt: real)
      modifies this`bubbles
      ensures bubbles == Pruned(old(bubbles), dt, leftBox.y - 10.0)
    {
      var floor := leftBox.y - 10.0;
      ghost var start := bubbles;
      var j := |bubbles| - 1;
      while j >= 0
        invariant -1 <= j < |start|
        invariant bubbles == start[..j + 1] + Pruned(start[j + 1..], dt, floor)
      {
        ghost var rest := Pruned(start[j + 1..], dt, floor);
        assert bubbles[..j] == start[..j] && bubbles[j] == start[j];
        assert bubbles[j + 1..] == rest;
        var b := bubbles[j];
        b := b.(y := b.y + b.vy * dt, life := b.life - dt);
        assert b == Aged(start[j], dt);
        assert start[j..][1..] == start[j + 1..];
        assert Pruned(start[j..], dt, floor) == (if Survives(b, floor) then [b] else []) + rest;
        if b.life <= 0.0 || b.y < floor {
          bubbles := bubbles[..j] + bubbles[j + 1..];
          assert bubbles == start[..j] + Pruned(start[j..], dt, floor);
        } else {
          bubbles := bubbles[..j] + [b] + bubbles[j + 1..];
          assert bubbles == start[..j] + Pruned(start[j..], dt, floor);
        }
        j := j - 1;
      }
    }

    /**
     * `tick(dt)`: move every particle, let waiting ones start converting with chance `pStep`,
     * then age and prune the bubbles.
     */
    method Tick(dt: real, pStep: real, draws: seq<FrameDraw>)
      requires Valid() && |draws| == N0 && forall k :: 0 <= k < |draws| ==> UnitFrame(draws[k])
      modifies this`thcaCount, this`thcCount, this`co2Count, this`bubbles, particles
      ensures Valid()
      ensures forall i :: 0 <= i < N0 ==> Ticked(old(particles[i]), particles[i], draws[i].roll < pStep, vizSpeed)
      ensures OneStep(old(particles[..]), particles[..])
      ensures thcaCount <= old(thcaCount) && old(thcCount) <= thcCount && old(co2Count) <= co2Count
      ensures thcaCount == old(thcaCount) - Started(old(particles[..]), draws, pStep, N0)
      ensures co2Count == old(co2Count) + Bursts(old(particles[..]), draws, pStep, N0)
      ensures forall b :: b in bubbles ==> Survives(b, leftBox.y - 10.0)
    {
      ghost var before := particles[..];
      MoveParticles(dt, draws);
      ghost var moved := particles[..];
      ConvertParticles(pStep, draws);
      StartsByWaiting(moved, before, draws, pStep, N0);
      ghost var emitted := bubbles;
      ghost var after := particles[..];
      forall i | 0 <= i < N0
        ensures Ticked(before[i], after[i], draws[i].roll < pStep, vizSpeed)
      {
        MoveThenDecide(before[i], moved[i], draws[i].roll < pStep, vizSpeed);
      }
      assert OneStep(before, after);
      AdvanceCounts(before, after);
      AgeBubbles(dt);
      PrunedSurvive(emitted, dt, leftBox.y - 10.0);
    }

    /** `start(now)`: does nothing while running; otherwise sets the lab running from clock time `now`. */
    method Start(now: real)
      modifies this`running, this`lastT
      ensures running
      ensures old(running) ==> lastT == old(lastT)
      ensures !old(running) ==> lastT == now
    {
      if running {
        return;
      }
      running := true;
      lastT := now;
    }

    /** `pause()`: stops the lab; nothing else changes. */
    method Pause()
      modifies this`running
      ensures !running
    {
      running := false;
    }

    /** `reset()`: pause, then spawn a fresh ensemble. The discrete state afterwards does not depend on the state before. */
    method Reset(draws: seq<SpawnDraw>)
      requires |draws| == N0 && forall k :: 0 <= k < |draws| ==> UnitSpawn(draws[k])
      modifies this`running, this`particles, this`thcaCount, this`thcCount, this`co2Count, this`bubbles
      ensures Valid() && fresh(particles)
      ensures Snap() == ResetSnapshot()
    {
      Pause();
      SpawnParticles(draws);
    }

    /**
     * `loop(t)`: one animation frame. When paused nothing changes. Otherwise the frame time is
     * `t`, or the clock `clock` when `t` is 0; the step is capped at MAX_DT; the speed slider
     * value `speed` becomes the visual speed; and the lab ticks once with the conversion chance
     * `chance(dt)` that the Arrhenius rate gives for that step.
     */
    method Loop(t: real, clock: real, speed: real, chance: real -> real, draws: seq<FrameDraw>)
      requires Valid() && |draws| == N0 && forall k :: 0 <= k < |draws| ==> UnitFrame(draws[k])
      modifies this`lastT, this`vizSpeed, this`thcaCount, this`thcCount, this`co2Count, this`bubbles, particles
      ensures Valid()
      ensures !old(running) ==> unchanged(this) && unchanged(particles)
      ensures old(running) ==> lastT == (if t != 0.0 then t else clock) && vizSpeed == speed
      ensures old(running) ==> OneStep(old(particles[..]), particles[..])
      ensures old(running) ==>
        var dt := FrameDt(if t != 0.0 then t else clock, old(lastT));
        thcaCount == old(thcaCount) - Started(old(particles[..]), draws, chance(dt), N0) &&
        co2Count == old(co2Count) + Bursts(old(particles[..]), draws, chance(dt), N0)
      ensures thcaCount <= old(thcaCount) && old(thcCount) <= thcCount && old(co2Count) <= co2Count
    {
      if !running {
        return;
      }
      var now := if t != 0.0 then t else clock;
      var dt := FrameDt(now, lastT);
      lastT := now;
      vizSpeed := speed;
      Tick(dt, chance(dt), draws);
    }
  }
}
