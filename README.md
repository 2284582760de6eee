# Decarb Lab — a verified model of the particle bookkeeping

The Decarb Lab is a canvas animation of THCA decarboxylating into THC and CO2. It draws two
chambers separated by a gate. At start it spawns 24 THCA particles in the left chamber. On every
animation frame a `tick` moves the particles. Each waiting THCA particle may start converting,
which releases one or two CO2 bubbles. A converting particle is steered towards the right chamber
and becomes THC once it is past the gate. Three counters (THCA, THC, CO2) are shown beside the
canvas. Start, pause and reset buttons drive the animation loop.

This project models that bookkeeping in `main.js`:

- `kinetics.dfy` (`Kinetics`): the activation energy with and without the catalyst.
- `chance.dfy` (`Chance`): `rnd` and the burst size. Each `Math.random()` value becomes a unit draw in [0, 1), passed in as a parameter.
- `geometry.dfy` (`Geometry`): chambers and `clamp`.
- `particles.dfy` (`Particles`): the particle record and its lifecycle phases (waiting THCA, converting, THC).
  It also holds the phase tallies and their lemmas, `keepInBox`, one particle's motion step, and spawning one particle.
- `bubbles.dfy` (`Bubbles`): CO2 bubbles, their ageing and the pruning filter, with lemmas that pruning is an order-preserving filter.
- `lab.dfy` (`Lab`): the class `DecarbLab`, holding the particle array, the bubble list, the three counters, the run flag and the frame clock.
  Its methods are `spawnParticles`, `co2Burst`, the three loops of `tick`, `tick` itself, `start`, `pause`, `reset` and `loop`.

The object invariant `DecarbLab.Valid` states the following. Every method that changes the lab keeps it:
- the THCA counter equals the number of waiting particles, and the THC counter equals the number of THC particles;
- a converting particle is still THCA;
- particle `i` has id `i`;
- with c conversions started (c = 24 − THCA counter), the CO2 counter lies between c and 2c;
- no more bubbles are alive than CO2 was released;
- on a canvas large enough for the chambers, every particle lies inside the chamber of its phase.

`main.js` has no elapsed-time clock, target duration, choice of medium or reconciliation of
the product count, so none is modelled.

## Model

| member | source | states |
|---|---|---|
| Kinetics.GetEa | main.js:41-45 | The activation energy is positive and at most 120 kJ/mol. It is below 120 kJ/mol exactly when the catalyst is on, and then it is 78 kJ/mol. |
| Chance.Rnd | main.js:63 | A draw in [0, 1) stretched onto [lo, hi) lies in [lo, hi], and strictly below hi when lo < hi. |
| Chance.BurstSize | main.js:92 | `Math.floor(rnd(1, 3))` is 1 or 2. |
| Geometry.Clamp | main.js:64 | The result is never below a. When a ≤ b it is at most b, and it equals v when v is already in [a, b]. It is a when v ≤ a, and b when a ≤ b ≤ v. |
| Particles.Conservation | main.js:56-61 | The waiting, converting and THC tallies add up to the whole ensemble. |
| Particles.TallyUpdate | main.js:203-206 | Rewriting one particle changes each phase tally by at most one: out of its old phase, into its new one. |
| Particles.TallyUniform | main.js:66-81 | An ensemble that is all in one phase has that tally equal to its size, and zero in every other phase. |
| Particles.AdvanceCounts | main.js:224-230 | If no particle moves backwards in the lifecycle, the waiting tally does not grow and the THC tally does not shrink. |
| Particles.Decide | main.js:226-230 | The stochastic step turns a waiting particle into a converting one when its draw succeeds. It leaves every other particle, and every other field, unchanged. |
| Particles.KeepInBox | main.js:151-157 | Only position and velocity change, and speed along each axis is preserved. If the disc fits the chamber, the centre ends inside it. A left or top hit leaves the disc against that wall with vx or vy ≥ 0; a right or bottom hit leaves it against that wall with vx or vy ≤ 0. A disc already inside is left unchanged, and each axis is handled on its own: along an axis whose two walls the disc does not cross, its coordinate and velocity stay as they were. |
| Particles.Move | main.js:181-219 | The id and radius are kept. A particle finalises as THC only if it was converting, and no other state change happens. When the chambers fit the disc, a waiting particle ends in the left chamber and any other in the right. A particle that was not converting ends with both velocity components within ±90·viz. |
| Particles.Spawned | main.js:69-81 | A spawned particle has id i, is THCA and not converting, and has radius in [7, 10) and velocity components in [−30, 30]. When the chamber is roomy it lies inside the left chamber. |
| Bubbles.Puff | main.js:93-101 | A new bubble starts at the burst height with 1.2 s of life. It is within 6 px of the burst point horizontally, has radius in [2, 4), and rises at 20 to 35 px/s. |
| Bubbles.PrunedSurvive | main.js:237-242 | `Pruned`, the filter that ages each bubble (`Aged`: risen by vy·dt, life shortened by dt) and keeps those that `Survives` accepts, never lengthens the list, and every bubble it keeps has life left and is not above the cut-off line. |
| Bubbles.KeptMatchesPruned | main.js:237-242 | The k-th surviving bubble is the aged bubble at the k-th kept position of the original list. |
| Bubbles.KeptIncreasing | main.js:237-242 | Kept positions strictly increase, so survivors keep their relative order. |
| Bubbles.KeptExactly | main.js:239-241 | A position is kept exactly when the aged bubble there (`Aged`) has life left and is not above the cut-off line (`Survives`), the negation of the splice condition. Every bubble meeting both conditions stays. |
| Lab.ChamberLayout | main.js:9-14 | The chambers `LeftBox` and `RightBox` laid out from the canvas size: the left one ends before the right one starts. On a canvas of at least 106 × 98 pixels both are roomy. |
| Lab.FrameDt | main.js:247-250 | A frame's step is at most 0.05 s, never more than the elapsed time, and equal to the elapsed time when that is below the cap. |
| Lab.DecarbLab.CountersBalance | main.js:61 | Under the invariant, THCA counter + THC counter + converting particles = 24, and every converting particle is THCA. |
| Lab.DecarbLab.constructor | main.js:55-61 | The lab starts in the invariant, with its chambers laid out from the canvas size. It is in the reset state: 24 waiting particles with ids 0..23, counters (24, 0, 0), no bubbles, not running. |
| Lab.DecarbLab.SpawnParticles | main.js:66-83 | A fresh array of 24 spawned particles with id = index, all THCA and none converting. Counters are (24, 0, 0), the bubble list is empty, and the invariant holds. |
| Lab.DecarbLab.CO2Burst | main.js:91-104 | The CO2 counter grows by the burst size (1 or 2). Exactly that many new bubbles, `Puffs(x, y, …)`, one `Puff` per draw, are appended at (x, y). |
| Lab.DecarbLab.MoveParticles | main.js:179-219 | The invariant is kept. Each particle keeps its phase, except that a converting one may become THC. Particles that were not converting end within the speed cap. |
| Lab.DecarbLab.MoveOne | main.js:181-219 | Only particle i is rewritten, and it takes one motion step. The counters still match the particles, and every particle stays sound and in its chamber. |
| Lab.DecarbLab.ConvertParticles | main.js:221-234 | The invariant is kept. Each particle becomes `Decide(old particle, roll < pStep)`. The THCA counter falls by the number of conversions started (`Started`), the CO2 counter grows by exactly the CO2 they release (`Bursts`), and their bubbles (`Releases`) are appended to the old list in particle order. |
| Lab.DecarbLab.ConvertOne | main.js:224-233 | One iteration of the stochastic loop keeps the invariant and advances `Progress` by one particle: that particle takes `Decide`, and counters and bubbles move by exactly its conversion, if any. |
| Lab.ProgressStep | main.js:224-233 | A particle that starts converting lowers THCA by one, adds its burst size to CO2 and appends its burst's bubbles. Any other particle leaves the counters and bubbles as they were. |
| Lab.DecarbLab.StartConverting | main.js:227-232 | Only particle idx changes, from waiting to converting. The THCA counter falls by one, the CO2 counter grows by exactly `BurstSize` of the burst draw, and the bubbles released at the particle's position clamped 10 px inside the left chamber (`BurstAt`) are appended. The invariant is kept. |
| Lab.Bursts | main.js:224-232 | The CO2 released by the conversions started is at least one and at most two per conversion (`Started`). |
| Lab.ReleasesMatchBursts | main.js:93-102 | The stochastic loop appends exactly as many bubbles as it adds to the CO2 counter. |
| Lab.NoChanceNoRelease | main.js:224-228 | With a conversion chance of 0 or less no roll succeeds: nothing starts converting, no CO2 is counted and no bubble is released. |
| Lab.StartsByWaiting | main.js:226-227 | Which conversions start, and how much CO2 they release, depends only on which particles are waiting, so the motion step before the stochastic loop does not change them. |
| Lab.MoveThenDecide | main.js:179-234 | A motion step followed by the stochastic step moves a particle at most one phase forward. A waiting particle starts converting exactly when its roll succeeds, and the speed cap of a non-converting particle survives. |
| Lab.DecarbLab.AgeBubbles | main.js:236-242 | The bubble list becomes `Pruned(old list, dt, leftBox.y − 10)`: the aged survivors, in order. |
| Lab.DecarbLab.Tick | main.js:159-243 | The invariant is kept. Each particle stays in its phase or moves exactly one phase forward. A waiting particle starts converting exactly when its roll is below pStep. The THCA counter falls by exactly the conversions started and the CO2 counter grows by exactly the CO2 they release, measured on the particles before the tick; the THC counter does not decrease. Every remaining bubble has life left. Particles that were not converting respect the speed cap. |
| Lab.DecarbLab.Start | main.js:263-268 | Afterwards the lab runs. When it was already running the frame clock is untouched; otherwise it restarts from `now`. |
| Lab.DecarbLab.Pause | main.js:269-273 | Afterwards the lab is not running; nothing else changes. |
| Lab.DecarbLab.Reset | main.js:274-278 | Afterwards the invariant holds and the discrete state is the fixed reset state, whatever it was before. So a second reset gives the same discrete state as one. |
| Lab.DecarbLab.Loop | main.js:245-259 | When not running, nothing changes. When running, the frame time becomes `t`, or the clock when `t` is 0, and the slider value becomes the visual speed. The tick keeps the invariant, moves each particle at most one phase forward, and keeps the counters monotone. Its THCA and CO2 changes are exactly the conversions started and CO2 released with chance `chance(FrameDt(now, last))`, the step capped at 0.05 s. |

## Left out

- Canvas drawing (`draw`), the DOM lookups, the counter and readout text writes (`updateCounters`, lines 160-177) and the event-listener wiring: user interface only.
- `requestAnimationFrame`, `cancelAnimationFrame`, the `req` handle and `performance.now`: host scheduling. Clock readings are parameters of the constructor, `Start` and `Loop`.
- `k_current`, `getTempC`, `getTempK` and `pStep = 1 − exp(−k·dt)`: floating-point kinetics. `Tick` takes `pStep` as a parameter, and `Loop` takes it as a function of the frame step.
- `Math.random`: every draw is a parameter in [0, 1). A tick's draws are grouped per particle, not in the page's call order.
- All arithmetic is on exact reals, so IEEE-754 rounding is not modelled.
- The `if(!canvas) return` exit: the model is the lab when its canvas is present.
- Particles.Move: its contract covers lifecycle, chamber placement and the speed cap. The jitter, integration and steering arithmetic are computed in the body, but no contract describes their values.
- Particles.KeepInBox: the wall-hit facts are stated only when the disc fits the chamber. Every particle fits both chambers on a canvas of at least 106 × 98 pixels (`Lab.ChamberLayout`).
- Lab.DecarbLab.Tick: the new bubble list is the pruning of the old list plus the bubbles released at the particles' positions after the motion loop. `ConvertParticles` and `AgeBubbles` state those two steps exactly, but `Tick`'s own contract states only that every survivor is alive, because the positions after motion are not named in it. The particle positions are stated through the invariant.
- Particle objects are records that each loop writes back into the array. Nothing else refers to them, so no aliasing is lost.
