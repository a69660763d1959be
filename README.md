# trebuckot simulation core in Dafny

This project models the simulation core of *trebuckot*, a macroquad game where a
trebuchet throws the player's projectile around a small round planet. The
model covers:

- the per-tick landing and collision step of the projectile (`src/physics.rs`):
  integer orientation, line intersection, and the land-or-advance update of
  player and flight statistics;
- the terrain height maps of both generations of the world code
  (`src/world/terrain.rs`, `src/game/world/terrain.rs`): section layout,
  transition points and the circular `smooth_at` filter, which runs in place
  on an array;
- the 1-D value noise behind them (`src/world/perlin.rs`);
- the world queries used by the tick (`src/game/world.rs`) and the score
  (`src/game/stats.rs`);
- both trebuchets (`src/game/trebuchet.rs`, `src/trebuchet.rs`): parts,
  builder defaults, `reset`, and the one-way Stage1 → Stage2 → Stage3 machine
  driven by `run`. Both `reset` and `run` update a class in place;
- the Runge–Kutta steppers (`src/utils.rs` and the local `rk4` of
  `src/trebuchet.rs`);
- the research tree (`src/game/tech.rs`): name lookup, prerequisites and the
  layout of tech spots.

Modelling conventions:

- `f32`/`f64` values are `real` and `i64`/`usize` values are `int`/`nat`.
- Casts from float to integer are written out: `Utils.Trunc` truncates toward
  zero, and `Stats.ToU32` saturates.
- Rust's float `%` is `Utils.FMod`, which truncates; `rem_euclid` is
  `Utils.RemEuclid`.
- `sin`, `cos`, `acos`, `asin`, `atan2` and `sqrt` are fields of a `Linear.Math`
  record. Lemmas that need a fact about one of them take that fact as a
  precondition, e.g. `SoundSqrt(m)` or `m.cos(0.0) == 1.0`.
- The trebuchet equations of motion are fields of a `Dynamics` record:
  `stage_1`, `stage_2`, `ground_force` and `v_projectile`.
- The random generator of the noise table is a function parameter.
- Where `get_index`, `get_terrain_class` and the builder's `center` panic (an
  `unwrap` or `expect` on `None`), the model returns `None`. Every other panic
  of the source is excluded by a precondition; "## Left out" names each one.
- `smooth_at` is the same code in both terrain files, with windows 100 and 30.
  It is modelled once, in `Smoothing`, and each terrain module applies it with
  its own window.

## Model

| member | source | states |
|---|---|---|
| `Utils.Trunc` | src/utils.rs:6 | `as i64` truncates toward zero: the result is the integer part of its argument, on either side of zero |
| `Utils.CoordsRoundTrip` | src/utils.rs:5-12 | `to_i64coords(to_meters(p)) == p` for every integer point |
| `Utils.MetersRoundTripError` | src/utils.rs:5-12 | `to_meters(to_i64coords(v))` moves each coordinate toward zero by less than 1/256 m |
| `Utils.ToI64CoordsMonotone` | src/utils.rs:5-7 | `to_i64coords` is monotone in each coordinate |
| `Utils.RemEuclid` | src/utils.rs:16 | `rem_euclid` lands in `[0, m)`; it leaves `[0, m)` alone and adds `m` to `[-m, 0)` |
| `Utils.FMod` | src/game/world.rs:60-61 | float `%` truncates: the result has the sign of the dividend and magnitude below the modulus |
| `Utils.ToAngle` | src/utils.rs:14-17 | `to_angle` lies in `[0, TAU)` and equals `atan2(y, x)`, plus `TAU` when that is negative |
| `Utils.Rk4ThirdStageIsSecond` | src/utils.rs:28-29 | k3 is evaluated at the same argument as k2, so the two stages are equal |
| `Utils.Rk4ConstantDerivative` | src/utils.rs:27-31 | with a constant derivative `c`, `rk4` returns `x + dt·c` (weights 1+2+2+1 over 6) |
| `Utils.Rk4ZeroDerivative` | src/utils.rs:27-31 | with a zero derivative, `rk4` returns `x` |
| `Utils.Rk4AsWrittenIsNotFourthOrder` | src/utils.rs:27-31 | on y' = y from y = 1 with dt = 1, `rk4` as written gives 31/12, not the fourth-order Taylor value 65/24 |
| `Utils.Rk4ClassicIsFourthOrder` | src/utils.rs:21-32 | the classical stepper, with k3 taken at `x + k2/2`, matches the Taylor polynomial of degree four on every linear equation |
| `Utils.Rk5ConstantDerivative` | src/utils.rs:47 | the weights 7, 0, 32, 12, 32, 7 over 90 sum to one, so a constant derivative `c` gives `x + dt·c` |
| `Utils.Rk5StagesConstant` | src/utils.rs:40-46 | with a constant derivative `c`, all six stages equal `dt·c` |
| `Utils.Rk5ArgEqualStages` | src/utils.rs:40-46 | with equal stages `s`, the argument of stage i is `x + cᵢ·s`, where `cᵢ` is the row sum 0, 1/4, 1/4, 1/2, 3/4, 1 |
| `Seqs.Max` | src/game/tech.rs:58 | `max().unwrap()` on a non-empty level list is one of the levels and bounds all of them |
| `Perlin.New` | src/world/perlin.rs:10-15 | the table has exactly `length` entries, entry k being the k-th draw after seeding; draws in [-1, 1] give a unit table |
| `Perlin.NewIsTable` | src/world/perlin.rs:10-15 | the table built by the loop equals the table specification `Table(seed, length, gen)` |
| `Perlin.Table` | src/world/perlin.rs:12 | the specification of the table has one entry per requested position |
| `Perlin.PrevIndex` | src/world/perlin.rs:24 | `floor(x) as usize` is the integer part of a non-negative x |
| `Perlin.Fract` | src/world/perlin.rs:28 | `fract` of a non-negative x lies in `[0, 1)` |
| `Perlin.FadeUnit` | src/world/perlin.rs:29-30 | the fade 6t⁵−15t⁴+10t³ maps 0 to 0 and 1 to 1, and `[0, 1]` into itself |
| `Perlin.InterpolateAtInteger` | src/world/perlin.rs:23-32 | at an integer x, `interpolate` returns `table[x mod n]` exactly |
| `Perlin.InterpolateBetween` | src/world/perlin.rs:23-32 | for x ≥ 0, `interpolate` lies between `table[⌊x⌋ mod n]` and `table[(⌊x⌋+1) mod n]` |
| `Perlin.InterpolateUnit` | src/world/perlin.rs:23-32 | over a unit table, `interpolate` stays in [-1, 1] |
| `Perlin.GetUnfold` | src/world/perlin.rs:17-21 | `get` is exactly the sum of four octaves |
| `Perlin.OctaveBound` | src/world/perlin.rs:17-21 | octave k of a unit table is bounded by \|ampl\|/2^k |
| `Perlin.GetBound` | src/world/perlin.rs:17-21 | over a unit table, \|get(x, ampl, freq)\| ≤ 1.875·\|ampl\| |
| `Perlin.GetZeroAmplitude` | src/world/perlin.rs:17-21 | `get(x, 0, freq) == 0` |
| `Smoothing.Signum` | src/world/terrain.rs:118 | `signum` is 1 exactly for weights ≥ 0 (including +0.0) and −1 otherwise |
| `Smoothing.AngleIsProduct` | src/world/terrain.rs:117 | the angle the model accumulates step by step (a proof device) equals the source's cosine argument `j·FACTOR` |
| `Smoothing.FirstDeltaZero` | src/world/terrain.rs:117-118 | at j = 0 the correction `weight − signum(weight)` is zero, since cos 0 = 1 |
| `Smoothing.Prev` | src/world/terrain.rs:112 | `(idx + len − 1) % len` is the cyclic predecessor of idx |
| `Smoothing.Start` | src/world/terrain.rs:115 | the window start `(idx + len − window/2) % len` is a valid index |
| `Smoothing.Offset` | src/world/terrain.rs:115-119 | the cyclic distance of entry k from the window start is below len |
| `Smoothing.Pos` | src/world/terrain.rs:118-119 | stepping `i` one place round the circle always names a valid index |
| `Smoothing.PosIsMod` | src/world/terrain.rs:115-119 | the entry reached after j one-place steps from the start is `(start + j) % len`, the index the source writes |
| `Smoothing.LoopStep` | src/world/terrain.rs:117-118 | one turn of the loop subtracts `mid·Δ(j)` from entry `Pos(start, j)`, with `i % len` naming that entry |
| `Smoothing.Apply` | src/world/terrain.rs:116-120 | applying the first j writes of the window keeps the length |
| `Smoothing.Smoothed` | src/world/terrain.rs:110-121 | the smoothed map has the length of the input |
| `Smoothing.SmoothAt` | src/world/terrain.rs:110-121 | the in-place loop leaves the array equal to `Smoothed` of its old contents |
| `Smoothing.StepWrites` | src/world/terrain.rs:118-119 | write d of the window hits entry k exactly when k is at offset d from the start |
| `Smoothing.ApplyAt` | src/world/terrain.rs:116-120 | after j writes, entry k has lost `mid·Δ(offset)` if its offset is below j, and is unchanged otherwise |
| `Smoothing.SmoothedWindow` | src/world/terrain.rs:110-121 | for window ≤ len, only the window entries change, each by `mid·(weight − signum(weight))`, where `mid` is read before any write |
| `Smoothing.SmoothedFirstUnchanged` | src/world/terrain.rs:113-118 | the first window entry keeps its value |
| `Smoothing.WindowCentred` | src/world/terrain.rs:115 | the entry window/2 places after the start is idx itself |
| `Terrain.SectionLengths` | src/world/terrain.rs:68-90 | one length per section, in section order |
| `Terrain.SectionParams` | src/world/terrain.rs:69-89 | section k contributes its (amplitude, frequency) pair, repeated `length` times: Plain (500, 0.001), Hills (1000, 0.01), Desert (1000, 0.001), Rocky (2000, 0.1), Ocean (−1000, 0.1) |
| `Terrain.TransitionPoints` | src/world/terrain.rs:64-66 | one transition point per section: the running total of the lengths through that section, modulo circ, hence below circ |
| `Terrain.Unsmoothed` | src/world/terrain.rs:94-99 | one unsmoothed height per laid-out parameter pair |
| `Terrain.SmoothAll` | src/world/terrain.rs:101-103 | smoothing at every transition in order keeps the length |
| `Terrain.HeightMap` | src/world/terrain.rs:60-106 | the height map has one entry per unit of section length |
| `Terrain.GenerateHeightMap` | src/world/terrain.rs:60-106 | the loop that accumulates `current_idx` and pushes transitions and parameters, followed by in-place smoothing, computes `HeightMap` |
| `Terrain.SmoothAllSnoc` | src/world/terrain.rs:101-103 | smoothing at one more transition point smooths the result of the earlier ones |
| `Terrain.UnsmoothedAt` | src/world/terrain.rs:94-98 | the entry at offset o of section k is `noise(i, ampl, freq) + 2·ampl`, where i is the sum of the earlier lengths plus o |
| `Terrain.LastTransitionIsLength` | src/world/terrain.rs:91-113 | when the sections sum to less than circ, the last transition point equals the map length and is not a valid `smooth_at` index |
| `Terrain.SmoothAtWindow` | src/world/terrain.rs:108-121 | with window 100, every entry outside the 100 cyclic entries from `(idx + len − 50) % len` is unchanged |
| `Terrain.SmoothAtFirstUnchanged` | src/world/terrain.rs:112-118 | with window 100, the first window entry is unchanged |
| `Terrain.Circ` | src/world/terrain.rs:38 | circ is `floor(radius/1000·TAU)`, and zero for a negative radius |
| `Terrain.Surface` | src/world/terrain.rs:45-54 | the surface has exactly one point per height-map entry |
| `Terrain.New` | src/world/terrain.rs:32-57 | circ is `Circ(radius)`; without a preset the surface is built from circ zero heights, with one from `HeightMap` |
| `Terrain.NewWithoutPreset` | src/world/terrain.rs:38-54 | without a preset the surface has circ points, point i lying at sea level at angle `i·1000/radius` |
| `GameTerrain.Bytes` | src/game/world/terrain.rs:29 | the seed string's bytes are its characters' codes, in order |
| `GameTerrain.AmiCuteSeed` | src/game/world/terrain.rs:29 | the little-endian value of the bytes of "ami cute" is 0x6574756320696d61 |
| `GameTerrain.SectionParams` | src/game/world/terrain.rs:34-40 | section k contributes its pair, repeated `length` times; Sands is (1000, 0.001), Ocean (−1000, 0.1) |
| `GameTerrain.SectionLengths` | src/game/world/terrain.rs:32-40 | one length per section, equal to the lengths of the laid-out parameter runs |
| `GameTerrain.Layout` | src/game/world/terrain.rs:32-41 | the flattened layout has one pair per unit of section length |
| `GameTerrain.LayoutFromSections` | src/game/world/terrain.rs:34-40 | every laid-out pair is the pair of some section, with a positive frequency |
| `GameTerrain.Noise` | src/game/world/terrain.rs:30 | the noise table has circ entries |
| `GameTerrain.GenHeightMap` | src/game/world/terrain.rs:28-44 | the output length is the sum of the section lengths |
| `GameTerrain.GenHeightMapAt` | src/game/world/terrain.rs:41-42 | entry (earlier lengths + o) of section k is `noise(i, ampl, freq) + ampl`, with the amplitude counted once |
| `GameTerrain.GenHeightMapBound` | src/game/world/terrain.rs:42 | over draws in [-1, 1], each entry lies within 1.875·\|ampl\| of `ampl` |
| `GameTerrain.SmoothAt` | src/game/world/terrain.rs:52-63 | the in-place loop with window 30 leaves the array equal to `Smoothed` of its old contents |
| `GameTerrain.SmoothAtWindow` | src/game/world/terrain.rs:52-63 | with window 30, every entry outside the 30 cyclic entries from `(index + len − 15) % len` is unchanged |
| `GameTerrain.SmoothAtFirstUnchanged` | src/game/world/terrain.rs:54-60 | with window 30, the first window entry is unchanged |
| `GameWorld.GravityTowardsCentre` | src/game/world.rs:50-53 | gravity is a non-positive multiple of `r = point − position`, pointing at the centre |
| `GameWorld.GravityMagnitude` | src/game/world.rs:50-53 | for r ≠ 0 the magnitude of gravity is `G·M/\|r\|²` |
| `GameWorld.AltitudeZero` | src/game/world.rs:55-57 | altitude is the distance from the centre minus the radius, so it is zero exactly at the radius |
| `GameWorld.TerrainIdxBeneath` | src/game/world.rs:59-62 | the index beneath a point is below circ |
| `GameWorld.FindClass` | src/game/world.rs:64-71 | the class lookup succeeds exactly when some bound is ≥ index, and then returns the class of the first such entry |
| `GameWorld.TerrainPoint` | src/game/world.rs:73-78 | `get_terrain(i) == get_from_sealevel(i, height_map[i])` |
| `GameWorld.SealevelDistance` | src/game/world.rs:80-85 | for every `raise`, the point `get_from_sealevel(i, raise)` lies at most `|radius + raise|` from the world's position and less than √2/256 m nearer than that (the bound is stated squared; cos² + sin² = 1 at the angle is assumed) |
| `GameWorld.TruncatedDistance` | src/utils.rs:5-12 | converting a vector of length `a` to fixed point and back never lengthens it and shortens it by less than √2/256 m |
| `Stats.AsVec` | src/game/stats.rs:17-24 | `as_vec` returns exactly four stats |
| `Stats.AsVecRoundTrip` | src/game/stats.rs:17-24 | the values of `as_vec` are the four fields in order: reading them back gives the stats |
| `Stats.AsVecLabels` | src/game/stats.rs:17-24 | the labels are Time (s), Distance (m), Max Altitude (m), Max Speed (m/s), whatever the values |
| `Stats.ToU32` | src/game/stats.rs:26 | `as u32` truncates, saturating to 0 below and to 2³²−1 above |
| `Stats.Crunch` | src/game/stats.rs:25-27 | the score is the truncation of 0.1·distance + 0.3·max_altitude + 0.6·max_speed, and 0 when that sum is negative |
| `Stats.CrunchDefault` | src/game/stats.rs:8-27 | default stats crunch to 0 |
| `Stats.CrunchIgnoresTime` | src/game/stats.rs:26 | time does not contribute to the score |
| `Stats.CrunchMonotone` | src/game/stats.rs:26 | the score is non-decreasing in distance, max altitude and max speed |
| `Physics.Orientation` | src/physics.rs:106-115 | the result is 1, 0 or −1, the sign of `(q.y−p.y)(r.x−q.x) − (q.x−p.x)(r.y−q.y)` |
| `Physics.OrientationCoincident` | src/physics.rs:114 | the orientation is 0 when two of the three points coincide |
| `Physics.OrientationTranslation` | src/physics.rs:114 | translating all three points by one vector keeps the orientation |
| `Physics.OrientationSwap` | src/physics.rs:114 | swapping p and q negates the orientation |
| `Physics.OrientationExamples` | src/physics.rs:106-115 | (0,0),(10,0),(5,−5) is clockwise (1) and (0,0),(10,0),(5,5) anticlockwise (−1) |
| `Physics.Intersection` | src/physics.rs:121-130 | the unrounded intersection is absent exactly when the determinant of the two direction vectors is 0 |
| `Physics.Round` | src/physics.rs:131 | `round` is within one half of its argument, keeps its sign, and breaks ties away from zero |
| `Physics.GetIntersection` | src/physics.rs:121-132 | `get_intersection` returns None exactly when the lines are parallel or collinear |
| `Physics.NumeratorsOnLines` | src/physics.rs:128-130 | the two determinant numerators satisfy the equations of line ab and of line cd, scaled by the denominator |
| `Physics.IntersectionOnBothLines` | src/physics.rs:128-131 | when present, the unrounded intersection lies on line ab and on line cd |
| `Physics.IntersectionExample` | src/physics.rs:121-132 | a=(0,0), b=(1000,0), c=(500,256), d=(500,−256) intersect at (500,0) |
| `Physics.Max` | src/physics.rs:89-93 | `f32::max` is the larger argument and bounds both |
| `Physics.SegmentIndices` | src/physics.rs:54-56 | both segment indices are below circ, and the second follows the first cyclically |
| `Physics.SegmentWraps` | src/physics.rs:54-56 | the segment starting at the last surface point ends at point 0 |
| `Physics.GravityOnlyAbove` | src/physics.rs:58-61 | gravity is added to the acceleration only when the current position is clockwise of the segment |
| `Physics.LandsIff` | src/physics.rs:63-67 | the tick lands exactly when the next position is not clockwise of the segment |
| `Physics.LandingStops` | src/physics.rs:67-77 | landing moves to the intersection (or stays if there is none), zeroes velocity and acceleration, and leaves stats untouched |
| `Physics.AccelerationCleared` | src/physics.rs:79-85 | after any tick the acceleration is zero |
| `Physics.AdvanceUpdatesStats` | src/physics.rs:87-93 | an advancing tick adds PHYSICS_TICK to time, never shrinks distance or the maxima, and the maxima cover the new altitude and speed |
| `Physics.AdvanceMoves` | src/physics.rs:79-88 | an advancing tick moves to `PathEnd`, the position plus the displacement from the new acceleration, and distance grows by the length of the displacement in meters |
| `Physics.Game.DoPhysics` | src/physics.rs:53-94 | the in-place update leaves player and stats as `PhysicsStep` computes them, and sets Landed exactly when the tick lands, otherwise keeping the state |
| `StageMachine.Next` | src/game/trebuchet.rs:248-268 | one guard moves the stage at most one step forward; it moves exactly when Stage1 has lifted or Stage2 has released |
| `StageMachine.Stage3Absorbing` | src/game/trebuchet.rs:265-267 | Stage3 never changes |
| `StageMachine.MassAfter` | src/game/trebuchet.rs:258-260 | entering Stage3 sets the projectile mass to 0.01; nothing else changes it |
| `StageMachine.RunsBounded` | src/game/trebuchet.rs:241-275 | n runs move at most n stages forward and never back |
| `StageMachine.RunsFromStage3` | src/game/trebuchet.rs:265-267 | once in Stage3, any number of runs stays in Stage3 |
| `StageMachine.LaunchNeedsTwoRuns` | src/game/trebuchet.rs:241-275 | reaching Stage3 from Stage1 takes at least two runs |
| `GameTrebuchet.ArmNew` | src/game/trebuchet.rs:38-49 | centre `(long−short)/2`, inertia `mass·(long+short)²/12`, at rest |
| `GameTrebuchet.WeightNew` | src/game/trebuchet.rs:72-81 | the given length, mass and material, inertia 1, at rest |
| `GameTrebuchet.SlingNew` | src/game/trebuchet.rs:102-109 | the given length and material, at rest |
| `GameTrebuchet.ArmTexture` | src/game/trebuchet.rs:51-59 | the arm texture is the material name followed by `_arm` |
| `GameTrebuchet.WeightTexture` | src/game/trebuchet.rs:83-91 | the weight texture is the material name followed by `_weight` |
| `GameTrebuchet.SlingTexture` | src/game/trebuchet.rs:111-119 | the sling textures are the material name followed by `_sling_close` and `_sling_open` |
| `GameTrebuchet.TexturesDistinct` | src/game/trebuchet.rs:51-119 | different materials give different texture names |
| `GameTrebuchet.Center` | src/game/trebuchet.rs:160-165 | `center` fails exactly when no arm is set, and otherwise changes only the arm's centre |
| `GameTrebuchet.Init` | src/game/trebuchet.rs:193-195 | a fresh builder has the position and nothing else set |
| `GameTrebuchet.OrElse` | src/game/trebuchet.rs:170-174 | `unwrap_or` returns the value when set and the default otherwise |
| `GameTrebuchet.Build` | src/game/trebuchet.rs:167-177 | each unset part defaults: height 1.0, m_proj 0.3, arm (1.6, 0.4, 0.25), weight (0.5, 5.0), sling 1.6, all Cardboard; state Stage1 |
| `GameTrebuchet.BuildDefaults` | src/game/trebuchet.rs:167-177 | the default trebuchet has arm centre 0.6 and inertia 1/12 and starts at rest |
| `GameTrebuchet.BuildFromSetters` | src/game/trebuchet.rs:135-165 | every setter's value reaches the built trebuchet, and `center` after `arm` overrides only the arm centre |
| `GameTrebuchet.ResetPose` | src/game/trebuchet.rs:229-239 | reset zeroes the three velocities (so `w_projectile` is 0), makes arm + weight angles 0, sets Stage1 and m_proj 0.3, and keeps the parts' shape |
| `GameTrebuchet.ResetIdempotent` | src/game/trebuchet.rs:229-239 | resetting twice is resetting once |
| `GameTrebuchet.Pack` | src/game/trebuchet.rs:242-246 | the state matrix has nine entries |
| `GameTrebuchet.StageMatrix` | src/game/trebuchet.rs:342-346 | the stage result matrix has nine entries |
| `GameTrebuchet.DerivativeKeepsDim` | src/game/trebuchet.rs:254-266 | the stage closure maps nine entries to nine entries |
| `GameTrebuchet.DerivativeColumns` | src/game/trebuchet.rs:342-346 | the closure returns velocities + accelerations·dt, then the accelerations, then zeros |
| `GameTrebuchet.Integrate` | src/game/trebuchet.rs:270 | the `rk5` step keeps the nine entries |
| `GameTrebuchet.RunStage` | src/game/trebuchet.rs:248-268 | one run moves at most one stage forward; Stage1 moves exactly when lifted, Stage2 exactly when released, and Stage3 stays |
| `GameTrebuchet.RunMass` | src/game/trebuchet.rs:258-260 | only entering Stage3 changes m_proj, to 0.01 |
| `GameTrebuchet.RunKeepsShape` | src/game/trebuchet.rs:270-274 | apart from stage and m_proj, `run` changes only the three angles and three velocities |
| `GameTrebuchet.Trebuchet.constructor` | src/game/trebuchet.rs:167-177 | the new object holds the built trebuchet |
| `GameTrebuchet.Trebuchet.Reset` | src/game/trebuchet.rs:229-239 | the in-place reset leaves the object equal to `ResetRig` of its old value |
| `GameTrebuchet.Trebuchet.ApplyGuard` | src/game/trebuchet.rs:248-263 | the guard, evaluated on the state before integration, updates stage and mass as `Guard` specifies |
| `GameTrebuchet.Trebuchet.Advance` | src/game/trebuchet.rs:270-272 | the angles and velocities are overwritten with the `rk5` step of the chosen stage |
| `GameTrebuchet.Trebuchet.Run` | src/game/trebuchet.rs:241-275 | the object ends as `RunRig` of its old value, and the result is true exactly when the state is now Stage3 |
| `Trebuchet.ArmNew` | src/trebuchet.rs:25-35 | centre `(long−short)/2`, inertia `mass·(long+short)²/12`, at rest |
| `Trebuchet.WeightNew` | src/trebuchet.rs:47-56 | the given length and mass, inertia 1, at rest |
| `Trebuchet.SlingNew` | src/trebuchet.rs:65-72 | the given length, at rest |
| `Trebuchet.MulLaws` | src/trebuchet.rs:369-385 | scalar multiplication scales all six components: 1·v = v, 0·v = 0, a·(b·v) = (ab)·v |
| `Trebuchet.Rk4ConstantDerivative` | src/trebuchet.rs:387-399 | with a constant derivative, the local `rk4` returns x + dt·c.q and y + dt·c.w |
| `Trebuchet.Rk4ThirdStageRepeats` | src/trebuchet.rs:391-394 | when the derivative ignores velocities, k3 equals k2, because k3 mixes k1.q with k2.w |
| `Trebuchet.ClosureReturns` | src/trebuchet.rs:301-304 | a stage returns q = velocities + accelerations·dt and w = accelerations |
| `Trebuchet.Init` | src/trebuchet.rs:138-140 | a fresh builder has the position and nothing else set |
| `Trebuchet.OrElse` | src/trebuchet.rs:115-119 | `unwrap_or` returns the value when set and the default otherwise |
| `Trebuchet.Build` | src/trebuchet.rs:112-122 | each unset part defaults: height 5.6, m_proj 0.3, arm (8.0, 2.0, 12.0), weight (2.0, 100.0), sling 8.0; state Stage1 |
| `Trebuchet.BuildDefaults` | src/trebuchet.rs:112-122 | the default trebuchet has arm centre 3.0 and inertia 100 |
| `Trebuchet.BuildFromSetters` | src/trebuchet.rs:87-110 | every setter's value reaches the built trebuchet |
| `Trebuchet.ResetPose` | src/trebuchet.rs:189-199 | reset zeroes the velocities, makes arm + weight angles 0, sets Stage1 and m_proj 0.3, and keeps the parts' shape |
| `Trebuchet.ResetIdempotent` | src/trebuchet.rs:189-199 | resetting twice is resetting once |
| `Trebuchet.RunStage` | src/trebuchet.rs:202-227 | one run moves at most one stage forward; Stage1 moves exactly when lifted, Stage2 exactly when released, and Stage3 stays |
| `Trebuchet.RunMass` | src/trebuchet.rs:216-220 | only entering Stage3 changes m_proj, to 0.01 |
| `Trebuchet.RunKeepsShape` | src/trebuchet.rs:229-236 | apart from stage and m_proj, `run` changes only the angles (from q) and velocities (from w) |
| `Trebuchet.Trebuchet.constructor` | src/trebuchet.rs:112-122 | the new object holds the built trebuchet |
| `Trebuchet.Trebuchet.Reset` | src/trebuchet.rs:189-199 | the in-place reset leaves the object equal to `ResetRig` of its old value |
| `Trebuchet.Trebuchet.ApplyGuard` | src/trebuchet.rs:202-227 | the guard updates stage and mass as `Guard` specifies |
| `Trebuchet.Trebuchet.Advance` | src/trebuchet.rs:229-236 | the angles and velocities are overwritten with `rk4_results.q` and `rk4_results.w` |
| `Trebuchet.Trebuchet.Run` | src/trebuchet.rs:201-237 | the object ends as `RunRig` of its old value |
| `Tech.Position` | src/game/tech.rs:85-90 | the lookup fails exactly when the name is absent, and otherwise returns the first matching position |
| `Tech.GetIndex` | src/game/tech.rs:85-90 | `get_index` returns the first position with that name, and None where the source panics |
| `Tech.Have` | src/game/tech.rs:99-102 | `have` fails exactly when the name is unknown |
| `Tech.AllHaveIff` | src/game/tech.rs:92-97 | the parents are all had exactly when every listed parent names an obtained tech |
| `Tech.AllHaveFalse` | src/game/tech.rs:92-97 | a false answer names a known parent that is not obtained |
| `Tech.AvailableIff` | src/game/tech.rs:92-97 | a tech is available exactly when it has no prerequisite list or every listed parent is obtained; an empty list counts as none |
| `Tech.Obtain` | src/game/tech.rs:118 | setting an obtained flag keeps every list the same length |
| `Tech.HaveAfterObtain` | src/game/tech.rs:115-120 | after obtaining the tech at `get_index(name)`, `have(name)` is true and `have` of every other name is unchanged |
| `Tech.ObtainKeepsAvailable` | src/game/tech.rs:92-102 | obtaining a tech never makes another one unavailable |
| `Tech.PerLevelPartition` | src/game/tech.rs:58-61 | every tech is counted on exactly one level: `per_level[c] - 1` summed over the levels `0..=max_level` is the number of techs |
| `Seqs.CountsBelowAll` | src/game/tech.rs:59-61 | when every level is below n, the counts of the levels below n add up to the number of techs |
| `Tech.Layout` | src/game/tech.rs:58-72 | the loop over the `count` array gives one spot per tech, the spot of tech i being `Spot(level, i)` |
| `Tech.RankBounds` | src/game/tech.rs:63-68 | a tech's rank on its level is at least 1 and below `per_level` |
| `Tech.SpotInside` | src/game/tech.rs:63-72 | every spot lies strictly inside the unit square |
| `Tech.SpotAlongLevel` | src/game/tech.rs:62-68 | along a level, later techs have strictly larger x |
| `Tech.SpotRows` | src/game/tech.rs:69 | techs of one level share y, and a higher level has a strictly larger y |
| `Tech.Init` | src/game/tech.rs:46-81 | one entry per tech in every list, in input order, spots from the levels, nothing obtained |

## Left out

- Input, output and foreign calls are not modelled:
  - keyboard polling and frame timing in `Physics::update`;
  - menus, rendering and the frame loop;
  - the random generator (`srand`/`gen_range`), which is a parameter;
  - file loading, JSON parsing and icon textures in `TechTree::init`;
  - texture loading in the trebuchet `build`.
- The trebuchet equations of motion (`stage_1`, `stage_2`, `ground_force`, `v_projectile`) are uninterpreted functions. The `*_point` queries, which only serve drawing, are not modelled.
- Floating point and fixed-width integers:
  - f32/f64 rounding is not modelled; the model computes over exact reals.
  - i64 overflow in `orientation` and in coordinate sums is not modelled; the model uses unbounded integers.
  - The f64 path of `get_intersection` is modelled in exact arithmetic; only its final `round` is written out.
- GameWorld.Gravity: at the world centre the source divides 0 by 0 and yields NaN; the model returns the zero vector there.
- GameTrebuchet.ResetRig and Trebuchet.ResetRig: with arm length 0 the source divides by zero; the model requires a non-zero arm length.
- Terrain.GenerateHeightMap: transitions that `smooth_at` would index out of bounds are excluded by a precondition. `Terrain.LastTransitionIsLength` shows an input where this happens.
- The world class argument of `generate_height_map` is unused by the source and not modelled. `_gen_sections` is `todo!()` and is not modelled.
- `Terrain` of the newer world (fields `circ`, `height_map`, `class_map`) is abstract: how it is built is not modelled.
- The older `src/world.rs`, `src/world/mod.rs`, `src/player.rs`, `src/player/mod.rs` and `src/game/player.rs` duplicate what `src/game/world.rs` does. They are not part of this model.
- The research purchase rule in the upgrade menus is a UI action and is not modelled.
- `do_physics` reads the surface of the older terrain next to the newer world's queries; the model takes the surface as a sequence with at least `circ` points.
- The per-octave powers of two in `Perlin.get` are the constants 1, 2, 4, 8 rather than `powi`.
- Tech.Init, Tech.Layout and Seqs.Max: `max().unwrap()` over the level list panics when there are no techs (src/game/tech.rs:58); the model requires at least one tech.
- Perlin.Interpolate and Perlin.Get: with an empty noise table the index `% len` panics on a modulo by zero (src/world/perlin.rs:24-27); the model requires a non-empty table.
- Terrain.TransitionPoints and Terrain.New: with a circumference of zero and at least one section, `current_idx % circ` panics on a modulo by zero (src/world/terrain.rs:91); the model requires a positive circumference whenever there is a section.
- GameTerrain.GenHeightMap: with a circumference of zero the noise table is empty, and `noise.get` panics on a modulo by zero as soon as there is one height to compute (src/game/world/terrain.rs:30, 42); the model requires a positive circumference whenever the sections have a positive total length.
- GameTerrain.SmoothAt and Smoothing.SmoothAt: `array[index]` panics for an index past the end (and `% len` for an empty array), and `index + len - window / 2` underflows as a `usize` when the array is shorter than half the window (src/world/terrain.rs:112-115, src/game/world/terrain.rs:54-57); the model requires `index < len` and `index + len >= window / 2`.
- GameWorld.TerrainPoint: `height_map[index]` panics for an index past the end of the height map; the model requires the index to be in range. A zero radius, where the source divides by zero and takes the cosine of a non-finite angle, is excluded too.
- Physics.Game.DoPhysics, Physics.SegmentIndices, Physics.Segment and Physics.PhysicsStep: with a circumference of zero, `(terrain_idx + 1) % circ` panics on a modulo by zero (src/physics.rs:56); the model requires `circ > 0`, as every world the game builds has.
- Tech.Available: `&self.requs[index]` panics for an index past the end of the list (src/game/tech.rs:93); the model requires the index to be in range, as every caller passes a tech's own position.
- Tech.Obtain: `obtained[tech_index] = true` panics for an index past the end of the list (src/game/tech.rs:118, src/gui/upgrades.rs:171); the model requires the index to be in range, as the caller passes a known tech's position.
- `Utils.Rk4` is not used by the rest of the model: the game calls `rk5`, and `src/trebuchet.rs` has its own `rk4`.

## Findings

| source | as written | input that shows it | evidently intended | confidence | as-written member | corrected member |
|---|---|---|---|---|---|---|
| src/utils.rs:29 | `k3 = dt·f(dt, x + 0.5·k1)`, the same argument as k2 | y' = y, y(0) = 1, dt = 1: the step gives 31/12 instead of 65/24 | classical RK4, `k3 = dt·f(dt, x + 0.5·k2)`, which matches the degree-4 Taylor polynomial on linear equations | not executed | `Utils.Rk4AsWrittenIsNotFourthOrder` | `Utils.Rk4ClassicIsFourthOrder` |
