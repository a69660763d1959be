/** The landing and collision tick of `src/physics.rs`: integer orientation of
    three fixed-point points, the intersection of two lines, and `do_physics`,
    which either lands the projectile on the terrain segment beneath it or moves it
    one tick along and updates the flight statistics. */
module Physics {
  import opened Linear
  import opened Utils
  import opened GameWorld
  import opened Stats

  /** The length of one physics tick, in seconds. */
  const PHYSICS_TICK: real := 0.001

  // ---------------------------------------------------------------------------
  // Orientation

  /** The cross product whose sign `orientation` returns. */
  function Cross(p: IVec2, q: IVec2, r: IVec2): int {
    (q.y - p.y) * (r.x - q.x) - (q.x - p.x) * (r.y - q.y)
  }

  /** `orientation`: `signum` of the cross product; 1 for clockwise, -1 for
      anticlockwise, 0 for collinear points. */
  function Orientation(p: IVec2, q: IVec2, r: IVec2): (o: int)
    ensures o == 1 || o == 0 || o == -1
    ensures o == 1 <==> Cross(p, q, r) > 0
    ensures o == -1 <==> Cross(p, q, r) < 0
    ensures o == 0 <==> Cross(p, q, r) == 0
  {
    var c := Cross(p, q, r);
    if c > 0 then 1 else if c < 0 then -1 else 0
  }

  /** Two coincident points make any triple collinear. */
  lemma OrientationCoincident(p: IVec2, q: IVec2)
    ensures Orientation(p, p, q) == 0 && Orientation(p, q, q) == 0 && Orientation(p, q, p) == 0
  {
    assert Cross(p, q, p) == (q.y - p.y) * (p.x - q.x) - (q.x - p.x) * (p.y - q.y);
    assert (q.y - p.y) * (p.x - q.x) == (q.x - p.x) * (p.y - q.y);
  }

  /** Moving all three points by the same offset keeps the orientation. */
  lemma OrientationTranslation(p: IVec2, q: IVec2, r: IVec2, t: IVec2)
    ensures Orientation(p.Plus(t), q.Plus(t), r.Plus(t)) == Orientation(p, q, r)
  {
    assert Cross(p.Plus(t), q.Plus(t), r.Plus(t)) == Cross(p, q, r);
  }

  /** Swapping the first two points reverses the orientation. */
  lemma OrientationSwap(p: IVec2, q: IVec2, r: IVec2)
    ensures Orientation(q, p, r) == -Orientation(p, q, r)
  {
    var a := q.x - p.x;
    var b := q.y - p.y;
    var u := r.x - p.x;
    var v := r.y - p.y;
    assert Cross(p, q, r) == b * (u - a) - a * (v - b);
    assert Cross(q, p, r) == -b * u + a * v;
    assert b * (u - a) - a * (v - b) == b * u - a * v;
  }

  /** Below the segment from (0, 0) to (10, 0) is clockwise, above is anticlockwise. */
  lemma OrientationExamples()
    ensures Orientation(IVec2(0, 0), IVec2(10, 0), IVec2(5, -5)) == 1
    ensures Orientation(IVec2(0, 0), IVec2(10, 0), IVec2(5, 5)) == -1
  {
  }

  // ---------------------------------------------------------------------------
  // Line intersection

  /** The denominator of `get_intersection`: the cross product of the two
      direction vectors; zero exactly for parallel or collinear lines. */
  function Denominator(a: IVec2, b: IVec2, c: IVec2, d: IVec2): int {
    (a.x - b.x) * (c.y - d.y) - (c.x - d.x) * (a.y - b.y)
  }

  /** The numerators of the intersection's coordinates (Cramer's rule). */
  function NumeratorX(a: IVec2, b: IVec2, c: IVec2, d: IVec2): int {
    var d1 := a.x * b.y - a.y * b.x;
    var d2 := c.x * d.y - c.y * d.x;
    d1 * (c.x - d.x) - d2 * (a.x - b.x)
  }

  function NumeratorY(a: IVec2, b: IVec2, c: IVec2, d: IVec2): int {
    var d1 := a.x * b.y - a.y * b.x;
    var d2 := c.x * d.y - c.y * d.x;
    d1 * (c.y - d.y) - d2 * (a.y - b.y)
  }

  /** The exact intersection of line `ab` with line `cd`, before rounding. */
  function Intersection(a: IVec2, b: IVec2, c: IVec2, d: IVec2): (r: Option<Vec2>)
    ensures r.None? <==> Denominator(a, b, c, d) == 0
  {
    var xdiff := (a.x - b.x, c.x - d.x);
    var ydiff := (a.y - b.y, c.y - d.y);
    var div := xdiff.0 * ydiff.1 - xdiff.1 * ydiff.0;
    if div == 0 then None
    else
      var dets := (a.x * b.y - a.y * b.x, c.x * d.y - c.y * d.x);
      var x := (dets.0 * xdiff.1 - dets.1 * xdiff.0) as real / div as real;
      var y := (dets.0 * ydiff.1 - dets.1 * ydiff.0) as real / div as real;
      Some(Vec2(x, y))
  }

  /** Rounding half away from zero (`f64::round`). */
  function Round(x: real): (n: int)
    ensures x - 0.5 <= n as real <= x + 0.5
    ensures n as real == x + 0.5 ==> x >= 0.0
    ensures n as real == x - 0.5 ==> x < 0.0
    ensures (x >= 0.0 ==> n >= 0) && (x <= 0.0 ==> n <= 0)
  {
    if x >= 0.0 then (x + 0.5).Floor else -((-x + 0.5).Floor)
  }

  /** `get_intersection`: the intersection rounded to fixed point. */
  function GetIntersection(a: IVec2, b: IVec2, c: IVec2, d: IVec2): (r: Option<IVec2>)
    ensures r.None? <==> Denominator(a, b, c, d) == 0
  {
    match Intersection(a, b, c, d)
    case None => None
    case Some(p) => Some(IVec2(Round(p.x), Round(p.y)))
  }

  /** A point lies on the line through `a` and `b` (`a != b`). */
  predicate OnLine(p: Vec2, a: IVec2, b: IVec2) {
    (p.x - a.x as real) * (b.y - a.y) as real == (p.y - a.y as real) * (b.x - a.x) as real
  }

  /** The numerators satisfy both line equations, scaled by the denominator. */
  lemma NumeratorsOnLines(a: IVec2, b: IVec2, c: IVec2, d: IVec2)
    ensures var div := Denominator(a, b, c, d);
      (NumeratorX(a, b, c, d) - a.x * div) * (b.y - a.y) == (NumeratorY(a, b, c, d) - a.y * div) * (b.x - a.x)
    ensures var div := Denominator(a, b, c, d);
      (NumeratorX(a, b, c, d) - c.x * div) * (d.y - c.y) == (NumeratorY(a, b, c, d) - c.y * div) * (d.x - c.x)
  {
    var x1, y1, x2, y2 := a.x - b.x, a.y - b.y, c.x - d.x, c.y - d.y;
    var d1 := a.x * b.y - a.y * b.x;
    var d2 := c.x * d.y - c.y * d.x;
    assert d1 == a.y * x1 - a.x * y1;
    assert d2 == c.y * x2 - c.x * y2;
    var k := a.y * x2 - d2 - a.x * y2;
    FactorOut(d1, d2, a.x, a.y, x1, y1, x2, y2, k);
    assert (x1 * k) * -y1 == (y1 * k) * -x1;
    var l := d1 - c.y * x1 + c.x * y1;
    FactorOut(d2, d1, c.x, c.y, x2, y2, x1, y1, -l);
    assert (x2 * -l) * -y2 == (y2 * -l) * -x2;
  }

  /** Both numerators, less the point's coordinate times the denominator, share
      the factor `k`. */
  lemma FactorOut(d1: int, d2: int, px: int, py: int, x1: int, y1: int, x2: int, y2: int, k: int)
    requires d1 == py * x1 - px * y1 && k == py * x2 - d2 - px * y2
    ensures d1 * x2 - d2 * x1 - px * (x1 * y2 - x2 * y1) == x1 * k
    ensures d1 * y2 - d2 * y1 - py * (x1 * y2 - x2 * y1) == y1 * k
  {
  }

  /** When it exists, the exact intersection lies on both lines. */
  lemma IntersectionOnBothLines(a: IVec2, b: IVec2, c: IVec2, d: IVec2)
    requires Intersection(a, b, c, d).Some?
    ensures OnLine(Intersection(a, b, c, d).value, a, b)
    ensures OnLine(Intersection(a, b, c, d).value, c, d)
  {
    var div := Denominator(a, b, c, d);
    var p := Intersection(a, b, c, d).value;
    NumeratorsOnLines(a, b, c, d);
    ScaledOnLine(NumeratorX(a, b, c, d), NumeratorY(a, b, c, d), div, a, b);
    ScaledOnLine(NumeratorX(a, b, c, d), NumeratorY(a, b, c, d), div, c, d);
  }

  /** Dividing a scaled line equation by the (non-zero) scale. */
  lemma ScaledOnLine(nx: int, ny: int, div: int, a: IVec2, b: IVec2)
    requires div != 0
    requires (nx - a.x * div) * (b.y - a.y) == (ny - a.y * div) * (b.x - a.x)
    ensures OnLine(Vec2(nx as real / div as real, ny as real / div as real), a, b)
  {
    var k := div as real;
    var x := nx as real / k;
    var y := ny as real / k;
    assert (x - a.x as real) * k == (nx - a.x * div) as real;
    assert (y - a.y as real) * k == (ny - a.y * div) as real;
    assert (x - a.x as real) * (b.y - a.y) as real * k == (y - a.y as real) * (b.x - a.x) as real * k;
  }

  /** A horizontal ground segment and a vertical path cross at (500, 0). */
  lemma IntersectionExample()
    ensures GetIntersection(IVec2(0, 0), IVec2(1000, 0), IVec2(500, 256), IVec2(500, -256)) == Some(IVec2(500, 0))
  {
    var x := (-256000000) as real / (-512000) as real;
    assert x == 500.0;
    var y := 0 as real / (-512000) as real;
    assert y == 0.0;
    assert Intersection(IVec2(0, 0), IVec2(1000, 0), IVec2(500, 256), IVec2(500, -256)) == Some(Vec2(x, y));
    assert Round(500.0) == 500 && Round(0.0) == 0;
  }

  // ---------------------------------------------------------------------------
  // The tick

  datatype GameState = MainMenu | Paused | PreLaunch | Launched | Landed | Scene

  /** The projectile the player flies. */
  datatype Player = Player(position: IVec2, velocity: Vec2, acceleration: Vec2)

  /** `f32::max`. */
  function Max(a: real, b: real): (r: real)
    ensures r >= a && r >= b && (r == a || r == b)
  {
    if a >= b then a else b
  }

  /** The terrain segment beneath `position`: the surface points at the index
      beneath and at the next index round the circle. */
  function SegmentIndices(m: Math, w: World, position: IVec2): (r: (nat, nat))
    requires w.terrain.circ > 0
    ensures r.0 < w.terrain.circ && r.1 < w.terrain.circ
    ensures r.1 == if r.0 == w.terrain.circ - 1 then 0 else r.0 + 1
  {
    var idx := TerrainIdxBeneath(m, w, position);
    SuccessorMod(idx, w.terrain.circ);
    (idx, (idx + 1) % w.terrain.circ)
  }

  /** What one tick yields: the new player, whether it landed, the new statistics. */
  datatype StepResult = StepResult(player: Player, landed: bool, stats: Stats)

  /** The displacement of one tick, `v * dt + 0.5 * a * dt^2`, in fixed point. */
  function Displacement(p: Player, tick: real): IVec2 {
    ToI64Coords(p.velocity.Scale(tick).Plus(p.acceleration.Scale(0.5).Scale(tick * tick)))
  }

  /** The two surface points of the segment beneath `position`. */
  function Segment(m: Math, w: World, surface: seq<IVec2>, position: IVec2): (IVec2, IVec2)
    requires 0 < w.terrain.circ <= |surface|
  {
    var (i, j) := SegmentIndices(m, w, position);
    (surface[i], surface[j])
  }

  /** The acceleration after gravity is added, which happens only while the
      projectile is clockwise of (above) the segment beneath it. */
  function Accelerated(m: Math, w: World, surface: seq<IVec2>, p: Player): Vec2
    requires 0 < w.terrain.circ <= |surface|
  {
    var (a, b) := Segment(m, w, surface, p.position);
    if Orientation(a, b, p.position) == 1 then p.acceleration.Plus(Gravity(m, w, p.position)) else p.acceleration
  }

  /** Where the projectile would be after the tick. */
  function PathEnd(m: Math, w: World, surface: seq<IVec2>, p: Player, tick: real): IVec2
    requires 0 < w.terrain.circ <= |surface|
  {
    p.position.Plus(Displacement(p.(acceleration := Accelerated(m, w, surface, p)), tick))
  }

  /** `do_physics` as a function of the state before it. */
  function PhysicsStep(m: Math, w: World, surface: seq<IVec2>, p: Player, st: Stats, tick: real): StepResult
    requires 0 < w.terrain.circ <= |surface|
  {
    var (a, b) := Segment(m, w, surface, p.position);
    var acc := Accelerated(m, w, surface, p);
    var displacement := Displacement(p.(acceleration := acc), tick);
    var next := p.position.Plus(displacement);
    if Orientation(a, b, next) != 1 then
      var landing := GetIntersection(a, b, p.position, next);
      var position := if landing.Some? then landing.value else p.position;
      StepResult(Player(position, ZERO2, ZERO2), true, st)
    else
      var velocity := p.velocity.Plus(acc.Plus(Gravity(m, w, next)).Scale(0.5).Scale(tick));
      var stats := Stats(
        st.time + PHYSICS_TICK,
        st.distance + Length(m, ToMeters(displacement)),
        Max(st.maxAltitude, Altitude(m, w, next)),
        Max(st.maxSpeed, Length(m, velocity)));
      StepResult(Player(next, velocity, ZERO2), false, stats)
  }

  /** The game state `do_physics` reads and writes. */
  class Game {
    var player: Player
    var state: GameState
    var stats: Stats
    const world: World
    const surface: seq<IVec2>

    constructor(player: Player, state: GameState, stats: Stats, world: World, surface: seq<IVec2>)
      ensures this.player == player && this.state == state && this.stats == stats
      ensures this.world == world && this.surface == surface
    {
      this.player := player;
      this.state := state;
      this.stats := stats;
      this.world := world;
      this.surface := surface;
    }

    /** `do_physics`: apply gravity when above the segment beneath, then either
        land on the segment or advance one tick. The source needs `circ > 0`
        (the next index is reduced modulo `circ`) and a surface point for every
        index below `circ`. */
    method DoPhysics(m: Math, tick: real)
      requires 0 < world.terrain.circ <= |surface|
      modifies this
      ensures var r := PhysicsStep(m, world, surface, old(player), old(stats), tick);
        player == r.player && stats == r.stats && state == (if r.landed then Landed else old(state))
    {
      var terrainIdx := TerrainIdxBeneath(m, world, player.position);
      var terrainA := surface[terrainIdx];
      var terrainB := surface[(terrainIdx + 1) % world.terrain.circ];
      ghost var start := player;
      assert (terrainA, terrainB) == Segment(m, world, surface, start.position);

      if Orientation(terrainA, terrainB, player.position) == 1 {
        player := player.(acceleration := player.acceleration.Plus(Gravity(m, world, player.position)));
      }
      assert player == start.(acceleration := Accelerated(m, world, surface, start));

      var displacement := ToI64Coords(player.velocity.Scale(tick).Plus(player.acceleration.Scale(0.5).Scale(tick * tick)));
      assert displacement == Displacement(player, tick);
      var nextPosition := player.position.Plus(displacement);

      if Orientation(terrainA, terrainB, nextPosition) != 1 {
        var landing := GetIntersection(terrainA, terrainB, player.position, nextPosition);
        player := player.(position := if landing.Some? then landing.value else player.position);
        player := player.(velocity := ZERO2);
        player := player.(acceleration := ZERO2);
        state := Landed;
        return;
      }

      player := player.(position := nextPosition);

      var nextAcceleration := Gravity(m, world, nextPosition);
      player := player.(velocity := player.velocity.Plus(player.acceleration.Plus(nextAcceleration).Scale(0.5).Scale(tick)));
      player := player.(acceleration := ZERO2);

      stats := stats.(time := stats.time + PHYSICS_TICK);
      stats := stats.(distance := stats.distance + Length(m, ToMeters(displacement)));
      stats := stats.(maxAltitude := Max(stats.maxAltitude, Altitude(m, world, player.position)));
      stats := stats.(maxSpeed := Max(stats.maxSpeed, Length(m, player.velocity)));
    }
  }

  /** The projectile lands exactly when the end of its path is not strictly
      clockwise of (above) the segment beneath its start. */
  lemma LandsIff(m: Math, w: World, surface: seq<IVec2>, p: Player, st: Stats, tick: real)
    requires 0 < w.terrain.circ <= |surface|
    ensures var (a, b) := Segment(m, w, surface, p.position);
      PhysicsStep(m, w, surface, p, st, tick).landed <==> Cross(a, b, PathEnd(m, w, surface, p, tick)) <= 0
  {
  }

  /** Gravity only acts while the projectile is above the segment: on or below
      it, the path follows the current velocity and acceleration alone. */
  lemma GravityOnlyAbove(m: Math, w: World, surface: seq<IVec2>, p: Player)
    requires 0 < w.terrain.circ <= |surface|
    ensures var (a, b) := Segment(m, w, surface, p.position);
      Cross(a, b, p.position) <= 0 ==> Accelerated(m, w, surface, p) == p.acceleration
    ensures var (a, b) := Segment(m, w, surface, p.position);
      Cross(a, b, p.position) > 0 ==> Accelerated(m, w, surface, p) == p.acceleration.Plus(Gravity(m, w, p.position))
  {
  }

  /** Landing puts the projectile at the rounded intersection of its path with
      the segment (or leaves it where it was when the two are parallel), stops
      it, and leaves the statistics untouched. */
  lemma LandingStops(m: Math, w: World, surface: seq<IVec2>, p: Player, st: Stats, tick: real)
    requires 0 < w.terrain.circ <= |surface|
    requires PhysicsStep(m, w, surface, p, st, tick).landed
    ensures var r := PhysicsStep(m, w, surface, p, st, tick);
      var (a, b) := Segment(m, w, surface, p.position);
      var end := PathEnd(m, w, surface, p, tick);
      r.stats == st && r.player.velocity == ZERO2 && r.player.acceleration == ZERO2 &&
      (Denominator(a, b, p.position, end) == 0 ==> r.player.position == p.position) &&
      (Denominator(a, b, p.position, end) != 0 ==> Some(r.player.position) == GetIntersection(a, b, p.position, end))
  {
  }

  /** Every tick leaves the acceleration cleared. */
  lemma AccelerationCleared(m: Math, w: World, surface: seq<IVec2>, p: Player, st: Stats, tick: real)
    requires 0 < w.terrain.circ <= |surface|
    ensures PhysicsStep(m, w, surface, p, st, tick).player.acceleration == ZERO2
  {
  }

  /** An advancing tick adds one tick to the time and a non-negative distance,
      never lowers the recorded maxima, and the maxima cover the new altitude and
      speed. */
  lemma AdvanceUpdatesStats(m: Math, w: World, surface: seq<IVec2>, p: Player, st: Stats, tick: real)
    requires 0 < w.terrain.circ <= |surface| && SoundSqrt(m)
    requires !PhysicsStep(m, w, surface, p, st, tick).landed
    ensures var r := PhysicsStep(m, w, surface, p, st, tick);
      r.stats.time == st.time + PHYSICS_TICK &&
      r.stats.distance >= st.distance &&
      r.stats.maxAltitude >= st.maxAltitude && r.stats.maxAltitude >= Altitude(m, w, r.player.position) &&
      r.stats.maxSpeed >= st.maxSpeed && r.stats.maxSpeed >= Length(m, r.player.velocity)
  {
    var v := ToMeters(Displacement(p.(acceleration := Accelerated(m, w, surface, p)), tick));
    GameWorld.SquaresNonNegative(v.x, v.y);
  }

  /** An advancing tick moves to the end of its path, by exactly the displacement
      it added to the distance. */
  lemma AdvanceMoves(m: Math, w: World, surface: seq<IVec2>, p: Player, st: Stats, tick: real)
    requires 0 < w.terrain.circ <= |surface|
    requires !PhysicsStep(m, w, surface, p, st, tick).landed
    ensures PhysicsStep(m, w, surface, p, st, tick).player.position == PathEnd(m, w, surface, p, tick)
    ensures var r := PhysicsStep(m, w, surface, p, st, tick);
      r.stats.distance == st.distance + Length(m, ToMeters(r.player.position.Minus(p.position)))
  {
    var disp := Displacement(p.(acceleration := Accelerated(m, w, surface, p)), tick);
    assert PathEnd(m, w, surface, p, tick).Minus(p.position) == disp;
  }

  /** The segment beneath the last entry closes the circle back to entry 0. */
  lemma SegmentWraps(m: Math, w: World, position: IVec2)
    requires w.terrain.circ > 0 && TerrainIdxBeneath(m, w, position) == w.terrain.circ - 1
    ensures SegmentIndices(m, w, position) == (w.terrain.circ - 1, 0)
  {
  }

  /** `(i + 1) % n` is the successor round a circle of `n`. */
  lemma SuccessorMod(i: nat, n: nat)
    requires i < n
    ensures (i + 1) % n == if i + 1 == n then 0 else i + 1
  {
  }
}
