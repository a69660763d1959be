/** The older terrain generator (`src/world/terrain.rs`): a terrain of `circ`
    surface points around a planet, optionally shaped by a preset list of sections.
    Each section contributes its length in entries of noise around twice its
    amplitude, and the map is smoothed (window of 100 entries) at every section
    transition. */
module Terrain {
  import opened Linear
  import opened Utils
  import opened Seqs
  import Perlin
  import Smoothing

  const AMPL_PLAIN: real := 500.0
  const AMPL_HILLS: real := 1000.0
  const AMPL_ROCKY: real := 2000.0

  const FREQ_PLAIN: real := 0.001
  const FREQ_HILLS: real := 0.01
  const FREQ_ROCKY: real := 0.1

  /** A section of the preset: its class and its length in entries. */
  datatype TerrainClass =
    | Plain(length: nat)
    | Hills(length: nat)
    | Desert(length: nat)
    | Rocky(length: nat)
    | Ocean(length: nat)

  /** The terrain: its number of entries and one fixed-point surface point per entry. */
  datatype Terrain = Terrain(circ: nat, surface: seq<IVec2>)

  /** The noise parameters `(amplitude, frequency)` of a section. */
  function Params(c: TerrainClass): (real, real) {
    match c
    case Plain(_) => (AMPL_PLAIN, FREQ_PLAIN)
    case Hills(_) => (AMPL_HILLS, FREQ_HILLS)
    case Desert(_) => (AMPL_HILLS, FREQ_PLAIN)
    case Rocky(_) => (AMPL_ROCKY, FREQ_ROCKY)
    case Ocean(_) => (-AMPL_HILLS, FREQ_ROCKY)
  }

  /** The fixed noise seed, `u64::from_le_bytes(b"ami cute")`. */
  const AMI_CUTE: nat := 7310597163735149921

  function SectionLengths(sections: seq<TerrainClass>): (r: seq<nat>)
    ensures |r| == |sections| && forall k :: 0 <= k < |sections| ==> r[k] == sections[k].length
  {
    seq(|sections|, k requires 0 <= k < |sections| => sections[k].length)
  }

  function Total(sections: seq<TerrainClass>): nat {
    Sum(SectionLengths(sections))
  }

  /** `vec![params; length]` per section, in order. */
  function SectionParams(sections: seq<TerrainClass>): (r: seq<seq<(real, real)>>)
    ensures |r| == |sections|
    ensures forall k :: 0 <= k < |sections| ==> r[k] == Repeat(Params(sections[k]), sections[k].length)
    ensures Lengths(r) == SectionLengths(sections)
  {
    seq(|sections|, k requires 0 <= k < |sections| => Repeat(Params(sections[k]), sections[k].length))
  }

  /** The transition points: after each section, the running total of the lengths
      reduced modulo `circ`. */
  function TransitionPoints(circ: nat, sections: seq<TerrainClass>): (r: seq<nat>)
    requires circ > 0 || sections == []
    ensures |r| == |sections|
    ensures forall k :: 0 <= k < |sections| ==> r[k] < circ
    ensures forall k :: 0 <= k < |sections| ==> r[k] == Sum(SectionLengths(sections)[..k + 1]) % circ
  {
    seq(|sections|, k requires 0 <= k < |sections| => Sum(SectionLengths(sections)[..k + 1]) % circ)
  }

  /** The height map before smoothing: entry `i` is `noise.get(i, ampl, freq) + 2 * ampl`. */
  function Unsmoothed(noise: Perlin.PerlinNoise, params: seq<(real, real)>): (r: seq<real>)
    requires |noise.noise| > 0 || params == []
    ensures |r| == |params|
  {
    seq(|params|, i requires 0 <= i < |params| =>
      Perlin.Get(noise, i as real, params[i].0, params[i].1) + params[i].0 * 2.0)
  }

  const SMOOTH_LENGTH: nat := 100

  /** `FACTOR = PI / SMOOTH_LENGTH`. */
  const FACTOR: real := PI / 100.0

  /** Every point is a valid argument of `smooth_at` on a map of `n` entries. */
  predicate SmoothablePoints(points: seq<nat>, n: nat) {
    forall k :: 0 <= k < |points| ==> points[k] < n && points[k] + n >= SMOOTH_LENGTH / 2
  }

  /** `smooth_at` applied at each point in turn. */
  function SmoothAll(m: Math, s: seq<real>, points: seq<nat>): (r: seq<real>)
    requires SmoothablePoints(points, |s|)
    ensures |r| == |s|
  {
    if points == [] then s
    else
      var init := points[..|points| - 1];
      assert SmoothablePoints(init, |s|) by {
        assert forall k :: 0 <= k < |init| ==> init[k] == points[k];
      }
      var t := SmoothAll(m, s, init);
      Smoothing.Smoothed(m, FACTOR, t, points[|points| - 1], SMOOTH_LENGTH)
  }

  /** The height map `generate_height_map` returns, for a preset whose transitions
      are all inside the map. */
  function HeightMap(m: Math, circ: nat, sections: seq<TerrainClass>, gen: Perlin.Generator): (r: seq<real>)
    requires circ > 0 || sections == []
    requires SmoothablePoints(TransitionPoints(circ, sections), Total(sections))
    ensures |r| == Total(sections)
  {
    var noise := Perlin.PerlinNoise(Perlin.Table(AMI_CUTE, circ, gen));
    var params := Flatten(SectionParams(sections));
    SmoothAll(m, Unsmoothed(noise, params), TransitionPoints(circ, sections))
  }

  /** `generate_height_map`: lay out the sections while accumulating the running
      index and the transition points, compute every entry's noise, then smooth at
      every transition in order. The world class argument is unused by the source
      and left out. A section needs `circ > 0` (its transition is reduced modulo
      `circ`), and every transition must be a valid argument of `smooth_at`. */
  method GenerateHeightMap(m: Math, circ: nat, sections: seq<TerrainClass>, gen: Perlin.Generator)
    returns (heightMap: seq<real>)
    requires circ > 0 || sections == []
    requires SmoothablePoints(TransitionPoints(circ, sections), Total(sections))
    ensures heightMap == HeightMap(m, circ, sections, gen)
  {
    var noise := Perlin.New(AMI_CUTE, circ, gen);
    Perlin.NewIsTable(noise, AMI_CUTE, circ, gen);
    var currentIdx := 0;
    var transitionPoints: seq<nat> := [];
    var noiseParameters: seq<seq<(real, real)>> := [];
    var k := 0;
    while k < |sections|
      invariant 0 <= k <= |sections|
      invariant currentIdx == Sum(SectionLengths(sections)[..k])
      invariant noiseParameters == SectionParams(sections)[..k]
      invariant transitionPoints == TransitionPoints(circ, sections)[..k]
    {
      SumSnoc(SectionLengths(sections), k);
      PrefixSnoc(SectionParams(sections), k);
      PrefixSnoc(TransitionPoints(circ, sections), k);
      currentIdx := currentIdx + sections[k].length;
      noiseParameters := noiseParameters + [Repeat(Params(sections[k]), sections[k].length)];
      transitionPoints := transitionPoints + [currentIdx % circ];
      k := k + 1;
    }
    assert noiseParameters == SectionParams(sections);
    assert transitionPoints == TransitionPoints(circ, sections);
    var params := Flatten(noiseParameters);
    var unsmoothed := Unsmoothed(noise, params);
    var heights := new real[|unsmoothed|](i requires 0 <= i < |unsmoothed| => unsmoothed[i]);
    var t := 0;
    while t < |transitionPoints|
      invariant 0 <= t <= |transitionPoints|
      invariant heights.Length == |unsmoothed|
      invariant SmoothablePoints(transitionPoints[..t], |unsmoothed|)
      invariant heights[..] == SmoothAll(m, unsmoothed, transitionPoints[..t])
    {
      Smoothing.SmoothAt(heights, transitionPoints[t], SMOOTH_LENGTH, FACTOR, m);
      SmoothAllSnoc(m, unsmoothed, transitionPoints, t);
      t := t + 1;
    }
    assert transitionPoints[..t] == transitionPoints;
    heightMap := heights[..];
  }

  /** Smoothing at one more point smooths the result of the earlier ones. */
  lemma SmoothAllSnoc(m: Math, s: seq<real>, points: seq<nat>, t: nat)
    requires t < |points| && SmoothablePoints(points, |s|)
    ensures SmoothablePoints(points[..t], |s|) && SmoothablePoints(points[..t + 1], |s|)
    ensures SmoothAll(m, s, points[..t + 1]) ==
      Smoothing.Smoothed(m, FACTOR, SmoothAll(m, s, points[..t]), points[t], SMOOTH_LENGTH)
  {
    assert points[..t + 1][..t] == points[..t];
  }

  /** Entry `o` of section `k`, before smoothing, sits right after the earlier
      sections and is the noise there under section `k`'s parameters plus twice
      the amplitude. */
  lemma UnsmoothedAt(noise: Perlin.PerlinNoise, sections: seq<TerrainClass>, k: nat, o: nat)
    requires |noise.noise| > 0 && k < |sections| && o < sections[k].length
    ensures var params := Flatten(SectionParams(sections));
      var i := Sum(SectionLengths(sections)[..k]) + o;
      i < |params| &&
      Unsmoothed(noise, params)[i] == Perlin.Get(noise, i as real, Params(sections[k]).0, Params(sections[k]).1)
        + Params(sections[k]).0 * 2.0
  {
    FlattenAt(SectionParams(sections), k, o);
  }

  /** The last transition point is the total length reduced modulo `circ`; when
      the sections are shorter than `circ` together, it is the map length itself,
      so `smooth_at` would index past the end. */
  lemma LastTransitionIsLength(circ: nat, sections: seq<TerrainClass>)
    requires circ > 0 && sections != [] && Total(sections) < circ
    ensures TransitionPoints(circ, sections)[|sections| - 1] == Total(sections)
    ensures !SmoothablePoints(TransitionPoints(circ, sections), Total(sections))
  {
    assert SectionLengths(sections)[..|sections|] == SectionLengths(sections);
  }

  /** For a map of at least 100 entries a smoothing step changes only the 100
      entries from `Start = (idx + len - 50) % len`. */
  lemma SmoothAtWindow(m: Math, s: seq<real>, idx: nat, k: nat)
    requires idx < |s| && idx + |s| >= SMOOTH_LENGTH / 2 && SMOOTH_LENGTH <= |s| && k < |s|
    requires Smoothing.Offset(|s|, Smoothing.Start(|s|, idx, SMOOTH_LENGTH), k) >= SMOOTH_LENGTH
    ensures Smoothing.Smoothed(m, FACTOR, s, idx, SMOOTH_LENGTH)[k] == s[k]
  {
    Smoothing.SmoothedWindow(m, FACTOR, s, idx, SMOOTH_LENGTH, k);
  }

  /** The first entry of the window keeps its value. */
  lemma SmoothAtFirstUnchanged(m: Math, s: seq<real>, idx: nat)
    requires idx < |s| && idx + |s| >= SMOOTH_LENGTH / 2 && SMOOTH_LENGTH <= |s| && m.cos(0.0) == 1.0
    ensures var start := Smoothing.Start(|s|, idx, SMOOTH_LENGTH);
      Smoothing.Smoothed(m, FACTOR, s, idx, SMOOTH_LENGTH)[start] == s[start]
  {
    Smoothing.SmoothedFirstUnchanged(m, FACTOR, s, idx, SMOOTH_LENGTH);
  }

  /** `(radius / 1000 * TAU).floor() as usize`: one entry per kilometre of
      circumference, saturated at zero for a negative radius. */
  function Circ(radius: real): (c: nat)
    ensures 0.0 <= radius ==> c as real <= radius / 1000.0 * TAU < c as real + 1.0
    ensures radius < 0.0 ==> c == 0
    ensures c > 0 ==> radius > 0.0
  {
    var x := radius / 1000.0 * TAU;
    if x.Floor < 0 then 0 else x.Floor
  }

  /** The surface point of entry `i` at height `height`: the polar point at
      distance `radius + height` and angle `i * 1000 / radius`, in fixed point,
      offset by the world position. */
  function SurfacePoint(m: Math, position: IVec2, radius: real, i: nat, height: real): IVec2
    requires radius != 0.0
  {
    ToI64Coords(PolarToCartesian(m, radius + height, i as real * 1000.0 / radius)).Plus(position)
  }

  /** The surface of a height map: one point per entry. */
  function Surface(m: Math, position: IVec2, radius: real, heights: seq<real>): (r: seq<IVec2>)
    requires radius != 0.0 || heights == []
    ensures |r| == |heights|
  {
    seq(|heights|, i requires 0 <= i < |heights| => SurfacePoint(m, position, radius, i, heights[i]))
  }

  /** `Terrain::new`: without a preset the height map is `circ` zeros; with one it
      is the generated map. The surface has one point per entry. */
  method New(m: Math, position: IVec2, radius: real, preset: Option<seq<TerrainClass>>, gen: Perlin.Generator)
    returns (t: Terrain)
    requires preset.Some? ==> Circ(radius) > 0 || preset.value == []
    requires preset.Some? ==> SmoothablePoints(TransitionPoints(Circ(radius), preset.value), Total(preset.value))
    ensures t.circ == Circ(radius)
    ensures preset.None? ==> t.surface == Surface(m, position, radius, Repeat(0.0, t.circ))
    ensures preset.Some? ==> t.surface == Surface(m, position, radius, HeightMap(m, t.circ, preset.value, gen))
  {
    var circ := Circ(radius);
    var heightMap: seq<real>;
    match preset {
      case Some(sections) =>
        heightMap := GenerateHeightMap(m, circ, sections, gen);
        if heightMap != [] {
          assert Total(sections) > 0;
        }
      case None =>
        heightMap := Repeat(0.0, circ);
    }
    t := Terrain(circ, Surface(m, position, radius, heightMap));
  }

  /** Without a preset there is exactly one surface point per kilometre of
      circumference, each at the bare radius. */
  lemma NewWithoutPreset(m: Math, position: IVec2, radius: real, i: nat)
    requires i < Circ(radius)
    ensures |Surface(m, position, radius, Repeat(0.0, Circ(radius)))| == Circ(radius)
    ensures Surface(m, position, radius, Repeat(0.0, Circ(radius)))[i] ==
      ToI64Coords(PolarToCartesian(m, radius, i as real * 1000.0 / radius)).Plus(position)
  {
  }
}
