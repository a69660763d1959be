/** The newer terrain generator (`src/game/world/terrain.rs`): sections of a class
    and a length are laid out one after another, each entry gets its class's
    amplitude and frequency, and its height is the noise at its index plus the
    amplitude. Smoothing uses a window of 30 entries. */
module GameTerrain {
  import opened Linear
  import opened Seqs
  import Perlin
  import Smoothing

  const AMPL_PLAIN: real := 500.0
  const AMPL_HILLS: real := 1000.0
  const AMPL_ROCKY: real := 2000.0

  const FREQ_PLAIN: real := 0.001
  const FREQ_HILLS: real := 0.01
  const FREQ_ROCKY: real := 0.1

  datatype TerrainClass = Plain | Hills | Sands | Rocky | Ocean

  /** `TerrainIndex`: a class and a length in entries (kilometres). */
  datatype Section = Section(kind: TerrainClass, length: nat)

  /** The noise parameters `(amplitude, frequency)` of a class. */
  datatype NoiseParams = NoiseParams(ampl: real, freq: real)

  function Params(c: TerrainClass): NoiseParams {
    match c
    case Plain => NoiseParams(AMPL_PLAIN, FREQ_PLAIN)
    case Hills => NoiseParams(AMPL_HILLS, FREQ_HILLS)
    case Sands => NoiseParams(AMPL_HILLS, FREQ_PLAIN)
    case Rocky => NoiseParams(AMPL_ROCKY, FREQ_ROCKY)
    case Ocean => NoiseParams(-AMPL_HILLS, FREQ_ROCKY)
  }

  /** Little-endian bytes to an unsigned integer (`u64::from_le_bytes`). */
  function FromLeBytes(bs: seq<nat>): nat {
    if bs == [] then 0 else bs[0] + 256 * FromLeBytes(bs[1..])
  }

  /** The code points of a string. */
  function Bytes(s: string): (bs: seq<nat>)
    ensures |bs| == |s| && forall i :: 0 <= i < |s| ==> bs[i] == s[i] as nat
  {
    seq(|s|, i requires 0 <= i < |s| => s[i] as nat)
  }

  /** The fixed noise seed. */
  const AMI_CUTE: nat := 7310597163735149921

  /** The seed is the eight bytes of "ami cute" read little-endian. */
  lemma AmiCuteSeed()
    ensures FromLeBytes(Bytes("ami cute")) == AMI_CUTE
  {
    var bs := Bytes("ami cute");
    assert bs == [97, 109, 105, 32, 99, 117, 116, 101];
    assert bs[1..] == [109, 105, 32, 99, 117, 116, 101];
    assert bs[2..] == [105, 32, 99, 117, 116, 101];
    assert bs[3..] == [32, 99, 117, 116, 101];
    assert bs[4..] == [99, 117, 116, 101];
    assert bs[5..] == [117, 116, 101];
    assert bs[6..] == [116, 101];
    assert bs[7..] == [101];
    assert bs[8..] == [];
  }

  /** `vec![params; length]` for each section, in input order. */
  function SectionParams(sections: seq<Section>): (r: seq<seq<NoiseParams>>)
    ensures |r| == |sections|
    ensures forall k :: 0 <= k < |sections| ==> r[k] == Repeat(Params(sections[k].kind), sections[k].length)
  {
    seq(|sections|, k requires 0 <= k < |sections| => Repeat(Params(sections[k].kind), sections[k].length))
  }

  /** The length of each section. */
  function SectionLengths(sections: seq<Section>): (r: seq<nat>)
    ensures |r| == |sections| && forall k :: 0 <= k < |sections| ==> r[k] == sections[k].length
    ensures r == Lengths(SectionParams(sections))
  {
    seq(|sections|, k requires 0 <= k < |sections| => sections[k].length)
  }

  /** The total length of all sections. */
  function Total(sections: seq<Section>): nat {
    Sum(SectionLengths(sections))
  }

  /** The per-entry noise parameters: the sections' runs one after another. */
  function Layout(sections: seq<Section>): (r: seq<NoiseParams>)
    ensures |r| == Total(sections)
  {
    Flatten(SectionParams(sections))
  }

  /** Every entry of the layout carries the parameters of some section's class. */
  lemma LayoutFromSections(sections: seq<Section>, i: nat)
    requires i < Total(sections)
    ensures exists k :: 0 <= k < |sections| && Layout(sections)[i] == Params(sections[k].kind)
    ensures Layout(sections)[i].freq > 0.0
  {
    FlattenFrom(SectionParams(sections), i);
    var k, o :| 0 <= k < |sections| && 0 <= o < sections[k].length && Layout(sections)[i] == SectionParams(sections)[k][o];
    assert Layout(sections)[i] == Params(sections[k].kind);
  }

  /** The noise generator seeded with `AMI_CUTE` over a table of `circ` entries. */
  function Noise(circ: nat, gen: Perlin.Generator): (p: Perlin.PerlinNoise)
    ensures |p.noise| == circ
  {
    Perlin.PerlinNoise(Perlin.Table(AMI_CUTE, circ, gen))
  }

  /** `gen_height_map`: entry `i` is `noise.get(i, ampl, freq) + ampl`. A
      non-empty map needs a non-empty noise table (the lookup reduces modulo
      `circ`). */
  function GenHeightMap(circ: nat, sections: seq<Section>, gen: Perlin.Generator): (r: seq<real>)
    requires circ > 0 || Total(sections) == 0
    ensures |r| == Total(sections)
  {
    var params := Layout(sections);
    seq(|params|, i requires 0 <= i < |params| =>
      Perlin.Get(Noise(circ, gen), i as real, params[i].ampl, params[i].freq) + params[i].ampl)
  }

  /** Entry `o` of section `k` sits right after the earlier sections and is the
      noise at that index under section `k`'s parameters, plus the amplitude. */
  lemma GenHeightMapAt(circ: nat, sections: seq<Section>, gen: Perlin.Generator, k: nat, o: nat)
    requires circ > 0 || Total(sections) == 0
    requires k < |sections| && o < sections[k].length
    ensures var i := Sum(SectionLengths(sections)[..k]) + o;
      var ps := Params(sections[k].kind);
      i < |GenHeightMap(circ, sections, gen)| &&
      GenHeightMap(circ, sections, gen)[i] == Perlin.Get(Noise(circ, gen), i as real, ps.ampl, ps.freq) + ps.ampl
  {
    var xs := SectionParams(sections);
    FlattenAt(xs, k, o);
    var i := Sum(SectionLengths(sections)[..k]) + o;
    assert SectionLengths(sections) == Lengths(xs);
    assert xs[k][o] == Params(sections[k].kind);
    var params := Layout(sections);
    assert params[i] == Params(sections[k].kind);
    assert GenHeightMap(circ, sections, gen)[i]
      == Perlin.Get(Noise(circ, gen), i as real, params[i].ampl, params[i].freq) + params[i].ampl;
  }

  /** With a generator that keeps to `[-1, 1)`, every height lies within
      `1.875 * |ampl|` of its section's amplitude. */
  lemma GenHeightMapBound(circ: nat, sections: seq<Section>, gen: Perlin.Generator, i: nat)
    requires circ > 0 || Total(sections) == 0
    requires Perlin.DrawsInRange(gen) && i < Total(sections)
    ensures var ps := Layout(sections)[i];
      Perlin.Abs(GenHeightMap(circ, sections, gen)[i] - ps.ampl) <= 1.875 * Perlin.Abs(ps.ampl)
  {
    var ps := Layout(sections)[i];
    LayoutFromSections(sections, i);
    Perlin.GetBound(Noise(circ, gen), i as real, ps.ampl, ps.freq);
  }

  const SMOOTH_LENGTH: nat := 30

  /** `FACTOR = PI / SMOOTH_LENGTH`. */
  const FACTOR: real := PI / 30.0

  /** `smooth_at` with a window of 30 entries. */
  method SmoothAt(heights: array<real>, index: nat, m: Math)
    requires index < heights.Length && index + heights.Length >= SMOOTH_LENGTH / 2
    modifies heights
    ensures heights[..] == Smoothing.Smoothed(m, FACTOR, old(heights[..]), index, SMOOTH_LENGTH)
  {
    Smoothing.SmoothAt(heights, index, SMOOTH_LENGTH, FACTOR, m);
  }

  /** For a map of at least 30 entries only the 30 entries from
      `Start = (index + len - 15) % len` change. */
  lemma SmoothAtWindow(m: Math, s: seq<real>, index: nat, k: nat)
    requires index < |s| && index + |s| >= SMOOTH_LENGTH / 2 && SMOOTH_LENGTH <= |s| && k < |s|
    requires Smoothing.Offset(|s|, Smoothing.Start(|s|, index, SMOOTH_LENGTH), k) >= SMOOTH_LENGTH
    ensures Smoothing.Smoothed(m, FACTOR, s, index, SMOOTH_LENGTH)[k] == s[k]
  {
    Smoothing.SmoothedWindow(m, FACTOR, s, index, SMOOTH_LENGTH, k);
  }

  /** The first entry of the window keeps its value. */
  lemma SmoothAtFirstUnchanged(m: Math, s: seq<real>, index: nat)
    requires index < |s| && index + |s| >= SMOOTH_LENGTH / 2 && SMOOTH_LENGTH <= |s| && m.cos(0.0) == 1.0
    ensures var start := Smoothing.Start(|s|, index, SMOOTH_LENGTH);
      Smoothing.Smoothed(m, FACTOR, s, index, SMOOTH_LENGTH)[start] == s[start]
  {
    Smoothing.SmoothedFirstUnchanged(m, FACTOR, s, index, SMOOTH_LENGTH);
  }
}
