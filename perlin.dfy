/** One-dimensional value noise (`src/world/perlin.rs`): a table of random samples
    in `[-1, 1)`, a quintic fade between neighbouring samples, and a sum of four
    octaves at doubling frequency and halving amplitude. */
module Perlin {
  import opened Utils

  /** The number of octaves `get` sums. */
  const OCTAVES: nat := 4

  /** The noise table. */
  datatype PerlinNoise = PerlinNoise(noise: seq<real>)

  /** The random source: `gen(seed, k)` is the `k`-th `gen_range(-1.0, 1.0)` draw
      after `srand(seed)`. */
  type Generator = (nat, nat) -> real

  /** A generator that keeps its promise to draw from `[-1, 1)`. */
  ghost predicate DrawsInRange(gen: Generator) {
    forall seed, k :: -1.0 <= gen(seed, k) < 1.0
  }

  /** The first `length` draws after seeding with `seed`. */
  function Table(seed: nat, length: nat, gen: Generator): (t: seq<real>)
    ensures |t| == length
  {
    seq(length, k requires 0 <= k < length => gen(seed, k))
  }

  /** Every table value lies in `[-1, 1]`. */
  ghost predicate UnitTable(p: PerlinNoise) {
    forall k :: 0 <= k < |p.noise| ==> -1.0 <= p.noise[k] <= 1.0
  }

  /** `PerlinNoise::new`: seed the generator, then push `length` draws. */
  method New(seed: nat, length: nat, gen: Generator) returns (p: PerlinNoise)
    ensures |p.noise| == length
    ensures forall k :: 0 <= k < length ==> p.noise[k] == gen(seed, k)
    ensures DrawsInRange(gen) ==> UnitTable(p)
  {
    var noise: seq<real> := [];
    var k := 0;
    while k < length
      invariant 0 <= k <= length
      invariant |noise| == k
      invariant forall i :: 0 <= i < k ==> noise[i] == gen(seed, i)
    {
      noise := noise + [gen(seed, k)];
      k := k + 1;
    }
    p := PerlinNoise(noise);
  }

  /** The table `New` builds is the one `Table` describes. */
  lemma NewIsTable(p: PerlinNoise, seed: nat, length: nat, gen: Generator)
    requires |p.noise| == length
    requires forall k :: 0 <= k < length ==> p.noise[k] == gen(seed, k)
    ensures p.noise == Table(seed, length, gen)
  {
  }

  /** `x.floor() as usize`: the floor, saturated at zero for negative `x`. */
  function PrevIndex(x: real): (i: nat)
    ensures 0.0 <= x ==> i as real <= x < i as real + 1.0
  {
    if x.Floor < 0 then 0 else x.Floor
  }

  /** `x.fract()`: `x` minus its truncation toward zero. */
  function Fract(x: real): (f: real)
    ensures 0.0 <= x ==> 0.0 <= f < 1.0
  {
    x - Trunc(x) as real
  }

  /** The quintic fade `6t^5 - 15t^4 + 10t^3`. */
  function Fade(t: real): real {
    6.0 * (t * t * t * t * t) - 15.0 * (t * t * t * t) + 10.0 * (t * t * t)
  }

  /** The fade fixes both ends of the unit interval and maps it into itself. */
  lemma FadeUnit(t: real)
    requires 0.0 <= t <= 1.0
    ensures 0.0 <= Fade(t) <= 1.0
    ensures t == 0.0 ==> Fade(t) == 0.0
    ensures t == 1.0 ==> Fade(t) == 1.0
  {
    var t3 := t * t * t;
    var u := 1.0 - t;
    var u3 := u * u * u;
    assert Fade(t) == t3 * (6.0 * t * t - 15.0 * t + 10.0);
    assert 1.0 - Fade(t) == u3 * (6.0 * t * t + 3.0 * t + 1.0);
    NonNegativeProduct(t, t);
    NonNegativeProduct(t * t, t);
    NonNegativeProduct(u, u);
    NonNegativeProduct(u * u, u);
    assert 6.0 * t * t - 15.0 * t + 10.0 > 0.0 by {
      assert 6.0 * t * t - 15.0 * t + 10.0 == 6.0 * (t - 1.25) * (t - 1.25) + 0.625;
    }
    assert 6.0 * t * t + 3.0 * t + 1.0 > 0.0;
    NonNegativeProduct(t3, 6.0 * t * t - 15.0 * t + 10.0);
    NonNegativeProduct(u3, 6.0 * t * t + 3.0 * t + 1.0);
  }

  lemma NonNegativeProduct(a: real, b: real)
    requires 0.0 <= a && 0.0 <= b
    ensures 0.0 <= a * b
  {
  }

  /** `interpolate`: fade between the samples at `floor(x)` and `floor(x) + 1`,
      both read modulo the table length. */
  function Interpolate(p: PerlinNoise, x: real): real
    requires |p.noise| > 0
  {
    var n := |p.noise|;
    var prev := PrevIndex(x);
    var a := p.noise[prev % n];
    var b := p.noise[(prev + 1) % n];
    a + Fade(Fract(x)) * (b - a)
  }

  /** At a whole number `k` the interpolation is the sample `k mod n` itself. */
  lemma InterpolateAtInteger(p: PerlinNoise, k: nat)
    requires |p.noise| > 0
    ensures Interpolate(p, k as real) == p.noise[k % |p.noise|]
  {
    TruncOfInt(k);
    assert Fract(k as real) == 0.0;
    FadeUnit(0.0);
  }

  /** For `x >= 0` the interpolation lies between its two samples. */
  lemma InterpolateBetween(p: PerlinNoise, x: real)
    requires |p.noise| > 0 && 0.0 <= x
    ensures var n := |p.noise|;
      var a := p.noise[PrevIndex(x) % n];
      var b := p.noise[(PrevIndex(x) + 1) % n];
      (a <= b ==> a <= Interpolate(p, x) <= b) && (b <= a ==> b <= Interpolate(p, x) <= a)
  {
    var n := |p.noise|;
    var a := p.noise[PrevIndex(x) % n];
    var b := p.noise[(PrevIndex(x) + 1) % n];
    var t := Fract(x);
    assert 0.0 <= t < 1.0;
    FadeUnit(t);
    var f := Fade(t);
    var v := Interpolate(p, x);
    assert v == a + f * (b - a);
    Blend(a, b, f, v);
  }

  lemma Blend(a: real, b: real, f: real, v: real)
    requires 0.0 <= f <= 1.0 && v == a + f * (b - a)
    ensures a <= b ==> a <= v <= b
    ensures b <= a ==> b <= v <= a
  {
    var d := b - a;
    assert v == a + f * d;
    assert d - f * d == (1.0 - f) * d;
    if a <= b {
      NonNegativeProduct(f, d);
      NonNegativeProduct(1.0 - f, d);
    } else {
      NonNegativeProduct(f, -d);
      NonNegativeProduct(1.0 - f, -d);
      assert f * -d == -(f * d);
      assert (1.0 - f) * -d == -((1.0 - f) * d);
    }
  }

  /** The fold of `get` written out over its four octaves. */
  lemma GetUnfold(p: PerlinNoise, x: real, ampl: real, freq: real)
    requires |p.noise| > 0
    ensures Get(p, x, ampl, freq) == Octave(p, x, ampl, freq, 0) + Octave(p, x, ampl, freq, 1)
      + Octave(p, x, ampl, freq, 2) + Octave(p, x, ampl, freq, 3)
  {
    assert OctaveSum(p, x, ampl, freq, 1) == Octave(p, x, ampl, freq, 0);
    assert OctaveSum(p, x, ampl, freq, 2) == OctaveSum(p, x, ampl, freq, 1) + Octave(p, x, ampl, freq, 1);
    assert OctaveSum(p, x, ampl, freq, 3) == OctaveSum(p, x, ampl, freq, 2) + Octave(p, x, ampl, freq, 2);
    assert OctaveSum(p, x, ampl, freq, 4) == OctaveSum(p, x, ampl, freq, 3) + Octave(p, x, ampl, freq, 3);
  }

  /** With table values in `[-1, 1]` and `x >= 0`, the interpolation lies in `[-1, 1]`. */
  lemma InterpolateUnit(p: PerlinNoise, x: real)
    requires |p.noise| > 0 && 0.0 <= x && UnitTable(p)
    ensures -1.0 <= Interpolate(p, x) <= 1.0
  {
    InterpolateBetween(p, x);
  }

  /** `2.0_f32.powi(k)` for the octaves `k` that `get` visits. */
  const POW2: seq<real> := [1.0, 2.0, 4.0, 8.0]

  /** Octave `k`: the interpolation at `x * freq * 2^k`, weighted by `ampl / 2^k`. */
  function Octave(p: PerlinNoise, x: real, ampl: real, freq: real, k: nat): real
    requires |p.noise| > 0 && k < OCTAVES
  {
    Weighted(Interpolate(p, x * freq * POW2[k]), ampl, POW2[k])
  }

  /** A sample scaled by the amplitude and divided by the octave's power of two. */
  function Weighted(v: real, ampl: real, c: real): real
    requires c != 0.0
  {
    v * ampl / c
  }

  /** The fold of `get` after its first `count` octaves. */
  function OctaveSum(p: PerlinNoise, x: real, ampl: real, freq: real, count: nat): real
    requires |p.noise| > 0 && count <= OCTAVES
  {
    if count == 0 then 0.0
    else OctaveSum(p, x, ampl, freq, count - 1) + Octave(p, x, ampl, freq, count - 1)
  }

  /** `get`: the sum of the four octaves. */
  function Get(p: PerlinNoise, x: real, ampl: real, freq: real): real
    requires |p.noise| > 0
  {
    OctaveSum(p, x, ampl, freq, OCTAVES)
  }

  function Abs(r: real): real { if r < 0.0 then -r else r }

  /** Each octave is bounded by its weight. */
  lemma OctaveBound(p: PerlinNoise, x: real, ampl: real, freq: real, k: nat)
    requires |p.noise| > 0 && k < OCTAVES && 0.0 <= x && 0.0 <= freq && UnitTable(p)
    ensures Abs(Octave(p, x, ampl, freq, k)) <= Abs(ampl) / POW2[k]
  {
    OctaveSampleUnit(p, x, freq, k);
    WeightedBound(Interpolate(p, x * freq * POW2[k]), ampl, POW2[k]);
  }

  /** The sample an octave reads lies in `[-1, 1]`. */
  lemma OctaveSampleUnit(p: PerlinNoise, x: real, freq: real, k: nat)
    requires |p.noise| > 0 && k < OCTAVES && 0.0 <= x && 0.0 <= freq && UnitTable(p)
    ensures POW2[k] > 0.0
    ensures -1.0 <= Interpolate(p, x * freq * POW2[k]) <= 1.0
  {
    NonNegativeProduct(x, freq);
    NonNegativeProduct(x * freq, POW2[k]);
    InterpolateUnit(p, x * freq * POW2[k]);
  }

  lemma WeightedBound(v: real, ampl: real, c: real)
    requires -1.0 <= v <= 1.0 && c > 0.0
    ensures Abs(Weighted(v, ampl, c)) <= Abs(ampl) / c
  {
    var w := v * ampl;
    var a := Abs(ampl);
    assert -a <= w <= a by {
      NonNegativeProduct(1.0 - v, a);
      NonNegativeProduct(1.0 + v, a);
      assert w == v * a || w == -(v * a);
    }
    if w >= 0.0 {
      DivideMonotone(w, a, c);
    } else {
      DivideMonotone(-w, a, c);
      assert -(w / c) == (-w) / c;
    }
  }

  lemma DivideMonotone(u: real, v: real, c: real)
    requires 0.0 <= u <= v && c > 0.0
    ensures 0.0 <= u / c <= v / c
  {
    assert v / c - u / c == (v - u) / c;
  }

  /** With table values in `[-1, 1]`, `x >= 0` and `freq >= 0`, the four octaves
      stay within `(1 + 1/2 + 1/4 + 1/8) * |ampl| = 1.875 * |ampl|`. */
  lemma GetBound(p: PerlinNoise, x: real, ampl: real, freq: real)
    requires |p.noise| > 0 && 0.0 <= x && 0.0 <= freq && UnitTable(p)
    ensures Abs(Get(p, x, ampl, freq)) <= 1.875 * Abs(ampl)
  {
    GetUnfold(p, x, ampl, freq);
    OctaveBound(p, x, ampl, freq, 0);
    OctaveBound(p, x, ampl, freq, 1);
    OctaveBound(p, x, ampl, freq, 2);
    OctaveBound(p, x, ampl, freq, 3);
    FourOctaves(Octave(p, x, ampl, freq, 0), Octave(p, x, ampl, freq, 1),
                Octave(p, x, ampl, freq, 2), Octave(p, x, ampl, freq, 3), Abs(ampl));
  }

  lemma FourOctaves(t0: real, t1: real, t2: real, t3: real, a: real)
    requires Abs(t0) <= a / 1.0 && Abs(t1) <= a / 2.0 && Abs(t2) <= a / 4.0 && Abs(t3) <= a / 8.0
    ensures Abs(t0 + t1 + t2 + t3) <= 1.875 * a
  {
  }

  /** `get(x, 0, freq) == 0`, whatever the table. */
  lemma GetZeroAmplitude(p: PerlinNoise, x: real, freq: real)
    requires |p.noise| > 0
    ensures Get(p, x, 0.0, freq) == 0.0
  {
    GetUnfold(p, x, 0.0, freq);
    ZeroWeight(Interpolate(p, x * freq * POW2[0]), POW2[0]);
    ZeroWeight(Interpolate(p, x * freq * POW2[1]), POW2[1]);
    ZeroWeight(Interpolate(p, x * freq * POW2[2]), POW2[2]);
    ZeroWeight(Interpolate(p, x * freq * POW2[3]), POW2[3]);
  }

  lemma ZeroWeight(v: real, c: real)
    requires c > 0.0
    ensures v * 0.0 / c == 0.0
  {
  }
}
