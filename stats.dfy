/** The flight statistics of `src/game/stats.rs` and the score they crunch to. */
module Stats {
  import opened Utils

  /** The running statistics of a flight; `Default` is all zeros. */
  datatype Stats = Stats(time: real, distance: real, maxAltitude: real, maxSpeed: real)

  const DEFAULT: Stats := Stats(0.0, 0.0, 0.0, 0.0)

  /** One labelled statistic for display. */
  datatype Stat = Stat(field: string, value: real, unit: string)

  /** `as_vec`: the four statistics in display order. */
  function AsVec(s: Stats): (r: seq<Stat>)
    ensures |r| == 4
  {
    [
      Stat("Time", s.time, "s"),
      Stat("Distance", s.distance, "m"),
      Stat("Max Altitude", s.maxAltitude, "m"),
      Stat("Max Speed", s.maxSpeed, "m/s")
    ]
  }

  /** The statistics read back from their display list, by position. */
  function FromVec(v: seq<Stat>): Stats
    requires |v| == 4
  {
    Stats(v[0].value, v[1].value, v[2].value, v[3].value)
  }

  /** The display list loses nothing: reading it back gives the statistics. */
  lemma AsVecRoundTrip(s: Stats)
    ensures FromVec(AsVec(s)) == s
  {
  }

  /** The labels and units do not depend on the values, and name the four
      statistics in the order Time, Distance, Max Altitude, Max Speed. */
  lemma AsVecLabels(s: Stats, t: Stats)
    ensures forall i :: 0 <= i < 4 ==> AsVec(s)[i].field == AsVec(t)[i].field && AsVec(s)[i].unit == AsVec(t)[i].unit
    ensures [AsVec(s)[0].field, AsVec(s)[1].field, AsVec(s)[2].field, AsVec(s)[3].field]
      == ["Time", "Distance", "Max Altitude", "Max Speed"]
  {
  }

  /** The largest `u32`. */
  const U32_MAX: nat := 0xFFFF_FFFF

  /** Rust's `as u32` on a float: truncation, saturated at 0 and at `u32::MAX`. */
  function ToU32(r: real): (n: nat)
    ensures n <= U32_MAX
    ensures 0.0 <= r < U32_MAX as real ==> n as real <= r < n as real + 1.0
    ensures r < 1.0 ==> n == 0
    ensures r >= U32_MAX as real ==> n == U32_MAX
  {
    var t := ToUsize(r);
    if t > U32_MAX then U32_MAX else t
  }

  /** The weighted sum the score truncates; time does not take part. */
  function Weighted(s: Stats): real {
    s.distance * 0.1 + s.maxAltitude * 0.3 + s.maxSpeed * 0.6
  }

  /** `crunch`: the weighted sum as a `u32`. */
  function Crunch(s: Stats): (score: nat)
    ensures score <= U32_MAX
    ensures 0.0 <= Weighted(s) < U32_MAX as real ==> score as real <= Weighted(s) < score as real + 1.0
    ensures Weighted(s) < 0.0 ==> score == 0
  {
    ToU32(s.distance * 0.1 + s.maxAltitude * 0.3 + s.maxSpeed * 0.6)
  }

  /** Fresh statistics score zero. */
  lemma CrunchDefault()
    ensures Crunch(DEFAULT) == 0
  {
  }

  /** The time spent does not change the score. */
  lemma CrunchIgnoresTime(s: Stats, time: real)
    ensures Crunch(s.(time := time)) == Crunch(s)
  {
  }

  /** The score never drops when distance, altitude or speed grow. */
  lemma CrunchMonotone(s: Stats, t: Stats)
    requires s.distance <= t.distance && s.maxAltitude <= t.maxAltitude && s.maxSpeed <= t.maxSpeed
    ensures Crunch(s) <= Crunch(t)
  {
    TruncMonotone(Weighted(s), Weighted(t));
  }
}
