/** `smooth_at`, shared by both terrain generators: around a transition index it
    removes half the step between the entry and its predecessor from a window of
    cyclically consecutive entries, weighted by `cos(j * pi / window) - signum(...)`.
    The two generators differ only in the window length (100 and 30). */
module Smoothing {
  import opened Linear

  /** `f32::signum` on a non-NaN value: `+1` for zero and positive values. */
  function Signum(w: real): (r: real)
    ensures r == 1.0 || r == -1.0
    ensures (r == 1.0) <==> (w >= 0.0)
  {
    if w >= 0.0 then 1.0 else -1.0
  }

  /** The angle `j * factor` of step `j`, accumulated one `factor` at a time.
      The source computes `j as f32 * FACTOR` directly; the accumulated form is a
      proof device that keeps the products out of the loop proofs, and
      `AngleIsProduct` shows the two agree. */
  function Angle(factor: real, j: nat): real {
    if j == 0 then 0.0 else Angle(factor, j - 1) + factor
  }

  /** The accumulated angle is the product `j * factor` the source computes, so
      `Delta` is the source's weight expression. */
  lemma {:induction false} AngleIsProduct(factor: real, j: nat)
    ensures Angle(factor, j) == j as real * factor
  {
    if j > 0 {
      AngleIsProduct(factor, j - 1);
      assert (j - 1) as real * factor + factor == j as real * factor;
    }
  }

  /** The weight subtracted (times `mid`) at step `j`, with `factor` the angle step
      `FACTOR = PI / SMOOTH_LENGTH`. */
  function Delta(m: Math, factor: real, j: nat): real {
    var weight := m.cos(Angle(factor, j));
    weight - Signum(weight)
  }

  /** With `cos 0 = 1` the first step subtracts nothing. */
  lemma FirstDeltaZero(m: Math, factor: real)
    requires m.cos(0.0) == 1.0
    ensures Delta(m, factor, 0) == 0.0
  {
  }

  /** The cyclic predecessor `(idx + len - 1) % len`. */
  function Prev(len: nat, idx: nat): (r: nat)
    requires idx < len
    ensures r < len
    ensures r == if idx == 0 then len - 1 else idx - 1
  {
    ModBelowTwice(idx + len - 1, len);
    (idx + len - 1) % len
  }

  /** Half the step from the predecessor up to entry `idx`, read before any write. */
  function Mid(s: seq<real>, idx: nat): real
    requires idx < |s|
  {
    (s[idx] - s[Prev(|s|, idx)]) / 2.0
  }

  /** The first index of the window, `(idx + len - window / 2) % len`. */
  function Start(len: nat, idx: nat, window: nat): (r: nat)
    requires idx < len && idx + len >= window / 2
    ensures r < len
  {
    (idx + len - window / 2) % len
  }

  /** How far entry `k` lies after the window start, going round the circle. */
  function Offset(len: nat, start: nat, k: nat): (o: nat)
    requires start < len && k < len
    ensures o < len
    ensures o == if k >= start then k - start else k + len - start
  {
    ModBelowTwice(k + len - start, len);
    (k + len - start) % len
  }

  /** The entry written at step `d`: `d` places after `start`, round the circle,
      one place at a time. */
  function Pos(start: nat, d: nat, len: nat): (p: nat)
    requires start < len
    ensures p < len
    decreases d
  {
    if d == 0 then start
    else
      var q := Pos(start, d - 1, len);
      if q + 1 == len then 0 else q + 1
  }

  /** Stepping round the circle one place at a time lands on `(start + d) % len`,
      the index the source computes. */
  lemma {:induction false} PosIsMod(start: nat, d: nat, len: nat)
    requires start < len
    ensures Pos(start, d, len) == (start + d) % len
  {
    if d == 0 {
      ModUnique(start, len, 0, start);
    } else {
      PosIsMod(start, d - 1, len);
      ModNext(start + d - 1, len);
    }
  }

  /** Two multiples of `n` with different factors lie at least `n` apart. */
  lemma MultiplesApart(n: int, q: int, q': int)
    requires n > 0 && q > q'
    ensures n * q - n * q' >= n
  {
    var k := q - q';
    assert n * k >= n * 1;
    assert n * q == n * (q' + k) == n * q' + n * k;
  }

  /** The remainder is the only `r` in `[0, n)` with `x == n * q + r`. */
  lemma ModUnique(x: int, n: int, q: int, r: int)
    requires n > 0 && 0 <= r < n && x == n * q + r
    ensures x % n == r
  {
    var q', r' := x / n, x % n;
    assert x == n * q' + r';
    if q > q' {
      MultiplesApart(n, q, q');
      assert false;
    } else if q < q' {
      MultiplesApart(n, q', q);
      assert false;
    }
  }

  /** One more place round the circle. */
  lemma ModNext(x: nat, n: nat)
    requires n > 0
    ensures (x + 1) % n == if x % n + 1 == n then 0 else x % n + 1
  {
    var q, r := x / n, x % n;
    assert x == n * q + r;
    if r + 1 == n {
      ModUnique(x + 1, n, q + 1, 0);
    } else {
      ModUnique(x + 1, n, q, r + 1);
    }
  }

  /** What step `d` subtracts from its entry: `mid` times the step's weight. */
  function Decrement(mid: real, m: Math, factor: real, d: nat): real {
    mid * Delta(m, factor, d)
  }

  /** The first `j` steps of the loop: step `d` subtracts `mid * Delta(d)` from
      entry `(start + d) % len`, each step seeing the writes of the ones before. */
  function Apply(s: seq<real>, start: nat, mid: real, m: Math, factor: real, window: nat, j: nat): (r: seq<real>)
    requires start < |s| && window > 0 && j <= window
    ensures |r| == |s|
    decreases j
  {
    if j == 0 then s
    else
      var t := Apply(s, start, mid, m, factor, window, j - 1);
      var p := Pos(start, j - 1, |s|);
      t[p := t[p] - Decrement(mid, m, factor, j - 1)]
  }

  /** The array after `smooth_at(array, idx)` with a window of `window` entries. */
  function Smoothed(m: Math, factor: real, s: seq<real>, idx: nat, window: nat): (r: seq<real>)
    requires idx < |s| && idx + |s| >= window / 2 && window > 0
    ensures |r| == |s|
  {
    Apply(s, Start(|s|, idx, window), Mid(s, idx), m, factor, window, window)
  }

  /** `smooth_at` on the buffer in place. The source demands `idx < len` (the read
      of `array[idx]`) and `idx + len >= window / 2` (an unsigned subtraction). */
  method SmoothAt(a: array<real>, idx: nat, window: nat, factor: real, m: Math)
    requires idx < a.Length && idx + a.Length >= window / 2 && window > 0
    modifies a
    ensures a[..] == Smoothed(m, factor, old(a[..]), idx, window)
  {
    var len := a.Length;
    var prev := (idx + len - 1) % len;
    var mid := (a[idx] - a[prev]) / 2.0;
    ghost var s := a[..];
    ghost var start := Start(len, idx, window);
    assert mid == Mid(s, idx);
    var i := (idx + len - window / 2) % len;
    var j := 0;
    while j < window
      invariant 0 <= j <= window
      invariant i == start + j
      invariant a[..] == Apply(s, start, mid, m, factor, window, j)
    {
      var weight := m.cos(j as real * factor);
      LoopStep(mid, m, factor, weight, start, i, j, len);
      ApplyStep(s, start, mid, m, factor, window, j + 1);
      a[i % len] := a[i % len] - mid * (weight - Signum(weight));
      i := i + 1;
      j := j + 1;
    }
    assert a[..] == Apply(s, start, mid, m, factor, window, window);
  }

  /** What one turn of the loop computes: the source's cosine of `j * factor` gives
      step `j`'s decrement, and `i % len` is the entry step `j` writes. */
  lemma LoopStep(mid: real, m: Math, factor: real, weight: real, start: nat, i: nat, j: nat, len: nat)
    requires weight == m.cos(j as real * factor) && start < len && i == start + j
    ensures mid * (weight - Signum(weight)) == Decrement(mid, m, factor, j)
    ensures i % len == Pos(start, j, len)
  {
    AngleIsProduct(factor, j);
    PosIsMod(start, j, len);
  }

  /** Step `j - 1` of the loop writes entry `Pos(start, j - 1)` and no other. */
  lemma ApplyStep(s: seq<real>, start: nat, mid: real, m: Math, factor: real, window: nat, j: nat)
    requires start < |s| && window > 0 && 0 < j <= window
    ensures var t := Apply(s, start, mid, m, factor, window, j - 1);
      var p := Pos(start, j - 1, |s|);
      Apply(s, start, mid, m, factor, window, j) == t[p := t[p] - Decrement(mid, m, factor, j - 1)]
  {
  }

  lemma ModBelowTwice(x: int, n: int)
    requires n > 0 && 0 <= x < 2 * n
    ensures x % n == if x < n then x else x - n
  {
    if x < n {
      assert x == n * 0 + x;
    } else {
      assert x == n * 1 + (x - n);
    }
  }

  /** Step `d` writes entry `k` exactly when `k` lies `d` entries after the start. */
  lemma StepWrites(len: nat, start: nat, d: nat, k: nat)
    requires start < len && d < len && k < len
    ensures (Pos(start, d, len) == k) <==> (Offset(len, start, k) == d)
  {
    PosIsMod(start, d, len);
    ModBelowTwice(start + d, len);
  }

  /** After `j <= len` steps the entries `0..j-1` places after the start have each
      been written once, and every other entry still holds its old value. */
  lemma {:induction false} ApplyAt(s: seq<real>, start: nat, mid: real, m: Math, factor: real, window: nat, j: nat, k: nat)
    requires 0 < window <= |s| && start < |s| && j <= window && k < |s|
    ensures Apply(s, start, mid, m, factor, window, j)[k] ==
      if Offset(|s|, start, k) < j then s[k] - mid * Delta(m, factor, Offset(|s|, start, k)) else s[k]
  {
    if j > 0 {
      ApplyAt(s, start, mid, m, factor, window, j - 1, k);
      StepWrites(|s|, start, j - 1, k);
    }
  }

  /** For `window <= len` the smoothing changes only the `window` cyclically
      consecutive entries from `Start`: entry `k` at offset `o < window` loses
      `mid * Delta(o)`, every other entry is unchanged. */
  lemma SmoothedWindow(m: Math, factor: real, s: seq<real>, idx: nat, window: nat, k: nat)
    requires idx < |s| && idx + |s| >= window / 2 && 0 < window <= |s| && k < |s|
    ensures var o := Offset(|s|, Start(|s|, idx, window), k);
      Smoothed(m, factor, s, idx, window)[k] ==
        if o < window then s[k] - Mid(s, idx) * Delta(m, factor, o) else s[k]
  {
    ApplyAt(s, Start(|s|, idx, window), Mid(s, idx), m, factor, window, window, k);
  }

  /** The first entry of the window keeps its value (its weight is `cos 0 = 1`). */
  lemma SmoothedFirstUnchanged(m: Math, factor: real, s: seq<real>, idx: nat, window: nat)
    requires idx < |s| && idx + |s| >= window / 2 && 0 < window <= |s| && m.cos(0.0) == 1.0
    ensures Smoothed(m, factor, s, idx, window)[Start(|s|, idx, window)] == s[Start(|s|, idx, window)]
  {
    SmoothedWindow(m, factor, s, idx, window, Start(|s|, idx, window));
    FirstDeltaZero(m, factor);
  }

  /** The window is centred on `idx`: the entry `window / 2` places after its start is `idx`. */
  lemma WindowCentred(len: nat, idx: nat, window: nat)
    requires idx < len && idx + len >= window / 2
    ensures (Start(len, idx, window) + window / 2) % len == idx
  {
    ModBelowTwice(idx + len - window / 2, len);
    ModBelowTwice(Start(len, idx, window) + window / 2, len);
  }
}
