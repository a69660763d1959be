/** Sequence helpers shared by the terrain layout and the tech-tree layout: sums,
    counts, maxima, `vec![x; n]` and `iter().flatten()`. */
module Seqs {

  /** The sum of a sequence of naturals. */
  function Sum(s: seq<nat>): nat {
    if s == [] then 0 else s[0] + Sum(s[1..])
  }

  /** Extending a prefix by one element adds that element to its sum. */
  lemma {:induction false} SumSnoc(s: seq<nat>, k: nat)
    requires k < |s|
    ensures Sum(s[..k + 1]) == Sum(s[..k]) + s[k]
  {
    if k == 0 {
      assert s[..1] == [s[0]];
      assert s[..1][1..] == [];
    } else {
      SumSnoc(s[1..], k - 1);
      assert s[..k + 1][1..] == s[1..][..k];
      assert s[..k][1..] == s[1..][..k - 1];
    }
  }

  /** A prefix one longer is the shorter prefix and the next element. */
  lemma PrefixSnoc<T>(s: seq<T>, k: nat)
    requires k < |s|
    ensures s[..k + 1] == s[..k] + [s[k]]
  {
  }

  /** A prefix never sums to more than the whole. */
  lemma {:induction false} SumPrefix(s: seq<nat>, k: nat)
    requires k <= |s|
    ensures Sum(s[..k]) <= Sum(s)
    ensures k < |s| ==> Sum(s[..k]) + s[k] <= Sum(s)
    decreases |s| - k
  {
    if k < |s| {
      SumSnoc(s, k);
      SumPrefix(s, k + 1);
    } else {
      assert s[..k] == s;
    }
  }

  /** `vec![x; n]`. */
  function Repeat<T>(x: T, n: nat): (r: seq<T>)
    ensures |r| == n && forall i :: 0 <= i < n ==> r[i] == x
  {
    seq(n, _ => x)
  }

  /** The length of each inner sequence. */
  function Lengths<T>(xs: seq<seq<T>>): (r: seq<nat>)
    ensures |r| == |xs| && forall i :: 0 <= i < |xs| ==> r[i] == |xs[i]|
  {
    seq(|xs|, i requires 0 <= i < |xs| => |xs[i]|)
  }

  /** `iter().flatten()`: the inner sequences one after another, in order. */
  function Flatten<T>(xs: seq<seq<T>>): (r: seq<T>)
    ensures |r| == Sum(Lengths(xs))
  {
    if xs == [] then []
    else
      assert Lengths(xs)[1..] == Lengths(xs[1..]);
      xs[0] + Flatten(xs[1..])
  }

  /** Element `o` of the `k`-th inner sequence sits in the flattening right after
      the elements of the `k` sequences before it. */
  lemma {:induction false} FlattenAt<T>(xs: seq<seq<T>>, k: nat, o: nat)
    requires k < |xs| && o < |xs[k]|
    ensures Sum(Lengths(xs)[..k]) + o < |Flatten(xs)|
    ensures Flatten(xs)[Sum(Lengths(xs)[..k]) + o] == xs[k][o]
  {
    var ls := Lengths(xs);
    if k == 0 {
      assert ls[..0] == [];
    } else {
      FlattenAt(xs[1..], k - 1, o);
      assert ls[..k][1..] == Lengths(xs[1..])[..k - 1];
      assert Lengths(xs)[1..] == Lengths(xs[1..]);
    }
  }

  /** Every element of the flattening comes from one of the inner sequences. */
  lemma {:induction false} FlattenFrom<T>(xs: seq<seq<T>>, i: nat)
    requires i < |Flatten(xs)|
    ensures exists k, o :: 0 <= k < |xs| && 0 <= o < |xs[k]| && Flatten(xs)[i] == xs[k][o]
  {
    if i < |xs[0]| {
      assert Flatten(xs)[i] == xs[0][i];
    } else {
      FlattenFrom(xs[1..], i - |xs[0]|);
      var k, o :| 0 <= k < |xs[1..]| && 0 <= o < |xs[1..][k]| && Flatten(xs[1..])[i - |xs[0]|] == xs[1..][k][o];
      assert Flatten(xs)[i] == xs[k + 1][o];
    }
  }

  /** The number of occurrences of `x` in `s`. */
  function Count<T(==)>(s: seq<T>, x: T): (n: nat)
    ensures n <= |s|
  {
    if s == [] then 0 else (if s[0] == x then 1 else 0) + Count(s[1..], x)
  }

  /** Extending a prefix by one element counts that element once more. */
  lemma {:induction false} CountSnoc<T>(s: seq<T>, k: nat, x: T)
    requires k < |s|
    ensures Count(s[..k + 1], x) == Count(s[..k], x) + (if s[k] == x then 1 else 0)
  {
    if k == 0 {
      assert s[..1] == [s[0]];
      assert s[..1][1..] == [];
    } else {
      CountSnoc(s[1..], k - 1, x);
      assert s[..k + 1][1..] == s[1..][..k];
      assert s[..k][1..] == s[1..][..k - 1];
    }
  }

  /** A prefix holds no more occurrences than the whole; the element right after
      the prefix is one more occurrence of itself. */
  lemma {:induction false} CountPrefix<T>(s: seq<T>, k: nat, x: T)
    requires k <= |s|
    ensures Count(s[..k], x) <= Count(s, x)
    ensures k < |s| && s[k] == x ==> Count(s[..k], x) < Count(s, x)
    decreases |s| - k
  {
    if k < |s| {
      CountSnoc(s, k, x);
      CountPrefix(s, k + 1, x);
    } else {
      assert s[..k] == s;
    }
  }

  /** The occurrences in `s` of every value below `n`, added up. */
  function CountsBelow(s: seq<nat>, n: nat): nat
  {
    if n == 0 then 0 else var c: nat := n - 1; CountsBelow(s, c) + Count(s, c)
  }

  /** Counting one more element in front adds one to the total exactly when that
      element is below `n`. */
  lemma {:induction false} CountsBelowCons(s: seq<nat>, n: nat)
    requires |s| > 0
    ensures CountsBelow(s, n) == CountsBelow(s[1..], n) + (if s[0] < n then 1 else 0)
  {
    if n > 0 {
      CountsBelowCons(s, n - 1);
    }
  }

  /** When every element is below `n`, the counts of the values below `n`
      partition `s`: each element is counted exactly once. */
  lemma {:induction false} CountsBelowAll(s: seq<nat>, n: nat)
    requires forall i :: 0 <= i < |s| ==> s[i] < n
    ensures CountsBelow(s, n) == |s|
  {
    if s != [] {
      CountsBelowCons(s, n);
      assert forall i :: 0 <= i < |s[1..]| ==> s[1..][i] == s[i + 1];
      CountsBelowAll(s[1..], n);
    } else {
      CountsBelowEmpty(n);
    }
  }

  lemma {:induction false} CountsBelowEmpty(n: nat)
    ensures CountsBelow([], n) == 0
  {
    if n > 0 {
      CountsBelowEmpty(n - 1);
    }
  }

  /** `iter().max().unwrap()` over naturals. */
  function Max(s: seq<nat>): (m: nat)
    requires |s| > 0
    ensures (exists i :: 0 <= i < |s| && s[i] == m) && forall i :: 0 <= i < |s| ==> s[i] <= m
  {
    if |s| == 1 then s[0]
    else
      var rest := Max(s[1..]);
      assert forall i :: 1 <= i < |s| ==> s[i] == s[1..][i - 1];
      if s[0] >= rest then s[0] else rest
  }
}
