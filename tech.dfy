/** The research tree of `src/game/tech.rs`: parallel lists of names, costs,
    spots, descriptions, prerequisites and obtained flags, looked up by name;
    and the placement of each tech on the tree screen from its level. */
module Tech {
  import opened Linear
  import opened Seqs

  /** One tech as read from the tree's JSON description; `spot` is its level. */
  datatype Tech = Tech(name: string, cost: nat, spot: nat, desc: string, requ: Option<seq<string>>)

  /** `TechTree`, one entry per tech in every list. Icons are not modelled. */
  datatype TechTree = TechTree(names: seq<string>, costs: seq<nat>, spots: seq<Vec2>, descs: seq<string>,
                               requs: seq<Option<seq<string>>>, obtained: seq<bool>)

  /** Every list has one entry per tech. */
  predicate Valid(t: TechTree) {
    |t.costs| == |t.names| && |t.spots| == |t.names| && |t.descs| == |t.names| &&
    |t.requs| == |t.names| && |t.obtained| == |t.names|
  }

  // ---------------------------------------------------------------------------
  // Lookups

  /** The first position of `name` in `names`. */
  function Position(names: seq<string>, name: string): (r: Option<nat>)
    ensures r.None? <==> name !in names
    ensures r.Some? ==> r.value < |names| && names[r.value] == name &&
                        forall j :: 0 <= j < r.value ==> names[j] != name
  {
    if names == [] then None
    else if names[0] == name then Some(0)
    else
      match Position(names[1..], name)
      case None =>
        assert names == [names[0]] + names[1..];
        None
      case Some(i) =>
        assert forall j :: 1 <= j <= i ==> names[j] == names[1..][j - 1];
        Some(i + 1)
  }

  /** `get_index`: the position of the first tech called `name`; `None` where
      the source panics because there is none. */
  function GetIndex(t: TechTree, name: string): (r: Option<nat>)
    ensures r.None? <==> name !in t.names
    ensures r.Some? ==> r.value < |t.names| && t.names[r.value] == name &&
                        forall j :: 0 <= j < r.value ==> t.names[j] != name
  {
    Position(t.names, name)
  }

  /** `have`: whether the tech called `name` is obtained; `None` where the
      source panics because there is none. */
  function Have(t: TechTree, name: string): (r: Option<bool>)
    requires Valid(t)
    ensures r.None? <==> name !in t.names
  {
    match GetIndex(t, name)
    case None => None
    case Some(i) => Some(t.obtained[i])
  }

  /** `parents.iter().all(have)`: stops at the first parent that is not
      obtained; reaching an unknown name first panics (`None`). */
  function AllHave(t: TechTree, parents: seq<string>): Option<bool>
    requires Valid(t)
  {
    if parents == [] then Some(true)
    else
      match Have(t, parents[0])
      case None => None
      case Some(false) => Some(false)
      case Some(true) => AllHave(t, parents[1..])
  }

  /** `available`: a tech without prerequisites is available, one with a list is
      available when every listed parent is obtained. */
  function Available(t: TechTree, index: nat): Option<bool>
    requires Valid(t) && index < |t.requs|
  {
    match t.requs[index]
    case None => Some(true)
    case Some(parents) => AllHave(t, parents)
  }

  /** All parents are had exactly when every one of them names an obtained tech. */
  lemma {:induction false} AllHaveIff(t: TechTree, parents: seq<string>)
    requires Valid(t)
    ensures AllHave(t, parents) == Some(true) <==> forall k :: 0 <= k < |parents| ==> Have(t, parents[k]) == Some(true)
  {
    if parents != [] {
      AllHaveIff(t, parents[1..]);
      assert forall k :: 1 <= k < |parents| ==> parents[k] == parents[1..][k - 1];
    }
  }

  /** A `false` answer names a parent that exists and is not obtained. */
  lemma {:induction false} AllHaveFalse(t: TechTree, parents: seq<string>)
    requires Valid(t) && AllHave(t, parents) == Some(false)
    ensures exists k :: 0 <= k < |parents| && Have(t, parents[k]) == Some(false)
  {
    if Have(t, parents[0]) != Some(false) {
      AllHaveFalse(t, parents[1..]);
      var k :| 0 <= k < |parents[1..]| && Have(t, parents[1..][k]) == Some(false);
      assert parents[k + 1] == parents[1..][k];
    }
  }

  /** A tech is available exactly when it has no prerequisite list or every
      listed parent is obtained; an empty list counts as no prerequisites. */
  lemma AvailableIff(t: TechTree, index: nat)
    requires Valid(t) && index < |t.requs|
    ensures Available(t, index) == Some(true) <==>
      t.requs[index].None? || forall k :: 0 <= k < |t.requs[index].value| ==> Have(t, t.requs[index].value[k]) == Some(true)
    ensures t.requs[index] == Some([]) ==> Available(t, index) == Some(true)
  {
    if t.requs[index].Some? {
      AllHaveIff(t, t.requs[index].value);
    }
  }

  /** Marking tech `index` obtained, as the test does. */
  function Obtain(t: TechTree, index: nat): (r: TechTree)
    requires Valid(t) && index < |t.names|
    ensures Valid(r)
  {
    t.(obtained := t.obtained[index := true])
  }

  /** After obtaining the tech at `name`'s index, `have(name)` holds, and `have`
      of every other known name is unchanged. */
  lemma HaveAfterObtain(t: TechTree, name: string, other: string)
    requires Valid(t) && name in t.names
    ensures var t' := Obtain(t, GetIndex(t, name).value);
      Have(t', name) == Some(true) &&
      (other != name ==> Have(t', other) == Have(t, other))
  {
  }

  /** Obtaining a tech never makes another one unavailable. */
  lemma ObtainKeepsAvailable(t: TechTree, index: nat, other: nat)
    requires Valid(t) && index < |t.names| && other < |t.names|
    requires Available(t, other) == Some(true)
    ensures Available(Obtain(t, index), other) == Some(true)
  {
    var t' := Obtain(t, index);
    AvailableIff(t, other);
    AvailableIff(t', other);
  }

  // ---------------------------------------------------------------------------
  // Layout of the tree screen

  /** `per_level[c]`: one more than the number of techs at level `c`. */
  function PerLevel(level: seq<nat>, c: nat): (r: real)
    ensures r >= 1.0
  {
    (Count(level, c) + 1) as real
  }

  /** The room left over on the levels below `n`: `per_level[c] - 1` added up. */
  function Slack(level: seq<nat>, n: nat): real
  {
    if n == 0 then 0.0 else Slack(level, n - 1) + (PerLevel(level, n - 1) - 1.0)
  }

  lemma {:induction false} SlackCounts(level: seq<nat>, n: nat)
    ensures Slack(level, n) == CountsBelow(level, n) as real
  {
    if n > 0 {
      SlackCounts(level, n - 1);
      var c: nat := n - 1;
      assert PerLevel(level, c) - 1.0 == Count(level, c) as real;
    }
  }

  /** Every tech is counted on exactly one level: `per_level[c] - 1` summed over
      the levels `0..=max_level` is the number of techs. */
  lemma PerLevelPartition(level: seq<nat>)
    requires |level| > 0
    ensures Slack(level, Max(level) + 1) == |level| as real
  {
    SlackCounts(level, Max(level) + 1);
    CountsBelowAll(level, Max(level) + 1);
  }

  /** How far along its level the `i`-th tech sits: its rank among the techs of
      that level so far, over `per_level`. */
  function Along(level: seq<nat>, i: nat): real
    requires i < |level|
  {
    Count(level[..i + 1], level[i]) as real / PerLevel(level, level[i])
  }

  /** The row of the `i`-th tech: its level plus one over `max_level + 2`. */
  function Row(level: seq<nat>, i: nat): real
    requires i < |level|
  {
    (level[i] + 1) as real / (Max(level) + 2) as real
  }

  /** The spot of the `i`-th tech on the tree screen. */
  function Spot(level: seq<nat>, i: nat): Vec2
    requires i < |level|
  {
    Vec2(Along(level, i), Row(level, i))
  }

  /** The spot-layout block of `init`: counts the techs placed so far on each
      level and places each tech along its level. An empty tree panics at
      `max().unwrap()` in the source. */
  method Layout(level: seq<nat>) returns (spots: seq<Vec2>)
    requires |level| > 0
    ensures |spots| == |level|
    ensures forall i :: 0 <= i < |level| ==> spots[i] == Spot(level, i)
  {
    var maxLevel := Max(level);
    var perLevel := seq(maxLevel + 1, c requires 0 <= c <= maxLevel => PerLevel(level, c));
    var count := new real[maxLevel + 1](_ => 0.0);
    assert level[..0] == [];
    spots := [];
    var i := 0;
    while i < |level|
      invariant 0 <= i <= |level|
      invariant |spots| == i
      invariant forall k :: 0 <= k < i ==> spots[k] == Spot(level, k)
      invariant forall c: nat :: c <= maxLevel ==> count[c] == Count(level[..i], c) as real
      invariant forall c: nat :: c <= maxLevel ==> perLevel[c] == PerLevel(level, c)
    {
      var l := level[i];
      assert l <= maxLevel;
      forall c: nat | c <= maxLevel
        ensures Count(level[..i + 1], c) == Count(level[..i], c) + (if l == c then 1 else 0)
      {
        CountSnoc(level, i, c);
      }
      count[l] := count[l] + 1.0;
      var rank, per := count[l], perLevel[l];
      AlongFromCount(level, i, rank, per);
      var spot := Vec2(rank / per, (l + 1) as real / (maxLevel + 2) as real);
      RowFromMax(level, i, maxLevel);
      spots := spots + [spot];
      i := i + 1;
    }
  }

  /** `Along` from the running count and `per_level`, as the loop of `Layout` has them. */
  lemma AlongFromCount(level: seq<nat>, i: nat, count: real, perLevel: real)
    requires i < |level|
    requires count == Count(level[..i + 1], level[i]) as real && perLevel == PerLevel(level, level[i])
    ensures Along(level, i) == count / perLevel
  {
  }

  /** `Row` from the highest level, as the loop of `Layout` has it. */
  lemma RowFromMax(level: seq<nat>, i: nat, maxLevel: nat)
    requires i < |level| && maxLevel == Max(level)
    ensures Row(level, i) == (level[i] + 1) as real / (maxLevel + 2) as real
  {
  }

  /** Each tech's rank on its level is at least one and below `per_level`. */
  lemma RankBounds(level: seq<nat>, i: nat)
    requires i < |level|
    ensures 1 <= Count(level[..i + 1], level[i]) < Count(level, level[i]) + 1
  {
    CountSnoc(level, i, level[i]);
    CountPrefix(level, i + 1, level[i]);
  }

  /** Every spot lies strictly inside the unit square. */
  lemma SpotInside(level: seq<nat>, i: nat)
    requires i < |level|
    ensures 0.0 < Spot(level, i).x < 1.0 && 0.0 < Spot(level, i).y < 1.0
  {
    RankBounds(level, i);
    UnitFraction(Count(level[..i + 1], level[i]) as real, PerLevel(level, level[i]));
    assert level[i] <= Max(level);
    UnitFraction((level[i] + 1) as real, (Max(level) + 2) as real);
  }

  lemma UnitFraction(k: real, n: real)
    requires 0.0 < k < n
    ensures 0.0 < k / n < 1.0
  {
    DivideStrict(0.0, k, n);
    DivideStrict(k, n, n);
    assert n / n == 1.0;
  }

  /** Along a level, later techs sit further along. */
  lemma SpotAlongLevel(level: seq<nat>, i: nat, j: nat)
    requires i < j < |level| && level[i] == level[j]
    ensures Spot(level, i).x < Spot(level, j).x
  {
    var l := level[i];
    var s := level[..j + 1];
    assert s[..j] == level[..j];
    assert s[j] == l;
    CountPrefix(s, j, l);
    assert level[..j][..i + 1] == level[..i + 1];
    CountPrefix(level[..j], i + 1, l);
    var a := Count(level[..i + 1], l) as real;
    var b := Count(level[..j + 1], l) as real;
    assert a < b;
    DivideStrict(a, b, PerLevel(level, l));
  }

  lemma DivideStrict(a: real, b: real, n: real)
    requires a < b && n > 0.0
    ensures a / n < b / n
  {
  }

  /** Techs of one level share a row, and higher levels sit in higher rows. */
  lemma SpotRows(level: seq<nat>, i: nat, j: nat)
    requires i < |level| && j < |level|
    ensures level[i] == level[j] ==> Spot(level, i).y == Spot(level, j).y
    ensures level[i] < level[j] ==> Spot(level, i).y < Spot(level, j).y
  {
    if level[i] < level[j] {
      DivideStrict((level[i] + 1) as real, (level[j] + 1) as real, (Max(level) + 2) as real);
    }
  }

  // ---------------------------------------------------------------------------
  // Building the tree

  /** `init` after loading: one entry per imported tech in every list, spots from
      the levels, nothing obtained. Reading the file, parsing it and loading icons
      are not part of this model. */
  method Init(techs: seq<Tech>) returns (tree: TechTree)
    requires |techs| > 0
    ensures Valid(tree) && |tree.names| == |techs|
    ensures forall i :: 0 <= i < |techs| ==>
      tree.names[i] == techs[i].name && tree.costs[i] == techs[i].cost &&
      tree.descs[i] == techs[i].desc && tree.requs[i] == techs[i].requ &&
      !tree.obtained[i]
    ensures var level := seq(|techs|, i requires 0 <= i < |techs| => techs[i].spot);
      forall i :: 0 <= i < |techs| ==> tree.spots[i] == Spot(level, i)
  {
    var names: seq<string> := [];
    var costs: seq<nat> := [];
    var level: seq<nat> := [];
    var descs: seq<string> := [];
    var requs: seq<Option<seq<string>>> := [];
    for k := 0 to |techs|
      invariant |names| == k && |costs| == k && |level| == k && |descs| == k && |requs| == k
      invariant forall i :: 0 <= i < k ==>
        names[i] == techs[i].name && costs[i] == techs[i].cost && level[i] == techs[i].spot &&
        descs[i] == techs[i].desc && requs[i] == techs[i].requ
    {
      names := names + [techs[k].name];
      costs := costs + [techs[k].cost];
      level := level + [techs[k].spot];
      descs := descs + [techs[k].desc];
      requs := requs + [techs[k].requ];
    }
    assert level == seq(|techs|, i requires 0 <= i < |techs| => techs[i].spot);
    var spots := Layout(level);
    tree := TechTree(names, costs, spots, descs, requs, seq(|techs|, _ => false));
  }
}
