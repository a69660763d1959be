/** The one-way launch stage machine that `run` drives in both trebuchet models
    (`src/game/trebuchet.rs` and `src/trebuchet.rs`): the projectile rests on the
    ground (Stage1), swings in the sling (Stage2), and is released (Stage3). */
module StageMachine {
  datatype TrebuchetState = Stage1 | Stage2 | Stage3

  /** The position of a stage in launch order. */
  function Rank(s: TrebuchetState): nat {
    match s
    case Stage1 => 0
    case Stage2 => 1
    case Stage3 => 2
  }

  /** The state after the guard of one `run`: Stage1 leaves the ground when the
      ground force is no longer positive (`lifted`), Stage2 releases when the
      projectile's velocity angle is at most a quarter turn (`released`), Stage3
      stays. Each guard is only consulted in its own stage. */
  function Next(s: TrebuchetState, lifted: bool, released: bool): (t: TrebuchetState)
    ensures Rank(t) == Rank(s) || Rank(t) == Rank(s) + 1
    ensures t != s <==> (s == Stage1 && lifted) || (s == Stage2 && released)
  {
    match s
    case Stage1 => if lifted then Stage2 else Stage1
    case Stage2 => if released then Stage3 else Stage2
    case Stage3 => Stage3
  }

  /** Stage3 is absorbing: no guard moves it. */
  lemma Stage3Absorbing(lifted: bool, released: bool)
    ensures Next(Stage3, lifted, released) == Stage3
  {
  }

  /** The projectile mass after the guard: entering Stage3 lightens the
      projectile to 0.01; nothing else changes it. */
  function MassAfter(s: TrebuchetState, released: bool, mProj: real): (r: real)
    ensures r == (if Next(s, false, released) == Stage3 && s != Stage3 then 0.01 else mProj)
  {
    if s == Stage2 && released then 0.01 else mProj
  }

  /** The state after a sequence of `run`s, each with its pair of guard outcomes. */
  function Runs(s: TrebuchetState, guards: seq<(bool, bool)>): TrebuchetState
    decreases guards
  {
    if guards == [] then s else Runs(Next(s, guards[0].0, guards[0].1), guards[1..])
  }

  /** `n` runs move at most `n` stages forward and never back. */
  lemma {:induction false} RunsBounded(s: TrebuchetState, guards: seq<(bool, bool)>)
    ensures Rank(s) <= Rank(Runs(s, guards)) <= Rank(s) + |guards|
    decreases guards
  {
    if guards != [] {
      RunsBounded(Next(s, guards[0].0, guards[0].1), guards[1..]);
    }
  }

  /** Once released, the projectile stays released whatever the guards say. */
  lemma {:induction false} RunsFromStage3(guards: seq<(bool, bool)>)
    ensures Runs(Stage3, guards) == Stage3
  {
    if guards != [] {
      RunsFromStage3(guards[1..]);
    }
  }

  /** Launching from rest takes at least two runs. */
  lemma LaunchNeedsTwoRuns(guards: seq<(bool, bool)>)
    requires Runs(Stage1, guards) == Stage3
    ensures |guards| >= 2
  {
    RunsBounded(Stage1, guards);
  }
}
