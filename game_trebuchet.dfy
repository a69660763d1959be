/** The newer trebuchet (`src/game/trebuchet.rs`): arm, counterweight and sling
    with materials, a builder with defaults, `reset` to the resting pose, and
    `run`, which advances the stage machine and integrates the three angles and
    angular velocities with `rk5` over a 3x3 matrix (angles, velocities, zeros).
    The equations of motion, the ground force and the projectile velocity are
    long trigonometric formulas; they are parameters of the model (`Dynamics`). */
module GameTrebuchet {
  import opened Linear
  import opened Utils
  import opened StageMachine

  datatype Material = Cardboard | Wood1 | Wood2 | Steel | Space

  /** The arm: its two lengths either side of the pivot, the distance of its
      centre of mass from the pivot, mass, moment of inertia, angle and angular
      velocity. */
  datatype Arm = Arm(longLength: real, shortLength: real, center: real, mass: real, inertia: real,
                     angle: real, velocity: real, material: Material)

  datatype Weight = Weight(length: real, mass: real, inertia: real, angle: real, velocity: real, material: Material)

  datatype Sling = Sling(length: real, angle: real, velocity: real, material: Material)

  /** `TrebuchetArm::new`: a uniform beam at rest. */
  function ArmNew(longLength: real, shortLength: real, mass: real, material: Material): (a: Arm)
    ensures a.longLength == longLength && a.shortLength == shortLength && a.mass == mass && a.material == material
    ensures a.center == (longLength - shortLength) / 2.0
    ensures a.inertia * 12.0 == mass * (longLength + shortLength) * (longLength + shortLength)
    ensures a.angle == 0.0 && a.velocity == 0.0
  {
    Arm(longLength, shortLength, (longLength + shortLength) / 2.0 - shortLength, mass,
        mass * ((longLength + shortLength) * (longLength + shortLength)) / 12.0, 0.0, 0.0, material)
  }

  /** `TrebuchetWeight::new`: unit inertia, at rest. */
  function WeightNew(length: real, mass: real, material: Material): (w: Weight)
    ensures w.length == length && w.mass == mass && w.inertia == 1.0 && w.material == material
    ensures w.angle == 0.0 && w.velocity == 0.0
  {
    Weight(length, mass, 1.0, 0.0, 0.0, material)
  }

  /** `TrebuchetSling::new`: at rest. */
  function SlingNew(length: real, material: Material): (s: Sling)
    ensures s.length == length && s.material == material && s.angle == 0.0 && s.velocity == 0.0
  {
    Sling(length, 0.0, 0.0, material)
  }

  // ---------------------------------------------------------------------------
  // Textures

  /** The prefix every texture of a material starts with. */
  function MaterialName(m: Material): string {
    match m
    case Cardboard => "cardboard"
    case Wood1 => "wood1"
    case Wood2 => "wood2"
    case Steel => "steel"
    case Space => "space"
  }

  function ArmTexture(a: Arm): (t: string)
    ensures t == MaterialName(a.material) + "_arm"
  {
    match a.material
    case Cardboard => "cardboard_arm"
    case Wood1 => "wood1_arm"
    case Wood2 => "wood2_arm"
    case Steel => "steel_arm"
    case Space => "space_arm"
  }

  function WeightTexture(w: Weight): (t: string)
    ensures t == MaterialName(w.material) + "_weight"
  {
    match w.material
    case Cardboard => "cardboard_weight"
    case Wood1 => "wood1_weight"
    case Wood2 => "wood2_weight"
    case Steel => "steel_weight"
    case Space => "space_weight"
  }

  /** The closed and the open sling textures. */
  function SlingTexture(s: Sling): (t: (string, string))
    ensures t.0 == MaterialName(s.material) + "_sling_close"
    ensures t.1 == MaterialName(s.material) + "_sling_open"
  {
    (SlingClosed(s.material), SlingOpen(s.material))
  }

  function SlingClosed(m: Material): (t: string)
    ensures t == MaterialName(m) + "_sling_close"
  {
    match m
    case Cardboard => "cardboard_sling_close"
    case Wood1 => "wood1_sling_close"
    case Wood2 => "wood2_sling_close"
    case Steel => "steel_sling_close"
    case Space => "space_sling_close"
  }

  function SlingOpen(m: Material): (t: string)
    ensures t == MaterialName(m) + "_sling_open"
  {
    match m
    case Cardboard => "cardboard_sling_open"
    case Wood1 => "wood1_sling_open"
    case Wood2 => "wood2_sling_open"
    case Steel => "steel_sling_open"
    case Space => "space_sling_open"
  }

  /** Different materials give different textures for every part. */
  lemma TexturesDistinct(a: Arm, b: Arm)
    requires a.material != b.material
    ensures ArmTexture(a) != ArmTexture(b)
    ensures WeightTexture(Weight(0.0, 0.0, 0.0, 0.0, 0.0, a.material)) != WeightTexture(Weight(0.0, 0.0, 0.0, 0.0, 0.0, b.material))
    ensures SlingTexture(Sling(0.0, 0.0, 0.0, a.material)).0 != SlingTexture(Sling(0.0, 0.0, 0.0, b.material)).0
  {
  }

  // ---------------------------------------------------------------------------
  // The trebuchet and its builder

  /** The whole trebuchet as a value: position in fixed point, height of the
      pivot, projectile mass, the three parts, and the launch stage. */
  datatype Rig = Rig(position: IVec2, height: real, mProj: real, arm: Arm, weight: Weight, sling: Sling,
                     state: TrebuchetState)

  /** `TrebuchetBuilder`: every part optional until `build`. */
  datatype Builder = Builder(position: IVec2, height: Option<real>, mProj: Option<real>,
                             arm: Option<Arm>, weight: Option<Weight>, sling: Option<Sling>)
  {
    function Height(h: real): Builder
    {
      this.(height := Some(h))
    }

    function MProj(mProj: real): Builder
    {
      this.(mProj := Some(mProj))
    }

    function WithArm(longLength: real, shortLength: real, mass: real, material: Material): Builder
    {
      this.(arm := Some(ArmNew(longLength, shortLength, mass, material)))
    }

    function WithWeight(length: real, mass: real, material: Material): Builder
    {
      this.(weight := Some(WeightNew(length, mass, material)))
    }

    function WithSling(length: real, material: Material): Builder
    {
      this.(sling := Some(SlingNew(length, material)))
    }

    /** `center`: overrides the arm's centre of mass; `None` where the source
        panics because no arm was set. */
    function Center(center: real): (b: Option<Builder>)
      ensures b.Some? <==> arm.Some?
      ensures b.Some? ==> (b.value.arm == Some(arm.value.(center := center)) && b.value.(arm := arm) == this)
    {
      match arm
      case None => None
      case Some(a) => Some(this.(arm := Some(a.(center := center))))
    }
  }

  /** `Trebuchet::init`: a builder at `position` with nothing set. */
  function Init(position: IVec2): (b: Builder)
    ensures b.position == position
    ensures b.height.None? && b.mProj.None? && b.arm.None? && b.weight.None? && b.sling.None?
  {
    Builder(position, None, None, None, None, None)
  }

  function OrElse<T>(o: Option<T>, default: T): (r: T)
    ensures o.Some? ==> r == o.value
    ensures o.None? ==> r == default
  {
    match o
    case None => default
    case Some(v) => v
  }

  /** `build`: the parts set on the builder, the defaults for the rest, and
      Stage1. */
  function Build(b: Builder): (r: Rig)
    ensures r.position == b.position && r.state == Stage1
    ensures r.height == OrElse(b.height, 1.0) && r.mProj == OrElse(b.mProj, 0.3)
    ensures r.arm == OrElse(b.arm, ArmNew(1.6, 0.4, 0.25, Cardboard))
    ensures r.weight == OrElse(b.weight, WeightNew(0.5, 5.0, Cardboard))
    ensures r.sling == OrElse(b.sling, SlingNew(1.6, Cardboard))
  {
    Rig(b.position, OrElse(b.height, 1.0), OrElse(b.mProj, 0.3),
        OrElse(b.arm, ArmNew(1.6, 0.4, 0.25, Cardboard)),
        OrElse(b.weight, WeightNew(0.5, 5.0, Cardboard)),
        OrElse(b.sling, SlingNew(1.6, Cardboard)),
        Stage1)
  }

  /** The default trebuchet: a 1 m pivot, a 0.3 kg projectile, a 2 m cardboard
      arm whose centre of mass sits 0.6 m out on the long side, everything at rest. */
  lemma BuildDefaults(position: IVec2)
    ensures var r := Build(Init(position));
      r.height == 1.0 && r.mProj == 0.3 && r.state == Stage1 &&
      r.arm.longLength == 1.6 && r.arm.shortLength == 0.4 && r.arm.mass == 0.25 &&
      r.arm.center == 0.6 && r.arm.inertia == 1.0 / 12.0 &&
      r.weight.length == 0.5 && r.weight.mass == 5.0 && r.sling.length == 1.6 &&
      r.arm.material == Cardboard && r.weight.material == Cardboard && r.sling.material == Cardboard &&
      WProjectile(r) == 0.0
  {
  }

  /** Each setter's value reaches the built trebuchet, and `center` set after
      `arm` overrides only the centre of mass. */
  lemma BuildFromSetters(position: IVec2, height: real, mProj: real, longLength: real, shortLength: real,
                         armMass: real, weightLength: real, weightMass: real, slingLength: real,
                         center: real, material: Material)
    ensures var b := Init(position).Height(height).MProj(mProj).WithArm(longLength, shortLength, armMass, material)
                       .WithWeight(weightLength, weightMass, material).WithSling(slingLength, material);
      var r := Build(b);
      r.height == height && r.mProj == mProj && r.arm == ArmNew(longLength, shortLength, armMass, material) &&
      r.weight == WeightNew(weightLength, weightMass, material) && r.sling == SlingNew(slingLength, material) &&
      b.Center(center).Some? &&
      Build(b.Center(center).value) == r.(arm := r.arm.(center := center))
  {
  }

  /** `w_projectile`: the projectile's angular velocity, arm plus sling. */
  function WProjectile(r: Rig): real {
    r.arm.velocity + r.sling.velocity
  }

  // ---------------------------------------------------------------------------
  // Reset

  /** `reset` as a function: at rest, with the arm tilted so that its long end
      touches the ground (`acos(height / long_length)`), the weight hanging
      straight down, the sling laid along the ground, Stage1 and a 0.3 kg
      projectile. */
  function ResetRig(m: Math, r: Rig): Rig
    requires r.arm.longLength != 0.0
  {
    var commonTriangle := r.height / r.arm.longLength;
    r.(arm := r.arm.(velocity := 0.0, angle := PI - m.acos(commonTriangle)),
       weight := r.weight.(velocity := 0.0, angle := m.acos(commonTriangle) - PI),
       sling := r.sling.(velocity := 0.0, angle := PI - m.asin(commonTriangle)),
       state := Stage1,
       mProj := 0.3)
  }

  /** What neither `reset` nor `run` changes: everything but the angles,
      velocities, stage and projectile mass. */
  function Shape(r: Rig): Rig {
    r.(arm := r.arm.(angle := 0.0, velocity := 0.0),
       weight := r.weight.(angle := 0.0, velocity := 0.0),
       sling := r.sling.(angle := 0.0, velocity := 0.0),
       state := Stage1, mProj := 0.0)
  }

  /** After `reset` everything is at rest, the arm and weight angles cancel, the
      stage is Stage1 with a 0.3 kg projectile, and the shape is kept. */
  lemma ResetPose(m: Math, r: Rig)
    requires r.arm.longLength != 0.0
    ensures var t := ResetRig(m, r);
      t.arm.velocity == 0.0 && t.weight.velocity == 0.0 && t.sling.velocity == 0.0 &&
      WProjectile(t) == 0.0 &&
      t.arm.angle + t.weight.angle == 0.0 &&
      t.state == Stage1 && t.mProj == 0.3 && Shape(t) == Shape(r)
  {
  }

  /** Resetting twice is resetting once. */
  lemma ResetIdempotent(m: Math, r: Rig)
    requires r.arm.longLength != 0.0
    ensures ResetRig(m, ResetRig(m, r)) == ResetRig(m, r)
  {
  }

  // ---------------------------------------------------------------------------
  // Run

  /** The equations of motion and the queries `run` consults, each a function of
      the trebuchet as the source's `&self` sees it. `stage1` and `stage2` give
      the three angular accelerations from angles and velocities. */
  datatype Dynamics = Dynamics(
    stage1: (Rig, Vec3, Vec3) -> Vec3,
    stage2: (Rig, Vec3, Vec3) -> Vec3,
    groundForce: (Rig, real) -> real,
    vProjectile: Rig -> Vec2)

  /** The 3x3 matrix `run` integrates, column by column: angles, velocities, zeros. */
  function Pack(r: Rig): (x: seq<real>)
    ensures |x| == 9
  {
    [r.arm.angle, r.weight.angle, r.sling.angle,
     r.arm.velocity, r.weight.velocity, r.sling.velocity,
     0.0, 0.0, 0.0]
  }

  /** The matrix a stage returns: velocities plus accelerations times `dt`, the
      accelerations, zeros. */
  function StageMatrix(x: seq<real>, acc: Vec3, dt: real): (y: seq<real>)
    requires |x| == 9
    ensures |y| == 9
  {
    [x[3] + acc.x * dt, x[4] + acc.y * dt, x[5] + acc.z * dt, acc.x, acc.y, acc.z, 0.0, 0.0, 0.0]
  }

  /** The stage closure `run` hands to `rk5`: the accelerations of `stage` at the
      matrix's angles and velocities, for the trebuchet `r`. */
  function Derivative(stage: (Rig, Vec3, Vec3) -> Vec3, r: Rig): (real, seq<real>) -> seq<real> {
    (dt: real, x: seq<real>) =>
      if |x| == 9 then StageMatrix(x, stage(r, Vec3(x[0], x[1], x[2]), Vec3(x[3], x[4], x[5])), dt) else x
  }

  lemma DerivativeKeepsDim(stage: (Rig, Vec3, Vec3) -> Vec3, r: Rig)
    ensures KeepsDim(Derivative(stage, r), 9)
  {
    forall t: real, v: seq<real> | |v| == 9 ensures |Derivative(stage, r)(t, v)| == 9 {
      var a := stage(r, Vec3(v[0], v[1], v[2]), Vec3(v[3], v[4], v[5]));
      assert Derivative(stage, r)(t, v) == StageMatrix(v, a, t);
    }
  }

  /** One `rk5` step of the 3x3 matrix with the stage closure of `stage` on `r`. */
  function Integrate(stage: (Rig, Vec3, Vec3) -> Vec3, r: Rig, x: seq<real>, dt: real): (y: seq<real>)
    requires |x| == 9
    ensures |y| == 9
  {
    DerivativeKeepsDim(stage, r);
    Rk5(x, dt, Derivative(stage, r))
  }

  /** A stage returns `q = w + a * dt` and `w = a`: its first column is its input
      velocities advanced by its second column over `dt`, its third is zero. */
  lemma DerivativeColumns(stage: (Rig, Vec3, Vec3) -> Vec3, r: Rig, dt: real, x: seq<real>)
    requires |x| == 9
    ensures var y := Derivative(stage, r)(dt, x);
      var a := stage(r, Vec3(x[0], x[1], x[2]), Vec3(x[3], x[4], x[5]));
      y[3..6] == [a.x, a.y, a.z] &&
      (forall i :: 0 <= i < 3 ==> y[i] == x[3 + i] + y[3 + i] * dt) &&
      y[6..] == [0.0, 0.0, 0.0]
  {
  }

  /** The Stage1 guard: the ground force at the stage-1 arm acceleration of the
      current pose is no longer positive. */
  predicate Lifted(dyn: Dynamics, r: Rig) {
    var awPrime := dyn.stage1(r, Vec3(r.arm.angle, r.weight.angle, r.sling.angle),
                              Vec3(r.arm.velocity, r.weight.velocity, r.sling.velocity)).x;
    dyn.groundForce(r, awPrime) <= 0.0
  }

  /** The Stage2 guard: the projectile's velocity angle is at most a quarter turn. */
  predicate Released(m: Math, dyn: Dynamics, r: Rig) {
    ToAngle(m, dyn.vProjectile(r)) <= FRAC_PI_4
  }

  /** The stage whose equations `run` integrates with: the one of the state
      before the guard. */
  function StageFor(dyn: Dynamics, s: TrebuchetState): (Rig, Vec3, Vec3) -> Vec3 {
    if s == Stage1 then dyn.stage1 else dyn.stage2
  }

  /** The angles and velocities read back from an integrated matrix. */
  function Unpack(r: Rig, x: seq<real>): Rig
    requires |x| == 9
  {
    r.(arm := r.arm.(angle := x[0], velocity := x[3]),
       weight := r.weight.(angle := x[1], velocity := x[4]),
       sling := r.sling.(angle := x[2], velocity := x[5]))
  }

  /** `run` as a function: the guard of the current stage is evaluated on the
      trebuchet as it is, the stage and projectile mass are updated, and the
      matrix is integrated with `rk5` using the previous stage's equations on the
      updated trebuchet. */
  function RunRig(m: Math, dyn: Dynamics, r: Rig, dt: real): Rig {
    var guarded := Guard(m, dyn, r);
    Unpack(guarded, Integrate(StageFor(dyn, r.state), guarded, Pack(guarded), dt))
  }

  /** The first half of `run`: the stage and projectile mass after the guard of
      the current stage. */
  function Guard(m: Math, dyn: Dynamics, r: Rig): Rig {
    var lifted := r.state == Stage1 && Lifted(dyn, r);
    var released := r.state == Stage2 && Released(m, dyn, r);
    r.(state := Next(r.state, lifted, released), mProj := MassAfter(r.state, released, r.mProj))
  }

  /** One `run` moves at most one stage forward, along the guard of the stage it
      starts in, evaluated before integrating. */
  lemma RunStage(m: Math, dyn: Dynamics, r: Rig, dt: real)
    ensures var t := RunRig(m, dyn, r, dt);
      (Rank(t.state) == Rank(r.state) || Rank(t.state) == Rank(r.state) + 1) &&
      (r.state == Stage1 ==> (t.state == Stage2 <==> Lifted(dyn, r)) && t.state != Stage3) &&
      (r.state == Stage2 ==> (t.state == Stage3 <==> Released(m, dyn, r))) &&
      (r.state == Stage3 ==> t.state == Stage3)
  {
  }

  /** Only entering Stage3 changes the projectile mass, to 0.01. */
  lemma RunMass(m: Math, dyn: Dynamics, r: Rig, dt: real)
    ensures var t := RunRig(m, dyn, r, dt);
      t.mProj == if r.state == Stage2 && t.state == Stage3 then 0.01 else r.mProj
  {
  }

  /** Apart from stage and projectile mass, `run` only overwrites the three
      angles and three velocities, with the integrated matrix. */
  lemma RunKeepsShape(m: Math, dyn: Dynamics, r: Rig, dt: real)
    ensures Shape(RunRig(m, dyn, r, dt)) == Shape(r)
  {
  }

  /** The trebuchet object `reset` and `run` update in place. */
  class Trebuchet {
    var position: IVec2
    var height: real
    var mProj: real
    var arm: Arm
    var weight: Weight
    var sling: Sling
    var state: TrebuchetState

    function Snapshot(): Rig
      reads this
    {
      Rig(position, height, mProj, arm, weight, sling, state)
    }

    /** The trebuchet `build` returns. */
    constructor(b: Builder)
      ensures Snapshot() == Build(b)
    {
      var r := Build(b);
      position := r.position;
      height := r.height;
      mProj := r.mProj;
      arm := r.arm;
      weight := r.weight;
      sling := r.sling;
      state := r.state;
    }

    /** `reset`. A zero arm length would divide by zero (NaN angles in `f32`). */
    method Reset(m: Math)
      requires arm.longLength != 0.0
      modifies this
      ensures Snapshot() == ResetRig(m, old(Snapshot()))
    {
      var commonTriangle := height / arm.longLength;
      arm := arm.(velocity := 0.0);
      weight := weight.(velocity := 0.0);
      sling := sling.(velocity := 0.0);
      arm := arm.(angle := PI - m.acos(commonTriangle));
      weight := weight.(angle := m.acos(commonTriangle) - PI);
      sling := sling.(angle := PI - m.asin(commonTriangle));
      state := Stage1;
      mProj := 0.3;
    }

    /** The guard half of `run`: the current stage's transition, evaluated on
        the trebuchet as it is. */
    method ApplyGuard(m: Math, dyn: Dynamics)
      modifies this
      ensures Snapshot() == Guard(m, dyn, old(Snapshot()))
    {
      var before := Snapshot();
      match state {
        case Stage1 =>
          var awPrime := dyn.stage1(before, Vec3(arm.angle, weight.angle, sling.angle),
                                    Vec3(arm.velocity, weight.velocity, sling.velocity)).x;
          if dyn.groundForce(before, awPrime) <= 0.0 {
            state := Stage2;
          }
        case Stage2 =>
          if ToAngle(m, dyn.vProjectile(before)) <= FRAC_PI_4 {
            mProj := 0.01;
            state := Stage3;
          }
        case Stage3 =>
      }
    }

    /** The integration half of `run`: one `rk5` step of angles and velocities
        with the stage closure of `stage`. */
    method Advance(stage: (Rig, Vec3, Vec3) -> Vec3, dt: real)
      modifies this
      ensures Snapshot() == Unpack(old(Snapshot()), Integrate(stage, old(Snapshot()), Pack(old(Snapshot())), dt))
    {
      var results := Integrate(stage, Snapshot(), Pack(Snapshot()), dt);
      arm := arm.(angle := results[0]);
      weight := weight.(angle := results[1]);
      sling := sling.(angle := results[2]);
      arm := arm.(velocity := results[3]);
      weight := weight.(velocity := results[4]);
      sling := sling.(velocity := results[5]);
    }

    /** `run`: returns whether the projectile is released. */
    method Run(m: Math, dyn: Dynamics, dt: real) returns (released: bool)
      modifies this
      ensures Snapshot() == RunRig(m, dyn, old(Snapshot()), dt)
      ensures released <==> state == Stage3
    {
      var stage := StageFor(dyn, state);
      ApplyGuard(m, dyn);
      Advance(stage, dt);
      released := state == Stage3;
    }
  }
}
