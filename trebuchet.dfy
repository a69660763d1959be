/** The older trebuchet (`src/trebuchet.rs`): arm, counterweight and sling
    without materials, a builder with larger defaults, `reset`, and `run`, which
    advances the stage machine and integrates angles and velocities with a local
    fourth-order Runge-Kutta step over pairs of vectors (`Vec3x2`). The equations
    of motion, the ground force and the projectile velocity are parameters of the
    model (`Dynamics`). */
module Trebuchet {
  import opened Linear
  import Utils
  import opened StageMachine

  datatype Arm = Arm(longLength: real, shortLength: real, center: real, mass: real, inertia: real,
                     angle: real, velocity: real)

  datatype Weight = Weight(length: real, mass: real, inertia: real, angle: real, velocity: real)

  datatype Sling = Sling(length: real, angle: real, velocity: real)

  /** `TrebuchetArm::new`: a uniform beam at rest. */
  function ArmNew(longLength: real, shortLength: real, mass: real): (a: Arm)
    ensures a.longLength == longLength && a.shortLength == shortLength && a.mass == mass
    ensures a.center == (longLength - shortLength) / 2.0
    ensures a.inertia * 12.0 == mass * (longLength + shortLength) * (longLength + shortLength)
    ensures a.angle == 0.0 && a.velocity == 0.0
  {
    Arm(longLength, shortLength, (longLength + shortLength) / 2.0 - shortLength, mass,
        mass * ((longLength + shortLength) * (longLength + shortLength)) / 12.0, 0.0, 0.0)
  }

  /** `TrebuchetWeight::new`: unit inertia, at rest. */
  function WeightNew(length: real, mass: real): (w: Weight)
    ensures w.length == length && w.mass == mass && w.inertia == 1.0 && w.angle == 0.0 && w.velocity == 0.0
  {
    Weight(length, mass, 1.0, 0.0, 0.0)
  }

  /** `TrebuchetSling::new`: at rest. */
  function SlingNew(length: real): (s: Sling)
    ensures s.length == length && s.angle == 0.0 && s.velocity == 0.0
  {
    Sling(length, 0.0, 0.0)
  }

  // ---------------------------------------------------------------------------
  // Vec3x2 and the local rk4

  /** Angular positions and velocities, or their derivatives, as one value. */
  datatype Vec3x2 = Vec3x2(q: Vec3, w: Vec3)

  /** `f32 * Vec3x2`: scales all six components. */
  function Mul(c: real, v: Vec3x2): Vec3x2 {
    Vec3x2(v.q.Scale(c), v.w.Scale(c))
  }

  /** Scaling by one changes nothing, scaling by zero gives zeros, and two
      scalings compose. */
  lemma MulLaws(a: real, b: real, v: Vec3x2)
    ensures Mul(1.0, v) == v
    ensures Mul(0.0, v) == Vec3x2(ZERO3, ZERO3)
    ensures Mul(a, Mul(b, v)) == Mul(a * b, v)
  {
    ScaleAssoc(a, b, v.q);
    ScaleAssoc(a, b, v.w);
  }

  lemma ScaleAssoc(a: real, b: real, v: Vec3)
    ensures v.Scale(b).Scale(a) == v.Scale(a * b)
  {
    assert a * (b * v.x) == (a * b) * v.x;
    assert a * (b * v.y) == (a * b) * v.y;
    assert a * (b * v.z) == (a * b) * v.z;
  }

  /** `v * c`, as the source writes it on `Vec3`. */
  function Times(v: Vec3, c: real): Vec3 {
    Vec3(v.x * c, v.y * c, v.z * c)
  }

  /** The four stages of the local `rk4`. The third takes its positions from
      the first stage and its velocities from the second. */
  function Rk4Stages(x: Vec3, y: Vec3, dt: real, f: (real, Vec3, Vec3) -> Vec3x2): seq<Vec3x2> {
    var k1 := Mul(dt, f(dt, x, y));
    var k2 := Mul(dt, f(dt, x.Plus(Times(k1.q, 0.5)), y.Plus(Times(k1.w, 0.5))));
    var k3 := Mul(dt, f(dt, x.Plus(Times(k1.q, 0.5)), y.Plus(Times(k2.w, 0.5))));
    var k4 := Mul(dt, f(dt, x.Plus(k3.q), y.Plus(k3.w)));
    [k1, k2, k3, k4]
  }

  /** The weighted sum `(k1 + 2 k2 + 2 k3 + k4) / 6` of one component. */
  function Combine(k1: Vec3, k2: Vec3, k3: Vec3, k4: Vec3): Vec3 {
    k1.Plus(k2.Scale(2.0)).Plus(k3.Scale(2.0)).Plus(k4).Div(6.0)
  }

  /** The local `rk4`: positions `x`, velocities `y`, each advanced by the
      weighted stages. */
  function Rk4(x: Vec3, y: Vec3, dt: real, f: (real, Vec3, Vec3) -> Vec3x2): Vec3x2 {
    var ks := Rk4Stages(x, y, dt, f);
    Vec3x2(x.Plus(Combine(ks[0].q, ks[1].q, ks[2].q, ks[3].q)),
           y.Plus(Combine(ks[0].w, ks[1].w, ks[2].w, ks[3].w)))
  }

  /** With a constant derivative `c` the weights 1, 2, 2, 1 over 6 sum to one:
      the step is exactly `(x + dt c.q, y + dt c.w)`. */
  lemma Rk4ConstantDerivative(x: Vec3, y: Vec3, dt: real, f: (real, Vec3, Vec3) -> Vec3x2, c: Vec3x2)
    requires forall t, a, b :: f(t, a, b) == c
    ensures Rk4(x, y, dt, f) == Vec3x2(x.Plus(c.q.Scale(dt)), y.Plus(c.w.Scale(dt)))
  {
    var ks := Rk4Stages(x, y, dt, f);
    var s := Mul(dt, c);
    assert forall i :: 0 <= i < 4 ==> ks[i] == s;
    CombineEqual(s.q);
    CombineEqual(s.w);
  }

  lemma CombineEqual(v: Vec3)
    ensures Combine(v, v, v, v) == v
  {
  }

  /** When the derivative does not depend on the velocities, the third stage
      repeats the second: both take their positions from the first stage. */
  lemma Rk4ThirdStageRepeats(x: Vec3, y: Vec3, dt: real, f: (real, Vec3, Vec3) -> Vec3x2)
    requires forall t, a, b, b' :: f(t, a, b) == f(t, a, b')
    ensures Rk4Stages(x, y, dt, f)[2] == Rk4Stages(x, y, dt, f)[1]
  {
    var k1 := Mul(dt, f(dt, x, y));
    var a := x.Plus(Times(k1.q, 0.5));
    var k2 := Mul(dt, f(dt, a, y.Plus(Times(k1.w, 0.5))));
    assert f(dt, a, y.Plus(Times(k2.w, 0.5))) == f(dt, a, y.Plus(Times(k1.w, 0.5)));
  }

  // ---------------------------------------------------------------------------
  // The trebuchet and its builder

  /** The whole trebuchet as a value. */
  datatype Rig = Rig(position: IVec2, height: real, mProj: real, arm: Arm, weight: Weight, sling: Sling,
                     state: TrebuchetState)

  /** `TrebuchetBuilder`: every part optional until `build`. */
  datatype Builder = Builder(position: IVec2, height: Option<real>, mProj: Option<real>,
                             arm: Option<Arm>, weight: Option<Weight>, sling: Option<Sling>)
  {
    function Height(h: real): Builder {
      this.(height := Some(h))
    }

    function MProj(mProj: real): Builder {
      this.(mProj := Some(mProj))
    }

    function WithArm(longLength: real, shortLength: real, mass: real): Builder {
      this.(arm := Some(ArmNew(longLength, shortLength, mass)))
    }

    function WithWeight(length: real, mass: real): Builder {
      this.(weight := Some(WeightNew(length, mass)))
    }

    function WithSling(length: real): Builder {
      this.(sling := Some(SlingNew(length)))
    }
  }

  /** `Trebuchet::init`: a builder at `position` with nothing set. */
  function Init(position: IVec2): (b: Builder)
    ensures b.position == position
    ensures b.height.None? && b.mProj.None? && b.arm.None? && b.weight.None? && b.sling.None?
  {
    Builder(position, None, None, None, None, None)
  }

  function OrElse<T>(o: Option<T>, default: T): (r: T)
    ensures o.Some? ==> r == o.value
    ensures o.None? ==> r == default
  {
    match o
    case None => default
    case Some(v) => v
  }

  /** `build`: the parts set on the builder, the defaults for the rest, and Stage1. */
  function Build(b: Builder): (r: Rig)
    ensures r.position == b.position && r.state == Stage1
    ensures r.height == OrElse(b.height, 5.6) && r.mProj == OrElse(b.mProj, 0.3)
    ensures r.arm == OrElse(b.arm, ArmNew(8.0, 2.0, 12.0))
    ensures r.weight == OrElse(b.weight, WeightNew(2.0, 100.0))
    ensures r.sling == OrElse(b.sling, SlingNew(8.0))
  {
    Rig(b.position, OrElse(b.height, 5.6), OrElse(b.mProj, 0.3),
        OrElse(b.arm, ArmNew(8.0, 2.0, 12.0)),
        OrElse(b.weight, WeightNew(2.0, 100.0)),
        OrElse(b.sling, SlingNew(8.0)),
        Stage1)
  }

  /** The default trebuchet: a 5.6 m pivot, a 0.3 kg projectile, a 10 m arm of
      12 kg whose centre of mass sits 3 m out on the long side, a 100 kg weight on
      2 m, an 8 m sling, everything at rest. */
  lemma BuildDefaults(position: IVec2)
    ensures var r := Build(Init(position));
      r.height == 5.6 && r.mProj == 0.3 && r.state == Stage1 &&
      r.arm.longLength == 8.0 && r.arm.shortLength == 2.0 && r.arm.mass == 12.0 &&
      r.arm.center == 3.0 && r.arm.inertia == 100.0 &&
      r.weight.length == 2.0 && r.weight.mass == 100.0 && r.sling.length == 8.0 &&
      r.arm.velocity == 0.0 && r.weight.velocity == 0.0 && r.sling.velocity == 0.0
  {
  }

  /** Each setter's value reaches the built trebuchet. */
  lemma BuildFromSetters(position: IVec2, height: real, mProj: real, longLength: real, shortLength: real,
                         armMass: real, weightLength: real, weightMass: real, slingLength: real)
    ensures var r := Build(Init(position).Height(height).MProj(mProj).WithArm(longLength, shortLength, armMass)
                             .WithWeight(weightLength, weightMass).WithSling(slingLength));
      r.height == height && r.mProj == mProj && r.arm == ArmNew(longLength, shortLength, armMass) &&
      r.weight == WeightNew(weightLength, weightMass) && r.sling == SlingNew(slingLength)
  {
  }

  // ---------------------------------------------------------------------------
  // Reset

  /** `reset` as a function: at rest, arm, weight and sling at their starting
      angles, Stage1 and a 0.3 kg projectile. */
  function ResetRig(m: Math, r: Rig): Rig
    requires r.arm.longLength != 0.0
  {
    var commonTriangle := r.height / r.arm.longLength;
    r.(arm := r.arm.(velocity := 0.0, angle := PI - m.acos(commonTriangle)),
       weight := r.weight.(velocity := 0.0, angle := m.acos(commonTriangle) - PI),
       sling := r.sling.(velocity := 0.0, angle := PI - m.asin(commonTriangle)),
       state := Stage1,
       mProj := 0.3)
  }

  /** What neither `reset` nor `run` changes. */
  function Shape(r: Rig): Rig {
    r.(arm := r.arm.(angle := 0.0, velocity := 0.0),
       weight := r.weight.(angle := 0.0, velocity := 0.0),
       sling := r.sling.(angle := 0.0, velocity := 0.0),
       state := Stage1, mProj := 0.0)
  }

  /** After `reset` everything is at rest, the arm and weight angles cancel, the
      stage is Stage1 with a 0.3 kg projectile, and the shape is kept. */
  lemma ResetPose(m: Math, r: Rig)
    requires r.arm.longLength != 0.0
    ensures var t := ResetRig(m, r);
      t.arm.velocity == 0.0 && t.weight.velocity == 0.0 && t.sling.velocity == 0.0 &&
      t.arm.angle + t.weight.angle == 0.0 &&
      t.state == Stage1 && t.mProj == 0.3 && Shape(t) == Shape(r)
  {
  }

  /** Resetting twice is resetting once. */
  lemma ResetIdempotent(m: Math, r: Rig)
    requires r.arm.longLength != 0.0
    ensures ResetRig(m, ResetRig(m, r)) == ResetRig(m, r)
  {
  }

  // ---------------------------------------------------------------------------
  // Run

  /** The equations of motion and the queries `run` consults. */
  datatype Dynamics = Dynamics(
    stage1: (Rig, Vec3, Vec3) -> Vec3,
    stage2: (Rig, Vec3, Vec3) -> Vec3,
    groundForce: (Rig, real) -> real,
    vProjectile: Rig -> Vec2)

  function Angles(r: Rig): Vec3 {
    Vec3(r.arm.angle, r.weight.angle, r.sling.angle)
  }

  function Velocities(r: Rig): Vec3 {
    Vec3(r.arm.velocity, r.weight.velocity, r.sling.velocity)
  }

  /** What `stage_1` and `stage_2` return: velocities advanced by the
      accelerations over `dt`, and the accelerations. */
  function StageResult(velocities: Vec3, acc: Vec3, dt: real): Vec3x2 {
    Vec3x2(Vec3(velocities.x + acc.x * dt, velocities.y + acc.y * dt, velocities.z + acc.z * dt), acc)
  }

  /** The stage closure `run` hands to `rk4`. */
  function Closure(stage: (Rig, Vec3, Vec3) -> Vec3, r: Rig): (real, Vec3, Vec3) -> Vec3x2 {
    (dt: real, angles: Vec3, velocities: Vec3) => StageResult(velocities, stage(r, angles, velocities), dt)
  }

  /** A stage's `q` is its input velocities plus `dt` times its `w`, and its `w`
      is the accelerations. */
  lemma ClosureReturns(stage: (Rig, Vec3, Vec3) -> Vec3, r: Rig, dt: real, angles: Vec3, velocities: Vec3)
    ensures var k := Closure(stage, r)(dt, angles, velocities);
      k.w == stage(r, angles, velocities) && k.q == velocities.Plus(Times(k.w, dt))
  {
    var acc := stage(r, angles, velocities);
    assert Closure(stage, r)(dt, angles, velocities) == StageResult(velocities, acc, dt);
  }

  predicate Lifted(dyn: Dynamics, r: Rig) {
    dyn.groundForce(r, dyn.stage1(r, Angles(r), Velocities(r)).x) <= 0.0
  }

  predicate Released(m: Math, dyn: Dynamics, r: Rig) {
    Utils.ToAngle(m, dyn.vProjectile(r)) <= FRAC_PI_4
  }

  function StageFor(dyn: Dynamics, s: TrebuchetState): (Rig, Vec3, Vec3) -> Vec3 {
    if s == Stage1 then dyn.stage1 else dyn.stage2
  }

  /** The stage and projectile mass after the guard of the current stage. */
  function Guard(m: Math, dyn: Dynamics, r: Rig): Rig {
    var lifted := r.state == Stage1 && Lifted(dyn, r);
    var released := r.state == Stage2 && Released(m, dyn, r);
    r.(state := Next(r.state, lifted, released), mProj := MassAfter(r.state, released, r.mProj))
  }

  /** Angles from `q`, velocities from `w`. */
  function Unpack(r: Rig, k: Vec3x2): Rig {
    r.(arm := r.arm.(angle := k.q.x, velocity := k.w.x),
       weight := r.weight.(angle := k.q.y, velocity := k.w.y),
       sling := r.sling.(angle := k.q.z, velocity := k.w.z))
  }

  /** One `rk4` step of the angles and velocities with the closure of `stage`. */
  function Integrate(stage: (Rig, Vec3, Vec3) -> Vec3, r: Rig, dt: real): Vec3x2 {
    Rk4(Angles(r), Velocities(r), dt, Closure(stage, r))
  }

  /** `run` as a function. */
  function RunRig(m: Math, dyn: Dynamics, r: Rig, dt: real): Rig {
    var guarded := Guard(m, dyn, r);
    Unpack(guarded, Integrate(StageFor(dyn, r.state), guarded, dt))
  }

  /** One `run` moves at most one stage forward, along the guard of the stage it
      starts in, evaluated before integrating. */
  lemma RunStage(m: Math, dyn: Dynamics, r: Rig, dt: real)
    ensures var t := RunRig(m, dyn, r, dt);
      (Rank(t.state) == Rank(r.state) || Rank(t.state) == Rank(r.state) + 1) &&
      (r.state == Stage1 ==> (t.state == Stage2 <==> Lifted(dyn, r)) && t.state != Stage3) &&
      (r.state == Stage2 ==> (t.state == Stage3 <==> Released(m, dyn, r))) &&
      (r.state == Stage3 ==> t.state == Stage3)
  {
  }

  /** Only entering Stage3 changes the projectile mass, to 0.01. */
  lemma RunMass(m: Math, dyn: Dynamics, r: Rig, dt: real)
    ensures var t := RunRig(m, dyn, r, dt);
      t.mProj == if r.state == Stage2 && t.state == Stage3 then 0.01 else r.mProj
  {
  }

  /** Apart from stage and projectile mass, `run` only overwrites the angles (with
      `q`) and velocities (with `w`). */
  lemma RunKeepsShape(m: Math, dyn: Dynamics, r: Rig, dt: real)
    ensures Shape(RunRig(m, dyn, r, dt)) == Shape(r)
  {
  }

  /** The trebuchet object `reset` and `run` update in place. */
  class Trebuchet {
    var position: IVec2
    var height: real
    var mProj: real
    var arm: Arm
    var weight: Weight
    var sling: Sling
    var state: TrebuchetState

    function Snapshot(): Rig
      reads this
    {
      Rig(position, height, mProj, arm, weight, sling, state)
    }

    /** The trebuchet `build` returns. */
    constructor(b: Builder)
      ensures Snapshot() == Build(b)
    {
      var r := Build(b);
      position := r.position;
      height := r.height;
      mProj := r.mProj;
      arm := r.arm;
      weight := r.weight;
      sling := r.sling;
      state := r.state;
    }

    /** `reset`. A zero arm length would divide by zero (NaN angles in `f32`). */
    method Reset(m: Math)
      requires arm.longLength != 0.0
      modifies this
      ensures Snapshot() == ResetRig(m, old(Snapshot()))
    {
      var commonTriangle := height / arm.longLength;
      arm := arm.(velocity := 0.0);
      weight := weight.(velocity := 0.0);
      sling := sling.(velocity := 0.0);
      arm := arm.(angle := PI - m.acos(commonTriangle));
      weight := weight.(angle := m.acos(commonTriangle) - PI);
      sling := sling.(angle := PI - m.asin(commonTriangle));
      state := Stage1;
      mProj := 0.3;
    }

    /** The guard half of `run`. */
    method ApplyGuard(m: Math, dyn: Dynamics)
      modifies this
      ensures Snapshot() == Guard(m, dyn, old(Snapshot()))
    {
      var before := Snapshot();
      match state {
        case Stage1 =>
          var awPrime := dyn.stage1(before, Vec3(arm.angle, weight.angle, sling.angle),
                                    Vec3(arm.velocity, weight.velocity, sling.velocity)).x;
          if dyn.groundForce(before, awPrime) <= 0.0 {
            state := Stage2;
          }
        case Stage2 =>
          if Utils.ToAngle(m, dyn.vProjectile(before)) <= FRAC_PI_4 {
            mProj := 0.01;
            state := Stage3;
          }
        case Stage3 =>
      }
    }

    /** The integration half of `run`. */
    method Advance(stage: (Rig, Vec3, Vec3) -> Vec3, dt: real)
      modifies this
      ensures Snapshot() == Unpack(old(Snapshot()), Integrate(stage, old(Snapshot()), dt))
    {
      var results := Rk4(Vec3(arm.angle, weight.angle, sling.angle),
                         Vec3(arm.velocity, weight.velocity, sling.velocity), dt, Closure(stage, Snapshot()));
      arm := arm.(angle := results.q.x);
      weight := weight.(angle := results.q.y);
      sling := sling.(angle := results.q.z);
      arm := arm.(velocity := results.w.x);
      weight := weight.(velocity := results.w.y);
      sling := sling.(velocity := results.w.z);
    }

    /** `run`. */
    method Run(m: Math, dyn: Dynamics, dt: real)
      modifies this
      ensures Snapshot() == RunRig(m, dyn, old(Snapshot()), dt)
    {
      var stage := StageFor(dyn, state);
      ApplyGuard(m, dyn);
      Advance(stage, dt);
    }
  }
}
