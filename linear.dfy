/** Plain vector values (the glam types the game uses, over exact numbers) and the
    transcendental functions the game takes from its math library. */
module Linear {

  /** A vector of float meters, read as exact reals. */
  datatype Vec2 = Vec2(x: real, y: real) {
    function Plus(o: Vec2): Vec2 { Vec2(x + o.x, y + o.y) }
    function Minus(o: Vec2): Vec2 { Vec2(x - o.x, y - o.y) }
    function Scale(c: real): Vec2 { Vec2(c * x, c * y) }
    function Neg(): Vec2 { Vec2(-x, -y) }
    function LengthSquared(): real { x * x + y * y }
  }

  const ZERO2: Vec2 := Vec2(0.0, 0.0)

  /** A position in 1/256-meter units (glam's I64Vec2, without the 64-bit bound). */
  datatype IVec2 = IVec2(x: int, y: int) {
    function Plus(o: IVec2): IVec2 { IVec2(x + o.x, y + o.y) }
    function Minus(o: IVec2): IVec2 { IVec2(x - o.x, y - o.y) }
  }

  /** glam's Vec3 over exact reals. */
  datatype Vec3 = Vec3(x: real, y: real, z: real) {
    function Plus(o: Vec3): Vec3 { Vec3(x + o.x, y + o.y, z + o.z) }
    function Scale(c: real): Vec3 { Vec3(c * x, c * y, c * z) }
    function Div(c: real): Vec3 requires c != 0.0 { Vec3(x / c, y / c, z / c) }
  }

  const ZERO3: Vec3 := Vec3(0.0, 0.0, 0.0)

  /** Rust's `Option`. */
  datatype Option<T> = None | Some(value: T)

  /** The library functions the simulation calls and that this model does not define:
      each is an arbitrary function, constrained only where a lemma says so. */
  datatype Math = Math(
    sin: real -> real,
    cos: real -> real,
    acos: real -> real,
    asin: real -> real,
    atan2: (real, real) -> real,
    sqrt: real -> real)

  /** The square root behaves as one on non-negative arguments. */
  ghost predicate SoundSqrt(m: Math) {
    forall v {:trigger m.sqrt(v)} :: 0.0 <= v ==> 0.0 <= m.sqrt(v) && m.sqrt(v) * m.sqrt(v) == v
  }

  /** glam's `length`: the square root of the squared length. */
  function Length(m: Math, v: Vec2): real {
    m.sqrt(v.LengthSquared())
  }

  /** macroquad's `polar_to_cartesian(rho, theta)`. */
  function PolarToCartesian(m: Math, rho: real, theta: real): Vec2 {
    Vec2(rho * m.cos(theta), rho * m.sin(theta))
  }

  /** `core::f32::consts::TAU`, as an exact rational close to 2*pi. */
  const TAU: real := 6.283185307179586
  const PI: real := TAU / 2.0
  const FRAC_PI_4: real := PI / 4.0
}
