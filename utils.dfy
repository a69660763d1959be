/** Coordinate conversions and the two Runge-Kutta steppers of `src/utils.rs`.
    A state vector of the integrators is a `seq<real>`; the derivative is a pure
    function of the step and the state that keeps the dimension. */
module Utils {
  import opened Linear

  // ---------------------------------------------------------------------------
  // Casts and remainders

  /** Rust's `as i64` on a float (inside range): truncation toward zero. */
  function Trunc(r: real): (t: int)
    ensures 0.0 <= r ==> 0 <= t && t as real <= r < t as real + 1.0
    ensures r < 0.0 ==> t <= 0 && t as real - 1.0 < r <= t as real
  {
    if r >= 0.0 then r.Floor else -((-r).Floor)
  }

  /** Rust's `as usize` on a float: truncation, saturated at zero below. */
  function ToUsize(r: real): (n: nat)
    ensures 0.0 <= r ==> n as real <= r < n as real + 1.0
    ensures r < 1.0 ==> n == 0
  {
    if r < 0.0 then 0 else Trunc(r)
  }

  /** Truncation is monotone. */
  lemma TruncMonotone(a: real, b: real)
    requires a <= b
    ensures Trunc(a) <= Trunc(b)
  {
    if 0.0 <= a {
      assert a.Floor <= b.Floor by { FloorMonotone(a, b); }
    } else if b < 0.0 {
      FloorMonotone(-b, -a);
    }
  }

  lemma FloorMonotone(a: real, b: real)
    requires a <= b
    ensures a.Floor <= b.Floor
  {
    assert (a.Floor as real) <= a <= b;
  }

  /** Rust's float `%`: the remainder of truncated division (it keeps the sign of `a`). */
  function FMod(a: real, m: real): (r: real)
    requires m > 0.0
    ensures 0.0 <= a ==> 0.0 <= r < m
    ensures a < 0.0 ==> -m < r <= 0.0
  {
    TruncatedRemainderBounds(a, m);
    a - m * Trunc(a / m) as real
  }

  lemma TruncatedRemainderBounds(a: real, m: real)
    requires m > 0.0
    ensures 0.0 <= a ==> 0.0 <= a - m * Trunc(a / m) as real < m
    ensures a < 0.0 ==> -m < a - m * Trunc(a / m) as real <= 0.0
  {
    QuotientSign(a, m);
    var t := Trunc(a / m);
    if 0.0 <= a {
      RemainderBelow(a, m, t as real);
    } else {
      RemainderAbove(a, m, t as real);
    }
  }

  /** Dividing by a positive number keeps the sign. */
  lemma QuotientSign(a: real, m: real)
    requires m > 0.0
    ensures 0.0 <= a ==> 0.0 <= a / m
    ensures a < 0.0 ==> a / m < 0.0
  {
  }

  /** A quotient rounded down by less than one leaves a remainder in `[0, m)`. */
  lemma RemainderBelow(a: real, m: real, t: real)
    requires m > 0.0 && t <= a / m < t + 1.0
    ensures 0.0 <= a - m * t < m
  {
    var q := a / m;
    var d := q - t;
    var p := m * d;
    assert 0.0 <= p < m by {
      assert m * (1.0 - d) > 0.0;
    }
    assert m * q == a;
    assert p == m * q - m * t;
  }

  /** A quotient rounded up by less than one leaves a remainder in `(-m, 0]`. */
  lemma RemainderAbove(a: real, m: real, t: real)
    requires m > 0.0 && t - 1.0 < a / m <= t
    ensures -m < a - m * t <= 0.0
  {
    var q := a / m;
    var d := q - t;
    var p := m * d;
    assert -m < p <= 0.0 by {
      assert m * (1.0 + d) > 0.0;
      assert m * (-d) >= 0.0;
    }
    assert m * q == a;
    assert p == m * q - m * t;
  }

  /** Rust's `rem_euclid` on floats: the remainder brought into `[0, m)`. */
  function RemEuclid(a: real, m: real): (r: real)
    requires m > 0.0
    ensures 0.0 <= r < m
    ensures 0.0 <= a < m ==> r == a
    ensures -m <= a < 0.0 ==> r == a + m
  {
    var f := FMod(a, m);
    RemainderInRange(a, m);
    if f < 0.0 then f + m else f
  }

  /** Inside `(-m, m)` the quotient lies strictly between -1 and 1. */
  lemma SmallQuotient(a: real, m: real)
    requires m > 0.0 && -m < a < m
    ensures -1.0 < a / m < 1.0
  {
    var q := a / m;
    assert m * q == a;
    assert m * (1.0 - q) == m - a;
    assert m * (1.0 + q) == m + a;
    PositiveFactor(m, 1.0 - q);
    PositiveFactor(m, 1.0 + q);
  }

  /** A product with a positive factor is positive only when the other factor is. */
  lemma PositiveFactor(m: real, d: real)
    requires m > 0.0 && m * d > 0.0
    ensures d > 0.0
  {
  }

  lemma RemainderInRange(a: real, m: real)
    requires m > 0.0
    ensures -m < a < m ==> FMod(a, m) == a
    ensures a == -m ==> FMod(a, m) == 0.0
  {
    if -m < a < m {
      SmallQuotient(a, m);
      assert Trunc(a / m) == 0;
    }
    if a == -m {
      assert a / m == -1.0;
      assert Trunc(a / m) == -1;
    }
  }

  // ---------------------------------------------------------------------------
  // Fixed-point world coordinates (1/256 m)

  /** `to_i64coords`: meters times 256, truncated toward zero. */
  function ToI64Coords(v: Vec2): (p: IVec2)
  {
    IVec2(Trunc(v.x * 256.0), Trunc(v.y * 256.0))
  }

  /** `to_meters`: fixed-point units divided by 256. */
  function ToMeters(p: IVec2): (v: Vec2)
  {
    Vec2(p.x as real / 256.0, p.y as real / 256.0)
  }

  /** A fixed-point position survives the trip to meters and back. */
  lemma CoordsRoundTrip(p: IVec2)
    ensures ToI64Coords(ToMeters(p)) == p
  {
    assert p.x as real / 256.0 * 256.0 == p.x as real;
    assert p.y as real / 256.0 * 256.0 == p.y as real;
    TruncOfInt(p.x);
    TruncOfInt(p.y);
  }

  lemma TruncOfInt(k: int)
    ensures Trunc(k as real) == k
  {
  }

  /** Meters to fixed point and back moves each coordinate toward zero by less
      than one unit (1/256 m), never across zero. */
  lemma MetersRoundTripError(v: Vec2)
    ensures var w := ToMeters(ToI64Coords(v));
      (0.0 <= v.x ==> 0.0 <= w.x <= v.x < w.x + 1.0 / 256.0) &&
      (v.x < 0.0 ==> w.x - 1.0 / 256.0 < v.x <= w.x <= 0.0) &&
      (0.0 <= v.y ==> 0.0 <= w.y <= v.y < w.y + 1.0 / 256.0) &&
      (v.y < 0.0 ==> w.y - 1.0 / 256.0 < v.y <= w.y <= 0.0)
  {
    var p := ToI64Coords(v);
    ScaledTruncBounds(v.x);
    ScaledTruncBounds(v.y);
  }

  lemma ScaledTruncBounds(a: real)
    ensures var w := Trunc(a * 256.0) as real / 256.0;
      (0.0 <= a ==> 0.0 <= w <= a < w + 1.0 / 256.0) &&
      (a < 0.0 ==> w - 1.0 / 256.0 < a <= w <= 0.0)
  {
    var t := Trunc(a * 256.0) as real;
    assert t / 256.0 * 256.0 == t;
  }

  /** Conversion to fixed point is monotone in each coordinate. */
  lemma ToI64CoordsMonotone(u: Vec2, v: Vec2)
    requires u.x <= v.x && u.y <= v.y
    ensures ToI64Coords(u).x <= ToI64Coords(v).x && ToI64Coords(u).y <= ToI64Coords(v).y
  {
    TruncMonotone(u.x * 256.0, v.x * 256.0);
    TruncMonotone(u.y * 256.0, v.y * 256.0);
  }

  /** `to_angle`: the direction of `v` from `atan2`, reduced into `[0, TAU)`. */
  function ToAngle(m: Math, v: Vec2): (theta: real)
    ensures 0.0 <= theta < TAU
    ensures 0.0 <= m.atan2(v.y, v.x) < TAU ==> theta == m.atan2(v.y, v.x)
    ensures -TAU <= m.atan2(v.y, v.x) < 0.0 ==> theta == m.atan2(v.y, v.x) + TAU
  {
    RemEuclid(m.atan2(v.y, v.x), TAU)
  }

  // ---------------------------------------------------------------------------
  // State vectors

  function Plus(u: seq<real>, v: seq<real>): (w: seq<real>)
    requires |u| == |v|
    ensures |w| == |u|
  {
    seq(|u|, i requires 0 <= i < |u| => u[i] + v[i])
  }

  function Minus(u: seq<real>, v: seq<real>): (w: seq<real>)
    requires |u| == |v|
    ensures |w| == |u|
  {
    seq(|u|, i requires 0 <= i < |u| => u[i] - v[i])
  }

  function Scale(c: real, v: seq<real>): (w: seq<real>)
    ensures |w| == |v|
  {
    seq(|v|, i requires 0 <= i < |v| => c * v[i])
  }

  function Div(v: seq<real>, c: real): (w: seq<real>)
    requires c != 0.0
    ensures |w| == |v|
  {
    seq(|v|, i requires 0 <= i < |v| => v[i] / c)
  }

  function Zeros(n: nat): (w: seq<real>)
    ensures |w| == n
  {
    seq(n, i => 0.0)
  }

  /** A derivative that maps states of dimension `n` to vectors of dimension `n`. */
  ghost predicate KeepsDim(f: (real, seq<real>) -> seq<real>, n: nat) {
    forall t, v :: |v| == n ==> |f(t, v)| == n
  }

  /** A derivative that is the constant `c` on every state of `c`'s dimension. */
  ghost predicate ConstantOn(f: (real, seq<real>) -> seq<real>, c: seq<real>) {
    forall t, v :: |v| == |c| ==> f(t, v) == c
  }

  /** One evaluation of the derivative, scaled by the step: `dt * f(dt, y)`. */
  function Stage(dt: real, f: (real, seq<real>) -> seq<real>, y: seq<real>): (k: seq<real>)
    requires KeepsDim(f, |y|)
    ensures |k| == |y|
  {
    Scale(dt, f(dt, y))
  }

  // ---------------------------------------------------------------------------
  // Fourth order (as written: the third stage repeats the second's argument)

  /** The four stages of `rk4`; the third is evaluated at `x + 0.5 * k1`, the same
      argument as the second. */
  function Rk4Stages(x: seq<real>, dt: real, f: (real, seq<real>) -> seq<real>): (ks: seq<seq<real>>)
    requires KeepsDim(f, |x|)
    ensures |ks| == 4 && forall i :: 0 <= i < 4 ==> |ks[i]| == |x|
  {
    var k1 := Stage(dt, f, x);
    var k2 := Stage(dt, f, Plus(x, Scale(0.5, k1)));
    var k3 := Stage(dt, f, Plus(x, Scale(0.5, k1)));
    var k4 := Stage(dt, f, Plus(x, k3));
    [k1, k2, k3, k4]
  }

  /** `rk4`: `x + (k1 + 2 k2 + 2 k3 + k4) / 6`. */
  function Rk4(x: seq<real>, dt: real, f: (real, seq<real>) -> seq<real>): (r: seq<real>)
    requires KeepsDim(f, |x|)
    ensures |r| == |x|
  {
    var ks := Rk4Stages(x, dt, f);
    Plus(x, Div(Plus(Plus(Plus(ks[0], Scale(2.0, ks[1])), Scale(2.0, ks[2])), ks[3]), 6.0))
  }

  /** For a pure derivative the third stage of `rk4` equals the second. */
  lemma Rk4ThirdStageIsSecond(x: seq<real>, dt: real, f: (real, seq<real>) -> seq<real>)
    requires KeepsDim(f, |x|)
    ensures Rk4Stages(x, dt, f)[2] == Rk4Stages(x, dt, f)[1]
  {
  }

  /** With a constant derivative `c` every stage is `dt * c`, and the weights
      1, 2, 2, 1 over 6 sum to one: `rk4` takes the exact step `x + dt * c`. */
  lemma {:induction false} Rk4ConstantDerivative(x: seq<real>, dt: real, f: (real, seq<real>) -> seq<real>, c: seq<real>)
    requires |c| == |x| && ConstantOn(f, c)
    ensures KeepsDim(f, |x|)
    ensures Rk4(x, dt, f) == Plus(x, Scale(dt, c))
  {
    var ks := Rk4Stages(x, dt, f);
    var s := Scale(dt, c);
    assert ks[0] == s && ks[1] == s && ks[2] == s && ks[3] == s;
    var sum := Plus(Plus(Plus(ks[0], Scale(2.0, ks[1])), Scale(2.0, ks[2])), ks[3]);
    assert Div(sum, 6.0) == s by {
      forall i | 0 <= i < |x| ensures Div(sum, 6.0)[i] == s[i] {
        assert sum[i] == s[i] + 2.0 * s[i] + 2.0 * s[i] + s[i];
      }
    }
  }

  /** With a zero derivative `rk4` leaves the state unchanged. */
  lemma Rk4ZeroDerivative(x: seq<real>, dt: real, f: (real, seq<real>) -> seq<real>)
    requires ConstantOn(f, Zeros(|x|))
    ensures KeepsDim(f, |x|)
    ensures Rk4(x, dt, f) == x
  {
    Rk4ConstantDerivative(x, dt, f, Zeros(|x|));
    assert Plus(x, Scale(dt, Zeros(|x|))) == x;
  }

  // ---------------------------------------------------------------------------
  // Fourth order, classic: the third stage at `x + 0.5 * k2`

  /** Classic Runge-Kutta, with the third stage evaluated at `x + 0.5 * k2`. */
  function Rk4Classic(x: seq<real>, dt: real, f: (real, seq<real>) -> seq<real>): (r: seq<real>)
    requires KeepsDim(f, |x|)
    ensures |r| == |x|
  {
    var k1 := Stage(dt, f, x);
    var k2 := Stage(dt, f, Plus(x, Scale(0.5, k1)));
    var k3 := Stage(dt, f, Plus(x, Scale(0.5, k2)));
    var k4 := Stage(dt, f, Plus(x, k3));
    Plus(x, Div(Plus(Plus(Plus(k1, Scale(2.0, k2)), Scale(2.0, k3)), k4), 6.0))
  }

  /** The derivative of the scalar linear equation `y' = lambda * y`. */
  function Linear1(lambda: real): (real, seq<real>) -> seq<real> {
    (t: real, v: seq<real>) => Scale(lambda, v)
  }

  /** The degree-4 Taylor polynomial of `exp(z)`: what a fourth-order step must
      reproduce on `y' = lambda * y` with `z = lambda * dt`. */
  function Taylor4(z: real): real {
    1.0 + z + z * z / 2.0 + z * z * z / 6.0 + z * z * z * z / 24.0
  }

  /** On `y' = lambda * y` the classic step multiplies the state by the degree-4
      Taylor polynomial of `exp(lambda * dt)`: it is fourth-order accurate. */
  lemma Rk4ClassicIsFourthOrder(y: real, dt: real, lambda: real)
    ensures KeepsDim(Linear1(lambda), 1)
    ensures Rk4Classic([y], dt, Linear1(lambda)) == [Taylor4(lambda * dt) * y]
  {
    var z := lambda * dt;
    Rk4ClassicLinear(y, dt, lambda, z);
    var r := Rk4Classic([y], dt, Linear1(lambda));
    assert r == [Taylor4(z) * y];
    assert r[0] == Taylor4(z) * y;
    assert Taylor4(z) == Taylor4(lambda * dt);
    assert r[0] == Taylor4(lambda * dt) * y;
  }

  /** The classic step on `y' = lambda * y`, with `z` standing for `lambda * dt`. */
  lemma Rk4ClassicLinear(y: real, dt: real, lambda: real, z: real)
    requires z == lambda * dt
    ensures KeepsDim(Linear1(lambda), 1)
    ensures Rk4Classic([y], dt, Linear1(lambda)) == [Taylor4(z) * y]
  {
    LinearKeepsDim(lambda, 1);
    var f := Linear1(lambda);
    var k1 := Stage(dt, f, [y]);
    LinearStage(dt, lambda, z, y);
    var y2 := y + 0.5 * (z * y);
    ScaleOne(0.5, z * y);
    PlusOne(y, 0.5 * (z * y));
    var k2 := Stage(dt, f, [y2]);
    LinearStage(dt, lambda, z, y2);
    var y3 := y + 0.5 * (z * y2);
    ScaleOne(0.5, z * y2);
    PlusOne(y, 0.5 * (z * y2));
    var k3 := Stage(dt, f, [y3]);
    LinearStage(dt, lambda, z, y3);
    var y4 := y + z * y3;
    PlusOne(y, z * y3);
    var k4 := Stage(dt, f, [y4]);
    LinearStage(dt, lambda, z, y4);
    assert k1 == [z * y];
    assert Plus([y], Scale(0.5, k1)) == [y2];
    assert k2 == [z * y2];
    assert Plus([y], Scale(0.5, k2)) == [y3];
    assert k3 == [z * y3];
    assert Plus([y], k3) == [y4];
    assert k4 == [z * y4];
    var sum := Plus(Plus(Plus(k1, Scale(2.0, k2)), Scale(2.0, k3)), k4);
    var r := Plus([y], Div(sum, 6.0));
    assert r == Rk4Classic([y], dt, f);
    assert |r| == 1 && r[0] == y + (z * y + 2.0 * (z * y2) + 2.0 * (z * y3) + z * y4) / 6.0;
    Rk4ClassicPolynomial(y, z, y2, y3, y4);
    assert r == [Taylor4(z) * y];
  }

  lemma LinearKeepsDim(lambda: real, n: nat)
    ensures KeepsDim(Linear1(lambda), n)
  {
  }

  lemma LinearStage(dt: real, lambda: real, z: real, y: real)
    requires z == lambda * dt
    ensures KeepsDim(Linear1(lambda), 1)
    ensures Stage(dt, Linear1(lambda), [y]) == [z * y]
  {
    LinearKeepsDim(lambda, 1);
    var v := Linear1(lambda)(dt, [y]);
    assert v == Scale(lambda, [y]);
    assert |v| == 1 && v[0] == lambda * y;
    var k := Stage(dt, Linear1(lambda), [y]);
    assert k == Scale(dt, v);
    assert |k| == 1 && k[0] == dt * (lambda * y);
    assert k[0] == z * y;
  }

  lemma ScaleOne(c: real, y: real)
    ensures Scale(c, [y]) == [c * y]
  {
    var s := Scale(c, [y]);
    assert |s| == 1 && s[0] == c * y;
  }

  lemma PlusOne(u: real, v: real)
    ensures Plus([u], [v]) == [u + v]
  {
    var s := Plus([u], [v]);
    assert |s| == 1 && s[0] == u + v;
  }

  /** The stage arithmetic of the classic step on `y' = lambda * y`, `z = lambda * dt`. */
  lemma Rk4ClassicPolynomial(y: real, z: real, y2: real, y3: real, y4: real)
    requires y2 == y + 0.5 * (z * y)
    requires y3 == y + 0.5 * (z * y2)
    requires y4 == y + z * y3
    ensures y + (z * y + 2.0 * (z * y2) + 2.0 * (z * y3) + z * y4) / 6.0 == Taylor4(z) * y
  {
    var z2 := z * z;
    var z3 := z2 * z;
    var z4 := z3 * z;
    assert y2 == y * (1.0 + z / 2.0);
    assert z * y2 == y * (z + z2 / 2.0);
    assert y3 == y * (1.0 + z / 2.0 + z2 / 4.0);
    assert z * y3 == y * (z + z2 / 2.0 + z3 / 4.0);
    assert y4 == y * (1.0 + z + z2 / 2.0 + z3 / 4.0);
    assert z * y4 == y * (z + z2 + z3 / 2.0 + z4 / 4.0);
    assert Taylor4(z) == 1.0 + z + z2 / 2.0 + z3 / 6.0 + z4 / 24.0;
  }

  /** The `rk4` as written is not fourth order: on `y' = y` from `y = 1` with
      `dt = 1` it gives 31/12, while the degree-4 Taylor value is 65/24. */
  lemma Rk4AsWrittenIsNotFourthOrder()
    ensures KeepsDim(Linear1(1.0), 1)
    ensures Rk4([1.0], 1.0, Linear1(1.0)) == [31.0 / 12.0]
    ensures Taylor4(1.0) == 65.0 / 24.0
    ensures Rk4([1.0], 1.0, Linear1(1.0)) != [Taylor4(1.0) * 1.0]
  {
    var f := Linear1(1.0);
    var ks := Rk4Stages([1.0], 1.0, f);
    assert ks[0] == [1.0];
    assert ks[1] == [1.5];
    assert ks[2] == [1.5];
    assert ks[3] == [2.5];
    var r := Rk4([1.0], 1.0, f);
    assert r[0] == 31.0 / 12.0;
    assert r == [31.0 / 12.0];
  }

  // ---------------------------------------------------------------------------
  // Fifth order (Butcher)

  /** The argument of the `|ks| + 1`-th stage of `rk5`, from the stages before it. */
  function Rk5Arg(x: seq<real>, ks: seq<seq<real>>): (y: seq<real>)
    requires |ks| < 6 && forall i :: 0 <= i < |ks| ==> |ks[i]| == |x|
    ensures |y| == |x|
  {
    match |ks|
    case 0 => x
    case 1 => Plus(x, Scale(1.0 / 4.0, ks[0]))
    case 2 => Plus(Plus(x, Scale(1.0 / 8.0, ks[0])), Scale(1.0 / 8.0, ks[1]))
    case 3 => Plus(Minus(x, Scale(1.0 / 2.0, ks[1])), ks[2])
    case 4 => Plus(Plus(x, Scale(3.0 / 16.0, ks[0])), Scale(9.0 / 16.0, ks[3]))
    case 5 =>
      Plus(Minus(Plus(Plus(Minus(x, Scale(3.0 / 7.0, ks[0])), Scale(2.0 / 7.0, ks[1])),
                      Scale(12.0 / 7.0, ks[2])), Scale(12.0 / 7.0, ks[3])), Scale(8.0 / 7.0, ks[4]))
  }

  /** The six stages of `rk5`: each is `dt * f(dt, arg)` at its argument. */
  function Rk5Stages(x: seq<real>, dt: real, f: (real, seq<real>) -> seq<real>): (ks: seq<seq<real>>)
    requires KeepsDim(f, |x|)
    ensures |ks| == 6 && forall i :: 0 <= i < 6 ==> |ks[i]| == |x|
  {
    var k1 := Stage(dt, f, Rk5Arg(x, []));
    var k2 := Stage(dt, f, Rk5Arg(x, [k1]));
    var k3 := Stage(dt, f, Rk5Arg(x, [k1, k2]));
    var k4 := Stage(dt, f, Rk5Arg(x, [k1, k2, k3]));
    var k5 := Stage(dt, f, Rk5Arg(x, [k1, k2, k3, k4]));
    var k6 := Stage(dt, f, Rk5Arg(x, [k1, k2, k3, k4, k5]));
    [k1, k2, k3, k4, k5, k6]
  }

  /** `rk5`: `x + (7 k1 + 32 k3 + 12 k4 + 32 k5 + 7 k6) / 90`. */
  function Rk5(x: seq<real>, dt: real, f: (real, seq<real>) -> seq<real>): (r: seq<real>)
    requires KeepsDim(f, |x|)
    ensures |r| == |x|
  {
    var ks := Rk5Stages(x, dt, f);
    Plus(x, Div(Plus(Plus(Plus(Plus(Scale(7.0, ks[0]), Scale(32.0, ks[2])), Scale(12.0, ks[3])),
                          Scale(32.0, ks[4])), Scale(7.0, ks[5])), 90.0))
  }

  /** With a constant derivative the weights 7, 0, 32, 12, 32, 7 over 90 sum to one:
      `rk5` takes the exact step `x + dt * c`. */
  lemma {:induction false} Rk5ConstantDerivative(x: seq<real>, dt: real, f: (real, seq<real>) -> seq<real>, c: seq<real>)
    requires |c| == |x| && ConstantOn(f, c)
    ensures KeepsDim(f, |x|)
    ensures Rk5(x, dt, f) == Plus(x, Scale(dt, c))
  {
    var ks := Rk5Stages(x, dt, f);
    var s := Scale(dt, c);
    assert forall i :: 0 <= i < 6 ==> ks[i] == s;
    var sum := Plus(Plus(Plus(Plus(Scale(7.0, ks[0]), Scale(32.0, ks[2])), Scale(12.0, ks[3])),
                         Scale(32.0, ks[4])), Scale(7.0, ks[5]));
    assert Div(sum, 90.0) == s by {
      forall i | 0 <= i < |x| ensures Div(sum, 90.0)[i] == s[i] {
        assert sum[i] == 7.0 * s[i] + 32.0 * s[i] + 12.0 * s[i] + 32.0 * s[i] + 7.0 * s[i];
      }
    }
  }

  /** The nodes of `rk5`: the row sums of its stage coefficients. */
  const RK5_NODES: seq<real> := [0.0, 1.0 / 4.0, 1.0 / 4.0, 1.0 / 2.0, 3.0 / 4.0, 1.0]

  lemma Rk5StagesConstant(x: seq<real>, dt: real, f: (real, seq<real>) -> seq<real>, c: seq<real>)
    requires |c| == |x| && ConstantOn(f, c)
    ensures KeepsDim(f, |x|)
    ensures forall j :: 0 <= j < 6 ==> Rk5Stages(x, dt, f)[j] == Scale(dt, c)
  {
  }

  lemma ScaleScale(a: real, b: real, v: seq<real>)
    ensures Scale(a, Scale(b, v)) == Scale(a * b, v)
  {
    var l := Scale(a, Scale(b, v));
    var r := Scale(a * b, v);
    forall j | 0 <= j < |v| ensures l[j] == r[j] {
      assert l[j] == a * (b * v[j]);
    }
  }

  /** When every earlier stage is the same vector `s`, the stage argument is
      `x + node * s`. */
  lemma Rk5ArgEqualStages(x: seq<real>, ks: seq<seq<real>>, s: seq<real>)
    requires |s| == |x| && |ks| < 6 && forall j :: 0 <= j < |ks| ==> ks[j] == s
    ensures Rk5Arg(x, ks) == Plus(x, Scale(RK5_NODES[|ks|], s))
  {
    var lhs := Rk5Arg(x, ks);
    var rhs := Plus(x, Scale(RK5_NODES[|ks|], s));
    forall j | 0 <= j < |x| ensures lhs[j] == rhs[j] {
      var n := |ks|;
      if n == 5 {
        assert lhs[j] == x[j] - 3.0 / 7.0 * s[j] + 2.0 / 7.0 * s[j] + 12.0 / 7.0 * s[j]
                         - 12.0 / 7.0 * s[j] + 8.0 / 7.0 * s[j];
      } else if n == 4 {
        assert lhs[j] == x[j] + 3.0 / 16.0 * s[j] + 9.0 / 16.0 * s[j];
      } else if n == 3 {
        assert lhs[j] == x[j] - 1.0 / 2.0 * s[j] + s[j];
      } else if n == 2 {
        assert lhs[j] == x[j] + 1.0 / 8.0 * s[j] + 1.0 / 8.0 * s[j];
      }
    }
  }
}
