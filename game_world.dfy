/** World queries of `src/game/world.rs`: gravity towards the world's centre,
    altitude above its radius, the terrain entry beneath a point, the class of a
    terrain entry and surface points. */
module GameWorld {
  import opened Linear
  import opened Utils
  import GameTerrain

  /** The gravitational constant. */
  const GRAVITATION: real := 0.000000000066743

  /** The terrain the world queries read: its number of entries, its heights, and
      its class map of `(class, bound)` entries in order. How the class map is
      built is not part of this model. */
  datatype Terrain = Terrain(circ: nat, heightMap: seq<real>, classMap: seq<(GameTerrain.TerrainClass, nat)>)

  /** A world: position in fixed point (1/256 m), radius in metres, mass in kg. */
  datatype World = World(position: IVec2, radius: real, mass: real, terrain: Terrain)

  /** glam's `normalize_or_zero`: the unit vector along `r`, or zero when `r` has no length. */
  function NormalizeOrZero(m: Math, r: Vec2): Vec2 {
    var len := Length(m, r);
    if len > 0.0 then r.Scale(1.0 / len) else ZERO2
  }

  /** `get_grativy`: `-normalize_or_zero(r) * G * mass / |r|^2` with `r` the
      offset of `point` from the world, in metres. At the centre the source divides
      zero by zero; the model returns the zero vector there. */
  function Gravity(m: Math, w: World, point: IVec2): Vec2 {
    var r := ToMeters(point.Minus(w.position));
    var lsq := r.LengthSquared();
    var n := NormalizeOrZero(m, r);
    if lsq == 0.0 then ZERO2
    else Vec2(-n.x * GRAVITATION * w.mass / lsq, -n.y * GRAVITATION * w.mass / lsq)
  }

  /** Away from the centre gravity is the offset `r` scaled by
      `-(G * mass / |r|^2) / |r|`, a non-positive factor for a non-negative mass:
      it points back to the centre. */
  lemma GravityTowardsCentre(m: Math, w: World, point: IVec2)
    requires SoundSqrt(m)
    ensures var r := ToMeters(point.Minus(w.position));
      var lsq := r.LengthSquared();
      lsq != 0.0 ==>
        var c := -(GRAVITATION * w.mass / lsq) / m.sqrt(lsq);
        Gravity(m, w, point) == r.Scale(c) && (0.0 <= w.mass ==> c <= 0.0)
  {
    var r := ToMeters(point.Minus(w.position));
    var lsq := r.LengthSquared();
    if lsq != 0.0 {
      var len := m.sqrt(lsq);
      PositiveLength(m, r, lsq, len);
      GravityAsScale(m, w, point, r, lsq, len);
      if 0.0 <= w.mass {
        NonNegativeRatio(GRAVITATION * w.mass, lsq);
        NonNegativeRatio(GRAVITATION * w.mass / lsq, len);
      }
    }
  }

  /** A non-zero offset has a positive length. */
  lemma PositiveLength(m: Math, r: Vec2, lsq: real, len: real)
    requires SoundSqrt(m) && lsq == r.LengthSquared() && lsq != 0.0 && len == m.sqrt(lsq)
    ensures len > 0.0 && len * len == lsq
  {
    SquaresNonNegative(r.x, r.y);
  }

  /** Unfolds `Gravity` away from the centre into one scaling of the offset. */
  lemma GravityAsScale(m: Math, w: World, point: IVec2, r: Vec2, lsq: real, len: real)
    requires r == ToMeters(point.Minus(w.position)) && lsq == r.LengthSquared()
    requires lsq != 0.0 && len == m.sqrt(lsq) && len > 0.0
    ensures Gravity(m, w, point) == r.Scale(-(GRAVITATION * w.mass / lsq) / len)
  {
    var n := NormalizeOrZero(m, r);
    assert n == r.Scale(1.0 / len);
    assert Gravity(m, w, point) == Vec2(-n.x * GRAVITATION * w.mass / lsq, -n.y * GRAVITATION * w.mass / lsq);
    GravityScaled(r, n, len, w.mass, lsq);
  }

  /** Away from the centre the squared length of gravity is `(G * mass / |r|^2)^2`. */
  lemma GravityMagnitude(m: Math, w: World, point: IVec2)
    requires SoundSqrt(m)
    ensures var r := ToMeters(point.Minus(w.position));
      var lsq := r.LengthSquared();
      lsq != 0.0 ==>
        Gravity(m, w, point).LengthSquared() == (GRAVITATION * w.mass / lsq) * (GRAVITATION * w.mass / lsq)
  {
    var r := ToMeters(point.Minus(w.position));
    var lsq := r.LengthSquared();
    if lsq != 0.0 {
      GravityTowardsCentre(m, w, point);
      var len := m.sqrt(lsq);
      PositiveLength(m, r, lsq, len);
      ScaledLength(r.x, r.y, -(GRAVITATION * w.mass / lsq) / len, GRAVITATION * w.mass / lsq, lsq, len);
    }
  }

  lemma SquaresNonNegative(x: real, y: real)
    ensures 0.0 <= x * x + y * y
  {
  }

  lemma NonNegativeRatio(a: real, b: real)
    requires 0.0 <= a && 0.0 < b
    ensures 0.0 <= a / b
  {
  }

  lemma GravityComponent(x: real, len: real, mass: real, lsq: real)
    requires len > 0.0 && lsq > 0.0
    ensures -((1.0 / len) * x) * GRAVITATION * mass / lsq == (-(GRAVITATION * mass / lsq) / len) * x
  {
    var q := GRAVITATION * mass / lsq;
    assert -((1.0 / len) * x) * GRAVITATION * mass / lsq == -((1.0 / len) * x) * q;
    assert (1.0 / len) * x * q == (q / len) * x;
  }

  /** The source's componentwise gravity is `r` scaled by one factor. */
  lemma GravityScaled(r: Vec2, n: Vec2, len: real, mass: real, lsq: real)
    requires len > 0.0 && lsq > 0.0 && n == r.Scale(1.0 / len)
    ensures Vec2(-n.x * GRAVITATION * mass / lsq, -n.y * GRAVITATION * mass / lsq)
        == r.Scale(-(GRAVITATION * mass / lsq) / len)
  {
    GravityComponent(r.x, len, mass, lsq);
    GravityComponent(r.y, len, mass, lsq);
  }

  lemma ScaledLength(x: real, y: real, c: real, q: real, lsq: real, len: real)
    requires lsq == x * x + y * y && len > 0.0 && len * len == lsq && c == -q / len
    ensures (c * x) * (c * x) + (c * y) * (c * y) == q * q
  {
    assert (c * x) * (c * x) + (c * y) * (c * y) == (c * c) * lsq;
    assert c * len == -q;
    assert (c * c) * (len * len) == (c * len) * (c * len);
  }

  /** `get_altitude`: the distance from the world's centre minus its radius. */
  function Altitude(m: Math, w: World, point: IVec2): real {
    Length(m, ToMeters(point.Minus(w.position))) - w.radius
  }

  /** The altitude is zero exactly on the sphere of the world's radius. */
  lemma AltitudeZero(m: Math, w: World, point: IVec2)
    requires SoundSqrt(m) && 0.0 <= w.radius
    ensures var r := ToMeters(point.Minus(w.position));
      Altitude(m, w, point) == 0.0 <==> r.LengthSquared() == w.radius * w.radius
  {
    var r := ToMeters(point.Minus(w.position));
    var lsq := r.LengthSquared();
    SquaresNonNegative(r.x, r.y);
    var len := m.sqrt(lsq);
    assert len * len == lsq && 0.0 <= len;
    if lsq == w.radius * w.radius {
      SameSquare(len, w.radius);
    }
  }

  /** Two non-negative numbers with the same square are equal. */
  lemma SameSquare(a: real, b: real)
    requires 0.0 <= a && 0.0 <= b && a * a == b * b
    ensures a == b
  {
    assert (a - b) * (a + b) == 0.0;
    if a + b == 0.0 {
      assert a == 0.0 && b == 0.0;
    }
  }

  /** `get_terrain_idx_beneath`: the arc length in kilometres along the surface to
      the point's angle, reduced modulo `circ` (a float remainder) and cast to
      `usize`. With `circ = 0` the remainder is NaN, which casts to 0. */
  function TerrainIdxBeneath(m: Math, w: World, point: IVec2): (idx: nat)
    ensures w.terrain.circ > 0 ==> idx < w.terrain.circ
    ensures w.terrain.circ == 0 ==> idx == 0
  {
    if w.terrain.circ == 0 then 0
    else
      var arc := w.radius / 1000.0 * ToAngle(m, ToMeters(point.Minus(w.position)));
      ToUsize(FMod(arc, w.terrain.circ as real))
  }

  /** The first entry of the class map whose bound reaches `index`. */
  function FindClass(classMap: seq<(GameTerrain.TerrainClass, nat)>, index: nat): (r: Option<GameTerrain.TerrainClass>)
    ensures r.Some? <==> exists k :: 0 <= k < |classMap| && index <= classMap[k].1
    ensures r.Some? ==> exists k :: (0 <= k < |classMap| && index <= classMap[k].1 && r.value == classMap[k].0
      && forall j :: 0 <= j < k ==> classMap[j].1 < index)
  {
    if classMap == [] then None
    else if index <= classMap[0].1 then Some(classMap[0].0)
    else
      var r := FindClass(classMap[1..], index);
      assert forall k :: 1 <= k < |classMap| ==> classMap[k] == classMap[1..][k - 1];
      if r.Some? then
        var k :| 0 <= k < |classMap[1..]| && index <= classMap[1..][k].1 && r.value == classMap[1..][k].0
          && forall j :: 0 <= j < k ==> classMap[1..][j].1 < index;
        assert forall j :: 0 <= j < k + 1 ==> classMap[j].1 < index;
        r
      else r
  }

  /** `get_terrain_class`: the class of the first entry whose bound reaches
      `index`; `None` where the source's `unwrap` panics. */
  function TerrainClassAt(w: World, index: nat): Option<GameTerrain.TerrainClass> {
    FindClass(w.terrain.classMap, index)
  }

  /** `get_from_sealevel`: the surface point of entry `index` raised by `raise`
      metres, in fixed point. */
  function FromSealevel(m: Math, w: World, index: nat, raise: real): IVec2
    requires w.radius != 0.0
  {
    ToI64Coords(PolarToCartesian(m, w.radius + raise, index as real * 1000.0 / w.radius)).Plus(w.position)
  }

  /** `get_terrain`: the surface point of entry `index` at its height. */
  function TerrainPoint(m: Math, w: World, index: nat): (p: IVec2)
    requires w.radius != 0.0 && index < |w.terrain.heightMap|
    ensures p == FromSealevel(m, w, index, w.terrain.heightMap[index])
  {
    ToI64Coords(PolarToCartesian(m, w.radius + w.terrain.heightMap[index], index as real * 1000.0 / w.radius))
      .Plus(w.position)
  }

  /** A point raised `raise` metres above sea level lies at distance `|radius + raise|`
      from the world's centre, up to the truncation of each coordinate to 1/256 m:
      it is never farther, and nearer by less than `sqrt(2) / 256` (stated squared). */
  lemma SealevelDistance(m: Math, w: World, index: nat, raise: real)
    requires w.radius != 0.0 && SoundSqrt(m)
    requires var theta := index as real * 1000.0 / w.radius;
      m.cos(theta) * m.cos(theta) + m.sin(theta) * m.sin(theta) == 1.0
    ensures var rho := w.radius + raise;
      var a := if rho < 0.0 then -rho else rho;
      var len := Length(m, ToMeters(FromSealevel(m, w, index, raise).Minus(w.position)));
      len <= a && Square(a - len) < 2.0 / 65536.0
  {
    var rho := w.radius + raise;
    var a := if rho < 0.0 then -rho else rho;
    var theta := index as real * 1000.0 / w.radius;
    var e := PolarToCartesian(m, rho, theta);
    assert FromSealevel(m, w, index, raise).Minus(w.position) == ToI64Coords(e);
    PolarRadius(m, rho, theta);
    TruncatedDistance(m, e, a);
  }

  /** The polar point of radius `rho` lies at distance `|rho|` (squared). */
  lemma PolarRadius(m: Math, rho: real, theta: real)
    requires m.cos(theta) * m.cos(theta) + m.sin(theta) * m.sin(theta) == 1.0
    ensures var a := if rho < 0.0 then -rho else rho;
      0.0 <= a && PolarToCartesian(m, rho, theta).LengthSquared() == a * a
  {
    PolarLength(rho, m.cos(theta), m.sin(theta));
  }

  /** Truncating a vector of length `a` to fixed point shortens it by less than
      `sqrt(2) / 256` and never lengthens it. */
  lemma TruncatedDistance(m: Math, e: Vec2, a: real)
    requires SoundSqrt(m) && 0.0 <= a && e.LengthSquared() == a * a
    ensures var len := Length(m, ToMeters(ToI64Coords(e)));
      len <= a && Square(a - len) < 2.0 / 65536.0
  {
    var d := ToMeters(ToI64Coords(e));
    MetersRoundTripError(e);
    NearAndShorter(m, e, d, a);
  }

  /** A vector `d` that moves each coordinate of `e` toward zero by less than
      1/256 is no longer than `e`, and shorter by less than `sqrt(2) / 256`. */
  lemma NearAndShorter(m: Math, e: Vec2, d: Vec2, a: real)
    requires SoundSqrt(m) && 0.0 <= a && e.LengthSquared() == a * a
    requires 0.0 <= e.x ==> 0.0 <= d.x <= e.x
    requires e.x < 0.0 ==> e.x <= d.x <= 0.0
    requires 0.0 <= e.y ==> 0.0 <= d.y <= e.y
    requires e.y < 0.0 ==> e.y <= d.y <= 0.0
    requires -1.0 / 256.0 < e.x - d.x < 1.0 / 256.0 && -1.0 / 256.0 < e.y - d.y < 1.0 / 256.0
    ensures var len := Length(m, d);
      len <= a && Square(a - len) < 2.0 / 65536.0
  {
    RootOfSquare(m, e, a);
    TruncatedShorter(e, d);
    ShorterLength(m, e, d, a);
    CloseLengths(m, e, d);
  }

  /** The length of a vector whose squared length is `a * a`, for `a >= 0`, is `a`. */
  lemma RootOfSquare(m: Math, e: Vec2, a: real)
    requires SoundSqrt(m) && 0.0 <= a && e.LengthSquared() == a * a
    ensures Length(m, e) == a
  {
    LengthSquare(m, e);
    SameSquare(Length(m, e), a);
  }

  /** A vector with a smaller squared length than `a * a`, for `a >= 0`, is no
      longer than `a`. */
  lemma ShorterLength(m: Math, e: Vec2, d: Vec2, a: real)
    requires SoundSqrt(m) && 0.0 <= a && e.LengthSquared() == a * a
    requires d.LengthSquared() <= e.LengthSquared()
    ensures Length(m, d) <= a
  {
    LengthSquare(m, d);
    BelowRoot(Length(m, d), a);
  }

  /** The lengths of `e` and `d` differ by less than `sqrt(2) / 256` (squared)
      when each coordinate does by less than 1/256. */
  lemma CloseLengths(m: Math, e: Vec2, d: Vec2)
    requires SoundSqrt(m)
    requires -1.0 / 256.0 < e.x - d.x < 1.0 / 256.0 && -1.0 / 256.0 < e.y - d.y < 1.0 / 256.0
    ensures Square(Length(m, e) - Length(m, d)) < 2.0 / 65536.0
  {
    ReverseTriangle(m, d, e);
    SmallSquare(e.x - d.x);
    SmallSquare(e.y - d.y);
    SumOfSmall(Square(Length(m, e) - Length(m, d)), Square(e.x - d.x), Square(e.y - d.y));
  }

  function Square(t: real): real {
    t * t
  }

  lemma SumOfSmall(t: real, u: real, v: real)
    requires t <= u + v && u < 1.0 / 65536.0 && v < 1.0 / 65536.0
    ensures t < 2.0 / 65536.0
  {
  }

  /** With a sound square root, a length is non-negative and squares to the
      squared length. */
  lemma LengthSquare(m: Math, v: Vec2)
    requires SoundSqrt(m)
    ensures 0.0 <= Length(m, v) && Length(m, v) * Length(m, v) == v.LengthSquared()
  {
    SquaresNonNegative(v.x, v.y);
  }

  /** The polar point of radius `rho` has squared length `rho * rho`. */
  lemma PolarLength(rho: real, c: real, s: real)
    requires c * c + s * s == 1.0
    ensures Vec2(rho * c, rho * s).LengthSquared() == rho * rho
  {
    assert (rho * c) * (rho * c) + (rho * s) * (rho * s) == (rho * rho) * (c * c + s * s);
  }

  /** Truncating each coordinate toward zero does not lengthen a vector. */
  lemma TruncatedShorter(e: Vec2, d: Vec2)
    requires 0.0 <= e.x ==> 0.0 <= d.x <= e.x
    requires e.x < 0.0 ==> e.x <= d.x <= 0.0
    requires 0.0 <= e.y ==> 0.0 <= d.y <= e.y
    requires e.y < 0.0 ==> e.y <= d.y <= 0.0
    ensures d.LengthSquared() <= e.LengthSquared()
  {
    SquareBelow(d.x, e.x);
    SquareBelow(d.y, e.y);
  }

  lemma SquareBelow(d: real, e: real)
    requires 0.0 <= e ==> 0.0 <= d <= e
    requires e < 0.0 ==> e <= d <= 0.0
    ensures d * d <= e * e
  {
    if 0.0 <= e {
      assert d * d <= d * e <= e * e;
    } else {
      assert d * d <= d * e <= e * e;
    }
  }

  /** A value whose square is at most the square of a non-negative one is at most it. */
  lemma BelowRoot(p: real, q: real)
    requires 0.0 <= q && p * p <= q * q
    ensures p <= q
  {
    if p > q {
      SquareGrows(q, p);
      assert false;
    }
  }

  lemma SquareGrows(q: real, p: real)
    requires 0.0 <= q < p
    ensures q * q < p * p
  {
    NonNegativeProduct(q, p - q);
    assert q * (p - q) == q * p - q * q;
    assert p * (p - q) == p * p - q * p;
    PositiveProduct(p, p - q);
  }

  lemma PositiveProduct(a: real, b: real)
    requires 0.0 < a && 0.0 < b
    ensures 0.0 < a * b
  {
  }

  /** Cauchy-Schwarz in the plane. */
  lemma CauchySchwarz(a: Vec2, b: Vec2)
    ensures (a.x * b.x + a.y * b.y) * (a.x * b.x + a.y * b.y) <= a.LengthSquared() * b.LengthSquared()
  {
    var t := a.x * b.y - a.y * b.x;
    assert a.LengthSquared() * b.LengthSquared() - (a.x * b.x + a.y * b.y) * (a.x * b.x + a.y * b.y) == t * t;
  }

  /** Two lengths differ by at most the length of the difference (squared). */
  lemma ReverseTriangle(m: Math, d: Vec2, e: Vec2)
    requires SoundSqrt(m)
    ensures Square(Length(m, e) - Length(m, d)) <= Square(e.x - d.x) + Square(e.y - d.y)
  {
    var l, k := Length(m, d), Length(m, e);
    LengthSquare(m, d);
    LengthSquare(m, e);
    var dot := d.x * e.x + d.y * e.y;
    CauchySchwarz(d, e);
    assert (l * k) * (l * k) == (l * l) * (k * k);
    NonNegativeProduct(l, k);
    BelowRoot(dot, l * k);
    assert (k - l) * (k - l) == k * k + l * l - 2.0 * (l * k);
    assert (e.x - d.x) * (e.x - d.x) + (e.y - d.y) * (e.y - d.y)
      == e.LengthSquared() + d.LengthSquared() - 2.0 * dot;
  }

  lemma NonNegativeProduct(a: real, b: real)
    requires 0.0 <= a && 0.0 <= b
    ensures 0.0 <= a * b
  {
  }

  /** A difference below 1/256 in magnitude has a square below 1/65536. */
  lemma SmallSquare(t: real)
    requires -1.0 / 256.0 < t < 1.0 / 256.0
    ensures Square(t) < 1.0 / 65536.0
  {
    if 0.0 <= t {
      assert t * t <= t * (1.0 / 256.0) < (1.0 / 256.0) * (1.0 / 256.0);
    } else {
      assert t * t == (-t) * (-t) < (1.0 / 256.0) * (1.0 / 256.0);
    }
  }
}
