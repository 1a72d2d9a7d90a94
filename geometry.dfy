/**
 * Real-valued geometry of the particle field: 3D points, the Math functions the
 * sampler and the swirl call, the spherical scatter sampler, the velocity seed
 * and three.js's linear interpolation.
 */
module Geometry {

  /** Math.PI as a double. */
  const Pi: real := 3.141592653589793

  datatype Vec3 = Vec3(x: real, y: real, z: real)

  /**
   * Math.sin, Math.cos, Math.acos and Math.cbrt. Their numerics are not modelled:
   * every statement below holds for any four functions passed here.
   */
  datatype MathLib = MathLib(sin: real -> real, cos: real -> real, acos: real -> real, cbrt: real -> real)

  /** A value Math.random() can return. */
  predicate IsUnit(u: real) {
    0.0 <= u < 1.0
  }

  /**
   * The six successive Math.random() results consumed when one particle is
   * (re)seeded, in call order: azimuth, polar, radius, then the three
   * velocity components.
   */
  datatype SeedDraws = SeedDraws(theta: real, phi: real, radius: real, vx: real, vy: real, vz: real)

  predicate Uniform(d: SeedDraws) {
    IsUnit(d.theta) && IsUnit(d.phi) && IsUnit(d.radius) && IsUnit(d.vx) && IsUnit(d.vy) && IsUnit(d.vz)
  }

  /** The azimuth `Math.random() * 2 * Math.PI` of a scatter point. */
  function Azimuth(d: SeedDraws): real {
    d.theta * 2.0 * Pi
  }

  /** The polar angle `Math.acos(2 * Math.random() - 1)` of a scatter point. */
  function Polar(m: MathLib, d: SeedDraws): real {
    m.acos(2.0 * d.phi - 1.0)
  }

  /** The distance `radius * Math.cbrt(Math.random())` of a scatter point from the centre. */
  function ScatterRadius(m: MathLib, radius: real, d: SeedDraws): real {
    radius * m.cbrt(d.radius)
  }

  /**
   * A point of the ball of the given radius in spherical coordinates: azimuth
   * and polar angle give the direction, ScatterRadius the distance, so a zero
   * distance is the centre.
   */
  function ScatterPoint(m: MathLib, radius: real, d: SeedDraws): (q: Vec3)
    ensures ScatterRadius(m, radius, d) == 0.0 ==> q == Vec3(0.0, 0.0, 0.0)
  {
    var theta := Azimuth(d);
    var phi := Polar(m, d);
    var r := ScatterRadius(m, radius, d);
    Vec3(r * m.sin(phi) * m.cos(theta), r * m.sin(phi) * m.sin(theta), r * m.cos(phi))
  }

  /** sin^2 a + cos^2 a = 1, which the real Math.sin and Math.cos meet up to rounding. */
  predicate OnUnitCircle(m: MathLib, a: real) {
    m.sin(a) * m.sin(a) + m.cos(a) * m.cos(a) == 1.0
  }

  /** Squared distance from the origin. */
  function Norm2(v: Vec3): real {
    v.x * v.x + v.y * v.y + v.z * v.z
  }

  /**
   * Wherever sin and cos meet sin^2 + cos^2 = 1 at the two angles drawn, the
   * scatter point lies at distance radius * cbrt(u) from the centre, so inside
   * the ball of the sampling radius when cbrt(u) is in [0, 1].
   */
  lemma ScatterPointInBall(m: MathLib, radius: real, d: SeedDraws)
    requires OnUnitCircle(m, Polar(m, d)) && OnUnitCircle(m, Azimuth(d))
    requires 0.0 <= radius && 0.0 <= m.cbrt(d.radius) <= 1.0
    ensures Norm2(ScatterPoint(m, radius, d)) == ScatterRadius(m, radius, d) * ScatterRadius(m, radius, d)
    ensures Norm2(ScatterPoint(m, radius, d)) <= radius * radius
  {
    var r := ScatterRadius(m, radius, d);
    var sp, cp := m.sin(Polar(m, d)), m.cos(Polar(m, d));
    var ca, sa := m.cos(Azimuth(d)), m.sin(Azimuth(d));
    SphericalNorm(r, sp, cp, ca, sa);
    assert Norm2(ScatterPoint(m, radius, d)) == r * r;
    MulNonneg(radius, m.cbrt(d.radius));
    MulNonneg(radius, 1.0 - m.cbrt(d.radius));
    SquareMonotone(r, radius);
  }

  /** |(r sp ca, r sp sa, r cp)|^2 = r^2 when both (sp, cp) and (ca, sa) are on the unit circle. */
  lemma SphericalNorm(r: real, sp: real, cp: real, ca: real, sa: real)
    requires sp * sp + cp * cp == 1.0 && ca * ca + sa * sa == 1.0
    ensures Norm2(Vec3(r * sp * ca, r * sp * sa, r * cp)) == r * r
  {
    calc {
      Norm2(Vec3(r * sp * ca, r * sp * sa, r * cp));
      (r * r) * ((sp * sp) * (ca * ca + sa * sa) + cp * cp);
      (r * r) * (sp * sp + cp * cp);
      r * r;
    }
  }

  lemma SquareMonotone(a: real, b: real)
    requires 0.0 <= a <= b
    ensures a * a <= b * b
  {
    MulNonneg(a, b - a);
    MulNonneg(b, b - a);
  }

  /** Velocity bound of a freshly seeded particle, per axis: [-0.01, 0.01). */
  predicate InVelocityRange(v: real) {
    -0.01 <= v < 0.01
  }

  /** `(Math.random() - 0.5) * 0.02` */
  function VelocityComponent(u: real): (v: real)
    ensures IsUnit(u) ==> InVelocityRange(v)
  {
    (u - 0.5) * 0.02
  }

  function SeedVelocity(d: SeedDraws): (v: Vec3)
    ensures Uniform(d) ==> InVelocityRange(v.x) && InVelocityRange(v.y) && InVelocityRange(v.z)
  {
    Vec3(VelocityComponent(d.vx), VelocityComponent(d.vy), VelocityComponent(d.vz))
  }

  function Abs(x: real): real {
    if x < 0.0 then -x else x
  }

  /** THREE.MathUtils.lerp(x, y, t) = (1 - t) * x + t * y. */
  function Lerp(x: real, y: real, t: real): real {
    (1.0 - t) * x + t * y
  }

  /** Lerp starts at x for t = 0, ends at y for t = 1, and stays between them for t in [0, 1]. */
  lemma LerpEndpoints(x: real, y: real, t: real)
    ensures t == 0.0 ==> Lerp(x, y, t) == x
    ensures t == 1.0 ==> Lerp(x, y, t) == y
    ensures 0.0 <= t <= 1.0 && x <= y ==> x <= Lerp(x, y, t) <= y
    ensures 0.0 <= t <= 1.0 && y <= x ==> y <= Lerp(x, y, t) <= x
  {
    assert Lerp(x, y, t) == x + t * (y - x);
    if 0.0 <= t <= 1.0 {
      if x <= y {
        MulNonneg(t, y - x);
        MulNonneg(1.0 - t, y - x);
      } else {
        MulNonneg(t, x - y);
        MulNonneg(1.0 - t, x - y);
      }
    }
  }

  /** Lerping by t in [0, 1] scales the distance to the end point by 1 - t; t = 0 stays put. */
  lemma LerpDistance(x: real, y: real, t: real)
    ensures 0.0 <= t <= 1.0 ==> Abs(Lerp(x, y, t) - y) == (1.0 - t) * Abs(x - y)
    ensures t == 0.0 ==> Lerp(x, y, t) == x
  {
    var d := Lerp(x, y, t) - y;
    assert d == (1.0 - t) * (x - y);
    if 0.0 <= t <= 1.0 {
      if x - y >= 0.0 {
        MulNonneg(1.0 - t, x - y);
      } else {
        MulNonneg(1.0 - t, y - x);
        assert (1.0 - t) * (y - x) == -d;
      }
    }
  }

  lemma MulNonneg(a: real, b: real)
    requires a >= 0.0 && b >= 0.0
    ensures a * b >= 0.0
  {
  }

  /** A nonnegative distance scaled by 1 - f, f in [0, 1], does not grow. */
  lemma ScaleShrinks(f: real, d: real, e: real)
    requires 0.0 <= f <= 1.0 && 0.0 <= d && e == (1.0 - f) * d
    ensures 0.0 <= e <= d
  {
    MulNonneg(f, d);
    MulNonneg(1.0 - f, d);
  }

  /** Rotation of (x, z) by `angle` about the y axis; y is kept. */
  function Swirl(m: MathLib, p: Vec3, angle: real): (q: Vec3)
    ensures q.y == p.y
  {
    Vec3(p.x * m.cos(angle) - p.z * m.sin(angle), p.y, p.x * m.sin(angle) + p.z * m.cos(angle))
  }

  /**
   * One frame of one particle: swirl by `angle` (its y velocity), then lerp each
   * axis toward `target` by `f`.
   */
  function MoveParticle(m: MathLib, p: Vec3, angle: real, target: Vec3, f: real): (q: Vec3)
    ensures q.y == Lerp(p.y, target.y, f)
  {
    var s := Swirl(m, p, angle);
    Vec3(Lerp(s.x, target.x, f), Lerp(s.y, target.y, f), Lerp(s.z, target.z, f))
  }

  /**
   * A particle's height is untouched by the swirl, so one frame with f in [0, 1]
   * scales its y distance to the target by 1 - f; with f = 0 the frame only swirls.
   */
  lemma MoveParticleScalesY(m: MathLib, p: Vec3, angle: real, target: Vec3, f: real)
    ensures 0.0 <= f <= 1.0 ==>
      Abs(MoveParticle(m, p, angle, target, f).y - target.y) == (1.0 - f) * Abs(p.y - target.y)
    ensures f == 0.0 ==> MoveParticle(m, p, angle, target, f) == Swirl(m, p, angle)
  {
    var s := Swirl(m, p, angle);
    LerpDistance(s.x, target.x, f);
    LerpDistance(s.y, target.y, f);
    LerpDistance(s.z, target.z, f);
  }
}
