/**
 * What the two controllers share: the tuning parameters (the serialized
 * fields of `BoidController` and `BoidJobsController`), the quadratic
 * strength ramp and the guarded normalization every rule applies to a
 * summed force.
 */
module Flocking {
  import opened Vectors

  /**
   * The tuning fields of both controllers.  `rotationSpeed` only feeds the
   * heading smoothing of the scene objects and `batchSize` only the job
   * scheduler; neither is part of the model.
   */
  datatype Params = Params(
    cohesionFactor: real,
    alignmentFactor: real,
    separationFactor: real,
    schoolingRadius: real,
    separationRadius: real,
    interSchoolAvoidanceFactor: real,
    interSchoolAvoidanceRadius: real,
    randomMovementFactor: real,
    avoidanceFactor: real,
    avoidanceRadius: real,
    boundaryForce: real,
    boundaryBuffer: real)
  {
    /**
     * Every radius and the boundary buffer are positive.  A zero divisor in
     * a strength ramp yields an IEEE infinity or NaN, which the model over
     * the reals does not describe.
     */
    predicate Valid()
    {
      schoolingRadius > 0.0 && separationRadius > 0.0 && interSchoolAvoidanceRadius > 0.0
      && avoidanceRadius > 0.0 && boundaryBuffer > 0.0
    }
  }

  /** The threshold below which a summed force is left as it is rather than normalized. */
  const NormalizeThreshold: real := 0.001

  /**
   * The strength ramp of every separation, avoidance and boundary rule:
   * `clamp(1 - d / r, 0, 1)` squared.  It lies in [0, 1], is 1 at (and
   * below) distance 0 and 0 at (and beyond) the radius.
   */
  function Falloff(d: real, r: real): (s: real)
    requires r > 0.0
    ensures 0.0 <= s <= 1.0
    ensures d <= 0.0 ==> s == 1.0
    ensures d >= r ==> s == 0.0
  {
    var c := Clamp(1.0 - d / r, 0.0, 1.0);
    UnitSquare(c);
    RatioBounds(d, r);
    c * c
  }

  lemma RatioBounds(d: real, r: real)
    requires r > 0.0
    ensures d <= 0.0 ==> d / r <= 0.0
    ensures d >= r ==> d / r >= 1.0
  {
    var q := d / r;
    assert q * r == d;
    if d <= 0.0 && q > 0.0 {
      MulPositive(q, r);
    }
    if d >= r && q < 1.0 {
      MulPositive(1.0 - q, r);
    }
  }

  lemma UnitSquare(c: real)
    requires 0.0 <= c <= 1.0
    ensures 0.0 <= c * c <= c
  {
    if c > 0.0 {
      MulPositive(c, c);
      if c < 1.0 {
        MulPositive(c, 1.0 - c);
      }
    }
  }

  lemma SquareStrictlyMonotone(u: real, v: real)
    requires 0.0 <= u < v
    ensures u * u < v * v
  {
    MulPositive(v + u, v - u);
  }

  /**
   * Closer neighbours are pushed harder: inside the radius the ramp
   * strictly decreases with the distance.
   */
  lemma FalloffStrictlyDecreasing(d1: real, d2: real, r: real)
    requires r > 0.0 && 0.0 <= d1 < d2 <= r
    ensures Falloff(d1, r) > Falloff(d2, r)
  {
    var c1 := 1.0 - d1 / r;
    var c2 := 1.0 - d2 / r;
    assert d1 / r < d2 / r by {
      assert d2 / r - d1 / r == (d2 - d1) / r;
    }
    assert d2 / r <= 1.0;
    assert 0.0 <= c2 < c1 <= 1.0;
    SquareStrictlyMonotone(c2, c1);
  }

  /**
   * The guard used before every normalization of a summed force: above
   * the threshold the force is normalized, otherwise it is kept unchanged.
   */
  function Guarded(m: Libm, a: Vec2): Vec2
  {
    if LengthSq(a) > NormalizeThreshold then Normalize(m, a) else a
  }

  /**
   * A guarded force is never longer than a unit vector, and it is exactly
   * unit length when the force was above the threshold.
   */
  lemma GuardedAtMostUnit(m: Libm, a: Vec2)
    requires Sound(m)
    ensures LengthSq(a) > NormalizeThreshold ==> LengthSq(Guarded(m, a)) == 1.0
    ensures LengthSq(Guarded(m, a)) <= 1.0
    ensures Abs(Guarded(m, a).x) <= 1.0 && Abs(Guarded(m, a).y) <= 1.0
  {
    var g := Guarded(m, a);
    ComponentsWithin(g, 1.0);
  }
}
