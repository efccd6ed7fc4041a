/**
 * Two-component vectors over the reals, standing in for Unity's `float2`
 * (Unity.Mathematics) and `Vector2` (UnityEngine).  Floating-point rounding
 * is not modelled.  The square root of the platform's math library is an
 * oracle (`Libm`): nothing is assumed about it except, where a proof needs
 * it, the law stated by `Sound`.
 */
module Vectors {

  datatype Vec2 = Vec2(x: real, y: real)

  const Zero: Vec2 := Vec2(0.0, 0.0)

  function Add(a: Vec2, b: Vec2): Vec2 { Vec2(a.x + b.x, a.y + b.y) }

  function Sub(a: Vec2, b: Vec2): Vec2 { Vec2(a.x - b.x, a.y - b.y) }

  function Scale(a: Vec2, k: real): Vec2 { Vec2(a.x * k, a.y * k) }

  function Div(a: Vec2, k: real): Vec2
    requires k != 0.0
  {
    Vec2(a.x / k, a.y / k)
  }

  /** `math.lengthsq` / `Vector2.sqrMagnitude`. */
  function LengthSq(a: Vec2): real { a.x * a.x + a.y * a.y }

  function Abs(x: real): real { if x < 0.0 then -x else x }

  function Max(a: real, b: real): real { if a < b then b else a }

  /** `math.sign`: -1, 0 or 1. */
  function Sign(x: real): (s: int)
    ensures s == -1 || s == 0 || s == 1
    ensures (s == 1 <==> x > 0.0) && (s == -1 <==> x < 0.0)
  {
    if x > 0.0 then 1 else if x < 0.0 then -1 else 0
  }

  /** `math.clamp(x, lo, hi)` and `Mathf.Clamp` (they agree whenever lo <= hi). */
  function Clamp(x: real, lo: real, hi: real): (r: real)
    requires lo <= hi
    ensures lo <= r <= hi
    ensures lo <= x <= hi ==> r == x
    ensures x < lo ==> r == lo
    ensures x > hi ==> r == hi
  {
    if x < lo then lo else if x > hi then hi else x
  }

  /**
   * The two primitives of the math library that the rules use: the square
   * root behind `distance`, and `normalize`.
   */
  datatype Libm = Libm(sqrt: real -> real, normalize: Vec2 -> Vec2)

  /** The one law assumed of the library: `normalize` of a non-zero vector has unit length. */
  ghost predicate Sound(m: Libm)
  {
    forall a: Vec2 :: LengthSq(a) > 0.0 ==> LengthSq(m.normalize(a)) == 1.0
  }

  /** `math.length` / `Vector2.magnitude`. */
  function Length(m: Libm, a: Vec2): real { m.sqrt(LengthSq(a)) }

  /** `math.distance(a, b)` and `Vector2.Distance(a, b)`. */
  function Distance(m: Libm, a: Vec2, b: Vec2): real { Length(m, Sub(a, b)) }

  /**
   * `math.normalize`.  For the zero vector the library computes 0 * (1/0),
   * a NaN; here the result is the zero vector instead, as `Vector2.normalized`
   * gives (see `Findings` for the library's own behaviour).
   */
  function Normalize(m: Libm, a: Vec2): Vec2
  {
    if LengthSq(a) > 0.0 then m.normalize(a) else Zero
  }

  /** `Vector2.normalized`: the zero vector when the magnitude is at most 1e-5. */
  function Normalized(m: Libm, a: Vec2): Vec2
  {
    if LengthSq(a) > 0.0000000001 then m.normalize(a) else Zero
  }

  /**
   * Both normalizations give a unit vector or the zero vector, never
   * anything longer: `Normalize` a unit vector from any non-zero vector,
   * `Normalized` only above squared length 1e-10.
   */
  lemma NormalizeAtMostUnit(m: Libm, a: Vec2)
    requires Sound(m)
    ensures LengthSq(Normalize(m, a)) <= 1.0 && LengthSq(Normalized(m, a)) <= 1.0
    ensures LengthSq(a) > 0.0 ==> LengthSq(Normalize(m, a)) == 1.0
    ensures LengthSq(a) > 0.0000000001 ==> LengthSq(Normalized(m, a)) == 1.0
  {
  }

  lemma MulPositive(a: real, b: real)
    requires a > 0.0 && b > 0.0
    ensures a * b > 0.0
  {
  }

  lemma SquareMonotone(u: real, v: real)
    requires 0.0 <= u && 0.0 <= v && u * u >= v * v
    ensures v <= u
  {
    if v > u {
      MulPositive(u + v, v - u);
    }
  }

  /** A vector whose squared length is at most k*k has both components within |k|. */
  lemma ComponentsWithin(a: Vec2, k: real)
    requires LengthSq(a) <= k * k
    ensures Abs(a.x) <= Abs(k) && Abs(a.y) <= Abs(k)
  {
    assert Abs(a.x) * Abs(a.x) == a.x * a.x && Abs(a.y) * Abs(a.y) == a.y * a.y;
    assert Abs(k) * Abs(k) == k * k;
    SquareMonotone(Abs(k), Abs(a.x));
    SquareMonotone(Abs(k), Abs(a.y));
  }

  /**
   * Per-slot buffers written one index at a time: overwriting slot `k` of
   * "the first `k` new values, then the old ones" extends the new prefix
   * by one.
   */
  lemma OverwriteStep<T>(t: seq<T>, s: seq<T>, k: nat)
    requires |t| == |s| && k < |s|
    ensures (t[..k] + s[k..])[k := t[k]] == t[..k + 1] + s[k + 1..]
  {
    var lhs, rhs := (t[..k] + s[k..])[k := t[k]], t[..k + 1] + s[k + 1..];
    forall j | 0 <= j < |s|
      ensures lhs[j] == rhs[j]
    {
      if j > k {
        assert lhs[j] == s[j] == rhs[j];
      }
    }
  }

  /** Scaling by a factor in [0, 1] never makes a number larger in size, nor flips its sign. */
  lemma ScaleUnit(k: real, s: real)
    requires 0.0 <= s <= 1.0
    ensures Abs(k * s) <= Abs(k)
    ensures k >= 0.0 ==> k * s >= 0.0
  {
    if k >= 0.0 {
      ScaleUnitNonNegative(k, s);
    } else {
      ScaleUnitNonNegative(-k, s);
      assert k * s == -((-k) * s);
    }
  }

  lemma ScaleUnitNonNegative(k: real, s: real)
    requires k >= 0.0 && 0.0 <= s <= 1.0
    ensures 0.0 <= k * s <= k
  {
    if k > 0.0 && s > 0.0 {
      MulPositive(k, s);
    }
    if k > 0.0 && s < 1.0 {
      MulPositive(k, 1.0 - s);
      assert k * (1.0 - s) == k - k * s;
    }
  }

  lemma LengthSqScale(a: Vec2, k: real)
    ensures LengthSq(Scale(a, k)) == k * k * LengthSq(a)
  {
  }

  lemma SquareNonNegative(k: real)
    ensures k * k >= 0.0
  {
    if k < 0.0 {
      MulPositive(-k, -k);
    } else if k > 0.0 {
      MulPositive(k, k);
    }
  }
}
