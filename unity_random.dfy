/**
 * `Unity.Mathematics.Random`, the per-agent generator of the job version: a
 * 32-bit xorshift whose state must never be zero.  Each agent owns one
 * value of this type; a draw returns the number and the advanced state,
 * which the caller writes back into the agent's slot.
 */
module UnityRandom {
  import opened Vectors

  datatype Rng = Rng(state: bv32)

  const TwoTo32: int := 0x1_0000_0000

  /** One xorshift step (shifts 13, 17, 5). */
  function Xorshift(s: bv32): bv32
  {
    var a := s ^ (s << 13);
    var b := a ^ (a >> 17);
    b ^ (b << 5)
  }

  /**
   * `new Random(seed)`: a zero seed is rejected by the library; the seed
   * becomes the state and is advanced once.
   */
  function Create(seed: int): Rng
    requires 0 < seed < TwoTo32
  {
    Rng(Xorshift(seed as bv32))
  }

  /**
   * `NextFloat(lo, hi)`: the top 23 bits of the current state form a
   * fraction in [0, 1) that is scaled into [lo, hi); the state advances.
   */
  function NextFloat(r: Rng, lo: real, hi: real): (d: (real, Rng))
    ensures lo < hi ==> lo <= d.0 < hi
    ensures lo == hi ==> d.0 == lo
    ensures d.1 != r || r.state == 0
  {
    XorshiftMovesNonZero(r.state);
    (Lerp(lo, hi - lo, Fraction(r.state)), Rng(Xorshift(r.state)))
  }

  /** The top 23 bits of the state as a fraction of 2^23. */
  function Fraction(s: bv32): (u: real)
    ensures 0.0 <= u < 1.0
  {
    var top := s as int / 512;
    assert 0 <= top < 8388608;
    top as real / 8388608.0
  }

  /** `lo + u * w` for a fraction `u` in [0, 1): it stays in [lo, lo + w). */
  function Lerp(lo: real, w: real, u: real): (v: real)
    requires 0.0 <= u < 1.0
    ensures w >= 0.0 ==> lo <= v <= lo + w
    ensures w > 0.0 ==> v < lo + w
  {
    FractionOf(u, w);
    lo + u * w
  }

  lemma FractionOf(u: real, w: real)
    requires 0.0 <= u < 1.0
    ensures w >= 0.0 ==> 0.0 <= u * w <= w
    ensures w > 0.0 ==> u * w < w
  {
    if w > 0.0 {
      MulPositive(1.0 - u, w);
      if u > 0.0 {
        MulPositive(u, w);
      }
    }
  }

  /** xorshift has no fixed point other than zero. */
  lemma XorshiftMovesNonZero(s: bv32)
    ensures s != 0 ==> Xorshift(s) != s
  {
  }

  /** Two draws in [lo, hi): the x and then the y component of a random `float2`. */
  function NextFloat2(r: Rng, lo: real, hi: real): (d: (real, real, Rng))
    ensures lo < hi ==> lo <= d.0 < hi && lo <= d.1 < hi
  {
    var (x, r1) := NextFloat(r, lo, hi);
    var (y, r2) := NextFloat(r1, lo, hi);
    (x, y, r2)
  }

  /** `seed + (uint)i` in unsigned 32-bit arithmetic. */
  function SeedFor(seed: int, i: nat): (s: int)
    ensures 0 <= s < TwoTo32
  {
    (seed + i) % TwoTo32
  }

  /**
   * With the base seed drawn from [1, int.MaxValue) and at most
   * int.MaxValue agents, `seed + i` never wraps: every per-agent seed is
   * non-zero (so the library accepts it) and no two agents share a seed.
   */
  lemma {:induction false} SeedsDistinct(seed: int, n: nat)
    requires 1 <= seed < 0x7FFF_FFFF && n <= 0x7FFF_FFFF
    ensures forall i :: 0 <= i < n ==> 0 < SeedFor(seed, i)
    ensures forall i, j :: 0 <= i < j < n ==> SeedFor(seed, i) != SeedFor(seed, j)
  {
    forall i | 0 <= i < n
      ensures SeedFor(seed, i) == seed + i
    {
      assert 0 <= seed + i < TwoTo32;
    }
  }
}
