/**
 * The separation term of `SchoolingBehaviorJob` as the job computes it in
 * single-precision floats.  `math.normalize(v)` multiplies `v` by the
 * reciprocal square root of its length squared, so for the zero vector it
 * is `0 * inf`, which is NaN.  Two agents of the same type at exactly the
 * same place (the movement job clamps every agent that leaves the area onto
 * its edge, so two of them can share a corner) are at distance 0, inside
 * the separation radius, and the move-away vector between them is zero.
 * A NaN summand makes the sum NaN, and the `lengthsq > 0.001` guard, a
 * comparison with NaN, is false, so the NaN reaches the velocity.
 *
 * `SchoolingJob.SameTypeScan` is the corrected definition the rest of the
 * model uses: it normalizes with `Vectors.Normalize`, which is zero at zero,
 * as `Vector2.normalized` in the sequential controller is.
 */
module Findings {
  import opened Vectors
  import opened Flocking
  import opened SchoolingJob

  /** A `float2` as the hardware holds it: a finite value, or NaN. */
  datatype Float2 = Finite(v: Vec2) | NaN

  /**
   * `math.normalize` as written: `v * rsqrt(dot(v, v))`.  A zero length
   * squared makes the reciprocal square root infinite and the product NaN;
   * otherwise it is the library's unit vector, which is what the corrected
   * `Normalize` returns.  The zero vector is always of the first kind.
   */
  function NormalizeAsWritten(m: Libm, a: Vec2): (r: Float2)
    ensures a == Zero ==> r == NaN
    ensures r != NaN ==> r.v == Normalize(m, a) && r.v == m.normalize(a)
  {
    SquareNonNegative(a.x);
    SquareNonNegative(a.y);
    if LengthSq(a) == 0.0 then NaN else Finite(m.normalize(a))
  }

  /**
   * The separation sum of the same-type loop as written, over the first `n`
   * entries of `indices`: every other entry inside both the schooling and
   * the separation radius adds its push, and a NaN push or sum stays NaN.
   */
  function SeparationAsWritten(m: Libm, p: Params, w: Snapshot, indices: seq<int>, index: nat, n: nat): Float2
    requires p.Valid() && w.Valid() && IndicesIn(w, indices)
    requires index < |indices| && n <= |indices|
  {
    if n == 0 then Finite(Zero)
    else
      var acc := SeparationAsWritten(m, p, w, indices, index, n - 1);
      var pos := w.positions[indices[index]];
      var otherPos := w.positions[indices[n - 1]];
      var d := Distance(m, pos, otherPos);
      if n - 1 == index || !(d < p.schoolingRadius && d < p.separationRadius) then acc
      else
        match (acc, NormalizeAsWritten(m, Sub(pos, otherPos)))
        case (Finite(s), Finite(u)) => Finite(Add(s, Scale(u, Falloff(d, p.separationRadius))))
        case _ => NaN
  }

  /**
   * Entry `j` of `indices` is another agent at distance zero from entry
   * `index`: the move-away vector between them has length squared zero.
   */
  predicate Coincident(w: Snapshot, indices: seq<int>, index: nat, j: nat)
    requires w.Valid() && IndicesIn(w, indices) && index < |indices| && j < |indices|
  {
    j != index && LengthSq(Sub(w.positions[indices[index]], w.positions[indices[j]])) == 0.0
  }

  /**
   * Away from coincident agents the loop as written and the corrected scan
   * agree: the as-written sum is finite and equals the corrected separation.
   */
  lemma {:induction false} AsWrittenAgreesApart(m: Libm, p: Params, w: Snapshot, indices: seq<int>, index: nat, n: nat)
    requires p.Valid() && w.Valid() && IndicesIn(w, indices)
    requires index < |indices| && n <= |indices|
    requires forall j :: 0 <= j < n ==> !Coincident(w, indices, index, j)
    ensures SeparationAsWritten(m, p, w, indices, index, n) == Finite(SameTypeScan(m, p, w, indices, index, n).separation)
  {
    if n > 0 {
      AsWrittenAgreesApart(m, p, w, indices, index, n - 1);
      if n - 1 != index {
        assert !Coincident(w, indices, index, n - 1);
      }
    }
  }

  /**
   * Once a coincident entry has been scanned, with `sqrt(0) = 0`, the
   * separation sum as written is NaN, and it stays NaN to the end of the
   * loop.
   */
  lemma {:induction false} CoincidentPoisons(m: Libm, p: Params, w: Snapshot, indices: seq<int>, index: nat, j: nat, n: nat)
    requires p.Valid() && w.Valid() && IndicesIn(w, indices)
    requires index < |indices| && j < n <= |indices| && Coincident(w, indices, index, j)
    requires m.sqrt(0.0) == 0.0
    ensures SeparationAsWritten(m, p, w, indices, index, n) == NaN
  {
    if n - 1 == j {
      var pos := w.positions[indices[index]];
      assert Distance(m, pos, w.positions[indices[j]]) == 0.0;
    } else {
      CoincidentPoisons(m, p, w, indices, index, j, n - 1);
      NaNStays(m, p, w, indices, index, n);
    }
  }

  /** A NaN separation sum stays NaN for the rest of the loop. */
  lemma NaNStays(m: Libm, p: Params, w: Snapshot, indices: seq<int>, index: nat, n: nat)
    requires p.Valid() && w.Valid() && IndicesIn(w, indices)
    requires index < |indices| && 0 < n <= |indices|
    requires SeparationAsWritten(m, p, w, indices, index, n - 1) == NaN
    ensures SeparationAsWritten(m, p, w, indices, index, n) == NaN
  {
  }

  /**
   * In the corrected scan a coincident agent is still counted as a
   * neighbour, but pushes with the zero vector: the separation is what it
   * was before that agent.
   */
  lemma CorrectedCoincidentPushIsZero(m: Libm, p: Params, w: Snapshot, self: int, other: int, acc: Flock)
    requires p.Valid() && w.Valid() && 0 <= self < w.Size() && 0 <= other < w.Size()
    requires w.positions[other] == w.positions[self] && m.sqrt(0.0) == 0.0
    ensures Neighbour(m, p, w, self, other, acc).separation == acc.separation
    ensures Neighbour(m, p, w, self, other, acc).neighbours == acc.neighbours + 1
  {
    var pos := w.positions[self];
    assert Sub(pos, pos) == Zero;
    assert Normalize(m, Zero) == Zero;
    var k := Falloff(0.0, p.separationRadius);
    assert Scale(Zero, k) == Zero;
    assert Distance(m, pos, pos) == 0.0;
  }

  /**
   * Two agents of one schooling type at (1, 1): the loop as written makes
   * the first one's separation NaN, the corrected scan gives zero.
   */
  lemma CoincidentPairExample(m: Libm, p: Params)
    requires p.Valid() && m.sqrt(0.0) == 0.0
    ensures var w := Snapshot([Vec2(1.0, 1.0), Vec2(1.0, 1.0)], [Zero, Zero], [0, 0], [0, 0], [true, true]);
      SeparationAsWritten(m, p, w, [0, 1], 0, 2) == NaN
      && SameTypeScan(m, p, w, [0, 1], 0, 2).separation == Zero
  {
    var w := Snapshot([Vec2(1.0, 1.0), Vec2(1.0, 1.0)], [Zero, Zero], [0, 0], [0, 0], [true, true]);
    CoincidentPoisons(m, p, w, [0, 1], 0, 1, 2);
    assert SameTypeScan(m, p, w, [0, 1], 0, 1) == NoFlock;
    CorrectedCoincidentPushIsZero(m, p, w, 0, 1, NoFlock);
  }
}
