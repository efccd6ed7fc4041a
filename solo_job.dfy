/**
 * `SoloBehaviorJob` of the jobs controller: every solo agent steers away
 * from every other agent, schooling ones weighted 1.5, and wanders by a
 * draw from its own generator.  It reads positions and schooling flags
 * from read-only buffers and touches only its own slot of `newVelocities`
 * and of the generators.
 */
module SoloJob {
  import opened Vectors
  import opened Flocking
  import opened UnityRandom

  /** The push of agent `i` on agent `index` at distance `d`, weighted 1.5 for a schooling agent. */
  function Push(m: Libm, p: Params, positions: seq<Vec2>, isSchooling: seq<bool>, index: nat, i: nat, d: real): Vec2
    requires p.Valid() && |isSchooling| == |positions| && index < |positions| && i < |positions|
  {
    var multiplier := if isSchooling[i] then 1.5 else 1.0;
    Scale(Scale(Normalize(m, Sub(positions[index], positions[i])), Falloff(d, p.avoidanceRadius)), multiplier)
  }

  /** The avoidance loop over agents `0 .. n-1`, skipping the agent itself. */
  function SoloAvoidance(m: Libm, p: Params, positions: seq<Vec2>, isSchooling: seq<bool>, index: nat, n: nat): Vec2
    requires p.Valid() && |isSchooling| == |positions| && index < |positions| && n <= |positions|
  {
    if n == 0 then Zero
    else
      var acc := SoloAvoidance(m, p, positions, isSchooling, index, n - 1);
      var d := Distance(m, positions[index], positions[n - 1]);
      if n - 1 != index && d < p.avoidanceRadius
      then Add(acc, Push(m, p, positions, isSchooling, index, n - 1, d))
      else acc
  }

  /** A pair of draws in [-1, 1), x first: the wander direction. */
  function Wander(rng: Rng): (r: (Vec2, Rng))
    ensures -1.0 <= r.0.x < 1.0 && -1.0 <= r.0.y < 1.0
  {
    var (x, y, rng') := NextFloat2(rng, -1.0, 1.0);
    (Vec2(x, y), rng')
  }

  /**
   * The velocity written for a solo agent, starting from `v` (what earlier
   * jobs left in its slot), and its advanced generator.  The avoidance is
   * applied only above the threshold; the wander is always applied.
   */
  function SoloVelocity(m: Libm, p: Params, positions: seq<Vec2>, isSchooling: seq<bool>, index: nat,
                        v: Vec2, rng: Rng, dt: real): (Vec2, Rng)
    requires p.Valid() && |isSchooling| == |positions| && index < |positions|
  {
    var (dir, rng') := Wander(rng);
    (Add(Steer(m, p, positions, isSchooling, index, v, dt), Scale(Scale(dir, p.randomMovementFactor), dt)), rng')
  }

  /** The avoidance part of the solo update. */
  function Steer(m: Libm, p: Params, positions: seq<Vec2>, isSchooling: seq<bool>, index: nat, v: Vec2, dt: real): Vec2
    requires p.Valid() && |isSchooling| == |positions| && index < |positions|
  {
    var avoidance := SoloAvoidance(m, p, positions, isSchooling, index, |positions|);
    if LengthSq(avoidance) > NormalizeThreshold
    then Add(v, Scale(Scale(Normalize(m, avoidance), p.avoidanceFactor), dt))
    else v
  }

  /**
   * With no other agent inside the avoidance radius the avoidance is zero:
   * the agent's own entry, at distance zero, is skipped.
   */
  lemma {:induction false} SoloAvoidanceAlone(m: Libm, p: Params, positions: seq<Vec2>, isSchooling: seq<bool>,
                                              index: nat, n: nat)
    requires p.Valid() && |isSchooling| == |positions| && index < |positions| && n <= |positions|
    requires forall i :: 0 <= i < n && i != index ==> Distance(m, positions[index], positions[i]) >= p.avoidanceRadius
    ensures SoloAvoidance(m, p, positions, isSchooling, index, n) == Zero
  {
    if n > 0 {
      SoloAvoidanceAlone(m, p, positions, isSchooling, index, n - 1);
    }
  }

  /**
   * A solo agent with nobody in its avoidance radius only wanders: its
   * velocity changes by the random draw scaled by the wander factor.
   */
  lemma AloneOnlyWanders(m: Libm, p: Params, positions: seq<Vec2>, isSchooling: seq<bool>, index: nat,
                         v: Vec2, rng: Rng, dt: real)
    requires p.Valid() && |isSchooling| == |positions| && index < |positions|
    requires forall i :: 0 <= i < |positions| && i != index ==> Distance(m, positions[index], positions[i]) >= p.avoidanceRadius
    ensures Steer(m, p, positions, isSchooling, index, v, dt) == v
    ensures p.randomMovementFactor == 0.0 ==> SoloVelocity(m, p, positions, isSchooling, index, v, rng, dt).0 == v
  {
    SoloAvoidanceAlone(m, p, positions, isSchooling, index, |positions|);
  }

  /** A schooling neighbour pushes half as hard again as a solo neighbour in the same place. */
  lemma SchoolingPushesHarder(m: Libm, p: Params, positions: seq<Vec2>, isSchooling: seq<bool>, index: nat, i: nat, d: real)
    requires p.Valid() && |isSchooling| == |positions| && index < |positions| && i < |positions|
    ensures Push(m, p, positions, isSchooling[i := true], index, i, d)
      == Scale(Push(m, p, positions, isSchooling[i := false], index, i, d), 1.5)
  {
  }

  /** `SoloBehaviorJob.Execute(index)`. */
  method Execute(m: Libm, p: Params, positions: seq<Vec2>, isSchooling: seq<bool>, dt: real, index: nat,
                 newVelocities: array<Vec2>, randomGenerators: array<Rng>)
    requires p.Valid() && |isSchooling| == |positions| && index < |positions|
    requires newVelocities.Length == |positions| && randomGenerators.Length == |positions|
    modifies newVelocities, randomGenerators
    ensures isSchooling[index] ==> newVelocities[..] == old(newVelocities[..]) && randomGenerators[..] == old(randomGenerators[..])
    ensures !isSchooling[index] ==>
      var r := SoloVelocity(m, p, positions, isSchooling, index, old(newVelocities[index]), old(randomGenerators[index]), dt);
      newVelocities[..] == old(newVelocities[..])[index := r.0]
      && randomGenerators[..] == old(randomGenerators[..])[index := r.1]
  {
    if isSchooling[index] {
      return;
    }
    var position := positions[index];
    var velocity := newVelocities[index];
    var avoidance := Zero;

    for i := 0 to |positions|
      invariant avoidance == SoloAvoidance(m, p, positions, isSchooling, index, i)
    {
      if i != index {
        var distance := Distance(m, position, positions[i]);
        if distance < p.avoidanceRadius {
          var moveAway := Sub(position, positions[i]);
          var strength := Falloff(distance, p.avoidanceRadius);
          var multiplier := if isSchooling[i] then 1.5 else 1.0;
          avoidance := Add(avoidance, Scale(Scale(Normalize(m, moveAway), strength), multiplier));
        }
      }
    }

    if LengthSq(avoidance) > NormalizeThreshold {
      avoidance := Normalize(m, avoidance);
      velocity := Add(velocity, Scale(Scale(avoidance, p.avoidanceFactor), dt));
    }

    var random := randomGenerators[index];
    var (x, y, next) := NextFloat2(random, -1.0, 1.0);
    random := next;
    randomGenerators[index] := random;

    velocity := Add(velocity, Scale(Scale(Vec2(x, y), p.randomMovementFactor), dt));
    newVelocities[index] := velocity;
  }

  /**
   * What the job leaves in slot `i`: a schooling agent's velocity and
   * generator as they were, a solo agent's as its own execution computed
   * them from its own slot.
   */
  function SoloSlot(m: Libm, p: Params, positions: seq<Vec2>, isSchooling: seq<bool>, dt: real,
                    nv: seq<Vec2>, rngs: seq<Rng>, i: nat): (Vec2, Rng)
    requires p.Valid() && |isSchooling| == |positions| && |nv| == |positions| && |rngs| == |positions|
    requires i < |positions|
  {
    if isSchooling[i] then (nv[i], rngs[i]) else SoloVelocity(m, p, positions, isSchooling, i, nv[i], rngs[i], dt)
  }

  /**
   * The solo job over every agent.  Each index reads the read-only buffers
   * and writes only its own slot, so the outcome does not depend on the
   * order of the indices; schooling agents are left untouched.
   */
  function SoloPass(m: Libm, p: Params, positions: seq<Vec2>, isSchooling: seq<bool>, dt: real,
                    nv: seq<Vec2>, rngs: seq<Rng>): (r: (seq<Vec2>, seq<Rng>))
    requires p.Valid() && |isSchooling| == |positions| && |nv| == |positions| && |rngs| == |positions|
    ensures |r.0| == |positions| && |r.1| == |positions|
    ensures forall i :: 0 <= i < |positions| && isSchooling[i] ==> r.0[i] == nv[i] && r.1[i] == rngs[i]
  {
    (seq(|positions|, i requires 0 <= i < |positions| => SoloSlot(m, p, positions, isSchooling, dt, nv, rngs, i).0),
     seq(|positions|, i requires 0 <= i < |positions| => SoloSlot(m, p, positions, isSchooling, dt, nv, rngs, i).1))
  }

  /** `SoloBehaviorJob` scheduled over all agents. */
  method Run(m: Libm, p: Params, positions: seq<Vec2>, isSchooling: seq<bool>, dt: real,
             newVelocities: array<Vec2>, randomGenerators: array<Rng>)
    requires p.Valid() && |isSchooling| == |positions|
    requires newVelocities.Length == |positions| && randomGenerators.Length == |positions|
    modifies newVelocities, randomGenerators
    ensures (newVelocities[..], randomGenerators[..])
      == SoloPass(m, p, positions, isSchooling, dt, old(newVelocities[..]), old(randomGenerators[..]))
  {
    ghost var nv, rngs := newVelocities[..], randomGenerators[..];
    ghost var pass := SoloPass(m, p, positions, isSchooling, dt, nv, rngs);
    for index := 0 to |positions|
      invariant newVelocities[..] == pass.0[..index] + nv[index..]
      invariant randomGenerators[..] == pass.1[..index] + rngs[index..]
    {
      ghost var v0, g0 := newVelocities[..], randomGenerators[..];
      assert v0[index] == nv[index] && g0[index] == rngs[index];
      Execute(m, p, positions, isSchooling, dt, index, newVelocities, randomGenerators);
      assert newVelocities[..] == v0[index := pass.0[index]];
      assert randomGenerators[..] == g0[index := pass.1[index]];
      OverwriteStep(pass.0, nv, index);
      OverwriteStep(pass.1, rngs, index);
    }
    assert pass.0[..|positions|] + nv[|positions|..] == pass.0;
    assert pass.1[..|positions|] + rngs[|positions|..] == pass.1;
  }
}
