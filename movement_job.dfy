/**
 * `ApplyMovementJob` of the jobs controller: per agent, a push away from
 * the walls of a rectangular arena, a speed cap, a minimum-speed floor,
 * integration of the position, a hard clamp into the arena and an
 * inelastic bounce off the wall that was hit.  Each execution reads and
 * writes only its own slot of the positions, velocities and generators.
 */
module MovementJob {
  import opened Vectors
  import opened Flocking
  import opened UnityRandom

  /**
   * The arena: its centre and half its size on each axis.  The size comes
   * from a sprite's bounds (or a default), so it is never negative.
   */
  datatype Arena = Arena(center: Vec2, half: Vec2)
  {
    predicate Valid() { half.x >= 0.0 && half.y >= 0.0 }

    /** `p - center` lies within the half extents on both axes. */
    predicate Contains(p: Vec2)
    {
      -half.x <= p.x - center.x <= half.x && -half.y <= p.y - center.y <= half.y
    }
  }

  /** One agent's slot: position, velocity and generator. */
  datatype Agent = Agent(position: Vec2, velocity: Vec2, rng: Rng)

  /** The squared force above which a wall push also draws a jitter. */
  const JitterThreshold: real := 0.01

  /** The squared speed below which the velocity is replaced by a small random one. */
  const MinSpeedSq: real := 0.01

  /**
   * The wall push on one axis, for the coordinate `rel` relative to the
   * centre.  Within `buffer` of the positive wall it pushes back towards the
   * centre, otherwise within `buffer` of the negative wall it pushes
   * forward; only one of the two ever fires, the positive one first.  Its
   * size never exceeds the boundary force and is the full force at (or
   * past) the wall.
   */
  function WallPush(rel: real, half: real, buffer: real, force: real): (f: real)
    requires buffer > 0.0
    ensures rel > half - buffer ==> (force >= 0.0 ==> f <= 0.0)
    ensures rel <= half - buffer && rel < -half + buffer ==> (force >= 0.0 ==> f >= 0.0)
    ensures -half + buffer <= rel <= half - buffer ==> f == 0.0
    ensures Abs(f) <= Abs(force)
    ensures rel >= half ==> f == -force
    ensures rel <= -half && rel <= half - buffer ==> f == force
  {
    if rel > half - buffer then
      var s := Falloff(half - rel, buffer);
      ScaleUnit(force, s);
      0.0 - force * s
    else if rel < -half + buffer then
      var s := Falloff(rel + half, buffer);
      ScaleUnit(force, s);
      0.0 + force * s
    else 0.0
  }

  /** The boundary force on an agent at `position`. */
  function BoundaryForce(a: Arena, p: Params, position: Vec2): Vec2
    requires p.Valid()
  {
    var rel := Sub(position, a.center);
    Vec2(WallPush(rel.x, a.half.x, p.boundaryBuffer, p.boundaryForce),
         WallPush(rel.y, a.half.y, p.boundaryBuffer, p.boundaryForce))
  }

  /**
   * The wall stage: the force is added (scaled by the time step); when it
   * is above the jitter threshold a random nudge in [-0.3, 0.3)·dt per axis
   * follows.  Below the threshold the generator is not touched.
   */
  function WallStage(a: Arena, p: Params, s: Agent, dt: real): (r: Agent)
    requires p.Valid()
    ensures r.position == s.position
    ensures LengthSq(BoundaryForce(a, p, s.position)) <= JitterThreshold ==>
      r == s.(velocity := Add(s.velocity, Scale(BoundaryForce(a, p, s.position), dt)))
  {
    var force := BoundaryForce(a, p, s.position);
    var v := Add(s.velocity, Scale(force, dt));
    if LengthSq(force) > JitterThreshold then
      var (x, y, rng') := NextFloat2(s.rng, -1.0, 1.0);
      s.(velocity := Add(v, Scale(Scale(Vec2(x, y), 0.3), dt)), rng := rng')
    else s.(velocity := v)
  }

  /**
   * The speed cap: a velocity faster than `moveSpeed` is replaced by its
   * direction scaled to `moveSpeed`; afterwards the squared speed is at
   * most `moveSpeed²`, and exactly `moveSpeed²` when the cap applied.
   */
  function SpeedCap(m: Libm, v: Vec2, moveSpeed: real): (r: Vec2)
    ensures LengthSq(v) <= moveSpeed * moveSpeed ==> r == v
    ensures Sound(m) ==> LengthSq(r) <= moveSpeed * moveSpeed
    ensures Sound(m) && LengthSq(v) > moveSpeed * moveSpeed ==> LengthSq(r) == moveSpeed * moveSpeed
  {
    if LengthSq(v) > moveSpeed * moveSpeed then
      var r := Scale(Normalize(m, v), moveSpeed);
      LengthSqScale(Normalize(m, v), moveSpeed);
      SquareNonNegative(moveSpeed);
      r
    else v
  }

  /**
   * The minimum-speed floor: a velocity slower than the floor is replaced
   * by a random vector with both components in [-0.1, 0.1) (not a unit
   * vector scaled to 0.1); any other velocity, and the generator, are kept.
   */
  function SpeedFloor(v: Vec2, rng: Rng): (r: (Vec2, Rng))
    ensures LengthSq(v) >= MinSpeedSq ==> r == (v, rng)
    ensures LengthSq(v) < MinSpeedSq ==> -0.1 <= r.0.x < 0.1 && -0.1 <= r.0.y < 0.1
  {
    if LengthSq(v) < MinSpeedSq then
      var (x, y, rng') := NextFloat2(rng, -1.0, 1.0);
      (Scale(Vec2(x, y), 0.1), rng')
    else (v, rng)
  }

  /**
   * The hard clamp: the position relative to the centre, clamped into the
   * half extents on each axis.
   */
  function Confine(a: Arena, position: Vec2): (rel: Vec2)
    requires a.Valid()
    ensures -a.half.x <= rel.x <= a.half.x && -a.half.y <= rel.y <= a.half.y
    ensures a.Contains(position) ==> rel == Sub(position, a.center)
  {
    var rel := Sub(position, a.center);
    Vec2(Clamp(rel.x, -a.half.x, a.half.x), Clamp(rel.y, -a.half.y, a.half.y))
  }

  /**
   * The bounce test on one axis: the clamped coordinate sits at (or past)
   * the bound and the velocity component has the same sign as it.
   */
  predicate Outward(v: real, rel: real, half: real)
  {
    Abs(rel) >= half && Sign(v) == Sign(rel)
  }

  /**
   * The bounce on the x axis: when the clamped coordinate sits at the bound
   * and the velocity points the same way, the x component is reversed and
   * damped to -0.8 times itself, then a jitter in [-0.5, 0.5) is added to
   * both components.  Otherwise velocity and generator are kept.
   */
  function BounceX(v: Vec2, relX: real, halfX: real, rng: Rng): (r: (Vec2, Rng))
    ensures !(Outward(v.x, relX, halfX)) ==> r == (v, rng)
    ensures Outward(v.x, relX, halfX) ==>
      -0.5 <= r.0.x - (-v.x * 0.8) < 0.5 && -0.5 <= r.0.y - v.y < 0.5
  {
    if Outward(v.x, relX, halfX) then
      var (jx, jy, rng') := NextFloat2(rng, -0.5, 0.5);
      (Add(Vec2(-v.x * 0.8, v.y), Vec2(jx, jy)), rng')
    else (v, rng)
  }

  /** The bounce on the y axis, the mirror image of `BounceX`. */
  function BounceY(v: Vec2, relY: real, halfY: real, rng: Rng): (r: (Vec2, Rng))
    ensures !(Outward(v.y, relY, halfY)) ==> r == (v, rng)
    ensures Outward(v.y, relY, halfY) ==>
      -0.5 <= r.0.y - (-v.y * 0.8) < 0.5 && -0.5 <= r.0.x - v.x < 0.5
  {
    if Outward(v.y, relY, halfY) then
      var (jx, jy, rng') := NextFloat2(rng, -0.5, 0.5);
      (Add(Vec2(v.x, -v.y * 0.8), Vec2(jx, jy)), rng')
    else (v, rng)
  }

  /** The velocity stages: wall push, speed cap and minimum-speed floor; the position is not touched. */
  function Steer(m: Libm, a: Arena, p: Params, moveSpeed: real, s: Agent, dt: real): (r: Agent)
    requires p.Valid()
    ensures r.position == s.position
  {
    var s1 := WallStage(a, p, s, dt);
    var (v, rng) := SpeedFloor(SpeedCap(m, s1.velocity, moveSpeed), s1.rng);
    Agent(s.position, v, rng)
  }

  /** The position stages: integration, hard clamp into the arena, then the bounce on x and on y. */
  function Advance(a: Arena, s: Agent, dt: real): (r: Agent)
    requires a.Valid()
    ensures a.Contains(r.position)
  {
    var rel := Confine(a, Add(s.position, Scale(s.velocity, dt)));
    var (v1, rng1) := BounceX(s.velocity, rel.x, a.half.x, s.rng);
    var (v2, rng2) := BounceY(v1, rel.y, a.half.y, rng1);
    Agent(Add(a.center, rel), v2, rng2)
  }

  /** What `Execute` leaves in an agent's slot: all stages in the order the job runs them. */
  function Move(m: Libm, a: Arena, p: Params, moveSpeed: real, s: Agent, dt: real): (r: Agent)
    requires a.Valid() && p.Valid()
    ensures a.Contains(r.position)
  {
    Advance(a, Steer(m, a, p, moveSpeed, s, dt), dt)
  }

  /**
   * A bounce only ever happens at a wall: when the velocity component on
   * an axis was reversed, the agent sits exactly on that wall, and the
   * sign of that velocity component equals the sign of its offset.
   */
  lemma BounceOnlyAtWall(a: Arena, v: Vec2, position: Vec2, rng: Rng)
    requires a.Valid()
    ensures var rel := Confine(a, position);
      BounceX(v, rel.x, a.half.x, rng) != (v, rng) ==> Abs(rel.x) == a.half.x && Sign(v.x) == Sign(rel.x)
    ensures var rel := Confine(a, position);
      BounceY(v, rel.y, a.half.y, rng) != (v, rng) ==> Abs(rel.y) == a.half.y && Sign(v.y) == Sign(rel.y)
  {
  }

  /** The first half of `ApplyMovementJob.Execute`: the boundary push, the speed cap and the speed floor. */
  method SteerAgent(m: Libm, a: Arena, p: Params, moveSpeed: real, position: Vec2, velocity0: Vec2, random0: Rng, dt: real)
    returns (velocity: Vec2, random: Rng)
    requires p.Valid()
    ensures Agent(position, velocity, random) == Steer(m, a, p, moveSpeed, Agent(position, velocity0, random0), dt)
  {
    velocity, random := velocity0, random0;
    var boundaryForceVec := BoundaryForce(a, p, position);
    velocity := Add(velocity, Scale(boundaryForceVec, dt));
    if LengthSq(boundaryForceVec) > JitterThreshold {
      var (x, y, next) := NextFloat2(random, -1.0, 1.0);
      random := next;
      velocity := Add(velocity, Scale(Scale(Vec2(x, y), 0.3), dt));
    }
    assert Agent(position, velocity, random) == WallStage(a, p, Agent(position, velocity0, random0), dt);

    if LengthSq(velocity) > moveSpeed * moveSpeed {
      velocity := Scale(Normalize(m, velocity), moveSpeed);
    }

    if LengthSq(velocity) < MinSpeedSq {
      var (x, y, next) := NextFloat2(random, -1.0, 1.0);
      random := next;
      velocity := Scale(Vec2(x, y), 0.1);
    }
  }

  /** The x-axis bounce of `ApplyMovementJob.Execute`. */
  method BounceOnX(relX: real, halfX: real, velocity0: Vec2, random0: Rng) returns (velocity: Vec2, random: Rng)
    ensures (velocity, random) == BounceX(velocity0, relX, halfX, random0)
  {
    velocity, random := velocity0, random0;
    if Outward(velocity.x, relX, halfX) {
      velocity := velocity.(x := -velocity.x * 0.8);
      var (jx, jy, next) := NextFloat2(random, -0.5, 0.5);
      random := next;
      velocity := Add(velocity, Vec2(jx, jy));
    }
  }

  /** The y-axis bounce of `ApplyMovementJob.Execute`. */
  method BounceOnY(relY: real, halfY: real, velocity0: Vec2, random0: Rng) returns (velocity: Vec2, random: Rng)
    ensures (velocity, random) == BounceY(velocity0, relY, halfY, random0)
  {
    velocity, random := velocity0, random0;
    if Outward(velocity.y, relY, halfY) {
      velocity := velocity.(y := -velocity.y * 0.8);
      var (jx, jy, next) := NextFloat2(random, -0.5, 0.5);
      random := next;
      velocity := Add(velocity, Vec2(jx, jy));
    }
  }

  /** The second half of `ApplyMovementJob.Execute`: integration, hard clamp and bounce. */
  method AdvanceAgent(a: Arena, position0: Vec2, velocity0: Vec2, random0: Rng, dt: real)
    returns (position: Vec2, velocity: Vec2, random: Rng)
    requires a.Valid()
    ensures Agent(position, velocity, random) == Advance(a, Agent(position0, velocity0, random0), dt)
  {
    position := Add(position0, Scale(velocity0, dt));
    var newRelativePos := Sub(position, a.center);
    newRelativePos := Vec2(Clamp(newRelativePos.x, -a.half.x, a.half.x), Clamp(newRelativePos.y, -a.half.y, a.half.y));
    position := Add(a.center, newRelativePos);
    velocity, random := BounceOnX(newRelativePos.x, a.half.x, velocity0, random0);
    velocity, random := BounceOnY(newRelativePos.y, a.half.y, velocity, random);
  }

  /**
   * `ApplyMovementJob.Execute(index)`: reads the agent's slot, runs both
   * halves and writes the slot back; no other slot changes.
   */
  method Execute(m: Libm, a: Arena, p: Params, moveSpeeds: seq<real>, dt: real, index: nat,
                 positions: array<Vec2>, velocities: array<Vec2>, randomGenerators: array<Rng>)
    requires a.Valid() && p.Valid()
    requires positions.Length == |moveSpeeds| && velocities.Length == |moveSpeeds|
    requires randomGenerators.Length == |moveSpeeds| && index < |moveSpeeds|
    requires positions != velocities
    modifies positions, velocities, randomGenerators
    ensures var r := Move(m, a, p, moveSpeeds[index],
                          Agent(old(positions[index]), old(velocities[index]), old(randomGenerators[index])), dt);
      positions[..] == old(positions[..])[index := r.position]
      && velocities[..] == old(velocities[..])[index := r.velocity]
      && randomGenerators[..] == old(randomGenerators[..])[index := r.rng]
  {
    var position := positions[index];
    var velocity, random := SteerAgent(m, a, p, moveSpeeds[index], position, velocities[index], randomGenerators[index], dt);
    position, velocity, random := AdvanceAgent(a, position, velocity, random, dt);
    positions[index] := position;
    velocities[index] := velocity;
    randomGenerators[index] := random;
  }

  /**
   * The movement job over every agent.  Each index reads and writes only
   * its own slot, so the outcome is the same whatever order (or parallel
   * schedule) the indices run in: slot `i` ends up as `Move` of its own old
   * value, and every agent ends up inside the arena.
   */
  function MovementPass(m: Libm, a: Arena, p: Params, moveSpeeds: seq<real>, dt: real, s: seq<Agent>): (r: seq<Agent>)
    requires a.Valid() && p.Valid() && |s| == |moveSpeeds|
    ensures |r| == |s|
    ensures forall i :: 0 <= i < |r| ==> a.Contains(r[i].position)
  {
    seq(|s|, i requires 0 <= i < |s| => Move(m, a, p, moveSpeeds[i], s[i], dt))
  }

  /** The agents held in three parallel buffers. */
  function Agents(positions: seq<Vec2>, velocities: seq<Vec2>, rngs: seq<Rng>): (s: seq<Agent>)
    requires |velocities| == |positions| && |rngs| == |positions|
    ensures |s| == |positions|
    ensures forall i :: 0 <= i < |s| ==> s[i] == Agent(positions[i], velocities[i], rngs[i])
  {
    seq(|positions|, i requires 0 <= i < |positions| => Agent(positions[i], velocities[i], rngs[i]))
  }

  /** `ApplyMovementJob` scheduled over all agents. */
  method Run(m: Libm, a: Arena, p: Params, moveSpeeds: seq<real>, dt: real,
             positions: array<Vec2>, velocities: array<Vec2>, randomGenerators: array<Rng>)
    requires a.Valid() && p.Valid()
    requires positions.Length == |moveSpeeds| && velocities.Length == |moveSpeeds|
    requires randomGenerators.Length == |moveSpeeds|
    requires positions != velocities
    modifies positions, velocities, randomGenerators
    ensures Agents(positions[..], velocities[..], randomGenerators[..])
      == MovementPass(m, a, p, moveSpeeds, dt,
                      Agents(old(positions[..]), old(velocities[..]), old(randomGenerators[..])))
  {
    ghost var s := Agents(positions[..], velocities[..], randomGenerators[..]);
    ghost var moved := MovementPass(m, a, p, moveSpeeds, dt, s);
    for index := 0 to |moveSpeeds|
      invariant Agents(positions[..], velocities[..], randomGenerators[..]) == moved[..index] + s[index..]
    {
      ghost var before := Agents(positions[..], velocities[..], randomGenerators[..]);
      assert before[index] == s[index];
      Execute(m, a, p, moveSpeeds, dt, index, positions, velocities, randomGenerators);
      assert Agents(positions[..], velocities[..], randomGenerators[..]) == before[index := moved[index]];
      OverwriteStep(moved, s, index);
    }
    assert moved[..|moveSpeeds|] + s[|moveSpeeds|..] == moved;
  }
}
