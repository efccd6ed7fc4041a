/**
 * `BoidJobsController`: the data-oriented controller.  It lays every agent
 * out in flat per-agent buffers (type after type, in roster order), and on
 * every frame runs the schooling job once per schooling type, then the
 * solo job, then the movement job, and finally copies the new velocities
 * back.  `OnDestroy` releases every buffer that is still allocated.
 */
module JobsController {
  import opened Vectors
  import opened Flocking
  import opened UnityRandom
  import opened Roster
  import SchoolingJob
  import SoloJob
  import MovementJob

  /** What the spawn loop writes into one agent's slot, apart from its position, heading and generator. */
  datatype Slot = Slot(boidType: nat, isSchooling: bool, schoolId: nat, moveSpeed: real)

  /**
   * The slot of agent `k`: its type is the roster entry whose run holds
   * `k`; a schooling agent joins school `i % clusters`, where `i` counts
   * the agents of its type before it, and a solo agent school 0.
   */
  function SlotOf(r: seq<BoidData>, k: nat): (s: Slot)
    requires k < Total(r)
    ensures s.boidType < |r| && Offset(r, s.boidType) <= k < Offset(r, s.boidType + 1)
    ensures s.isSchooling == r[s.boidType].isSchooling && s.moveSpeed == r[s.boidType].moveSpeed
    ensures s.schoolId < ClusterCount(r[s.boidType].boidCount)
  {
    var t := TypeOf(r, k);
    var id := if r[t].isSchooling then SchoolIdOf(k - Offset(r, t), ClusterCount(r[t].boidCount)) else 0;
    Slot(t, r[t].isSchooling, id, r[t].moveSpeed)
  }

  /**
   * The first `n` slots of the buffers hold what the spawn loop writes: the
   * spawn position, the heading scaled by the type's speed, and the type,
   * flag, school and speed listed in `slots`.
   */
  ghost predicate Filled(n: nat, slots: seq<Slot>, spawnPositions: seq<Vec2>, headings: seq<Vec2>,
                         pos: seq<Vec2>, vel: seq<Vec2>, types: seq<int>, flags: seq<bool>, ids: seq<int>, speeds: seq<real>)
  {
    n <= |slots| && n <= |pos| && n <= |vel| && n <= |types| && n <= |flags| && n <= |ids| && n <= |speeds|
    && n <= |spawnPositions| && n <= |headings|
    && forall k :: 0 <= k < n ==>
         pos[k] == spawnPositions[k] && vel[k] == Scale(headings[k], slots[k].moveSpeed)
         && types[k] == slots[k].boidType && flags[k] == slots[k].isSchooling
         && ids[k] == slots[k].schoolId && speeds[k] == slots[k].moveSpeed
  }

  /** Writing slot `n` as the spawn loop does extends the filled prefix by one. */
  lemma FilledExtend(n: nat, slots: seq<Slot>, spawnPositions: seq<Vec2>, headings: seq<Vec2>,
                     pos: seq<Vec2>, vel: seq<Vec2>, types: seq<int>, flags: seq<bool>, ids: seq<int>, speeds: seq<real>)
    requires Filled(n, slots, spawnPositions, headings, pos, vel, types, flags, ids, speeds)
    requires n < |slots| && n < |pos| && n < |vel| && n < |types| && n < |flags| && n < |ids| && n < |speeds|
    requires n < |spawnPositions| && n < |headings|
    ensures var s := slots[n];
      Filled(n + 1, slots, spawnPositions, headings, pos[n := spawnPositions[n]],
             vel[n := Scale(headings[n], s.moveSpeed)], types[n := s.boidType], flags[n := s.isSchooling],
             ids[n := s.schoolId], speeds[n := s.moveSpeed])
  {
  }

  /** The slot of agent `i` of type `t`. */
  function RunSlot(r: seq<BoidData>, t: nat, i: nat): Slot
    requires t < |r|
  {
    var id := if r[t].isSchooling then SchoolIdOf(i, ClusterCount(r[t].boidCount)) else 0;
    Slot(t, r[t].isSchooling, id, r[t].moveSpeed)
  }

  /** The slots type `t`'s spawn loop writes, agent after agent. */
  function RunSlots(r: seq<BoidData>, t: nat): (s: seq<Slot>)
    requires t < |r|
    ensures |s| == r[t].boidCount
  {
    seq(r[t].boidCount, i => RunSlot(r, t, if i < 0 then 0 else i))
  }

  /** The slots the creation loop writes for the first `t` types, type after type. */
  function SlotsUpTo(r: seq<BoidData>, t: nat): (s: seq<Slot>)
    requires t <= |r|
    ensures |s| == Offset(r, t)
  {
    if t == 0 then [] else SlotsUpTo(r, t - 1) + RunSlots(r, t - 1)
  }

  /** The slots of the whole roster, as the creation loop writes them. */
  function Slots(r: seq<BoidData>): (s: seq<Slot>)
    ensures |s| == Total(r)
  {
    SlotsUpTo(r, |r|)
  }

  /** Agent `i` of type `u` sits at `Offset(r, u) + i` in the slots of any longer prefix of the roster. */
  lemma {:induction false} SlotsUpToAt(r: seq<BoidData>, t: nat, u: nat, i: nat)
    requires u < t <= |r| && i < r[u].boidCount
    ensures Offset(r, u) + i < Offset(r, t)
    ensures SlotsUpTo(r, t)[Offset(r, u) + i] == RunSlot(r, u, i)
  {
    if u < t - 1 {
      SlotsUpToAt(r, t - 1, u, i);
    }
  }

  /** Within the run of type `t`, the slots are those of its agents in order. */
  lemma SlotsOfRun(r: seq<BoidData>, t: nat)
    requires t < |r|
    ensures Offset(r, t + 1) <= Total(r)
    ensures forall i :: 0 <= i < r[t].boidCount ==> Slots(r)[Offset(r, t) + i] == RunSlot(r, t, i)
  {
    OffsetMonotone(r, t + 1, |r|);
    forall i | 0 <= i < r[t].boidCount
      ensures Slots(r)[Offset(r, t) + i] == RunSlot(r, t, i)
    {
      SlotsUpToAt(r, |r|, t, i);
    }
  }

  /**
   * The slots in creation order agree with the per-agent description: the
   * slot written at index `k` is that of the type owning `k`, with the
   * school id counted from that type's first agent.
   */
  lemma SlotsAreSlotOf(r: seq<BoidData>)
    ensures forall k :: 0 <= k < Total(r) ==> Slots(r)[k] == SlotOf(r, k)
  {
    forall k | 0 <= k < Total(r)
      ensures Slots(r)[k] == SlotOf(r, k)
    {
      var u := TypeOf(r, k);
      SlotsUpToAt(r, |r|, u, k - Offset(r, u));
    }
  }

  /**
   * Every school of a non-empty schooling type has a member: agent `id` of
   * the type (counting from its first agent) is in school `id`.
   */
  lemma EverySchoolPopulated(r: seq<BoidData>, t: nat, id: nat)
    requires t < |r| && r[t].isSchooling && r[t].boidCount > 0
    requires id < ClusterCount(r[t].boidCount)
    ensures Offset(r, t) + id < Total(r)
    ensures Slots(r)[Offset(r, t) + id] == Slot(t, true, id, r[t].moveSpeed)
  {
    assert id < r[t].boidCount;
    SlotsUpToAt(r, |r|, t, id);
  }

  /** A solo agent is always in school 0. */
  lemma SoloInSchoolZero(r: seq<BoidData>, k: nat)
    requires k < Total(r) && !r[TypeOf(r, k)].isSchooling
    ensures SlotOf(r, k).schoolId == 0 && !SlotOf(r, k).isSchooling
  {
  }

  /**
   * The schooling stage of one frame: for the first `t` entries of the
   * per-type index lists, in order, the schooling job of that type if the
   * type is schooling and has agents.  Every job reads the same snapshot
   * `w` and writes into the running `nv`.
   */
  function SchoolingStages(m: Libm, p: Params, w: SchoolingJob.Snapshot, r: seq<BoidData>, byType: seq<seq<int>>,
                           dt: real, nv: seq<Vec2>, t: nat): (out: seq<Vec2>)
    requires p.Valid() && w.Valid() && |nv| == w.Size() && t <= |byType| <= |r|
    requires forall u :: 0 <= u < |byType| ==> SchoolingJob.IndicesIn(w, byType[u])
    ensures |out| == |nv|
  {
    if t == 0 then nv
    else
      var prev := SchoolingStages(m, p, w, r, byType, dt, nv, t - 1);
      var indices := byType[t - 1];
      if r[t - 1].isSchooling && |indices| > 0
      then SchoolingJob.SchoolingPass(m, p, w, indices, t - 1, dt, prev, |indices|)
      else prev
  }

  /**
   * One frame of the jobs controller from snapshot `w`, speeds and
   * generators: the schooling stage starting from the current velocities,
   * the solo job, then the movement job.  The result is every agent's new
   * position, velocity and generator.
   */
  function Tick(m: Libm, a: MovementJob.Arena, p: Params, dt: real, r: seq<BoidData>, byType: seq<seq<int>>,
                w: SchoolingJob.Snapshot, moveSpeeds: seq<real>, rngs: seq<Rng>): (out: seq<MovementJob.Agent>)
    requires a.Valid() && p.Valid() && w.Valid() && |byType| <= |r|
    requires forall u :: 0 <= u < |byType| ==> SchoolingJob.IndicesIn(w, byType[u])
    requires |moveSpeeds| == w.Size() && |rngs| == w.Size()
    ensures |out| == w.Size()
    ensures forall k :: 0 <= k < |out| ==> a.Contains(out[k].position)
  {
    var nv := SchoolingStages(m, p, w, r, byType, dt, w.velocities, |byType|);
    var (nv', rngs') := SoloJob.SoloPass(m, p, w.positions, w.isSchooling, dt, nv, rngs);
    var s := MovementJob.Agents(w.positions, nv', rngs');
    MovementJob.MovementPass(m, a, p, moveSpeeds, dt, s)
  }

  /** The snapshot agrees with the spawned layout: slot `k` carries the schooling flag and type written for it. */
  ghost predicate Laid(r: seq<BoidData>, w: SchoolingJob.Snapshot)
    requires w.Valid()
  {
    w.Size() == Total(r)
    && forall k :: 0 <= k < w.Size() ==>
         w.isSchooling[k] == Slots(r)[k].isSchooling && w.boidTypes[k] == Slots(r)[k].boidType
  }

  /** The run of type `u` lies inside a snapshot with one slot per agent of the roster. */
  lemma RunInside(r: seq<BoidData>, w: SchoolingJob.Snapshot, u: nat)
    requires w.Valid() && w.Size() == Total(r) && u < |r|
    ensures SchoolingJob.IndicesIn(w, Run(r, u)) && SchoolingJob.Distinct(Run(r, u))
  {
    OffsetMonotone(r, u + 1, |r|);
  }

  /** Every index list of the spawned layout lies inside the buffers. */
  lemma RunsInside(r: seq<BoidData>, w: SchoolingJob.Snapshot)
    requires w.Valid() && w.Size() == Total(r)
    ensures forall u :: 0 <= u < |Runs(r, |r|)| ==> SchoolingJob.IndicesIn(w, Runs(r, |r|)[u])
  {
    forall u | 0 <= u < |r|
      ensures SchoolingJob.IndicesIn(w, Runs(r, |r|)[u])
    {
      RunInside(r, w, u);
    }
  }

  /**
   * The velocity the schooling job of type `u` computes for its agent `i`
   * (slot `Offset(r, u) + i`) from snapshot `w`.
   */
  function TypeVelocity(m: Libm, p: Params, w: SchoolingJob.Snapshot, r: seq<BoidData>, dt: real, u: nat, i: nat): Vec2
    requires p.Valid() && w.Valid() && w.Size() == Total(r) && u < |r| && i < r[u].boidCount
  {
    RunInside(r, w, u);
    SchoolingJob.SchoolingVelocity(m, p, w, Run(r, u), u, dt, i)
  }

  /** One type's schooling job over its run gives each of its own agents the velocity the job computes for it. */
  lemma StageWritten(m: Libm, p: Params, w: SchoolingJob.Snapshot, r: seq<BoidData>, dt: real,
                     prev: seq<Vec2>, u: nat, i: nat)
    requires p.Valid() && w.Valid() && |prev| == w.Size() && w.Size() == Total(r)
    requires u < |r| && i < r[u].boidCount
    ensures Offset(r, u) + i < Total(r) && SchoolingJob.IndicesIn(w, Run(r, u))
    ensures SchoolingJob.SchoolingPass(m, p, w, Run(r, u), u, dt, prev, |Run(r, u)|)[Offset(r, u) + i]
      == TypeVelocity(m, p, w, r, dt, u, i)
  {
    var indices := Run(r, u);
    RunInside(r, w, u);
    OffsetMonotone(r, u + 1, |r|);
    SchoolingJob.SchoolingPassWritten(m, p, w, indices, u, dt, prev, |indices|, i);
    assert indices[i] == Offset(r, u) + i;
  }

  /** One type's schooling job over its run leaves the slots of every other type as they were. */
  lemma StageKept(m: Libm, p: Params, w: SchoolingJob.Snapshot, r: seq<BoidData>, dt: real,
                  prev: seq<Vec2>, t: nat, u: nat, i: nat)
    requires p.Valid() && w.Valid() && |prev| == w.Size() && w.Size() == Total(r)
    requires t < |r| && u < |r| && u != t && i < r[u].boidCount
    ensures Offset(r, u) + i < Total(r) && SchoolingJob.IndicesIn(w, Run(r, t))
    ensures SchoolingJob.SchoolingPass(m, p, w, Run(r, t), t, dt, prev, |Run(r, t)|)[Offset(r, u) + i]
      == prev[Offset(r, u) + i]
  {
    var indices := Run(r, t);
    RunInside(r, w, t);
    OffsetMonotone(r, u + 1, |r|);
    if u < t {
      OffsetMonotone(r, u + 1, t);
    } else {
      OffsetMonotone(r, t + 1, u);
    }
    assert indices[..|indices|] == indices;
    assert Offset(r, u) + i !in indices;
    SchoolingJob.SchoolingPassKept(m, p, w, indices, t, dt, prev, |indices|, Offset(r, u) + i);
  }

  /** The stages up to type `t` are the stages up to `t - 1` followed by the job of type `t - 1`, if it runs. */
  lemma StagesUnfold(m: Libm, p: Params, w: SchoolingJob.Snapshot, r: seq<BoidData>, dt: real,
                     nv: seq<Vec2>, t: nat)
    requires p.Valid() && w.Valid() && |nv| == w.Size() && w.Size() == Total(r) && 0 < t <= |r|
    requires forall v :: 0 <= v < |r| ==> SchoolingJob.IndicesIn(w, Runs(r, |r|)[v])
    ensures SchoolingJob.IndicesIn(w, Run(r, t - 1))
    ensures var prev := SchoolingStages(m, p, w, r, Runs(r, |r|), dt, nv, t - 1);
      SchoolingStages(m, p, w, r, Runs(r, |r|), dt, nv, t)
        == if r[t - 1].isSchooling && |Run(r, t - 1)| > 0
           then SchoolingJob.SchoolingPass(m, p, w, Run(r, t - 1), t - 1, dt, prev, |Run(r, t - 1)|)
           else prev
  {
    assert Runs(r, |r|)[t - 1] == Run(r, t - 1);
  }

  /**
   * The stage of type `t - 1` leaves agent `i` of type `u` as the earlier
   * stages left it, when `u` is another type or `t - 1` is not schooling.
   */
  lemma StagesOther(m: Libm, p: Params, w: SchoolingJob.Snapshot, r: seq<BoidData>, dt: real,
                    nv: seq<Vec2>, t: nat, u: nat, i: nat)
    requires p.Valid() && w.Valid() && |nv| == w.Size() && w.Size() == Total(r) && 0 < t <= |r|
    requires u < |r| && i < r[u].boidCount && (u != t - 1 || !r[t - 1].isSchooling)
    requires forall v :: 0 <= v < |r| ==> SchoolingJob.IndicesIn(w, Runs(r, |r|)[v])
    ensures Offset(r, u) + i < Total(r)
    ensures SchoolingStages(m, p, w, r, Runs(r, |r|), dt, nv, t)[Offset(r, u) + i]
      == SchoolingStages(m, p, w, r, Runs(r, |r|), dt, nv, t - 1)[Offset(r, u) + i]
  {
    OffsetMonotone(r, u + 1, |r|);
    StagesUnfold(m, p, w, r, dt, nv, t);
    if r[t - 1].isSchooling && |Run(r, t - 1)| > 0 {
      StageKept(m, p, w, r, dt, SchoolingStages(m, p, w, r, Runs(r, |r|), dt, nv, t - 1), t - 1, u, i);
    }
  }

  /** The stage of a schooling type `t - 1` writes the velocities its job computes for its own agents. */
  lemma StagesOwn(m: Libm, p: Params, w: SchoolingJob.Snapshot, r: seq<BoidData>, dt: real,
                  nv: seq<Vec2>, t: nat, u: nat, i: nat)
    requires p.Valid() && w.Valid() && |nv| == w.Size() && w.Size() == Total(r)
    requires t == u + 1 && u < |r| && r[u].isSchooling && i < r[u].boidCount
    requires forall v :: 0 <= v < |r| ==> SchoolingJob.IndicesIn(w, Runs(r, |r|)[v])
    ensures Offset(r, u) + i < Total(r)
    ensures SchoolingStages(m, p, w, r, Runs(r, |r|), dt, nv, t)[Offset(r, u) + i] == TypeVelocity(m, p, w, r, dt, u, i)
  {
    StagesUnfold(m, p, w, r, dt, nv, t);
    StageWritten(m, p, w, r, dt, SchoolingStages(m, p, w, r, Runs(r, |r|), dt, nv, u), u, i);
  }

  /**
   * With the spawned per-type lists, the schooling stage over the first
   * `t` types leaves an agent's velocity as it was unless its type is among
   * them and schooling.
   */
  lemma {:induction false} SchoolingStagesKept(m: Libm, p: Params, w: SchoolingJob.Snapshot, r: seq<BoidData>, dt: real,
                                               nv: seq<Vec2>, t: nat, u: nat, i: nat)
    requires p.Valid() && w.Valid() && |nv| == w.Size() && w.Size() == Total(r) && t <= |r|
    requires u < |r| && i < r[u].boidCount && !(u < t && r[u].isSchooling)
    requires forall v :: 0 <= v < |r| ==> SchoolingJob.IndicesIn(w, Runs(r, |r|)[v])
    ensures Offset(r, u) + i < Total(r)
    ensures SchoolingStages(m, p, w, r, Runs(r, |r|), dt, nv, t)[Offset(r, u) + i] == nv[Offset(r, u) + i]
  {
    OffsetMonotone(r, u + 1, |r|);
    if t > 0 {
      SchoolingStagesKept(m, p, w, r, dt, nv, t - 1, u, i);
      StagesOther(m, p, w, r, dt, nv, t, u, i);
    }
  }

  /**
   * With the spawned per-type lists, the schooling stage gives each agent
   * of a schooling type the velocity its own type's job computes from the
   * snapshot, whatever the order of the types.
   */
  lemma {:induction false} SchoolingStagesWritten(m: Libm, p: Params, w: SchoolingJob.Snapshot, r: seq<BoidData>, dt: real,
                                                  nv: seq<Vec2>, t: nat, u: nat, i: nat)
    requires p.Valid() && w.Valid() && |nv| == w.Size() && w.Size() == Total(r) && t <= |r|
    requires u < t && r[u].isSchooling && i < r[u].boidCount
    requires forall v :: 0 <= v < |r| ==> SchoolingJob.IndicesIn(w, Runs(r, |r|)[v])
    ensures Offset(r, u) + i < Total(r)
    ensures SchoolingStages(m, p, w, r, Runs(r, |r|), dt, nv, t)[Offset(r, u) + i] == TypeVelocity(m, p, w, r, dt, u, i)
  {
    if t == u + 1 {
      StagesOwn(m, p, w, r, dt, nv, t, u, i);
    } else {
      SchoolingStagesWritten(m, p, w, r, dt, nv, t - 1, u, i);
      StagesOther(m, p, w, r, dt, nv, t, u, i);
    }
  }

  /**
   * Where agent `i` of type `u` ends up after a frame of the spawned
   * layout: a schooling agent moves with the velocity its type's job
   * computed and its generator untouched by the behaviour stage; a solo
   * agent moves with the solo velocity computed from its own old velocity
   * and generator.
   */
  lemma TickAt(m: Libm, a: MovementJob.Arena, p: Params, dt: real, r: seq<BoidData>,
               w: SchoolingJob.Snapshot, moveSpeeds: seq<real>, rngs: seq<Rng>, u: nat, i: nat)
    requires a.Valid() && p.Valid() && w.Valid() && Laid(r, w)
    requires |moveSpeeds| == w.Size() && |rngs| == w.Size() && u < |r| && i < r[u].boidCount
    requires forall v :: 0 <= v < |r| ==> SchoolingJob.IndicesIn(w, Runs(r, |r|)[v])
    ensures Offset(r, u) + i < w.Size()
    ensures var k := Offset(r, u) + i;
      var (v, g) :=
        if r[u].isSchooling
        then (TypeVelocity(m, p, w, r, dt, u, i), rngs[k])
        else SoloJob.SoloVelocity(m, p, w.positions, w.isSchooling, k, w.velocities[k], rngs[k], dt);
      Tick(m, a, p, dt, r, Runs(r, |r|), w, moveSpeeds, rngs)[k]
        == MovementJob.Move(m, a, p, moveSpeeds[k], MovementJob.Agent(w.positions[k], v, g), dt)
  {
    var k := Offset(r, u) + i;
    SlotsUpToAt(r, |r|, u, i);
    assert w.isSchooling[k] == r[u].isSchooling;
    var byType := Runs(r, |r|);
    var nv := SchoolingStages(m, p, w, r, byType, dt, w.velocities, |byType|);
    if r[u].isSchooling {
      SchoolingStagesWritten(m, p, w, r, dt, w.velocities, |r|, u, i);
    } else {
      SchoolingStagesKept(m, p, w, r, dt, w.velocities, |r|, u, i);
    }
    var solo := SoloJob.SoloPass(m, p, w.positions, w.isSchooling, dt, nv, rngs);
    var v, g := solo.0[k], solo.1[k];
    assert (v, g) == if r[u].isSchooling
      then (TypeVelocity(m, p, w, r, dt, u, i), rngs[k])
      else SoloJob.SoloVelocity(m, p, w.positions, w.isSchooling, k, w.velocities[k], rngs[k], dt);
    var s := MovementJob.Agents(w.positions, solo.0, solo.1);
    assert Tick(m, a, p, dt, r, byType, w, moveSpeeds, rngs) == MovementJob.MovementPass(m, a, p, moveSpeeds, dt, s);
    assert s[k] == MovementJob.Agent(w.positions[k], v, g);
  }

  /** One generator per agent, agent `j` seeded with `seed + j` in unsigned 32-bit arithmetic. */
  function Generators(seed: int, n: nat): (g: seq<Rng>)
    requires 1 <= seed < 0x7FFF_FFFF && n <= 0x7FFF_FFFF
    ensures |g| == n && forall j :: 0 <= j < n ==> 0 < SeedFor(seed, j) && g[j] == Create(SeedFor(seed, j))
  {
    SeedsDistinct(seed, n);
    seq(n, j => if 0 <= j < n && 0 < SeedFor(seed, j) then Create(SeedFor(seed, j)) else Rng(0))
  }

  /** The eight native buffers of the controller. */
  datatype Buffer = Positions | Velocities | NewVelocities | BoidTypes | IsSchooling | SchoolIds | MoveSpeeds | RandomGenerators

  /** The buffers in the order `OnDestroy` releases them. */
  const AllBuffers: seq<Buffer> := [Positions, Velocities, NewVelocities, BoidTypes, IsSchooling, SchoolIds, MoveSpeeds, RandomGenerators]

  /** The same buffers as a set. */
  const BufferSet: set<Buffer> := {Positions, Velocities, NewVelocities, BoidTypes, IsSchooling, SchoolIds, MoveSpeeds, RandomGenerators}

  /** The entries of `bs` that are in `live`, in order. */
  function Live(bs: seq<Buffer>, live: set<Buffer>): (out: seq<Buffer>)
    ensures forall b :: b in out <==> b in bs && b in live
  {
    if |bs| == 0 then []
    else
      var last := bs[|bs| - 1];
      Live(bs[..|bs| - 1], live) + if last in live then [last] else []
  }

  /** Extending the list by one buffer appends it to the live entries exactly when it is live. */
  lemma LiveStep(bs: seq<Buffer>, i: nat, live: set<Buffer>)
    requires i < |bs|
    ensures Live(bs[..i + 1], live) == Live(bs[..i], live) + if bs[i] in live then [bs[i]] else []
  {
    assert bs[..i + 1][..i] == bs[..i];
  }

  /** Each buffer listed once is released at most once. */
  lemma {:induction false} LiveOnce(bs: seq<Buffer>, live: set<Buffer>)
    requires forall i, j :: 0 <= i < j < |bs| ==> bs[i] != bs[j]
    ensures forall i, j :: 0 <= i < j < |Live(bs, live)| ==> Live(bs, live)[i] != Live(bs, live)[j]
  {
    if |bs| > 0 {
      LiveOnce(bs[..|bs| - 1], live);
    }
  }

  /** No buffer comes before itself on the release list. */
  lemma ReleasedOnce(i: nat)
    requires i < |AllBuffers|
    ensures AllBuffers[i] !in AllBuffers[..i]
  {
  }

  /** Every buffer is on the release list. */
  lemma AllListed(b: Buffer)
    ensures b in AllBuffers
  {
    match b
    case Positions => assert AllBuffers[0] == b;
    case Velocities => assert AllBuffers[1] == b;
    case NewVelocities => assert AllBuffers[2] == b;
    case BoidTypes => assert AllBuffers[3] == b;
    case IsSchooling => assert AllBuffers[4] == b;
    case SchoolIds => assert AllBuffers[5] == b;
    case MoveSpeeds => assert AllBuffers[6] == b;
    case RandomGenerators => assert AllBuffers[7] == b;
  }

  /** Copies `src` into `dst` (`NativeArray.CopyFrom`). */
  method CopyFrom<T>(dst: array<T>, src: array<T>)
    requires dst.Length == src.Length
    modifies dst
    ensures dst[..] == old(src[..])
  {
    ghost var s := src[..];
    for i := 0 to dst.Length
      invariant src[..] == s
      invariant dst[..i] == s[..i]
    {
      dst[i] := src[i];
    }
    assert dst[..] == dst[..dst.Length];
  }

  class BoidJobsController {
    /** `boidCollection.boids`. */
    var roster: seq<BoidData>
    var positions: array<Vec2>
    var velocities: array<Vec2>
    var newVelocities: array<Vec2>
    var boidTypes: array<int>
    var isSchooling: array<bool>
    var schoolIds: array<int>
    var moveSpeeds: array<real>
    var randomGenerators: array<Rng>
    /** `boidIndicesByType`, keyed `0 .. |boidIndicesByType|-1` in insertion order. */
    var boidIndicesByType: seq<seq<int>>
    /** The buffers whose `IsCreated` is true. */
    var created: set<Buffer>
    /** Every `Dispose` call so far, in order. */
    ghost var disposed: seq<Buffer>

    /** The controller as its scene creates it: the roster set, no buffer allocated yet. */
    constructor(r: seq<BoidData>)
      ensures roster == r && created == {} && disposed == [] && Valid() && Size() == 0
    {
      roster := r;
      positions := new Vec2[0];
      velocities := new Vec2[0];
      newVelocities := new Vec2[0];
      boidTypes := new int[0];
      isSchooling := new bool[0];
      schoolIds := new int[0];
      moveSpeeds := new real[0];
      randomGenerators := new Rng[0];
      boidIndicesByType := [];
      created := {};
      disposed := [];
    }

    function Size(): nat
      reads this, positions
    {
      positions.Length
    }

    /**
     * The buffers all have one entry per agent, the three velocity-like
     * buffers are distinct, and every type's index list names slots that
     * exist.
     */
    ghost predicate Valid()
      reads this, positions, velocities, newVelocities, boidTypes, isSchooling, schoolIds, moveSpeeds, randomGenerators
    {
      velocities.Length == Size() && newVelocities.Length == Size() && boidTypes.Length == Size()
      && isSchooling.Length == Size() && schoolIds.Length == Size() && moveSpeeds.Length == Size()
      && randomGenerators.Length == Size()
      && positions != velocities && positions != newVelocities && velocities != newVelocities
      && |boidIndicesByType| <= |roster|
      && forall u :: 0 <= u < |boidIndicesByType| ==>
           forall i :: 0 <= i < |boidIndicesByType[u]| ==> 0 <= boidIndicesByType[u][i] < Size()
    }

    /** The read-only buffers the behaviour jobs see. */
    function World(): (w: SchoolingJob.Snapshot)
      reads this, positions, velocities, schoolIds, boidTypes, isSchooling
      ensures w.positions == positions[..] && w.velocities == velocities[..]
    {
      SchoolingJob.Snapshot(positions[..], velocities[..], schoolIds[..], boidTypes[..], isSchooling[..])
    }

    /** The inner spawn loop for type `t`: fills its run of slots and returns its index list. */
    static method SpawnType(r: seq<BoidData>, t: nat, ghost slots: seq<Slot>, spawnPositions: seq<Vec2>, headings: seq<Vec2>,
                            pos: array<Vec2>, vel: array<Vec2>, types: array<int>, flags: array<bool>,
                            ids: array<int>, speeds: array<real>)
      returns (indices: seq<int>)
      requires t < |r| && Offset(r, t + 1) <= Total(r) && |slots| == Total(r)
      requires forall i :: 0 <= i < r[t].boidCount ==> slots[Offset(r, t) + i] == RunSlot(r, t, i)
      requires pos.Length == Total(r) && vel.Length == Total(r) && types.Length == Total(r)
      requires flags.Length == Total(r) && ids.Length == Total(r) && speeds.Length == Total(r)
      requires |spawnPositions| == Total(r) && |headings| == Total(r)
      requires pos != vel && types != ids
      requires Filled(Offset(r, t), slots, spawnPositions, headings, pos[..], vel[..], types[..], flags[..], ids[..], speeds[..])
      modifies pos, vel, types, flags, ids, speeds
      ensures Filled(Offset(r, t + 1), slots, spawnPositions, headings, pos[..], vel[..], types[..], flags[..], ids[..], speeds[..])
      ensures indices == Run(r, t)
    {
      var boid := r[t];
      var currentIndex := Offset(r, t);
      indices := [];
      for i := 0 to boid.boidCount
        invariant currentIndex == Offset(r, t) + i
        invariant |indices| == i && forall j :: 0 <= j < i ==> indices[j] == Offset(r, t) + j
        invariant Filled(currentIndex, slots, spawnPositions, headings, pos[..], vel[..], types[..], flags[..], ids[..], speeds[..])
      {
        var schoolId := 0;
        if boid.isSchooling {
          schoolId := i % ClusterCount(boid.boidCount);
        }
        assert slots[currentIndex] == Slot(t, boid.isSchooling, schoolId, boid.moveSpeed) by {
          assert slots[currentIndex] == RunSlot(r, t, i);
        }
        ghost var p0, v0, t0, f0, i0, s0 := pos[..], vel[..], types[..], flags[..], ids[..], speeds[..];
        FilledExtend(currentIndex, slots, spawnPositions, headings, p0, v0, t0, f0, i0, s0);
        pos[currentIndex] := spawnPositions[currentIndex];
        vel[currentIndex] := Scale(headings[currentIndex], boid.moveSpeed);
        types[currentIndex] := t;
        flags[currentIndex] := boid.isSchooling;
        ids[currentIndex] := schoolId;
        speeds[currentIndex] := boid.moveSpeed;
        assert pos[..] == p0[currentIndex := spawnPositions[currentIndex]];
        assert vel[..] == v0[currentIndex := Scale(headings[currentIndex], boid.moveSpeed)];
        assert types[..] == t0[currentIndex := t];
        assert flags[..] == f0[currentIndex := boid.isSchooling];
        assert ids[..] == i0[currentIndex := schoolId];
        assert speeds[..] == s0[currentIndex := boid.moveSpeed];
        indices := indices + [currentIndex];
        currentIndex := currentIndex + 1;
      }
    }

    /** The creation loop over the roster: fills every slot and returns the per-type index lists. */
    static method SpawnAll(r: seq<BoidData>, spawnPositions: seq<Vec2>, headings: seq<Vec2>,
                           pos: array<Vec2>, vel: array<Vec2>, types: array<int>, flags: array<bool>,
                           ids: array<int>, speeds: array<real>)
      returns (byType: seq<seq<int>>)
      requires pos.Length == Total(r) && vel.Length == Total(r) && types.Length == Total(r)
      requires flags.Length == Total(r) && ids.Length == Total(r) && speeds.Length == Total(r)
      requires |spawnPositions| == Total(r) && |headings| == Total(r)
      requires pos != vel && types != ids
      modifies pos, vel, types, flags, ids, speeds
      ensures byType == Runs(r, |r|)
      ensures Filled(Total(r), Slots(r), spawnPositions, headings, pos[..], vel[..], types[..], flags[..], ids[..], speeds[..])
    {
      ghost var slots := Slots(r);
      byType := seq(|r|, _ => []);
      for t := 0 to |r|
        invariant |byType| == |r|
        invariant forall u :: 0 <= u < t ==> byType[u] == Run(r, u)
        invariant Filled(Offset(r, t), slots, spawnPositions, headings, pos[..], vel[..], types[..], flags[..], ids[..], speeds[..])
      {
        SlotsOfRun(r, t);
        var indices := SpawnType(r, t, slots, spawnPositions, headings, pos, vel, types, flags, ids, speeds);
        byType := byType[t := indices];
      }
    }

    /** Seeds one generator per agent, agent `i` with `seed + i` in unsigned 32-bit arithmetic. */
    static method SeedGenerators(seed: int, rngs: array<Rng>)
      requires 1 <= seed < 0x7FFF_FFFF && rngs.Length <= 0x7FFF_FFFF
      modifies rngs
      ensures rngs[..] == Generators(seed, rngs.Length)
    {
      ghost var g := Generators(seed, rngs.Length);
      for i := 0 to rngs.Length
        invariant rngs[..i] == g[..i]
      {
        rngs[i] := Create(SeedFor(seed, i));
        assert rngs[..i + 1] == g[..i + 1];
      }
      assert rngs[..] == rngs[..rngs.Length];
    }

    /** The eight `NativeArray` allocations, one slot per agent each. */
    static method Allocate(n: nat)
      returns (pos: array<Vec2>, vel: array<Vec2>, nv: array<Vec2>, types: array<int>, flags: array<bool>,
               ids: array<int>, speeds: array<real>, rngs: array<Rng>)
      ensures fresh(pos) && fresh(vel) && fresh(nv) && fresh(types) && fresh(flags) && fresh(ids) && fresh(speeds) && fresh(rngs)
      ensures pos.Length == n && vel.Length == n && nv.Length == n && types.Length == n && flags.Length == n
      ensures ids.Length == n && speeds.Length == n && rngs.Length == n
      ensures pos != vel && pos != nv && vel != nv && types != ids
    {
      pos := new Vec2[n];
      vel := new Vec2[n];
      nv := new Vec2[n];
      types := new int[n];
      flags := new bool[n];
      ids := new int[n];
      speeds := new real[n];
      rngs := new Rng[n];
    }

    /**
     * `SpawnBoids`: allocates one slot per agent of the roster and fills
     * it.  The base seed, the spawn positions and the unit headings are the
     * draws from the engine's global generator and are given as inputs.
     */
    method SpawnBoids(seed: int, spawnPositions: seq<Vec2>, headings: seq<Vec2>)
      requires 1 <= seed < 0x7FFF_FFFF && Total(roster) <= 0x7FFF_FFFF
      requires |spawnPositions| == Total(roster) && |headings| == Total(roster)
      modifies this
      ensures roster == old(roster) && disposed == old(disposed)
      ensures Valid() && Size() == Total(roster) && created == BufferSet
      ensures fresh(positions) && fresh(velocities) && fresh(newVelocities) && fresh(boidTypes)
      ensures fresh(isSchooling) && fresh(schoolIds) && fresh(moveSpeeds) && fresh(randomGenerators)
      ensures boidIndicesByType == Runs(roster, |roster|)
      ensures Filled(Total(roster), Slots(roster), spawnPositions, headings, positions[..], velocities[..],
                     boidTypes[..], isSchooling[..], schoolIds[..], moveSpeeds[..])
      ensures randomGenerators[..] == Generators(seed, Total(roster))
    {
      var boidCount := 0;
      for t := 0 to |roster|
        invariant boidCount == Offset(roster, t)
      {
        boidCount := boidCount + roster[t].boidCount;
      }

      var pos, vel, nv, types, flags, ids, speeds, rngs := Allocate(boidCount);
      SeedGenerators(seed, rngs);

      // The spawn points and school headings are geometry only; the
      // first pass over the roster leaves behind an empty list per type,
      // which the creation loop fills.
      var byType := SpawnAll(roster, spawnPositions, headings, pos, vel, types, flags, ids, speeds);
      RunsInside(roster, SchoolingJob.Snapshot(pos[..], vel[..], ids[..], types[..], flags[..]));
      ghost var layout := (pos[..], vel[..], types[..], flags[..], ids[..], speeds[..], rngs[..]);
      Install(pos, vel, nv, types, flags, ids, speeds, rngs, byType);
      assert layout == (positions[..], velocities[..], boidTypes[..], isSchooling[..], schoolIds[..], moveSpeeds[..], randomGenerators[..]);
    }

    /** Points the controller at freshly allocated buffers and per-type lists; every buffer is then live. */
    method Install(pos: array<Vec2>, vel: array<Vec2>, nv: array<Vec2>, types: array<int>, flags: array<bool>,
                   ids: array<int>, speeds: array<real>, rngs: array<Rng>, byType: seq<seq<int>>)
      modifies this`positions, this`velocities, this`newVelocities, this`boidTypes, this`isSchooling
      modifies this`schoolIds, this`moveSpeeds, this`randomGenerators, this`boidIndicesByType, this`created
      ensures positions == pos && velocities == vel && newVelocities == nv && boidTypes == types
      ensures isSchooling == flags && schoolIds == ids && moveSpeeds == speeds && randomGenerators == rngs
      ensures boidIndicesByType == byType && created == BufferSet
    {
      positions, velocities, newVelocities, boidTypes := pos, vel, nv, types;
      isSchooling, schoolIds, moveSpeeds, randomGenerators := flags, ids, speeds, rngs;
      boidIndicesByType := byType;
      created := BufferSet;
    }

    /**
     * `Update`: one frame.  With no agent nothing happens; otherwise the
     * agents end up as `Tick` says and `newVelocities` holds the same
     * velocities.  The scene objects' transforms are not part of the model.
     */
    method Update(m: Libm, a: MovementJob.Arena, p: Params, dt: real)
      requires Valid() && a.Valid() && p.Valid()
      modifies positions, velocities, newVelocities, randomGenerators
      ensures Valid()
      ensures MovementJob.Agents(positions[..], velocities[..], randomGenerators[..])
        == Tick(m, a, p, dt, roster, boidIndicesByType, old(World()), old(moveSpeeds[..]), old(randomGenerators[..]))
      ensures newVelocities[..] == velocities[..]
      ensures forall k :: 0 <= k < Size() ==> a.Contains(positions[k])
    {
      var boidCount := positions.Length;
      if boidCount == 0 {
        return;
      }
      Frame(m, a, p, dt, roster, boidIndicesByType, World(), moveSpeeds[..],
            positions, velocities, newVelocities, randomGenerators);
    }

    /**
     * The jobs of one frame on the buffers: copy the velocities, run the
     * schooling jobs, the solo job and the movement job, and copy the new
     * velocities back.  `w` is what the behaviour jobs read.
     */
    static method Frame(m: Libm, a: MovementJob.Arena, p: Params, dt: real, r: seq<BoidData>, byType: seq<seq<int>>,
                        w: SchoolingJob.Snapshot, speeds: seq<real>,
                        positions: array<Vec2>, velocities: array<Vec2>, newVelocities: array<Vec2>, randomGenerators: array<Rng>)
      requires a.Valid() && p.Valid() && w.Valid() && |byType| <= |r|
      requires forall u :: 0 <= u < |byType| ==> SchoolingJob.IndicesIn(w, byType[u])
      requires w.positions == positions[..] && w.velocities == velocities[..]
      requires newVelocities.Length == w.Size() && randomGenerators.Length == w.Size() && |speeds| == w.Size()
      requires positions != velocities && positions != newVelocities && velocities != newVelocities
      modifies positions, velocities, newVelocities, randomGenerators
      ensures MovementJob.Agents(positions[..], velocities[..], randomGenerators[..])
        == Tick(m, a, p, dt, r, byType, w, speeds, old(randomGenerators[..]))
      ensures newVelocities[..] == velocities[..]
    {
      CopyFrom(newVelocities, velocities);
      RunSchooling(m, p, w, r, byType, dt, newVelocities);
      SoloJob.Run(m, p, w.positions, w.isSchooling, dt, newVelocities, randomGenerators);
      MovementJob.Run(m, a, p, speeds, dt, positions, newVelocities, randomGenerators);
      CopyFrom(velocities, newVelocities);
    }

    /**
     * The schooling jobs of one frame, chained one after another: for each
     * entry of the per-type lists, in order, the job of that type when the
     * type is schooling and has agents.
     */
    static method RunSchooling(m: Libm, p: Params, w: SchoolingJob.Snapshot, r: seq<BoidData>, byType: seq<seq<int>>,
                               dt: real, newVelocities: array<Vec2>)
      requires p.Valid() && w.Valid() && newVelocities.Length == w.Size() && |byType| <= |r|
      requires forall u :: 0 <= u < |byType| ==> SchoolingJob.IndicesIn(w, byType[u])
      modifies newVelocities
      ensures newVelocities[..] == SchoolingStages(m, p, w, r, byType, dt, old(newVelocities[..]), |byType|)
    {
      ghost var nv := newVelocities[..];
      for t := 0 to |byType|
        invariant newVelocities[..] == SchoolingStages(m, p, w, r, byType, dt, nv, t)
      {
        var indices := byType[t];
        if r[t].isSchooling && |indices| > 0 {
          SchoolingJob.Run(m, p, w, indices, t, dt, newVelocities);
        }
      }
    }

    /** `OnDestroy`: releases, in a fixed order, every buffer still allocated. */
    method OnDestroy()
      modifies this`created, this`disposed
      ensures created == {}
      ensures disposed == old(disposed) + Live(AllBuffers, old(created))
    {
      ghost var live := created;
      for i := 0 to |AllBuffers|
        invariant forall b :: b in created <==> b in live && b !in AllBuffers[..i]
        invariant disposed == old(disposed) + Live(AllBuffers[..i], live)
      {
        var b := AllBuffers[i];
        LiveStep(AllBuffers, i, live);
        ReleasedOnce(i);
        assert (b in created) == (b in live);
        if b in created {
          created := created - {b};
          disposed := disposed + [b];
        }
      }
      assert AllBuffers[..|AllBuffers|] == AllBuffers;
      forall b | b in created
        ensures false
      {
        AllListed(b);
      }
    }
  }
}
