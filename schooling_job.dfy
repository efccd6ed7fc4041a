/**
 * `SchoolingBehaviorJob` of the jobs controller: for every agent of one
 * schooling type, cohesion, alignment and separation among agents of that
 * type, plus avoidance of schooling agents of every other type.  All it
 * reads comes from read-only buffers (a `Snapshot`); it writes one slot of
 * `newVelocities` per index.
 */
module SchoolingJob {
  import opened Vectors
  import opened Flocking

  /** The read-only buffers the job is given: positions, velocities, school ids, types, schooling flags. */
  datatype Snapshot = Snapshot(
    positions: seq<Vec2>,
    velocities: seq<Vec2>,
    schoolIds: seq<int>,
    boidTypes: seq<int>,
    isSchooling: seq<bool>)
  {
    /** All buffers hold one entry per agent. */
    predicate Valid()
    {
      |velocities| == |positions| && |schoolIds| == |positions|
      && |boidTypes| == |positions| && |isSchooling| == |positions|
    }

    function Size(): nat { |positions| }
  }

  /** The `indices` list of the job: agent slots of the type being processed. */
  predicate IndicesIn(w: Snapshot, indices: seq<int>)
  {
    forall i :: 0 <= i < |indices| ==> 0 <= indices[i] < w.Size()
  }

  /** No slot is listed twice. */
  predicate Distinct(indices: seq<int>)
  {
    forall i, j :: 0 <= i < j < |indices| ==> indices[i] != indices[j]
  }

  /** The running sums of the same-type scan. */
  datatype Flock = Flock(cohesion: Vec2, alignment: Vec2, separation: Vec2, neighbours: nat)

  const NoFlock := Flock(Zero, Zero, Zero, 0)

  /** Running sum of the cross-type scan: summed push and how many agents contributed. */
  datatype Avoid = Avoid(sum: Vec2, count: nat)

  /**
   * What agent `other` adds to agent `self`'s sums: inside the schooling
   * radius it counts as a neighbour, weighted 1.5 when it belongs to the
   * same school; inside the separation radius it also pushes `self` away
   * with the falloff strength.
   */
  function Neighbour(m: Libm, p: Params, w: Snapshot, self: int, other: int, acc: Flock): (f: Flock)
    requires p.Valid() && w.Valid()
    requires 0 <= self < w.Size() && 0 <= other < w.Size()
    ensures f.neighbours == acc.neighbours + 1 <==> Distance(m, w.positions[self], w.positions[other]) < p.schoolingRadius
    ensures Distance(m, w.positions[self], w.positions[other]) >= p.schoolingRadius ==> f == acc
    ensures Distance(m, w.positions[self], w.positions[other]) >= p.separationRadius ==> f.separation == acc.separation
  {
    var pos := w.positions[self];
    var otherPos := w.positions[other];
    var d := Distance(m, pos, otherPos);
    if d < p.schoolingRadius then
      var mult := if w.schoolIds[other] == w.schoolIds[self] then 1.5 else 1.0;
      var sep :=
        if d < p.separationRadius
        then Add(acc.separation, Scale(Normalize(m, Sub(pos, otherPos)), Falloff(d, p.separationRadius)))
        else acc.separation;
      Flock(Add(acc.cohesion, Scale(otherPos, mult)),
            Add(acc.alignment, Scale(w.velocities[other], mult)),
            sep,
            acc.neighbours + 1)
    else acc
  }

  /**
   * The same-type loop over the first `n` entries of `indices`, skipping
   * the entry being processed: the agent never counts itself.
   */
  function SameTypeScan(m: Libm, p: Params, w: Snapshot, indices: seq<int>, index: nat, n: nat): (f: Flock)
    requires p.Valid() && w.Valid() && IndicesIn(w, indices)
    requires index < |indices| && n <= |indices|
    ensures f.neighbours <= if index < n then n - 1 else n
  {
    if n == 0 then NoFlock
    else if n - 1 == index then SameTypeScan(m, p, w, indices, index, n - 1)
    else Neighbour(m, p, w, indices[index], indices[n - 1], SameTypeScan(m, p, w, indices, index, n - 1))
  }

  /** Entry `j` of `indices` is a neighbour of entry `index`: another entry within `schoolingRadius`. */
  predicate SameTypeNeighbour(m: Libm, p: Params, w: Snapshot, indices: seq<int>, index: nat, j: nat)
    requires w.Valid() && IndicesIn(w, indices) && index < |indices| && j < |indices|
  {
    j != index && Distance(m, w.positions[indices[index]], w.positions[indices[j]]) < p.schoolingRadius
  }

  /** One entry adds one to the neighbour count exactly when it is a neighbour. */
  lemma SameTypeCountStep(m: Libm, p: Params, w: Snapshot, indices: seq<int>, index: nat, n: nat)
    requires p.Valid() && w.Valid() && IndicesIn(w, indices)
    requires index < |indices| && 0 < n <= |indices|
    ensures SameTypeScan(m, p, w, indices, index, n).neighbours
      == SameTypeScan(m, p, w, indices, index, n - 1).neighbours
         + if SameTypeNeighbour(m, p, w, indices, index, n - 1) then 1 else 0
  {
  }

  /**
   * The same-type scan counts no neighbour exactly when no entry other
   * than the agent's own is within `schoolingRadius`.
   */
  lemma {:induction false} SameTypeCountZero(m: Libm, p: Params, w: Snapshot, indices: seq<int>, index: nat, n: nat)
    requires p.Valid() && w.Valid() && IndicesIn(w, indices)
    requires index < |indices| && n <= |indices|
    ensures SameTypeScan(m, p, w, indices, index, n).neighbours == 0
      <==> forall j :: 0 <= j < n ==> !SameTypeNeighbour(m, p, w, indices, index, j)
  {
    if n > 0 {
      SameTypeCountZero(m, p, w, indices, index, n - 1);
      SameTypeCountStep(m, p, w, indices, index, n);
    }
  }

  /**
   * Whether agent `i` takes part in the cross-type scan of agent `self` of
   * type `t`: another agent, of another type, that is schooling.
   */
  predicate Foreign(w: Snapshot, self: int, t: int, i: int)
    requires w.Valid() && 0 <= i < w.Size()
  {
    i != self && w.boidTypes[i] != t && w.isSchooling[i]
  }

  /** The cross-type loop over agents `0 .. n-1`. */
  function InterSchoolScan(m: Libm, p: Params, w: Snapshot, self: int, t: int, n: nat): (a: Avoid)
    requires p.Valid() && w.Valid() && 0 <= self < w.Size() && n <= w.Size()
    ensures a.count <= n
  {
    if n == 0 then Avoid(Zero, 0)
    else
      var acc := InterSchoolScan(m, p, w, self, t, n - 1);
      var i := n - 1;
      if !Foreign(w, self, t, i) then acc
      else
        var pos := w.positions[self];
        var d := Distance(m, pos, w.positions[i]);
        if d < p.interSchoolAvoidanceRadius then
          var push := Scale(Normalize(m, Sub(pos, w.positions[i])), Falloff(d, p.interSchoolAvoidanceRadius));
          Avoid(Add(acc.sum, push), acc.count + 1)
        else acc
  }

  /**
   * The weighted steering force from the neighbour sums: cohesion towards
   * the weighted centre, alignment with the weighted mean velocity and the
   * separation push, each guarded-normalized.
   */
  function Steering(m: Libm, p: Params, pos: Vec2, f: Flock): Vec2
    requires f.neighbours > 0
  {
    var n := f.neighbours as real;
    var cohesion := Guarded(m, Sub(Div(f.cohesion, n), pos));
    var alignment := Guarded(m, Div(f.alignment, n));
    var separation := Guarded(m, f.separation);
    Add(Add(Scale(cohesion, p.cohesionFactor), Scale(alignment, p.alignmentFactor)),
        Scale(separation, p.separationFactor))
  }

  /**
   * The cross-type step: the mean push, when there is one and it is above
   * the threshold, normalized and scaled by the avoidance factor.
   */
  function AvoidStep(m: Libm, p: Params, v: Vec2, a: Avoid, dt: real): Vec2
  {
    if a.count > 0 then
      var mean := Div(a.sum, a.count as real);
      if LengthSq(mean) > NormalizeThreshold
      then Add(v, Scale(Scale(Normalize(m, mean), p.interSchoolAvoidanceFactor), dt))
      else v
    else v
  }

  /** The velocity `Execute(index)` writes into `newVelocities[indices[index]]`. */
  function SchoolingVelocity(m: Libm, p: Params, w: Snapshot, indices: seq<int>, t: int, dt: real, index: nat): Vec2
    requires p.Valid() && w.Valid() && IndicesIn(w, indices) && index < |indices|
  {
    var self := indices[index];
    var f := SameTypeScan(m, p, w, indices, index, |indices|);
    var a := InterSchoolScan(m, p, w, self, t, w.Size());
    var v := w.velocities[self];
    var v1 := if f.neighbours > 0 then Add(v, Scale(Scale(Steering(m, p, w.positions[self], f), 2.0), dt)) else v;
    AvoidStep(m, p, v1, a, dt)
  }

  /**
   * With no other agent of the list inside the schooling radius, the scan
   * finds no neighbour: the agent's own entry (at distance zero) is skipped.
   */
  lemma {:induction false} SameTypeScanAlone(m: Libm, p: Params, w: Snapshot, indices: seq<int>, index: nat, n: nat)
    requires p.Valid() && w.Valid() && IndicesIn(w, indices)
    requires index < |indices| && n <= |indices|
    requires forall j :: 0 <= j < n && j != index ==>
      Distance(m, w.positions[indices[index]], w.positions[indices[j]]) >= p.schoolingRadius
    ensures SameTypeScan(m, p, w, indices, index, n) == NoFlock
  {
    if n > 0 {
      SameTypeScanAlone(m, p, w, indices, index, n - 1);
    }
  }

  /**
   * With no foreign schooling agent inside the avoidance radius the
   * cross-type scan is empty, whatever agents of the same type or solo
   * agents are around.
   */
  lemma {:induction false} InterSchoolScanAlone(m: Libm, p: Params, w: Snapshot, self: int, t: int, n: nat)
    requires p.Valid() && w.Valid() && 0 <= self < w.Size() && n <= w.Size()
    requires forall i :: 0 <= i < n && Foreign(w, self, t, i) ==>
      Distance(m, w.positions[self], w.positions[i]) >= p.interSchoolAvoidanceRadius
    ensures InterSchoolScan(m, p, w, self, t, n) == Avoid(Zero, 0)
  {
    if n > 0 {
      InterSchoolScanAlone(m, p, w, self, t, n - 1);
    }
  }

  /**
   * An agent with no same-type neighbour in the schooling radius and no
   * foreign schooling agent in the avoidance radius keeps the velocity it
   * read.
   */
  lemma Isolated(m: Libm, p: Params, w: Snapshot, indices: seq<int>, t: int, dt: real, index: nat)
    requires p.Valid() && w.Valid() && IndicesIn(w, indices) && index < |indices|
    requires forall j :: 0 <= j < |indices| && j != index ==>
      Distance(m, w.positions[indices[index]], w.positions[indices[j]]) >= p.schoolingRadius
    requires forall i :: 0 <= i < w.Size() && Foreign(w, indices[index], t, i) ==>
      Distance(m, w.positions[indices[index]], w.positions[i]) >= p.interSchoolAvoidanceRadius
    ensures SchoolingVelocity(m, p, w, indices, t, dt, index) == w.velocities[indices[index]]
  {
    SameTypeScanAlone(m, p, w, indices, index, |indices|);
    InterSchoolScanAlone(m, p, w, indices[index], t, w.Size());
  }

  /** The writes of the first `k` executions, in index order, on top of `nv`. */
  function SchoolingPass(m: Libm, p: Params, w: Snapshot, indices: seq<int>, t: int, dt: real,
                         nv: seq<Vec2>, k: nat): (r: seq<Vec2>)
    requires p.Valid() && w.Valid() && IndicesIn(w, indices) && k <= |indices| && |nv| == w.Size()
    ensures |r| == |nv|
  {
    if k == 0 then nv
    else SchoolingPass(m, p, w, indices, t, dt, nv, k - 1)[indices[k - 1] := SchoolingVelocity(m, p, w, indices, t, dt, k - 1)]
  }

  /** Slot `indices[j]` holds what execution `j` computed once executions `0 .. k-1` have run. */
  lemma {:induction false} SchoolingPassWritten(m: Libm, p: Params, w: Snapshot, indices: seq<int>, t: int, dt: real,
                                                nv: seq<Vec2>, k: nat, j: nat)
    requires p.Valid() && w.Valid() && IndicesIn(w, indices) && Distinct(indices)
    requires j < k <= |indices| && |nv| == w.Size()
    ensures SchoolingPass(m, p, w, indices, t, dt, nv, k)[indices[j]] == SchoolingVelocity(m, p, w, indices, t, dt, j)
  {
    if j < k - 1 {
      SchoolingPassWritten(m, p, w, indices, t, dt, nv, k - 1, j);
    }
  }

  /** A slot none of executions `0 .. k-1` is about keeps its value. */
  lemma {:induction false} SchoolingPassKept(m: Libm, p: Params, w: Snapshot, indices: seq<int>, t: int, dt: real,
                                             nv: seq<Vec2>, k: nat, s: nat)
    requires p.Valid() && w.Valid() && IndicesIn(w, indices)
    requires k <= |indices| && |nv| == w.Size() && s < |nv| && s !in indices[..k]
    ensures SchoolingPass(m, p, w, indices, t, dt, nv, k)[s] == nv[s]
  {
    if k > 0 {
      assert indices[..k] == indices[..k - 1] + [indices[k - 1]];
      SchoolingPassKept(m, p, w, indices, t, dt, nv, k - 1, s);
    }
  }

  /**
   * The outcome of the job does not depend on the order in which the
   * indices run: slot `indices[k]` holds what execution `k` computed from
   * the read-only snapshot, and every slot not in the list is untouched.
   */
  lemma SchoolingPassAt(m: Libm, p: Params, w: Snapshot, indices: seq<int>, t: int, dt: real,
                        nv: seq<Vec2>, k: nat)
    requires p.Valid() && w.Valid() && IndicesIn(w, indices) && Distinct(indices)
    requires k <= |indices| && |nv| == w.Size()
    ensures forall j :: 0 <= j < k ==>
      SchoolingPass(m, p, w, indices, t, dt, nv, k)[indices[j]] == SchoolingVelocity(m, p, w, indices, t, dt, j)
    ensures forall s :: 0 <= s < |nv| && s !in indices[..k] ==> SchoolingPass(m, p, w, indices, t, dt, nv, k)[s] == nv[s]
  {
    forall j | 0 <= j < k
      ensures SchoolingPass(m, p, w, indices, t, dt, nv, k)[indices[j]] == SchoolingVelocity(m, p, w, indices, t, dt, j)
    {
      SchoolingPassWritten(m, p, w, indices, t, dt, nv, k, j);
    }
    forall s | 0 <= s < |nv| && s !in indices[..k]
      ensures SchoolingPass(m, p, w, indices, t, dt, nv, k)[s] == nv[s]
    {
      SchoolingPassKept(m, p, w, indices, t, dt, nv, k, s);
    }
  }

  /** `SchoolingBehaviorJob.Execute(index)`. */
  method Execute(m: Libm, p: Params, w: Snapshot, indices: seq<int>, t: int, dt: real, index: nat,
                 newVelocities: array<Vec2>)
    requires p.Valid() && w.Valid() && IndicesIn(w, indices) && index < |indices|
    requires newVelocities.Length == w.Size()
    modifies newVelocities
    ensures newVelocities[..] == old(newVelocities[..])[indices[index] := SchoolingVelocity(m, p, w, indices, t, dt, index)]
  {
    var boidIndex := indices[index];
    var position := w.positions[boidIndex];
    var velocity := w.velocities[boidIndex];
    var schoolId := w.schoolIds[boidIndex];

    var cohesion, alignment, separation := Zero, Zero, Zero;
    var interSchoolAvoidance := Zero;
    var neighborCount: nat, avoidanceCount: nat := 0, 0;

    for i := 0 to |indices|
      invariant Flock(cohesion, alignment, separation, neighborCount) == SameTypeScan(m, p, w, indices, index, i)
    {
      if i != index {
        var otherIndex := indices[i];
        var otherPos := w.positions[otherIndex];
        var distance := Distance(m, position, otherPos);
        if distance < p.schoolingRadius {
          var multiplier := if w.schoolIds[otherIndex] == schoolId then 1.5 else 1.0;
          cohesion := Add(cohesion, Scale(otherPos, multiplier));
          alignment := Add(alignment, Scale(w.velocities[otherIndex], multiplier));
          neighborCount := neighborCount + 1;
          if distance < p.separationRadius {
            var moveAway := Sub(position, otherPos);
            var strength := Falloff(distance, p.separationRadius);
            separation := Add(separation, Scale(Normalize(m, moveAway), strength));
          }
        }
      }
    }

    for i := 0 to w.Size()
      invariant Avoid(interSchoolAvoidance, avoidanceCount) == InterSchoolScan(m, p, w, boidIndex, t, i)
    {
      if i != boidIndex && w.boidTypes[i] != t && w.isSchooling[i] {
        var otherPos := w.positions[i];
        var distance := Distance(m, position, otherPos);
        if distance < p.interSchoolAvoidanceRadius {
          var moveAway := Sub(position, otherPos);
          var strength := Falloff(distance, p.interSchoolAvoidanceRadius);
          interSchoolAvoidance := Add(interSchoolAvoidance, Scale(Normalize(m, moveAway), strength));
          avoidanceCount := avoidanceCount + 1;
        }
      }
    }

    if neighborCount > 0 {
      var n := neighborCount as real;
      cohesion := Sub(Div(cohesion, n), position);
      alignment := Div(alignment, n);
      if LengthSq(cohesion) > NormalizeThreshold { cohesion := Normalize(m, cohesion); }
      if LengthSq(alignment) > NormalizeThreshold { alignment := Normalize(m, alignment); }
      if LengthSq(separation) > NormalizeThreshold { separation := Normalize(m, separation); }
      var totalForce := Add(Add(Scale(cohesion, p.cohesionFactor), Scale(alignment, p.alignmentFactor)),
                            Scale(separation, p.separationFactor));
      velocity := Add(velocity, Scale(Scale(totalForce, 2.0), dt));
    }
    ghost var flocked := velocity;
    ghost var a := Avoid(interSchoolAvoidance, avoidanceCount);

    if avoidanceCount > 0 {
      interSchoolAvoidance := Div(interSchoolAvoidance, avoidanceCount as real);
      if LengthSq(interSchoolAvoidance) > NormalizeThreshold {
        interSchoolAvoidance := Normalize(m, interSchoolAvoidance);
        velocity := Add(velocity, Scale(Scale(interSchoolAvoidance, p.interSchoolAvoidanceFactor), dt));
      }
    }

    assert velocity == AvoidStep(m, p, flocked, a, dt);
    newVelocities[boidIndex] := velocity;
  }

  /**
   * The job over all indices of one type, run one index after another:
   * the result is the pass function, which `SchoolingPassAt` describes
   * slot by slot.
   */
  method Run(m: Libm, p: Params, w: Snapshot, indices: seq<int>, t: int, dt: real, newVelocities: array<Vec2>)
    requires p.Valid() && w.Valid() && IndicesIn(w, indices)
    requires newVelocities.Length == w.Size()
    modifies newVelocities
    ensures newVelocities[..] == SchoolingPass(m, p, w, indices, t, dt, old(newVelocities[..]), |indices|)
  {
    ghost var nv := newVelocities[..];
    for index := 0 to |indices|
      invariant newVelocities[..] == SchoolingPass(m, p, w, indices, t, dt, nv, index)
    {
      Execute(m, p, w, indices, t, dt, index, newVelocities);
    }
  }
}
