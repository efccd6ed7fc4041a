/**
 * The per-boid rules of the sequential `BoidController`, as functions of
 * the agents' state.  Agents are numbered in `allBoid` order, and a list
 * of boids is a list of agent numbers, so "the same `BoidInfo`" is "the
 * same number".  `UnityEngine.Random.insideUnitCircle` is a stream
 * `circle` read at a cursor: every draw reads `circle(n)` and moves the
 * cursor to `n + 1`, so the number of draws, and their order, is part of
 * every result.
 */
module ControllerRules {
  import opened Vectors
  import opened Flocking
  import opened Roster

  /** `spriteBounds`: the arena's lower-left and upper-right corners. */
  datatype Bounds = Bounds(min: Vec2, max: Vec2)
  {
    predicate Valid()
    {
      min.x <= max.x && min.y <= max.y
    }

    predicate Contains(q: Vec2)
    {
      min.x <= q.x <= max.x && min.y <= q.y <= max.y
    }
  }

  /** What a `BoidInfo` holds besides its scene object, position and velocity. */
  datatype Boid = Boid(boidType: nat, data: BoidData, isSchooling: bool, schoolId: nat)

  /** Every entry of `s` numbers one of `n` agents. */
  predicate AgentsIn(s: seq<int>, n: nat)
  {
    forall i :: 0 <= i < |s| ==> 0 <= s[i] < n
  }

  /** No agent is listed twice. */
  predicate Distinct(s: seq<int>)
  {
    forall i, j :: 0 <= i < j < |s| ==> s[i] != s[j]
  }

  /**
   * What the behaviour rules read besides velocities: the positions of the
   * scene objects, the per-boid records, `soloBoid`, and the lists of
   * `schoolsByType` in the order their entries were added, which is the
   * order a dictionary without removals enumerates them in.
   */
  datatype World = World(positions: seq<Vec2>, boids: seq<Boid>, solo: seq<int>, groups: seq<seq<int>>)
  {
    ghost predicate Valid()
    {
      |boids| == |positions| && AgentsIn(solo, |positions|)
      && forall g :: 0 <= g < |groups| ==> AgentsIn(groups[g], |positions|)
    }
  }

  // ---------------------------------------------------------------------
  // In-place passes

  /**
   * A `foreach` over the boids of `order` that updates each boid's velocity
   * in place: `step(vs, b, n)` is boid `b`'s new velocity and the new draw
   * cursor, computed from the velocities as they stand, so a boid sees the
   * updates of the boids before it.  The result after the first `j` boids.
   */
  function InPlace(step: (seq<Vec2>, nat, nat) -> (Vec2, nat), order: seq<int>, vs: seq<Vec2>, n: nat, j: nat)
    : (r: (seq<Vec2>, nat))
    requires AgentsIn(order, |vs|) && j <= |order|
    ensures |r.0| == |vs|
  {
    if j == 0 then (vs, n)
    else
      var (vs', n') := InPlace(step, order, vs, n, j - 1);
      var (v, n'') := step(vs', order[j - 1], n');
      (vs'[order[j - 1] := v], n'')
  }

  /** A boid that is not among the first `j` of `order` keeps its velocity. */
  lemma {:induction false} InPlaceKept(step: (seq<Vec2>, nat, nat) -> (Vec2, nat), order: seq<int>, vs: seq<Vec2>,
                                       n: nat, j: nat, s: nat)
    requires AgentsIn(order, |vs|) && j <= |order| && s < |vs| && s !in order[..j]
    ensures InPlace(step, order, vs, n, j).0[s] == vs[s]
  {
    if j > 0 {
      assert order[..j] == order[..j - 1] + [order[j - 1]];
      InPlaceKept(step, order, vs, n, j - 1, s);
    }
  }

  /** Without repeated boids in `order`, later boids never overwrite boid `order[i]`. */
  lemma {:induction false} InPlaceStable(step: (seq<Vec2>, nat, nat) -> (Vec2, nat), order: seq<int>, vs: seq<Vec2>,
                                         n: nat, j: nat, i: nat)
    requires AgentsIn(order, |vs|) && j <= |order| && Distinct(order) && i < j
    ensures InPlace(step, order, vs, n, j).0[order[i]] == InPlace(step, order, vs, n, i + 1).0[order[i]]
  {
    if i < j - 1 {
      InPlaceStable(step, order, vs, n, j - 1, i);
    }
  }

  /**
   * Without repeated boids in `order`, once the first `j` boids have run,
   * boid `order[i]` holds what its own step computed from the state the
   * boids before it left.
   */
  lemma InPlaceWritten(step: (seq<Vec2>, nat, nat) -> (Vec2, nat), order: seq<int>, vs: seq<Vec2>,
                       n: nat, j: nat, i: nat)
    requires AgentsIn(order, |vs|) && j <= |order| && Distinct(order) && i < j
    ensures var before := InPlace(step, order, vs, n, i);
      InPlace(step, order, vs, n, j).0[order[i]] == step(before.0, order[i], before.1).0
  {
    InPlaceStable(step, order, vs, n, j, i);
  }

  // ---------------------------------------------------------------------
  // UpdateSchoolingBoidGroup

  /** The running sums of the neighbour scan and the number of neighbours counted. */
  datatype Flock = Flock(cohesion: Vec2, alignment: Vec2, separation: Vec2, count: nat)

  /**
   * The neighbour scan of boid `b` over the first `j` members of its group:
   * itself and members outside `schoolingRadius` are skipped; a neighbour
   * of the same school counts 1.5 in the cohesion and alignment sums; a
   * neighbour inside `separationRadius` also pushes `b` away.  Velocities
   * are read as they stand, including those earlier boids of the group
   * already changed this frame.
   */
  function FlockScan(m: Libm, p: Params, w: World, velocities: seq<Vec2>, group: seq<int>, b: nat, j: nat): Flock
    requires p.Valid() && |w.positions| == |w.boids| && |velocities| == |w.positions|
    requires AgentsIn(group, |w.positions|) && b < |w.positions| && j <= |group|
  {
    if j == 0 then Flock(Zero, Zero, Zero, 0)
    else
      var acc := FlockScan(m, p, w, velocities, group, b, j - 1);
      var o := group[j - 1];
      var d := Distance(m, w.positions[b], w.positions[o]);
      if !IsNeighbour(m, p, w.positions, b, o) then acc
      else
        var multiplier := if w.boids[o].schoolId == w.boids[b].schoolId then 1.5 else 1.0;
        var separation :=
          if d < p.separationRadius
          then Add(acc.separation, Scale(Normalized(m, Sub(w.positions[b], w.positions[o])), Falloff(d, p.separationRadius)))
          else acc.separation;
        Flock(Add(acc.cohesion, Scale(w.positions[o], multiplier)),
              Add(acc.alignment, Scale(velocities[o], multiplier)),
              separation, acc.count + 1)
  }

  /** Member `o` of the group is a neighbour of `b`: another boid within `schoolingRadius`. */
  predicate IsNeighbour(m: Libm, p: Params, positions: seq<Vec2>, b: nat, o: int)
    requires b < |positions| && 0 <= o < |positions|
  {
    o != b && Distance(m, positions[b], positions[o]) < p.schoolingRadius
  }

  /**
   * The scan counts no neighbour exactly when no member other than `b`
   * itself is within `schoolingRadius`.
   */
  lemma {:induction false} FlockCountZero(m: Libm, p: Params, w: World, velocities: seq<Vec2>, group: seq<int>, b: nat, j: nat)
    requires p.Valid() && |w.positions| == |w.boids| && |velocities| == |w.positions|
    requires AgentsIn(group, |w.positions|) && b < |w.positions| && j <= |group|
    ensures FlockScan(m, p, w, velocities, group, b, j).count == 0
      <==> forall i :: 0 <= i < j ==> !IsNeighbour(m, p, w.positions, b, group[i])
  {
    if j > 0 {
      FlockCountZero(m, p, w, velocities, group, b, j - 1);
      FlockCountStep(m, p, w, velocities, group, b, j);
    }
  }

  /** One member adds one to the count exactly when it is a neighbour. */
  lemma FlockCountStep(m: Libm, p: Params, w: World, velocities: seq<Vec2>, group: seq<int>, b: nat, j: nat)
    requires p.Valid() && |w.positions| == |w.boids| && |velocities| == |w.positions|
    requires AgentsIn(group, |w.positions|) && b < |w.positions| && 0 < j <= |group|
    ensures FlockScan(m, p, w, velocities, group, b, j).count
      == FlockScan(m, p, w, velocities, group, b, j - 1).count + if IsNeighbour(m, p, w.positions, b, group[j - 1]) then 1 else 0
  {
  }

  /**
   * The flocking force once at least one neighbour was counted: the
   * cohesion target (average weighted position, relative to the boid) and
   * the average weighted velocity are divided by the neighbour count, not
   * by the weight sum; each of the three terms is normalized only above the
   * threshold; their weighted sum is doubled and scaled by the time step.
   */
  function Cohere(m: Libm, p: Params, acc: Flock, position: Vec2, v: Vec2, dt: real): Vec2
    requires acc.count > 0
  {
    var cohesion := Guarded(m, Sub(Div(acc.cohesion, acc.count as real), position));
    var alignment := Guarded(m, Div(acc.alignment, acc.count as real));
    var separation := Guarded(m, acc.separation);
    var totalForce := Add(Add(Scale(cohesion, p.cohesionFactor), Scale(alignment, p.alignmentFactor)),
                          Scale(separation, p.separationFactor));
    Add(v, Scale(Scale(totalForce, 2.0), dt))
  }

  /** The flocking force is bounded: after the guard each of its three terms is at most unit length. */
  lemma CohereTermsBounded(m: Libm, p: Params, acc: Flock, position: Vec2)
    requires Sound(m) && acc.count > 0
    ensures LengthSq(Guarded(m, Sub(Div(acc.cohesion, acc.count as real), position))) <= 1.0
    ensures LengthSq(Guarded(m, Div(acc.alignment, acc.count as real))) <= 1.0
    ensures LengthSq(Guarded(m, acc.separation)) <= 1.0
  {
    GuardedAtMostUnit(m, Sub(Div(acc.cohesion, acc.count as real), position));
    GuardedAtMostUnit(m, Div(acc.alignment, acc.count as real));
    GuardedAtMostUnit(m, acc.separation);
  }

  /**
   * The push away from the solo boids: each solo boid within 1.5 times
   * `separationRadius` changes the velocity at once by the unit direction
   * away from it, scaled by the linear ramp `1 - d / (1.5·separationRadius)`
   * (neither clamped nor squared), `separationFactor`, 0.5 and the time
   * step.  There is no self test: `b` is a schooling boid.
   */
  function AvoidSolo(m: Libm, p: Params, w: World, b: nat, v: Vec2, dt: real, j: nat): Vec2
    requires p.Valid() && |w.positions| == |w.boids| && AgentsIn(w.solo, |w.positions|)
    requires b < |w.positions| && j <= |w.solo|
  {
    if j == 0 then v
    else
      var v' := AvoidSolo(m, p, w, b, v, dt, j - 1);
      var o := w.solo[j - 1];
      var d := Distance(m, w.positions[b], w.positions[o]);
      if d < p.separationRadius * 1.5
      then
        var strength := 1.0 - d / (p.separationRadius * 1.5);
        Add(v', Scale(Scale(Scale(Scale(Normalized(m, Sub(w.positions[b], w.positions[o])), strength), p.separationFactor), 0.5), dt))
      else v'
  }

  /** With every solo boid at least 1.5 separation radii away the velocity is kept. */
  lemma {:induction false} AvoidSoloFar(m: Libm, p: Params, w: World, b: nat, v: Vec2, dt: real, j: nat)
    requires p.Valid() && |w.positions| == |w.boids| && AgentsIn(w.solo, |w.positions|)
    requires b < |w.positions| && j <= |w.solo|
    requires forall i :: 0 <= i < j ==> Distance(m, w.positions[b], w.positions[w.solo[i]]) >= p.separationRadius * 1.5
    ensures AvoidSolo(m, p, w, b, v, dt, j) == v
  {
    if j > 0 {
      AvoidSoloFar(m, p, w, b, v, dt, j - 1);
    }
  }

  // ---------------------------------------------------------------------
  // ApplyInterSchoolAvoidance

  /** The running sum of the inter-school scan and the number of boids counted. */
  datatype Avoid = Avoid(sum: Vec2, count: nat)

  /**
   * The push of a boid of another group at distance `d`: the unit direction
   * away from it, the squared ramp, and half weight when it carries the
   * same school id.
   */
  function InterPush(m: Libm, p: Params, from: Vec2, other: Vec2, d: real, sameSchool: bool): Vec2
    requires p.Valid()
  {
    Scale(Scale(Normalized(m, Sub(from, other)), Falloff(d, p.interSchoolAvoidanceRadius)),
          if sameSchool then 0.5 else 1.0)
  }

  /** A boid of another group with the same school id pushes with half the weight of one with another id. */
  lemma SameSchoolHalved(m: Libm, p: Params, from: Vec2, other: Vec2, d: real)
    requires p.Valid()
    ensures InterPush(m, p, from, other, d, true) == Scale(InterPush(m, p, from, other, d, false), 0.5)
  {
  }

  /** The inner loop of the inter-school scan over the first `j` members of one other group. */
  function InterScanGroup(m: Libm, p: Params, positions: seq<Vec2>, boids: seq<Boid>, b: nat,
                          members: seq<int>, acc: Avoid, j: nat): (r: Avoid)
    requires p.Valid() && |boids| == |positions| && AgentsIn(members, |positions|)
    requires b < |positions| && j <= |members|
    ensures acc.count <= r.count <= acc.count + j
  {
    if j == 0 then acc
    else
      var a := InterScanGroup(m, p, positions, boids, b, members, acc, j - 1);
      var o := members[j - 1];
      var d := Distance(m, positions[b], positions[o]);
      if d < p.interSchoolAvoidanceRadius
      then Avoid(Add(a.sum, InterPush(m, p, positions[b], positions[o], d, boids[o].schoolId == boids[b].schoolId)),
                 a.count + 1)
      else a
  }

  /**
   * The outer loop over the first `h` groups of `schoolsByType`, skipping
   * group `own`, the boid's own list.
   */
  function InterScan(m: Libm, p: Params, w: World, own: nat, b: nat, h: nat): Avoid
    requires p.Valid() && w.Valid() && b < |w.positions| && h <= |w.groups|
  {
    if h == 0 then Avoid(Zero, 0)
    else
      var a := InterScan(m, p, w, own, b, h - 1);
      if h - 1 == own then a
      else InterScanGroup(m, p, w.positions, w.boids, b, w.groups[h - 1], a, |w.groups[h - 1]|)
  }

  /**
   * `ApplyInterSchoolAvoidance`: with at least one boid counted, the
   * average push is normalized and applied only above the threshold;
   * otherwise the velocity is kept.
   */
  function InterSchool(m: Libm, p: Params, w: World, own: nat, b: nat, v: Vec2, dt: real): Vec2
    requires p.Valid() && w.Valid() && b < |w.positions|
  {
    var a := InterScan(m, p, w, own, b, |w.groups|);
    if a.count > 0 then
      var avoidance := Div(a.sum, a.count as real);
      if LengthSq(avoidance) > NormalizeThreshold
      then Add(v, Scale(Scale(Normalized(m, avoidance), p.interSchoolAvoidanceFactor), dt))
      else v
    else v
  }

  /** No member of a scanned group within the inter-school radius: nothing is counted. */
  lemma {:induction false} InterScanGroupFar(m: Libm, p: Params, positions: seq<Vec2>, boids: seq<Boid>, b: nat,
                                             members: seq<int>, acc: Avoid, j: nat)
    requires p.Valid() && |boids| == |positions| && AgentsIn(members, |positions|)
    requires b < |positions| && j <= |members|
    requires forall i :: 0 <= i < j ==> Distance(m, positions[b], positions[members[i]]) >= p.interSchoolAvoidanceRadius
    ensures InterScanGroup(m, p, positions, boids, b, members, acc, j) == acc
  {
    if j > 0 {
      InterScanGroupFar(m, p, positions, boids, b, members, acc, j - 1);
    }
  }

  /** Every boid of every group other than group `own` is outside the inter-school radius. */
  ghost predicate NoForeignNear(m: Libm, p: Params, w: World, own: nat, b: nat)
    requires w.Valid() && b < |w.positions|
  {
    forall h, i :: 0 <= h < |w.groups| && h != own && 0 <= i < |w.groups[h]| ==>
      Distance(m, w.positions[b], w.positions[w.groups[h][i]]) >= p.interSchoolAvoidanceRadius
  }

  /** With no boid of another group in radius, nothing is counted over the first `h` groups. */
  lemma {:induction false} InterScanFar(m: Libm, p: Params, w: World, own: nat, b: nat, h: nat)
    requires p.Valid() && w.Valid() && b < |w.positions| && h <= |w.groups| && NoForeignNear(m, p, w, own, b)
    ensures InterScan(m, p, w, own, b, h) == Avoid(Zero, 0)
  {
    if h > 0 {
      InterScanFar(m, p, w, own, b, h - 1);
      if h - 1 != own {
        InterScanGroupFar(m, p, w.positions, w.boids, b, w.groups[h - 1], Avoid(Zero, 0), |w.groups[h - 1]|);
      }
    }
  }

  /** With no boid of another group within the inter-school radius the velocity is unchanged. */
  lemma InterSchoolFar(m: Libm, p: Params, w: World, own: nat, b: nat, v: Vec2, dt: real)
    requires p.Valid() && w.Valid() && b < |w.positions| && NoForeignNear(m, p, w, own, b)
    ensures InterSchool(m, p, w, own, b, v, dt) == v
  {
    InterScanFar(m, p, w, own, b, |w.groups|);
  }

  /**
   * The own group is never scanned: replacing its member list by any other
   * leaves the scan as it was.
   */
  lemma {:induction false} InterScanIgnoresOwnGroup(m: Libm, p: Params, w: World, own: nat, b: nat, h: nat, members: seq<int>)
    requires p.Valid() && w.Valid() && b < |w.positions| && own < |w.groups| && h <= |w.groups|
    requires AgentsIn(members, |w.positions|)
    ensures w.(groups := w.groups[own := members]).Valid()
    ensures InterScan(m, p, w.(groups := w.groups[own := members]), own, b, h) == InterScan(m, p, w, own, b, h)
  {
    var w' := w.(groups := w.groups[own := members]);
    if h > 0 {
      InterScanIgnoresOwnGroup(m, p, w, own, b, h - 1, members);
      if h - 1 != own {
        assert w'.groups[h - 1] == w.groups[h - 1];
      }
    }
  }

  // ---------------------------------------------------------------------
  // One schooling boid and one group

  /**
   * The update of schooling boid `b` of group `own`, from the velocities as
   * they stand and the draw cursor `n`: the flocking force when it has a
   * neighbour, otherwise a wander draw scaled by `randomMovementFactor`,
   * 0.8 and the time step; then the push away from solo boids; then the
   * inter-school avoidance.  Returns its new velocity and the new cursor.
   */
  function SchoolingUpdate(m: Libm, p: Params, w: World, circle: nat -> Vec2, dt: real,
                           velocities: seq<Vec2>, own: nat, b: nat, n: nat): (r: (Vec2, nat))
    requires p.Valid() && w.Valid() && |velocities| == |w.positions| && own < |w.groups| && b < |w.positions|
    ensures r.1 == n || r.1 == n + 1
  {
    var group := w.groups[own];
    var acc := FlockScan(m, p, w, velocities, group, b, |group|);
    var v := velocities[b];
    var (v1, n1) :=
      if acc.count > 0 then (Cohere(m, p, acc, w.positions[b], v, dt), n)
      else (Add(v, Scale(Scale(Scale(circle(n), p.randomMovementFactor), 0.8), dt)), n + 1);
    var v2 := AvoidSolo(m, p, w, b, v1, dt, |w.solo|);
    (InterSchool(m, p, w, own, b, v2, dt), n1)
  }

  /**
   * A schooling boid draws from the stream exactly when none of the other
   * members of its group is within `schoolingRadius`.
   */
  lemma SchoolingDraws(m: Libm, p: Params, w: World, circle: nat -> Vec2, dt: real,
                       velocities: seq<Vec2>, own: nat, b: nat, n: nat)
    requires p.Valid() && w.Valid() && |velocities| == |w.positions| && own < |w.groups| && b < |w.positions|
    ensures var group := w.groups[own];
      SchoolingUpdate(m, p, w, circle, dt, velocities, own, b, n).1
        == if forall i :: 0 <= i < |group| ==> !IsNeighbour(m, p, w.positions, b, group[i]) then n + 1 else n
  {
    FlockCountZero(m, p, w, velocities, w.groups[own], b, |w.groups[own]|);
  }

  /**
   * A schooling boid with no neighbour, no solo boid nearby and no boid of
   * another group nearby only wanders: its velocity changes by the draw
   * scaled by `randomMovementFactor`, 0.8 and the time step.
   */
  lemma LonelySchoolingWanders(m: Libm, p: Params, w: World, circle: nat -> Vec2, dt: real,
                               velocities: seq<Vec2>, own: nat, b: nat, n: nat)
    requires p.Valid() && w.Valid() && |velocities| == |w.positions| && own < |w.groups| && b < |w.positions|
    requires forall i :: 0 <= i < |w.groups[own]| ==> !IsNeighbour(m, p, w.positions, b, w.groups[own][i])
    requires forall i :: 0 <= i < |w.solo| ==> Distance(m, w.positions[b], w.positions[w.solo[i]]) >= p.separationRadius * 1.5
    requires NoForeignNear(m, p, w, own, b)
    ensures SchoolingUpdate(m, p, w, circle, dt, velocities, own, b, n)
      == (Add(velocities[b], Scale(Scale(Scale(circle(n), p.randomMovementFactor), 0.8), dt)), n + 1)
  {
    var group := w.groups[own];
    FlockCountZero(m, p, w, velocities, group, b, |group|);
    var v1 := Add(velocities[b], Scale(Scale(Scale(circle(n), p.randomMovementFactor), 0.8), dt));
    AvoidSoloFar(m, p, w, b, v1, dt, |w.solo|);
    InterSchoolFar(m, p, w, own, b, v1, dt);
  }

  /** `SchoolingUpdate` as the step of an in-place pass over group `own`. */
  function SchoolingStep(m: Libm, p: Params, w: World, circle: nat -> Vec2, dt: real, own: nat): (seq<Vec2>, nat, nat) -> (Vec2, nat)
    requires p.Valid() && w.Valid() && own < |w.groups|
  {
    (vs: seq<Vec2>, b: nat, c: nat) =>
      if |vs| == |w.positions| && b < |w.positions| then SchoolingUpdate(m, p, w, circle, dt, vs, own, b, c) else (Zero, c)
  }

  /**
   * `UpdateSchoolingBoidGroup` over the first `j` members of group `own`:
   * each member in turn is updated in place, from the velocities its
   * predecessors in the group have already changed.
   */
  function GroupPass(m: Libm, p: Params, w: World, circle: nat -> Vec2, dt: real,
                     velocities: seq<Vec2>, own: nat, n: nat, j: nat): (r: (seq<Vec2>, nat))
    requires p.Valid() && w.Valid() && |velocities| == |w.positions| && own < |w.groups| && j <= |w.groups[own]|
    ensures |r.0| == |velocities|
  {
    InPlace(SchoolingStep(m, p, w, circle, dt, own), w.groups[own], velocities, n, j)
  }

  /** The next member of the group is updated from the state its predecessors left. */
  lemma GroupPassNext(m: Libm, p: Params, w: World, circle: nat -> Vec2, dt: real,
                      velocities: seq<Vec2>, own: nat, n: nat, j: nat)
    requires p.Valid() && w.Valid() && |velocities| == |w.positions| && own < |w.groups| && j < |w.groups[own]|
    ensures var before := GroupPass(m, p, w, circle, dt, velocities, own, n, j);
      var b := w.groups[own][j];
      var u := SchoolingUpdate(m, p, w, circle, dt, before.0, own, b, before.1);
      GroupPass(m, p, w, circle, dt, velocities, own, n, j + 1) == (before.0[b := u.0], u.1)
  {
  }

  /** Each member of the group draws at most once. */
  lemma {:induction false} GroupPassDraws(m: Libm, p: Params, w: World, circle: nat -> Vec2, dt: real,
                                          velocities: seq<Vec2>, own: nat, n: nat, j: nat)
    requires p.Valid() && w.Valid() && |velocities| == |w.positions| && own < |w.groups| && j <= |w.groups[own]|
    ensures n <= GroupPass(m, p, w, circle, dt, velocities, own, n, j).1 <= n + j
  {
    if j > 0 {
      GroupPassDraws(m, p, w, circle, dt, velocities, own, n, j - 1);
    }
  }

  /**
   * In a group without repeated members, once members `0 .. j-1` have run,
   * member `i` holds what its own update computed from the velocities and
   * cursor left by members `0 .. i-1`; agents outside the group are
   * untouched.
   */
  lemma GroupPassWritten(m: Libm, p: Params, w: World, circle: nat -> Vec2, dt: real,
                         velocities: seq<Vec2>, own: nat, n: nat, j: nat, i: nat)
    requires p.Valid() && w.Valid() && |velocities| == |w.positions| && own < |w.groups| && j <= |w.groups[own]|
    requires Distinct(w.groups[own]) && i < j
    ensures var before := GroupPass(m, p, w, circle, dt, velocities, own, n, i);
      GroupPass(m, p, w, circle, dt, velocities, own, n, j).0[w.groups[own][i]]
        == SchoolingUpdate(m, p, w, circle, dt, before.0, own, w.groups[own][i], before.1).0
  {
    InPlaceWritten(SchoolingStep(m, p, w, circle, dt, own), w.groups[own], velocities, n, j, i);
  }

  /** Agents outside the group keep their velocities. */
  lemma GroupPassKept(m: Libm, p: Params, w: World, circle: nat -> Vec2, dt: real,
                      velocities: seq<Vec2>, own: nat, n: nat, j: nat, s: nat)
    requires p.Valid() && w.Valid() && |velocities| == |w.positions| && own < |w.groups| && j <= |w.groups[own]|
    requires s < |velocities| && s !in w.groups[own][..j]
    ensures GroupPass(m, p, w, circle, dt, velocities, own, n, j).0[s] == velocities[s]
  {
    InPlaceKept(SchoolingStep(m, p, w, circle, dt, own), w.groups[own], velocities, n, j, s);
  }

  /**
   * The schooling phase of `Update`: `UpdateSchoolingBoidGroup` for the
   * first `g` groups of `schoolsByType`, in the order they were added.
   */
  function SchoolingPhase(m: Libm, p: Params, w: World, circle: nat -> Vec2, dt: real,
                          velocities: seq<Vec2>, n: nat, g: nat): (r: (seq<Vec2>, nat))
    requires p.Valid() && w.Valid() && |velocities| == |w.positions| && g <= |w.groups|
    ensures |r.0| == |velocities| && n <= r.1
  {
    if g == 0 then (velocities, n)
    else
      var (vs, n') := SchoolingPhase(m, p, w, circle, dt, velocities, n, g - 1);
      GroupPassDraws(m, p, w, circle, dt, vs, g - 1, n', |w.groups[g - 1]|);
      GroupPass(m, p, w, circle, dt, vs, g - 1, n', |w.groups[g - 1]|)
  }

  // ---------------------------------------------------------------------
  // UpdateSoloBoid

  /**
   * The avoidance scan of solo boid `b` over agents `0 .. j-1` of
   * `allBoid`: itself is skipped; every other boid within
   * `avoidanceRadius` pushes it away with the squared ramp, a schooling
   * one 1.5 times as hard.
   */
  function SoloScan(m: Libm, p: Params, positions: seq<Vec2>, boids: seq<Boid>, b: nat, j: nat): Vec2
    requires p.Valid() && |boids| == |positions| && b < |positions| && j <= |positions|
  {
    if j == 0 then Zero
    else
      var acc := SoloScan(m, p, positions, boids, b, j - 1);
      var o := j - 1;
      var d := Distance(m, positions[b], positions[o]);
      if o == b || d >= p.avoidanceRadius then acc
      else
        var multiplier := if boids[o].isSchooling then 1.5 else 1.0;
        Add(acc, Scale(Scale(Normalized(m, Sub(positions[b], positions[o])), Falloff(d, p.avoidanceRadius)), multiplier))
  }

  /** With no other boid within `avoidanceRadius` the scan is zero: the boid itself is skipped. */
  lemma {:induction false} SoloScanAlone(m: Libm, p: Params, positions: seq<Vec2>, boids: seq<Boid>, b: nat, j: nat)
    requires p.Valid() && |boids| == |positions| && b < |positions| && j <= |positions|
    requires forall o :: 0 <= o < j && o != b ==> Distance(m, positions[b], positions[o]) >= p.avoidanceRadius
    ensures SoloScan(m, p, positions, boids, b, j) == Zero
  {
    if j > 0 {
      SoloScanAlone(m, p, positions, boids, b, j - 1);
    }
  }

  /**
   * The update of solo boid `b`: the avoidance, normalized, is applied only
   * above the threshold; the wander draw scaled by `randomMovementFactor`
   * and the time step is always added, so exactly one draw is used.
   */
  function SoloUpdate(m: Libm, p: Params, w: World, circle: nat -> Vec2, dt: real, b: nat, v: Vec2, n: nat): (r: (Vec2, nat))
    requires p.Valid() && |w.boids| == |w.positions| && b < |w.positions|
    ensures r.1 == n + 1
  {
    var avoidance := SoloScan(m, p, w.positions, w.boids, b, |w.positions|);
    var v1 :=
      if LengthSq(avoidance) > NormalizeThreshold
      then Add(v, Scale(Scale(Normalized(m, avoidance), p.avoidanceFactor), dt))
      else v;
    (Add(v1, Scale(Scale(circle(n), p.randomMovementFactor), dt)), n + 1)
  }

  /** A solo boid with nobody within `avoidanceRadius` only wanders. */
  lemma SoloAloneOnlyWanders(m: Libm, p: Params, w: World, circle: nat -> Vec2, dt: real, b: nat, v: Vec2, n: nat)
    requires p.Valid() && |w.boids| == |w.positions| && b < |w.positions|
    requires forall o :: 0 <= o < |w.positions| && o != b ==> Distance(m, w.positions[b], w.positions[o]) >= p.avoidanceRadius
    ensures SoloUpdate(m, p, w, circle, dt, b, v, n).0 == Add(v, Scale(Scale(circle(n), p.randomMovementFactor), dt))
  {
    SoloScanAlone(m, p, w.positions, w.boids, b, |w.positions|);
  }

  /** `SoloUpdate` as the step of an in-place pass over `soloBoid`. */
  function SoloStep(m: Libm, p: Params, w: World, circle: nat -> Vec2, dt: real): (seq<Vec2>, nat, nat) -> (Vec2, nat)
    requires p.Valid() && |w.boids| == |w.positions|
  {
    (vs: seq<Vec2>, b: nat, c: nat) =>
      if b < |w.positions| && b < |vs| then SoloUpdate(m, p, w, circle, dt, b, vs[b], c) else (Zero, c)
  }

  /** `UpdateSoloBoid` over the first `j` solo boids, each updated in place from its current velocity. */
  function SoloPhase(m: Libm, p: Params, w: World, circle: nat -> Vec2, dt: real,
                     velocities: seq<Vec2>, n: nat, j: nat): (r: (seq<Vec2>, nat))
    requires p.Valid() && w.Valid() && |velocities| == |w.positions| && j <= |w.solo|
    ensures |r.0| == |velocities|
  {
    InPlace(SoloStep(m, p, w, circle, dt), w.solo, velocities, n, j)
  }

  /** The next solo boid is updated from its current velocity and the cursor its predecessors left. */
  lemma SoloPhaseNext(m: Libm, p: Params, w: World, circle: nat -> Vec2, dt: real,
                      velocities: seq<Vec2>, n: nat, j: nat)
    requires p.Valid() && w.Valid() && |velocities| == |w.positions| && j < |w.solo|
    ensures var before := SoloPhase(m, p, w, circle, dt, velocities, n, j);
      var b := w.solo[j];
      var u := SoloUpdate(m, p, w, circle, dt, b, before.0[b], before.1);
      SoloPhase(m, p, w, circle, dt, velocities, n, j + 1) == (before.0[b := u.0], u.1)
  {
  }

  /** Every solo boid draws exactly once. */
  lemma {:induction false} SoloPhaseDraws(m: Libm, p: Params, w: World, circle: nat -> Vec2, dt: real,
                                          velocities: seq<Vec2>, n: nat, j: nat)
    requires p.Valid() && w.Valid() && |velocities| == |w.positions| && j <= |w.solo|
    ensures SoloPhase(m, p, w, circle, dt, velocities, n, j).1 == n + j
  {
    if j > 0 {
      SoloPhaseDraws(m, p, w, circle, dt, velocities, n, j - 1);
    }
  }

  /**
   * In a solo list without repeats, solo boid `i` holds its own update of
   * the velocity it had, with the cursor the boids before it left; agents
   * that are not solo boids keep their velocities.
   */
  lemma SoloPhaseWritten(m: Libm, p: Params, w: World, circle: nat -> Vec2, dt: real,
                         velocities: seq<Vec2>, n: nat, j: nat, i: nat)
    requires p.Valid() && w.Valid() && |velocities| == |w.positions| && j <= |w.solo| && Distinct(w.solo) && i < j
    ensures var b := w.solo[i];
      SoloPhase(m, p, w, circle, dt, velocities, n, j).0[b] == SoloUpdate(m, p, w, circle, dt, b, velocities[b], n + i).0
  {
    var step := SoloStep(m, p, w, circle, dt);
    InPlaceWritten(step, w.solo, velocities, n, j, i);
    SoloPhaseDraws(m, p, w, circle, dt, velocities, n, i);
    assert w.solo[i] !in w.solo[..i];
    InPlaceKept(step, w.solo, velocities, n, i, w.solo[i]);
  }

  /** Agents that are not solo boids keep their velocities through the solo phase. */
  lemma SoloPhaseKept(m: Libm, p: Params, w: World, circle: nat -> Vec2, dt: real,
                      velocities: seq<Vec2>, n: nat, j: nat, s: nat)
    requires p.Valid() && w.Valid() && |velocities| == |w.positions| && j <= |w.solo|
    requires s < |velocities| && s !in w.solo[..j]
    ensures SoloPhase(m, p, w, circle, dt, velocities, n, j).0[s] == velocities[s]
  {
    InPlaceKept(SoloStep(m, p, w, circle, dt), w.solo, velocities, n, j, s);
  }

  // ---------------------------------------------------------------------
  // ApplyBoundaryForce and ApplyMovement

  /**
   * The wall push on one axis for coordinate `q` between walls `lo` and
   * `hi`: within `buffer` of the upper wall it pushes down by the force
   * times the squared ramp of the distance to that wall; otherwise within
   * `buffer` of the lower wall it pushes up.  Only one branch fires.
   */
  function WallPush(q: real, lo: real, hi: real, buffer: real, force: real): (f: real)
    requires buffer > 0.0
    ensures q > hi - buffer ==> (force >= 0.0 ==> f <= 0.0)
    ensures q <= hi - buffer && q < lo + buffer ==> (force >= 0.0 ==> f >= 0.0)
    ensures lo + buffer <= q <= hi - buffer ==> f == 0.0
    ensures Abs(f) <= Abs(force)
  {
    if q > hi - buffer then
      var s := Falloff(hi - q, buffer);
      ScaleUnit(force, s);
      0.0 - force * s
    else if q < lo + buffer then
      var s := Falloff(q - lo, buffer);
      ScaleUnit(force, s);
      0.0 + force * s
    else 0.0
  }

  /** The boundary force at `q`, one wall push per axis. */
  function BoundaryPush(p: Params, bounds: Bounds, q: Vec2): Vec2
    requires p.Valid()
  {
    Vec2(WallPush(q.x, bounds.min.x, bounds.max.x, p.boundaryBuffer, p.boundaryForce),
         WallPush(q.y, bounds.min.y, bounds.max.y, p.boundaryBuffer, p.boundaryForce))
  }

  /**
   * `ApplyBoundaryForce`: nothing without boundaries; otherwise, only when
   * the force's squared length exceeds 0.01, the force (scaled by the time
   * step) and a draw scaled by 0.3 and the time step are added.
   */
  function BoundaryStage(p: Params, hasBoundaries: bool, bounds: Bounds, circle: nat -> Vec2, dt: real,
                         q: Vec2, v: Vec2, n: nat): (r: (Vec2, nat))
    requires p.Valid()
    ensures !hasBoundaries ==> r == (v, n)
    ensures hasBoundaries ==> (r.1 == n + 1 <==> LengthSq(BoundaryPush(p, bounds, q)) > 0.01)
    ensures r.1 == n ==> r.0 == v
    ensures r.1 == n || r.1 == n + 1
  {
    if !hasBoundaries then (v, n)
    else
      var force := BoundaryPush(p, bounds, q);
      if LengthSq(force) > 0.01
      then (Add(Add(v, Scale(force, dt)), Scale(Scale(circle(n), 0.3), dt)), n + 1)
      else (v, n)
  }

  /**
   * The speed cap: a velocity no faster than `moveSpeed` is kept; with a
   * sound library no capped velocity is faster than `moveSpeed`, and one
   * that was faster (and long enough to normalize) leaves at exactly
   * `moveSpeed`.
   */
  function CapSpeed(m: Libm, v: Vec2, moveSpeed: real): (r: Vec2)
    ensures LengthSq(v) <= moveSpeed * moveSpeed ==> r == v
    ensures Sound(m) ==> LengthSq(r) <= moveSpeed * moveSpeed
    ensures Sound(m) && LengthSq(v) > moveSpeed * moveSpeed && LengthSq(v) > 0.0000000001 ==>
      LengthSq(r) == moveSpeed * moveSpeed
  {
    if LengthSq(v) > moveSpeed * moveSpeed then
      LengthSqScale(Normalized(m, v), moveSpeed);
      SquareNonNegative(moveSpeed);
      Scale(Normalized(m, v), moveSpeed)
    else v
  }

  /**
   * The minimum-speed floor: a velocity of squared length at least 0.01 is
   * kept without a draw; a slower one costs one draw and is replaced by the
   * draw's direction at speed 0.1 (squared length 0.01), or by zero when
   * the draw is within 1e-5 of the origin.
   */
  function SpeedFloor(m: Libm, circle: nat -> Vec2, v: Vec2, n: nat): (r: (Vec2, nat))
    ensures LengthSq(v) >= 0.01 ==> r == (v, n)
    ensures LengthSq(v) < 0.01 ==> r.1 == n + 1
    ensures LengthSq(v) < 0.01 && Sound(m) && LengthSq(circle(n)) > 0.0000000001 ==> LengthSq(r.0) == 0.01
    ensures LengthSq(v) < 0.01 && LengthSq(circle(n)) <= 0.0000000001 ==> r.0 == Zero
  {
    if LengthSq(v) < 0.01 then
      LengthSqScale(Normalized(m, circle(n)), 0.1);
      (Scale(Normalized(m, circle(n)), 0.1), n + 1)
    else (v, n)
  }

  /**
   * The bounce test on one axis, as written: the clamped coordinate is
   * within 0.01 of either wall, and it sits at or beyond the upper wall
   * moving up, or at or beyond the lower wall moving down.
   */
  predicate Bounces(q: real, lo: real, hi: real, vq: real)
  {
    (Abs(q - lo) < 0.01 || Abs(q - hi) < 0.01) && ((q >= hi && vq > 0.0) || (q <= lo && vq < 0.0))
  }

  /**
   * After the clamp the bounce fires exactly when the boid sits on a wall
   * and moves out through it: the "within 0.01" half of the test never
   * decides anything.
   */
  lemma BouncesOnlyAtWall(q: real, lo: real, hi: real, vq: real)
    requires lo <= q <= hi
    ensures Bounces(q, lo, hi, vq) <==> (q == hi && vq > 0.0) || (q == lo && vq < 0.0)
  {
  }

  /** Half a draw from the unit disc stays within 0.5 of the origin, on each axis and in length. */
  lemma HalfDraw(c: Vec2)
    ensures LengthSq(c) <= 1.0 ==> LengthSq(Scale(c, 0.5)) <= 0.25
    ensures LengthSq(c) <= 1.0 ==> Abs(c.x * 0.5) <= 0.5 && Abs(c.y * 0.5) <= 0.5
  {
    LengthSqScale(c, 0.5);
    if LengthSq(c) <= 1.0 {
      ComponentsWithin(Scale(c, 0.5), 0.5);
    }
  }

  /**
   * The bounce on x.  Without a bounce nothing changes and nothing is
   * drawn.  A bounce costs one draw; for a draw inside the unit disc, as
   * `Random.insideUnitCircle` gives, the new velocity lies within 0.5 of the
   * reflected one, whose x component is reversed and damped to 0.8.
   */
  function BounceX(bounds: Bounds, circle: nat -> Vec2, q: Vec2, v: Vec2, n: nat): (r: (Vec2, nat))
    ensures !Bounces(q.x, bounds.min.x, bounds.max.x, v.x) ==> r == (v, n)
    ensures Bounces(q.x, bounds.min.x, bounds.max.x, v.x) ==> r.1 == n + 1
    ensures Bounces(q.x, bounds.min.x, bounds.max.x, v.x) && LengthSq(circle(n)) <= 1.0 ==>
      LengthSq(Sub(r.0, Vec2(-v.x * 0.8, v.y))) <= 0.25
      && Abs(r.0.x + v.x * 0.8) <= 0.5 && Abs(r.0.y - v.y) <= 0.5
  {
    if Bounces(q.x, bounds.min.x, bounds.max.x, v.x) then
      HalfDraw(circle(n));
      (Add(Vec2(-v.x * 0.8, v.y), Scale(circle(n), 0.5)), n + 1)
    else (v, n)
  }

  /** The bounce on y, tested with the velocity the x bounce left: the mirror image of `BounceX`. */
  function BounceY(bounds: Bounds, circle: nat -> Vec2, q: Vec2, v: Vec2, n: nat): (r: (Vec2, nat))
    ensures !Bounces(q.y, bounds.min.y, bounds.max.y, v.y) ==> r == (v, n)
    ensures Bounces(q.y, bounds.min.y, bounds.max.y, v.y) ==> r.1 == n + 1
    ensures Bounces(q.y, bounds.min.y, bounds.max.y, v.y) && LengthSq(circle(n)) <= 1.0 ==>
      LengthSq(Sub(r.0, Vec2(v.x, -v.y * 0.8))) <= 0.25
      && Abs(r.0.y + v.y * 0.8) <= 0.5 && Abs(r.0.x - v.x) <= 0.5
  {
    if Bounces(q.y, bounds.min.y, bounds.max.y, v.y) then
      HalfDraw(circle(n));
      (Add(Vec2(v.x, -v.y * 0.8), Scale(circle(n), 0.5)), n + 1)
    else (v, n)
  }

  /**
   * One boid of `ApplyMovement` after the boundary force: speed cap, speed
   * floor, integration; with boundaries, the clamp into the sprite bounds
   * and the bounces on x then y.  Returns the new position, velocity and
   * cursor.
   */
  function Glide(m: Libm, hasBoundaries: bool, bounds: Bounds, circle: nat -> Vec2, dt: real,
                 moveSpeed: real, q: Vec2, v: Vec2, n: nat): (r: (Vec2, Vec2, nat))
    requires bounds.Valid()
    ensures hasBoundaries ==> bounds.Contains(r.0)
    ensures n <= r.2 <= n + 3
  {
    var v2 := CapSpeed(m, v, moveSpeed);
    var (v3, n2) := SpeedFloor(m, circle, v2, n);
    var q1 := Add(q, Scale(v3, dt));
    if !hasBoundaries then (q1, v3, n2)
    else
      var q2 := Vec2(Clamp(q1.x, bounds.min.x, bounds.max.x), Clamp(q1.y, bounds.min.y, bounds.max.y));
      var (v4, n3) := BounceX(bounds, circle, q2, v3, n2);
      var (v5, n4) := BounceY(bounds, circle, q2, v4, n3);
      (q2, v5, n4)
  }

  /** One boid of `ApplyMovement`: the boundary force, then the rest of the step. */
  function MoveBoid(m: Libm, p: Params, hasBoundaries: bool, bounds: Bounds, circle: nat -> Vec2, dt: real,
                    moveSpeed: real, q: Vec2, v: Vec2, n: nat): (r: (Vec2, Vec2, nat))
    requires p.Valid() && bounds.Valid()
    ensures hasBoundaries ==> bounds.Contains(r.0)
    ensures n <= r.2 <= n + 4
  {
    var (v1, n1) := BoundaryStage(p, hasBoundaries, bounds, circle, dt, q, v, n);
    Glide(m, hasBoundaries, bounds, circle, dt, moveSpeed, q, v1, n1)
  }

  /** `ApplyMovement` over agents `0 .. k-1` of `allBoid`, in order, each with its own type's speed. */
  function MovementPhase(m: Libm, p: Params, hasBoundaries: bool, bounds: Bounds, circle: nat -> Vec2, dt: real,
                         boids: seq<Boid>, positions: seq<Vec2>, velocities: seq<Vec2>, n: nat, k: nat)
    : (r: (seq<Vec2>, seq<Vec2>, nat))
    requires p.Valid() && bounds.Valid() && |positions| == |boids| && |velocities| == |boids| && k <= |boids|
    ensures |r.0| == |boids| && |r.1| == |boids| && n <= r.2
  {
    if k == 0 then (positions, velocities, n)
    else
      var (ps, vs, n') := MovementPhase(m, p, hasBoundaries, bounds, circle, dt, boids, positions, velocities, n, k - 1);
      var (q, v, n'') := MoveBoid(m, p, hasBoundaries, bounds, circle, dt, boids[k - 1].data.moveSpeed, ps[k - 1], vs[k - 1], n');
      (ps[k - 1 := q], vs[k - 1 := v], n'')
  }

  /** With boundaries, every boid moved so far is inside the sprite bounds. */
  lemma {:induction false} MovementPhaseInside(m: Libm, p: Params, hasBoundaries: bool, bounds: Bounds, circle: nat -> Vec2, dt: real,
                                               boids: seq<Boid>, positions: seq<Vec2>, velocities: seq<Vec2>, n: nat, k: nat, i: nat)
    requires p.Valid() && bounds.Valid() && |positions| == |boids| && |velocities| == |boids| && i < k <= |boids|
    requires hasBoundaries
    ensures bounds.Contains(MovementPhase(m, p, hasBoundaries, bounds, circle, dt, boids, positions, velocities, n, k).0[i])
  {
    if i < k - 1 {
      MovementPhaseInside(m, p, hasBoundaries, bounds, circle, dt, boids, positions, velocities, n, k - 1, i);
    }
  }

  // ---------------------------------------------------------------------
  // Update

  /**
   * One frame of `Update`: every schooling group in the order of
   * `schoolsByType`, then every solo boid, then the movement of every boid.
   * Returns the new positions, velocities and draw cursor.
   */
  function Frame(m: Libm, p: Params, hasBoundaries: bool, bounds: Bounds, circle: nat -> Vec2, dt: real,
                 w: World, velocities: seq<Vec2>, n: nat): (r: (seq<Vec2>, seq<Vec2>, nat))
    requires p.Valid() && bounds.Valid() && w.Valid() && |velocities| == |w.positions|
    ensures |r.0| == |w.positions| && |r.1| == |w.positions|
  {
    var (v1, n1) := SchoolingPhase(m, p, w, circle, dt, velocities, n, |w.groups|);
    var (v2, n2) := SoloPhase(m, p, w, circle, dt, v1, n1, |w.solo|);
    MovementPhase(m, p, hasBoundaries, bounds, circle, dt, w.boids, w.positions, v2, n2, |w.boids|)
  }

  /**
   * After a frame with boundaries every boid is inside the sprite bounds,
   * and the frame used at least one draw per solo boid.
   */
  lemma FrameInside(m: Libm, p: Params, hasBoundaries: bool, bounds: Bounds, circle: nat -> Vec2, dt: real,
                    w: World, velocities: seq<Vec2>, n: nat)
    requires p.Valid() && bounds.Valid() && w.Valid() && |velocities| == |w.positions|
    ensures var r := Frame(m, p, hasBoundaries, bounds, circle, dt, w, velocities, n);
      (hasBoundaries ==> forall k :: 0 <= k < |r.0| ==> bounds.Contains(r.0[k]))
      && r.2 >= n + |w.solo|
  {
    var (v1, n1) := SchoolingPhase(m, p, w, circle, dt, velocities, n, |w.groups|);
    SoloPhaseDraws(m, p, w, circle, dt, v1, n1, |w.solo|);
    var (v2, n2) := SoloPhase(m, p, w, circle, dt, v1, n1, |w.solo|);
    if hasBoundaries {
      forall k | 0 <= k < |w.boids|
        ensures bounds.Contains(MovementPhase(m, p, hasBoundaries, bounds, circle, dt, w.boids, w.positions, v2, n2, |w.boids|).0[k])
      {
        MovementPhaseInside(m, p, hasBoundaries, bounds, circle, dt, w.boids, w.positions, v2, n2, |w.boids|, k);
      }
    }
  }
}
