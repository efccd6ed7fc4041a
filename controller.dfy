/**
 * `BoidController`: the sequential controller.  It keeps one record per
 * boid in `allBoid` (here the agent numbering `0 .. n-1`), the schooling
 * and solo boids in two lists, and the schooling boids once more grouped
 * by type in `schoolsByType`.  Every frame updates each schooling group in
 * place, then each solo boid, then moves every boid.
 */
module Controller {
  import opened Vectors
  import opened Flocking
  import opened Roster
  import opened ControllerRules

  /**
   * How many spawn points a schooling type gets: one per fifteen boids
   * (one to three) when it spawns at random, otherwise its one fixed point.
   */
  function SpawnPoints(d: BoidData): (c: nat)
    ensures 1 <= c <= 3
    ensures !d.isRandomSpawn ==> c == 1
  {
    if d.isRandomSpawn then ClusterCount(d.boidCount) else 1
  }

  /**
   * The record of boid `i` of type `t`: a schooling boid belongs to school
   * `i % SpawnPoints`, the spawn point it is placed around; a solo boid
   * keeps school 0.
   */
  function BoidOf(r: seq<BoidData>, t: nat, i: nat): (b: Boid)
    requires t < |r|
    ensures b.boidType == t && b.data == r[t] && b.isSchooling == r[t].isSchooling
    ensures b.isSchooling ==> b.schoolId < SpawnPoints(r[t])
    ensures !b.isSchooling || !r[t].isRandomSpawn ==> b.schoolId == 0
  {
    Boid(t, r[t], r[t].isSchooling, if r[t].isSchooling then SchoolIdOf(i, SpawnPoints(r[t])) else 0)
  }

  /** The records of type `t`'s boids, in creation order. */
  function TypeBoids(r: seq<BoidData>, t: nat): (s: seq<Boid>)
    requires t < |r|
    ensures |s| == r[t].boidCount
  {
    seq(r[t].boidCount, i requires 0 <= i < r[t].boidCount => BoidOf(r, t, i))
  }

  /** `allBoid` after the creation loop has run over the first `t` types. */
  function Spawned(r: seq<BoidData>, t: nat): (s: seq<Boid>)
    requires t <= |r|
    ensures |s| == Offset(r, t)
  {
    if t == 0 then [] else Spawned(r, t - 1) + TypeBoids(r, t - 1)
  }

  /** Boid `i` of type `u` is agent `Offset(r, u) + i` once the loop has passed type `u`. */
  lemma {:induction false} SpawnedAt(r: seq<BoidData>, t: nat, u: nat, i: nat)
    requires u < t <= |r| && i < r[u].boidCount
    ensures Offset(r, u) + i < Offset(r, t)
    ensures Spawned(r, t)[Offset(r, u) + i] == BoidOf(r, u, i)
  {
    if u < t - 1 {
      SpawnedAt(r, t - 1, u, i);
      OffsetMonotone(r, u + 1, t - 1);
    }
  }

  /**
   * Every agent's record is that of the type whose run holds it: the type
   * and flags of its roster entry, and a school below that type's number of
   * spawn points (school 0 for a solo boid or a fixed spawn point).
   */
  lemma SpawnedRecord(r: seq<BoidData>, k: nat)
    requires k < Total(r)
    ensures var t := TypeOf(r, k);
      Spawned(r, |r|)[k] == BoidOf(r, t, k - Offset(r, t))
  {
    var t := TypeOf(r, k);
    var i := k - Offset(r, t);
    assert Offset(r, t + 1) == Offset(r, t) + r[t].boidCount;
    SpawnedAt(r, |r|, t, i);
    assert Offset(r, t) + i == k;
  }

  /** The schooling types among the first `t` roster entries, in roster order: the keys of `schoolsByType`. */
  function SchoolingTypes(r: seq<BoidData>, t: nat): (keys: seq<nat>)
    requires t <= |r|
    ensures forall g :: 0 <= g < |keys| ==> keys[g] < t && r[keys[g]].isSchooling
  {
    if t == 0 then []
    else if r[t - 1].isSchooling then SchoolingTypes(r, t - 1) + [t - 1]
    else SchoolingTypes(r, t - 1)
  }

  /** Every schooling type has exactly one key, and the keys come in roster order. */
  lemma {:induction false} SchoolingTypesMembers(r: seq<BoidData>, t: nat)
    requires t <= |r|
    ensures forall u :: u in SchoolingTypes(r, t) <==> 0 <= u < t && r[u].isSchooling
    ensures forall g, h :: 0 <= g < h < |SchoolingTypes(r, t)| ==> SchoolingTypes(r, t)[g] < SchoolingTypes(r, t)[h]
  {
    if t > 0 {
      SchoolingTypesMembers(r, t - 1);
    }
  }

  /** The lists of `schoolsByType` once the creation loop has passed the first `t` types, one per schooling type. */
  function SchoolGroups(r: seq<BoidData>, t: nat): (gs: seq<seq<int>>)
    requires t <= |r|
    ensures |gs| == |SchoolingTypes(r, t)|
  {
    if t == 0 then []
    else if r[t - 1].isSchooling then SchoolGroups(r, t - 1) + [Run(r, t - 1)]
    else SchoolGroups(r, t - 1)
  }

  /** Group `g` holds exactly the boids of the `g`-th schooling type. */
  lemma {:induction false} SchoolGroupsAt(r: seq<BoidData>, t: nat, g: nat)
    requires t <= |r| && g < |SchoolGroups(r, t)|
    ensures SchoolGroups(r, t)[g] == Run(r, SchoolingTypes(r, t)[g])
  {
    if !r[t - 1].isSchooling || g < |SchoolGroups(r, t - 1)| {
      SchoolGroupsAt(r, t - 1, g);
    }
  }

  /** The groups, one after another, are exactly the schooling list. */
  lemma {:induction false} SchoolGroupsConcat(r: seq<BoidData>, t: nat)
    requires t <= |r|
    ensures Concat(SchoolGroups(r, t)) == Filtered(r, t, true)
  {
    if t > 0 {
      SchoolGroupsConcat(r, t - 1);
      if r[t - 1].isSchooling {
        var gs := SchoolGroups(r, t);
        assert gs[..|gs| - 1] == SchoolGroups(r, t - 1);
      }
    }
  }

  /** Later roster prefixes have at least as many schooling types. */
  lemma {:induction false} SchoolingTypesGrow(r: seq<BoidData>, t: nat, u: nat)
    requires t <= u <= |r|
    ensures |SchoolingTypes(r, t)| <= |SchoolingTypes(r, u)|
    decreases u
  {
    if t < u {
      SchoolingTypesGrow(r, t, u - 1);
    }
  }

  /** Filling the next empty list with the run of schooling type `t` extends the groups by one. */
  lemma GroupsFill(r: seq<BoidData>, t: nat, g: nat, groups: seq<seq<int>>, filled: seq<seq<int>>)
    requires t < |r| && r[t].isSchooling && g < |groups| && filled == groups[g := Run(r, t)]
    requires groups[..g] == SchoolGroups(r, t) && forall h :: g <= h < |groups| ==> groups[h] == []
    ensures filled[..g + 1] == SchoolGroups(r, t + 1)
    ensures forall h :: g + 1 <= h < |filled| ==> filled[h] == []
  {
    assert filled[..g + 1] == groups[..g] + [Run(r, t)];
  }

  /** The records and spawn positions of type `t` extend those of the types before it. */
  lemma RecordsStep(r: seq<BoidData>, t: nat, spawnPositions: seq<Vec2>, all: seq<Boid>, pos: seq<Vec2>,
                    tb: seq<Boid>, tp: seq<Vec2>)
    requires t < |r| && Offset(r, t + 1) <= |spawnPositions|
    requires all == Spawned(r, t) && pos == spawnPositions[..Offset(r, t)]
    requires tb == TypeBoids(r, t) && tp == spawnPositions[Offset(r, t)..Offset(r, t + 1)]
    ensures all + tb == Spawned(r, t + 1) && pos + tp == spawnPositions[..Offset(r, t + 1)]
  {
    assert spawnPositions[..Offset(r, t + 1)] == spawnPositions[..Offset(r, t)] + spawnPositions[Offset(r, t)..Offset(r, t + 1)];
  }

  /**
   * What the spawn builds is a consistent world: one record per position,
   * and the schooling list, the solo list and every group name agents
   * `0 .. Total-1` only.
   */
  lemma SpawnedWorld(r: seq<BoidData>, spawnPositions: seq<Vec2>)
    requires |spawnPositions| == Total(r)
    ensures World(spawnPositions, Spawned(r, |r|), Filtered(r, |r|, false), SchoolGroups(r, |r|)).Valid()
    ensures AgentsIn(Filtered(r, |r|, true), Total(r))
  {
    FilteredAscending(r, |r|, true);
    FilteredAscending(r, |r|, false);
    var gs := SchoolGroups(r, |r|);
    forall g | 0 <= g < |gs|
      ensures AgentsIn(gs[g], Total(r))
    {
      SchoolGroupsAt(r, |r|, g);
      OffsetMonotone(r, SchoolingTypes(r, |r|)[g] + 1, |r|);
    }
  }

  /** The velocity a boid starts with: its unit heading scaled to its type's `moveSpeed`. */
  function InitialVelocity(m: Libm, b: Boid, heading: Vec2): Vec2
  {
    Scale(Normalized(m, heading), b.data.moveSpeed)
  }

  /** Appending one type's boids and velocities keeps every boid's velocity its launch velocity. */
  lemma LaunchedExtend(m: Libm, headings: seq<Vec2>, all: seq<Boid>, vel: seq<Vec2>, tb: seq<Boid>, tv: seq<Vec2>, first: nat)
    requires first == |all| == |vel| && |tv| == |tb| && first + |tb| <= |headings|
    requires forall k :: 0 <= k < |vel| ==> vel[k] == InitialVelocity(m, all[k], headings[k])
    requires forall i :: 0 <= i < |tv| ==> tv[i] == InitialVelocity(m, tb[i], headings[first + i])
    ensures forall k :: 0 <= k < |vel + tv| ==> (vel + tv)[k] == InitialVelocity(m, (all + tb)[k], headings[k])
  {
    forall k | 0 <= k < |vel + tv|
      ensures (vel + tv)[k] == InitialVelocity(m, (all + tb)[k], headings[k])
    {
      if k >= first {
        assert (vel + tv)[k] == tv[k - first] && (all + tb)[k] == tb[k - first];
      }
    }
  }

  /**
   * The controller.  `positions` are the (x, y) positions of the boids'
   * transforms; the draws of `Random.insideUnitCircle` made during `Update`
   * come from a stream given to `Update`, and `drawn` counts those used.
   */
  class BoidController {
    /** `boidCollection.boids`. */
    var roster: seq<BoidData>
    var hasBoundaries: bool
    var spriteBounds: Bounds
    /** One record per boid of `allBoid`, in `allBoid` order. */
    var boids: seq<Boid>
    var positions: seq<Vec2>
    var velocities: seq<Vec2>
    var schoolingBoid: seq<int>
    var soloBoid: seq<int>
    /**
     * `schoolsByType`, as its entries in the order they were added: list
     * `schoolsByType[g]` belongs to roster entry `schoolKeys[g]`.
     */
    var schoolKeys: seq<nat>
    var schoolsByType: seq<seq<int>>
    /** How many draws of the unit-circle stream the frames have used. */
    var drawn: nat

    /**
     * The component as `Start` leaves it before spawning: the roster set,
     * the boundaries as found (or not) by `InitializeBoundaries`, no boid.
     */
    constructor(r: seq<BoidData>, hasBoundaries: bool, spriteBounds: Bounds)
      requires spriteBounds.Valid()
      ensures roster == r && this.hasBoundaries == hasBoundaries && this.spriteBounds == spriteBounds
      ensures Empty() && drawn == 0 && Valid()
    {
      roster := r;
      this.hasBoundaries := hasBoundaries;
      this.spriteBounds := spriteBounds;
      boids, positions, velocities := [], [], [];
      schoolingBoid, soloBoid := [], [];
      schoolKeys, schoolsByType := [], [];
      drawn := 0;
    }

    /** No boid and no group yet. */
    predicate Empty()
      reads this
    {
      boids == [] && positions == [] && velocities == [] && schoolingBoid == [] && soloBoid == []
      && schoolKeys == [] && schoolsByType == []
    }

    /** What the behaviour rules read besides the velocities. */
    function Snapshot(): World
      reads this
    {
      World(positions, boids, soloBoid, schoolsByType)
    }

    /** One velocity per boid, every list names existing boids, and the bounds are a box. */
    ghost predicate Valid()
      reads this
    {
      Snapshot().Valid() && |velocities| == |positions| && AgentsIn(schoolingBoid, |positions|)
      && |schoolKeys| == |schoolsByType| && spriteBounds.Valid()
    }

    /**
     * The creation loop for type `t`: the records, spawn positions, initial
     * velocities and agent numbers of its boids.  Spawn positions and unit
     * headings are inputs, one per agent.
     */
    static method SpawnType(m: Libm, r: seq<BoidData>, t: nat, spawnPositions: seq<Vec2>, headings: seq<Vec2>)
      returns (tb: seq<Boid>, tp: seq<Vec2>, tv: seq<Vec2>, members: seq<int>)
      requires t < |r| && |spawnPositions| == Total(r) && |headings| == Total(r)
      ensures Offset(r, t + 1) <= Total(r)
      ensures tb == TypeBoids(r, t) && members == Run(r, t)
      ensures tp == spawnPositions[Offset(r, t)..Offset(r, t + 1)]
      ensures |tv| == |tb| && forall i :: 0 <= i < |tv| ==> tv[i] == InitialVelocity(m, tb[i], headings[Offset(r, t) + i])
    {
      OffsetMonotone(r, t + 1, |r|);
      var data := r[t];
      var first := Offset(r, t);
      var schoolId: nat := 0;
      tb, tp, tv, members := [], [], [], [];
      for i := 0 to data.boidCount
        invariant tb == TypeBoids(r, t)[..i] && members == Run(r, t)[..i]
        invariant !data.isSchooling ==> schoolId == 0
        invariant tp == spawnPositions[first..first + i]
        invariant |tv| == i && forall j :: 0 <= j < i ==> tv[j] == InitialVelocity(m, tb[j], headings[first + j])
      {
        if data.isSchooling {
          schoolId := i % SpawnPoints(data);
        }
        var boid := Boid(t, data, data.isSchooling, schoolId);
        assert boid == TypeBoids(r, t)[i];
        tb := tb + [boid];
        tp := tp + [spawnPositions[first + i]];
        tv := tv + [Scale(Normalized(m, headings[first + i]), data.moveSpeed)];
        members := members + [first + i];
      }
      assert TypeBoids(r, t)[..data.boidCount] == TypeBoids(r, t);
      assert Run(r, t)[..data.boidCount] == Run(r, t);
    }

    /** Every boid moves off with its heading scaled to its type's speed. */
    ghost predicate Launched(m: Libm, headings: seq<Vec2>)
      reads this
    {
      |velocities| == |boids| <= |headings|
      && forall k :: 0 <= k < |velocities| ==> velocities[k] == InitialVelocity(m, boids[k], headings[k])
    }

    /**
     * `SpawnBoids`, called once by `Start` on a component without boids.
     * Without boundaries nothing is spawned.  Otherwise every schooling
     * roster entry first gets an empty list in `schoolsByType`, and then
     * every entry its boids, type after type: each boid is appended to
     * `allBoid` and to the schooling list and its type's list, or to the
     * solo list.  The spawn positions and unit headings, drawn from the
     * engine's generator, are inputs.
     */
    method SpawnBoids(m: Libm, spawnPositions: seq<Vec2>, headings: seq<Vec2>)
      requires Valid() && Empty()
      requires |spawnPositions| == Total(roster) && |headings| == Total(roster)
      modifies this`boids, this`positions, this`velocities, this`schoolingBoid, this`soloBoid
      modifies this`schoolKeys, this`schoolsByType
      ensures Valid()
      ensures !hasBoundaries ==> Empty()
      ensures hasBoundaries ==> boids == Spawned(roster, |roster|) && positions == spawnPositions && Launched(m, headings)
      ensures hasBoundaries ==> schoolingBoid == Filtered(roster, |roster|, true) && soloBoid == Filtered(roster, |roster|, false)
      ensures hasBoundaries ==> schoolKeys == SchoolingTypes(roster, |roster|) && schoolsByType == SchoolGroups(roster, |roster|)
    {
      if !hasBoundaries {
        return;
      }
      var all, pos, vel, schooling, solo, keys, groups := Spawn(m, roster, spawnPositions, headings);
      Install(all, pos, vel, schooling, solo, keys, groups);
    }

    /** Stores the spawned boids and lists in the component. */
    method Install(all: seq<Boid>, pos: seq<Vec2>, vel: seq<Vec2>, schooling: seq<int>, solo: seq<int>,
                   keys: seq<nat>, groups: seq<seq<int>>)
      requires World(pos, all, solo, groups).Valid() && AgentsIn(schooling, |pos|)
      requires |vel| == |pos| && |keys| == |groups| && spriteBounds.Valid()
      modifies this`boids, this`positions, this`velocities, this`schoolingBoid, this`soloBoid
      modifies this`schoolKeys, this`schoolsByType
      ensures boids == all && positions == pos && velocities == vel && schoolingBoid == schooling && soloBoid == solo
      ensures schoolKeys == keys && schoolsByType == groups
      ensures Valid()
    {
      boids, positions, velocities, schoolingBoid, soloBoid := all, pos, vel, schooling, solo;
      schoolKeys, schoolsByType := keys, groups;
    }

    /** The two passes of `SpawnBoids` over the roster, on values. */
    static method Spawn(m: Libm, r: seq<BoidData>, spawnPositions: seq<Vec2>, headings: seq<Vec2>)
      returns (all: seq<Boid>, pos: seq<Vec2>, vel: seq<Vec2>, schooling: seq<int>, solo: seq<int>,
               keys: seq<nat>, groups: seq<seq<int>>)
      requires |spawnPositions| == Total(r) && |headings| == Total(r)
      ensures all == Spawned(r, |r|) && pos == spawnPositions
      ensures |vel| == |all| && forall k :: 0 <= k < |vel| ==> vel[k] == InitialVelocity(m, all[k], headings[k])
      ensures schooling == Filtered(r, |r|, true) && solo == Filtered(r, |r|, false)
      ensures keys == SchoolingTypes(r, |r|) && groups == SchoolGroups(r, |r|)
      ensures World(pos, all, solo, groups).Valid() && AgentsIn(schooling, |pos|)
    {
      var groups0;
      keys, groups0 := AddSchools(r);
      all, pos, vel, schooling, solo, groups := SpawnAll(m, r, spawnPositions, headings, keys, groups0);
      SpawnedWorld(r, spawnPositions);
    }

    /**
     * The first pass over the roster: an empty list in `schoolsByType` for
     * every schooling entry.  Spawn points and school headings are geometry
     * and are not modelled.
     */
    static method AddSchools(r: seq<BoidData>) returns (keys: seq<nat>, groups: seq<seq<int>>)
      ensures keys == SchoolingTypes(r, |r|) && |groups| == |keys|
      ensures forall h :: 0 <= h < |groups| ==> groups[h] == []
    {
      keys, groups := [], [];
      for t := 0 to |r|
        invariant keys == SchoolingTypes(r, t) && |groups| == |keys|
        invariant forall h :: 0 <= h < |groups| ==> groups[h] == []
      {
        if r[t].isSchooling {
          keys, groups := keys + [t], groups + [[]];
        }
      }
    }

    /**
     * The creation loop over the roster: `allBoid`, the boids' positions and
     * velocities, the schooling and solo lists, and the lists of
     * `schoolsByType` filled type after type.
     */
    static method SpawnAll(m: Libm, r: seq<BoidData>, spawnPositions: seq<Vec2>, headings: seq<Vec2>,
                           keys: seq<nat>, groups0: seq<seq<int>>)
      returns (all: seq<Boid>, pos: seq<Vec2>, vel: seq<Vec2>, schooling: seq<int>, solo: seq<int>, groups: seq<seq<int>>)
      requires |spawnPositions| == Total(r) && |headings| == Total(r)
      requires keys == SchoolingTypes(r, |r|) && |groups0| == |keys|
      requires forall h :: 0 <= h < |groups0| ==> groups0[h] == []
      ensures all == Spawned(r, |r|) && pos == spawnPositions
      ensures |vel| == |all| && forall k :: 0 <= k < |vel| ==> vel[k] == InitialVelocity(m, all[k], headings[k])
      ensures schooling == Filtered(r, |r|, true) && solo == Filtered(r, |r|, false)
      ensures groups == SchoolGroups(r, |r|)
    {
      all, pos, vel, schooling, solo, groups := [], [], [], [], [], groups0;
      var g := 0;
      for t := 0 to |r|
        invariant Offset(r, t) <= |spawnPositions|
        invariant all == Spawned(r, t) && pos == spawnPositions[..Offset(r, t)]
        invariant |vel| == |all| && forall k :: 0 <= k < |vel| ==> vel[k] == InitialVelocity(m, all[k], headings[k])
        invariant schooling == Filtered(r, t, true) && solo == Filtered(r, t, false)
        invariant g == |SchoolingTypes(r, t)| && |groups| == |keys| && g <= |groups|
        invariant groups[..g] == SchoolGroups(r, t) && forall h :: g <= h < |groups| ==> groups[h] == []
      {
        var members;
        all, pos, vel, members := SpawnRecords(m, r, t, spawnPositions, headings, all, pos, vel);
        schooling, solo, groups, g := FileType(r, t, keys, members, schooling, solo, groups, g);
      }
      assert pos == spawnPositions;
      assert groups == groups[..g];
    }

    /** The boids of type `t` appended to `allBoid`, with their positions and velocities. */
    static method SpawnRecords(m: Libm, r: seq<BoidData>, t: nat, spawnPositions: seq<Vec2>, headings: seq<Vec2>,
                               all: seq<Boid>, pos: seq<Vec2>, vel: seq<Vec2>)
      returns (all': seq<Boid>, pos': seq<Vec2>, vel': seq<Vec2>, members: seq<int>)
      requires t < |r| && |spawnPositions| == Total(r) && |headings| == Total(r) && Offset(r, t) <= |spawnPositions|
      requires all == Spawned(r, t) && pos == spawnPositions[..Offset(r, t)]
      requires |vel| == |all| && forall k :: 0 <= k < |vel| ==> vel[k] == InitialVelocity(m, all[k], headings[k])
      ensures Offset(r, t + 1) <= |spawnPositions|
      ensures all' == Spawned(r, t + 1) && pos' == spawnPositions[..Offset(r, t + 1)]
      ensures |vel'| == |all'| && forall k :: 0 <= k < |vel'| ==> vel'[k] == InitialVelocity(m, all'[k], headings[k])
      ensures members == Run(r, t)
    {
      var tb, tp, tv;
      tb, tp, tv, members := SpawnType(m, r, t, spawnPositions, headings);
      LaunchedExtend(m, headings, all, vel, tb, tv, Offset(r, t));
      RecordsStep(r, t, spawnPositions, all, pos, tb, tp);
      all', pos', vel' := all + tb, pos + tp, vel + tv;
    }

    /**
     * The agents `members` of type `t` filed in the schooling list and in
     * the next list of `schoolsByType`, or in the solo list.
     */
    static method FileType(r: seq<BoidData>, t: nat, keys: seq<nat>, members: seq<int>,
                           schooling: seq<int>, solo: seq<int>, groups: seq<seq<int>>, g: nat)
      returns (schooling': seq<int>, solo': seq<int>, groups': seq<seq<int>>, g': nat)
      requires t < |r| && members == Run(r, t) && keys == SchoolingTypes(r, |r|)
      requires schooling == Filtered(r, t, true) && solo == Filtered(r, t, false)
      requires g == |SchoolingTypes(r, t)| && |groups| == |keys| && g <= |groups|
      requires groups[..g] == SchoolGroups(r, t) && forall h :: g <= h < |groups| ==> groups[h] == []
      ensures schooling' == Filtered(r, t + 1, true) && solo' == Filtered(r, t + 1, false)
      ensures g' == |SchoolingTypes(r, t + 1)| && |groups'| == |keys| && g' <= |groups'|
      ensures groups'[..g'] == SchoolGroups(r, t + 1) && forall h :: g' <= h < |groups'| ==> groups'[h] == []
    {
      schooling', solo', groups', g' := schooling, solo, groups, g;
      if r[t].isSchooling {
        SchoolingTypesGrow(r, t + 1, |r|);
        GroupsFill(r, t, g, groups, groups[g := members]);
        schooling' := schooling + members;
        groups' := groups[g := members];
        g' := g + 1;
      } else {
        solo' := solo + members;
      }
    }

    /**
     * `Update`: every list of `schoolsByType` in order, then the solo
     * boids, then the movement of every boid.
     */
    method Update(m: Libm, p: Params, circle: nat -> Vec2, dt: real)
      requires Valid() && p.Valid()
      modifies this`positions, this`velocities, this`drawn
      ensures Valid()
      ensures (positions, velocities, drawn)
        == Frame(m, p, hasBoundaries, spriteBounds, circle, dt, old(Snapshot()), old(velocities), old(drawn))
    {
      UpdateSchools(m, p, circle, dt);
      UpdateSoloBoid(m, p, circle, dt);
      ApplyMovement(m, p, circle, dt);
    }

    /** The first loop of `Update`: every list of `schoolsByType`, in the order the lists were added. */
    method UpdateSchools(m: Libm, p: Params, circle: nat -> Vec2, dt: real)
      requires Valid() && p.Valid()
      modifies this`velocities, this`drawn
      ensures Valid()
      ensures (velocities, drawn) == SchoolingPhase(m, p, Snapshot(), circle, dt, old(velocities), old(drawn), |schoolsByType|)
    {
      ghost var w := Snapshot();
      for g := 0 to |schoolsByType|
        invariant Valid() && Snapshot() == w
        invariant (velocities, drawn) == SchoolingPhase(m, p, w, circle, dt, old(velocities), old(drawn), g)
      {
        UpdateSchoolingBoidGroup(m, p, circle, dt, g);
      }
    }

    /** `UpdateSchoolingBoidGroup`: each boid of list `own`, in order, updated in place. */
    method UpdateSchoolingBoidGroup(m: Libm, p: Params, circle: nat -> Vec2, dt: real, own: nat)
      requires Valid() && p.Valid() && own < |schoolsByType|
      modifies this`velocities, this`drawn
      ensures Valid()
      ensures (velocities, drawn) == GroupPass(m, p, Snapshot(), circle, dt, old(velocities), own, old(drawn), |schoolsByType[own]|)
    {
      var w := Snapshot();
      var group := schoolsByType[own];
      for j := 0 to |group|
        invariant Valid() && Snapshot() == w
        invariant (velocities, drawn) == GroupPass(m, p, w, circle, dt, old(velocities), own, old(drawn), j)
      {
        GroupPassNext(m, p, w, circle, dt, old(velocities), own, old(drawn), j);
        UpdateSchoolingBoid(m, p, circle, dt, own, group[j]);
      }
    }

    /**
     * The loop body of `UpdateSchoolingBoidGroup` for boid `b` of list
     * `own`: the neighbour scan over its own list, the flocking force or a
     * wander draw, the push away from solo boids, and the inter-school
     * avoidance.
     */
    method UpdateSchoolingBoid(m: Libm, p: Params, circle: nat -> Vec2, dt: real, own: nat, b: nat)
      requires Valid() && p.Valid() && own < |schoolsByType| && b < |positions|
      modifies this`velocities, this`drawn
      ensures Valid()
      ensures var u := SchoolingUpdate(m, p, Snapshot(), circle, dt, old(velocities), own, b, old(drawn));
        velocities == old(velocities)[b := u.0] && drawn == u.1
    {
      var w := Snapshot();
      var velocity, n := SchoolingVelocity(m, p, w, circle, dt, velocities, own, b, drawn);
      velocities, drawn := velocities[b := velocity], n;
      ApplyInterSchoolAvoidance(m, p, dt, own, b);
    }

    /**
     * The velocity of schooling boid `b` before the inter-school avoidance,
     * and the advanced cursor of the unit-circle stream.
     */
    static method SchoolingVelocity(m: Libm, p: Params, w: World, circle: nat -> Vec2, dt: real,
                                    velocities: seq<Vec2>, own: nat, b: nat, n: nat) returns (velocity: Vec2, n': nat)
      requires p.Valid() && w.Valid() && |velocities| == |w.positions| && own < |w.groups| && b < |w.positions|
      ensures var u := SchoolingUpdate(m, p, w, circle, dt, velocities, own, b, n);
        InterSchool(m, p, w, own, b, velocity, dt) == u.0 && n' == u.1
    {
      var position := w.positions[b];
      var flock := ScanSchool(m, p, w, velocities, w.groups[own], b);
      velocity, n' := velocities[b], n;
      if flock.count > 0 {
        var cohesion := Sub(Div(flock.cohesion, flock.count as real), position);
        var alignment := Div(flock.alignment, flock.count as real);
        var separation := flock.separation;
        if LengthSq(cohesion) > NormalizeThreshold {
          cohesion := Normalized(m, cohesion);
        }
        if LengthSq(alignment) > NormalizeThreshold {
          alignment := Normalized(m, alignment);
        }
        if LengthSq(separation) > NormalizeThreshold {
          separation := Normalized(m, separation);
        }
        var totalForce := Add(Add(Scale(cohesion, p.cohesionFactor), Scale(alignment, p.alignmentFactor)),
                              Scale(separation, p.separationFactor));
        velocity := Add(velocity, Scale(Scale(totalForce, 2.0), dt));
      } else {
        velocity := Add(velocity, Scale(Scale(Scale(circle(n), p.randomMovementFactor), 0.8), dt));
        n' := n + 1;
      }
      velocity := AvoidSoloBoids(m, p, w, b, velocity, dt);
    }

    /** The neighbour scan of boid `b` over the members of its own list. */
    static method ScanSchool(m: Libm, p: Params, w: World, velocities: seq<Vec2>, group: seq<int>, b: nat)
      returns (flock: Flock)
      requires p.Valid() && |w.positions| == |w.boids| && |velocities| == |w.positions|
      requires AgentsIn(group, |w.positions|) && b < |w.positions|
      ensures flock == FlockScan(m, p, w, velocities, group, b, |group|)
    {
      var position := w.positions[b];
      var cohesion, alignment, separation := Zero, Zero, Zero;
      var neighborCount := 0;
      for j := 0 to |group|
        invariant Flock(cohesion, alignment, separation, neighborCount) == FlockScan(m, p, w, velocities, group, b, j)
      {
        var other := group[j];
        if other != b {
          var distance := Distance(m, position, w.positions[other]);
          if distance < p.schoolingRadius {
            var multiplier := if w.boids[other].schoolId == w.boids[b].schoolId then 1.5 else 1.0;
            cohesion := Add(cohesion, Scale(w.positions[other], multiplier));
            alignment := Add(alignment, Scale(velocities[other], multiplier));
            neighborCount := neighborCount + 1;
            if distance < p.separationRadius {
              var moveAway := Sub(position, w.positions[other]);
              var strength := Falloff(distance, p.separationRadius);
              separation := Add(separation, Scale(Normalized(m, moveAway), strength));
            }
          }
        }
      }
      flock := Flock(cohesion, alignment, separation, neighborCount);
    }

    /** The push of every close solo boid on schooling boid `b`, at half the separation factor. */
    static method AvoidSoloBoids(m: Libm, p: Params, w: World, b: nat, v: Vec2, dt: real) returns (velocity: Vec2)
      requires p.Valid() && |w.positions| == |w.boids| && AgentsIn(w.solo, |w.positions|) && b < |w.positions|
      ensures velocity == AvoidSolo(m, p, w, b, v, dt, |w.solo|)
    {
      var position := w.positions[b];
      velocity := v;
      for j := 0 to |w.solo|
        invariant velocity == AvoidSolo(m, p, w, b, v, dt, j)
      {
        var other := w.solo[j];
        var distance := Distance(m, position, w.positions[other]);
        if distance < p.separationRadius * 1.5 {
          var moveAway := Sub(position, w.positions[other]);
          var strength := 1.0 - distance / (p.separationRadius * 1.5);
          velocity := Add(velocity, Scale(Scale(Scale(Scale(Normalized(m, moveAway), strength), p.separationFactor), 0.5), dt));
        }
      }
    }

    /**
     * `ApplyInterSchoolAvoidance`: boid `b` of list `own` is pushed away
     * from the boids of every other list within the inter-school radius.
     */
    method ApplyInterSchoolAvoidance(m: Libm, p: Params, dt: real, own: nat, b: nat)
      requires Valid() && p.Valid() && b < |positions|
      modifies this`velocities
      ensures Valid()
      ensures velocities == old(velocities)[b := InterSchool(m, p, Snapshot(), own, b, old(velocities)[b], dt)]
    {
      assert velocities[b := velocities[b]] == velocities;
      var a := ScanOtherSchools(m, p, Snapshot(), own, b);
      if a.count > 0 {
        var avoidance := Div(a.sum, a.count as real);
        if LengthSq(avoidance) > NormalizeThreshold {
          avoidance := Normalized(m, avoidance);
          velocities := velocities[b := Add(velocities[b], Scale(Scale(avoidance, p.interSchoolAvoidanceFactor), dt))];
        }
      }
    }

    /** The sum and count of the pushes on boid `b` from the members of every list but its own. */
    static method ScanOtherSchools(m: Libm, p: Params, w: World, own: nat, b: nat) returns (a: Avoid)
      requires p.Valid() && w.Valid() && b < |w.positions|
      ensures a == InterScan(m, p, w, own, b, |w.groups|)
    {
      a := Avoid(Zero, 0);
      for h := 0 to |w.groups|
        invariant a == InterScan(m, p, w, own, b, h)
      {
        if h != own {
          a := ScanOtherSchool(m, p, w.positions, w.boids, b, w.groups[h], a);
        }
      }
    }

    /** The pushes on boid `b` from the members of one other list, added to `acc`. */
    static method ScanOtherSchool(m: Libm, p: Params, positions: seq<Vec2>, boids: seq<Boid>, b: nat,
                                  members: seq<int>, acc: Avoid) returns (a: Avoid)
      requires p.Valid() && |boids| == |positions| && AgentsIn(members, |positions|) && b < |positions|
      ensures a == InterScanGroup(m, p, positions, boids, b, members, acc, |members|)
    {
      var position := positions[b];
      var avoidance, avoidanceCount := acc.sum, acc.count;
      for i := 0 to |members|
        invariant Avoid(avoidance, avoidanceCount) == InterScanGroup(m, p, positions, boids, b, members, acc, i)
      {
        var other := members[i];
        var distance := Distance(m, position, positions[other]);
        if distance < p.interSchoolAvoidanceRadius {
          var moveAway := Sub(position, positions[other]);
          var strength := Falloff(distance, p.interSchoolAvoidanceRadius);
          var schoolMultiplier := if boids[other].schoolId == boids[b].schoolId then 0.5 else 1.0;
          avoidance := Add(avoidance, Scale(Scale(Normalized(m, moveAway), strength), schoolMultiplier));
          avoidanceCount := avoidanceCount + 1;
        }
      }
      a := Avoid(avoidance, avoidanceCount);
    }

    /** `UpdateSoloBoid`: each solo boid, in order, avoids every other boid and wanders. */
    method UpdateSoloBoid(m: Libm, p: Params, circle: nat -> Vec2, dt: real)
      requires Valid() && p.Valid()
      modifies this`velocities, this`drawn
      ensures Valid()
      ensures (velocities, drawn) == SoloPhase(m, p, Snapshot(), circle, dt, old(velocities), old(drawn), |soloBoid|)
    {
      var w := Snapshot();
      for j := 0 to |soloBoid|
        invariant |velocities| == |positions|
        invariant (velocities, drawn) == SoloPhase(m, p, w, circle, dt, old(velocities), old(drawn), j)
      {
        var b := soloBoid[j];
        SoloPhaseNext(m, p, w, circle, dt, old(velocities), old(drawn), j);
        var velocity, n := SoloVelocity(m, p, w, circle, dt, b, velocities[b], drawn);
        velocities, drawn := velocities[b := velocity], n;
      }
    }

    /** The loop body of `UpdateSoloBoid` for solo boid `b` with velocity `v`. */
    static method SoloVelocity(m: Libm, p: Params, w: World, circle: nat -> Vec2, dt: real, b: nat, v: Vec2, n: nat)
      returns (velocity: Vec2, n': nat)
      requires p.Valid() && |w.boids| == |w.positions| && b < |w.positions|
      ensures (velocity, n') == SoloUpdate(m, p, w, circle, dt, b, v, n)
    {
      var avoidance := ScanAll(m, p, w.positions, w.boids, b);
      velocity := v;
      if LengthSq(avoidance) > NormalizeThreshold {
        avoidance := Normalized(m, avoidance);
        velocity := Add(velocity, Scale(Scale(avoidance, p.avoidanceFactor), dt));
      }
      velocity := Add(velocity, Scale(Scale(circle(n), p.randomMovementFactor), dt));
      n' := n + 1;
    }

    /** The avoidance of solo boid `b`: the pushes of every other boid within `avoidanceRadius`. */
    static method ScanAll(m: Libm, p: Params, positions: seq<Vec2>, boids: seq<Boid>, b: nat) returns (avoidance: Vec2)
      requires p.Valid() && |boids| == |positions| && b < |positions|
      ensures avoidance == SoloScan(m, p, positions, boids, b, |positions|)
    {
      var position := positions[b];
      avoidance := Zero;
      for other := 0 to |positions|
        invariant avoidance == SoloScan(m, p, positions, boids, b, other)
      {
        if other != b {
          var distance := Distance(m, position, positions[other]);
          if distance < p.avoidanceRadius {
            var moveAway := Sub(position, positions[other]);
            var strength := Falloff(distance, p.avoidanceRadius);
            var multiplier := if boids[other].isSchooling then 1.5 else 1.0;
            avoidance := Add(avoidance, Scale(Scale(Normalized(m, moveAway), strength), multiplier));
          }
        }
      }
    }

    /**
     * `ApplyMovement`: every boid in `allBoid` order gets the boundary
     * force, the speed cap and floor, moves, and with boundaries is clamped
     * into the sprite bounds and bounced off the wall it sits on.  The
     * rotation of the sprite is not modelled.
     */
    method ApplyMovement(m: Libm, p: Params, circle: nat -> Vec2, dt: real)
      requires Valid() && p.Valid()
      modifies this`positions, this`velocities, this`drawn
      ensures Valid()
      ensures (positions, velocities, drawn)
        == MovementPhase(m, p, hasBoundaries, spriteBounds, circle, dt, boids, old(positions), old(velocities), old(drawn), |boids|)
    {
      for k := 0 to |boids|
        invariant (positions, velocities, drawn)
          == MovementPhase(m, p, hasBoundaries, spriteBounds, circle, dt, boids, old(positions), old(velocities), old(drawn), k)
      {
        var v, n := ApplyBoundaryForce(p, hasBoundaries, spriteBounds, circle, dt, positions[k], velocities[k], drawn);
        var q;
        q, v, n := Move(m, hasBoundaries, spriteBounds, circle, dt, boids[k].data.moveSpeed, positions[k], v, n);
        positions, velocities, drawn := positions[k := q], velocities[k := v], n;
      }
    }

    /**
     * The rest of the `ApplyMovement` loop body for one boid with velocity
     * `v` at `q`: the speed cap and floor, the step, and with boundaries the
     * clamp and the bounces.
     */
    static method Move(m: Libm, hasBoundaries: bool, bounds: Bounds, circle: nat -> Vec2, dt: real,
                       moveSpeed: real, q: Vec2, v: Vec2, n: nat) returns (position: Vec2, velocity: Vec2, n': nat)
      requires bounds.Valid()
      ensures (position, velocity, n') == Glide(m, hasBoundaries, bounds, circle, dt, moveSpeed, q, v, n)
    {
      velocity, n' := v, n;
      if LengthSq(velocity) > moveSpeed * moveSpeed {
        velocity := Scale(Normalized(m, velocity), moveSpeed);
      }
      if LengthSq(velocity) < 0.01 {
        velocity := Scale(Normalized(m, circle(n')), 0.1);
        n' := n' + 1;
      }
      position := Add(q, Scale(velocity, dt));
      if hasBoundaries {
        position := Vec2(Clamp(position.x, bounds.min.x, bounds.max.x), Clamp(position.y, bounds.min.y, bounds.max.y));
        if Bounces(position.x, bounds.min.x, bounds.max.x, velocity.x) {
          velocity := Vec2(-velocity.x * 0.8, velocity.y);
          velocity := Add(velocity, Scale(circle(n'), 0.5));
          n' := n' + 1;
        }
        if Bounces(position.y, bounds.min.y, bounds.max.y, velocity.y) {
          velocity := Vec2(velocity.x, -velocity.y * 0.8);
          velocity := Add(velocity, Scale(circle(n'), 0.5));
          n' := n' + 1;
        }
      }
    }

    /**
     * `ApplyBoundaryForce` for a boid at `q` with velocity `v`: nothing
     * without boundaries; otherwise the wall pushes, added with a draw only
     * when strong enough.
     */
    static method ApplyBoundaryForce(p: Params, hasBoundaries: bool, bounds: Bounds, circle: nat -> Vec2, dt: real,
                                     q: Vec2, v: Vec2, n: nat) returns (velocity: Vec2, n': nat)
      requires p.Valid()
      ensures (velocity, n') == BoundaryStage(p, hasBoundaries, bounds, circle, dt, q, v, n)
    {
      velocity, n' := v, n;
      if !hasBoundaries {
        return;
      }
      var fx := WallForce(q.x, bounds.min.x, bounds.max.x, p.boundaryBuffer, p.boundaryForce);
      var fy := WallForce(q.y, bounds.min.y, bounds.max.y, p.boundaryBuffer, p.boundaryForce);
      var force := Vec2(fx, fy);
      if LengthSq(force) > 0.01 {
        velocity := Add(velocity, Scale(force, dt));
        velocity := Add(velocity, Scale(Scale(circle(n'), 0.3), dt));
        n' := n' + 1;
      }
    }

    /** The push of the walls at `lo` and `hi` along one axis on a boid at coordinate `q`. */
    static method WallForce(q: real, lo: real, hi: real, buffer: real, boundaryForce: real) returns (force: real)
      requires buffer > 0.0
      ensures force == WallPush(q, lo, hi, buffer, boundaryForce)
    {
      force := 0.0;
      if q > hi - buffer {
        var strength := Falloff(hi - q, buffer);
        force := force - boundaryForce * strength;
      } else if q < lo + buffer {
        var strength := Falloff(q - lo, buffer);
        force := force + boundaryForce * strength;
      }
    }
  }
}
