/**
 * The boid roster (`BoidCollection.boids`, a list of `BoidData`) and the
 * integer bookkeeping both controllers derive from it: how many clusters a
 * schooling type spawns in, which school id an agent gets, and where each
 * type's agents land in the flat agent numbering (type after type, in
 * roster order).
 */
module Roster {
  import opened Vectors

  /** One roster entry; the prefab is scene glue and is not modelled. */
  datatype BoidData = BoidData(
    boidCount: nat,
    isSchooling: bool,
    moveSpeed: real,
    isRandomSpawn: bool,
    spawnPoint: Vec2)

  /**
   * `Mathf.Min(3, Mathf.Max(1, boidCount / 15))`: one cluster per fifteen
   * agents, at least one and at most three.
   */
  function ClusterCount(boidCount: nat): (c: nat)
    ensures 1 <= c <= 3
    ensures boidCount < 30 ==> c == 1
    ensures 30 <= boidCount < 45 ==> c == 2
    ensures 45 <= boidCount ==> c == 3
  {
    var q := boidCount / 15;
    if q < 1 then 1 else if q > 3 then 3 else q
  }

  /** Agent `i` of a type spread over `clusters` spawn points joins school `i % clusters`. */
  function SchoolIdOf(i: nat, clusters: nat): (id: nat)
    requires clusters >= 1
    ensures id < clusters
    ensures i < clusters ==> id == i
    ensures clusters == 1 ==> id == 0
  {
    i % clusters
  }

  /** Number of agents of the types before `t`: where type `t` starts in the flat numbering. */
  function Offset(r: seq<BoidData>, t: nat): nat
    requires t <= |r|
  {
    if t == 0 then 0 else Offset(r, t - 1) + r[t - 1].boidCount
  }

  /** Total number of agents, the length of every per-agent buffer. */
  function Total(r: seq<BoidData>): nat
  {
    Offset(r, |r|)
  }

  /** `0, 1, ..., n-1`. */
  function Range(n: nat): (s: seq<int>)
    ensures |s| == n && forall k :: 0 <= k < n ==> s[k] == k
  {
    seq(n, k => k)
  }

  /** The slots of type `t`: a run of `boidCount` consecutive indices starting at its offset. */
  function Run(r: seq<BoidData>, t: nat): (s: seq<int>)
    requires t < |r|
    ensures |s| == r[t].boidCount
    ensures forall i :: 0 <= i < |s| ==> s[i] == Offset(r, t) + i
    ensures forall i :: 0 <= i < |s| ==> Offset(r, t) <= s[i] < Offset(r, t + 1)
  {
    seq(r[t].boidCount, i => Offset(r, t) + i)
  }

  /** The per-type index lists of the first `t` types, in roster order. */
  function Runs(r: seq<BoidData>, t: nat): (rs: seq<seq<int>>)
    requires t <= |r|
    ensures |rs| == t
    ensures forall u :: 0 <= u < t ==> rs[u] == Run(r, u)
  {
    if t == 0 then [] else Runs(r, t - 1) + [Run(r, t - 1)]
  }

  /** The runs of the first `t` types whose schooling flag is `schooling`, concatenated. */
  function Filtered(r: seq<BoidData>, t: nat, schooling: bool): seq<int>
    requires t <= |r|
  {
    if t == 0 then []
    else if r[t - 1].isSchooling == schooling then Filtered(r, t - 1, schooling) + Run(r, t - 1)
    else Filtered(r, t - 1, schooling)
  }

  /** Concatenation of a list of lists. */
  function Concat(rs: seq<seq<int>>): seq<int>
  {
    if |rs| == 0 then [] else Concat(rs[..|rs| - 1]) + rs[|rs| - 1]
  }

  /** Offsets never decrease along the roster. */
  lemma {:induction false} OffsetMonotone(r: seq<BoidData>, t1: nat, t2: nat)
    requires t1 <= t2 <= |r|
    ensures Offset(r, t1) <= Offset(r, t2)
    decreases t2
  {
    if t1 < t2 {
      OffsetMonotone(r, t1, t2 - 1);
    }
  }

  /**
   * The type owning slot `k`: the unique `t` whose run contains `k`.
   */
  function TypeOf(r: seq<BoidData>, k: nat): (t: nat)
    requires k < Total(r)
    ensures t < |r| && Offset(r, t) <= k < Offset(r, t + 1)
  {
    TypeOfFrom(r, k, |r|)
  }

  function TypeOfFrom(r: seq<BoidData>, k: nat, n: nat): (t: nat)
    requires n <= |r| && k < Offset(r, n)
    ensures t < n && Offset(r, t) <= k < Offset(r, t + 1)
  {
    if Offset(r, n - 1) <= k then n - 1 else TypeOfFrom(r, k, n - 1)
  }

  /** Runs are disjoint: a slot belongs to exactly one type. */
  lemma TypeOfUnique(r: seq<BoidData>, k: nat, t: nat)
    requires t < |r| && Offset(r, t) <= k < Offset(r, t + 1)
    ensures k < Total(r) && TypeOf(r, k) == t
  {
    OffsetMonotone(r, t + 1, |r|);
    var u := TypeOf(r, k);
    if u < t {
      OffsetMonotone(r, u + 1, t);
    } else if u > t {
      OffsetMonotone(r, t + 1, u);
    }
  }

  /**
   * The per-type runs, concatenated in roster order, are exactly
   * `0, 1, ..., Total-1`: consecutive, ascending, and together they cover
   * every slot once.
   */
  lemma {:induction false} RunsPartition(r: seq<BoidData>, t: nat)
    requires t <= |r|
    ensures Concat(Runs(r, t)) == Range(Offset(r, t))
  {
    if t > 0 {
      var rs := Runs(r, t);
      assert rs[..t - 1] == Runs(r, t - 1);
      RunsPartition(r, t - 1);
      assert Concat(rs) == Range(Offset(r, t - 1)) + Run(r, t - 1);
      RangeExtend(Offset(r, t - 1), Run(r, t - 1));
    }
  }

  /** `0..n-1` followed by `n, n+1, ...` is again a range. */
  lemma RangeExtend(n: nat, b: seq<int>)
    requires forall i :: 0 <= i < |b| ==> b[i] == n + i
    ensures Range(n) + b == Range(n + |b|)
  {
    var a := Range(n);
    forall k | 0 <= k < n + |b|
      ensures (a + b)[k] == k
    {
      if k >= n {
        assert (a + b)[k] == b[k - n];
      }
    }
  }

  /**
   * A slot is in the schooling (or solo) list exactly when the type owning
   * it has that flag.
   */
  lemma {:induction false} FilteredMembers(r: seq<BoidData>, t: nat, schooling: bool, k: int)
    requires t <= |r|
    ensures Offset(r, t) <= Total(r)
    ensures k in Filtered(r, t, schooling) <==>
      0 <= k < Offset(r, t) && r[TypeOf(r, k)].isSchooling == schooling
  {
    OffsetMonotone(r, t, |r|);
    if t > 0 {
      FilteredMembers(r, t - 1, schooling, k);
      if Offset(r, t - 1) <= k < Offset(r, t) {
        TypeOfUnique(r, k, t - 1);
        assert k == Run(r, t - 1)[k - Offset(r, t - 1)];
      }
    }
  }

  /** The schooling and solo lists together are as long as the list of all agents. */
  lemma {:induction false} FilteredSizes(r: seq<BoidData>, t: nat)
    requires t <= |r|
    ensures |Filtered(r, t, true)| + |Filtered(r, t, false)| == Offset(r, t)
  {
    if t > 0 {
      FilteredSizes(r, t - 1);
    }
  }

  /** Every filtered list is strictly ascending, so no slot appears twice. */
  lemma {:induction false} FilteredAscending(r: seq<BoidData>, t: nat, schooling: bool)
    requires t <= |r|
    ensures forall i, j :: 0 <= i < j < |Filtered(r, t, schooling)| ==>
      Filtered(r, t, schooling)[i] < Filtered(r, t, schooling)[j]
    ensures forall i :: 0 <= i < |Filtered(r, t, schooling)| ==>
      0 <= Filtered(r, t, schooling)[i] < Offset(r, t)
  {
    if t > 0 {
      FilteredAscending(r, t - 1, schooling);
    }
  }
}
