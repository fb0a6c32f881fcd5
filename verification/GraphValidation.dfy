/** validateGraph as the operator runs it: one queue whose front part is the list of visited
    names and whose already-seen entries are deleted in place. */
module GraphValidation {
  import opened Options
  import opened ParentGraph

  const NoResource := Resource("", false, "", [], "", map[])

  /** The resource a Go map lookup yields: the zero value for a missing name. */
  function Lookup(live: Graph, n: Name): Resource {
    if n in live then live[n] else NoResource
  }

  method GetFromMap(resourcesMap: Graph, nodes: seq<Name>) returns (result: seq<Resource>)
    ensures |result| == |nodes|
    ensures forall i :: 0 <= i < |nodes| ==> result[i] == Lookup(resourcesMap, nodes[i])
  {
    result := [];
    for index := 0 to |nodes|
      invariant |result| == index
      invariant forall i :: 0 <= i < index ==> result[i] == Lookup(resourcesMap, nodes[i])
    {
      result := result + [Lookup(resourcesMap, nodes[index])];
    }
  }

  method CollectLive(resources: seq<Resource>) returns (resourcesMap: Graph)
    ensures resourcesMap == LiveMap(resources)
  {
    resourcesMap := map[];
    for index := 0 to |resources|
      invariant resourcesMap == LiveMap(resources[..index])
    {
      assert resources[..index + 1][..index] == resources[..index];
      if !resources[index].deleting {
        resourcesMap := resourcesMap[resources[index].name := resources[index]];
      }
    }
    assert resources[..|resources|] == resources;
  }

  /** resources are the live resources called names, in that order. */
  ghost predicate AreResources(live: Graph, names: seq<Name>, resources: seq<Resource>) {
    && |resources| == |names|
    && forall i :: 0 <= i < |names| ==> names[i] in live && resources[i] == live[names[i]]
  }

  lemma SearchSkips(live: Graph, self: Name, seen: seq<Name>, pending: seq<Name>)
    requires pending != [] && pending[0] in seen
    ensures Search(live, self, seen, pending) == Search(live, self, seen, pending[1..])
  {
  }

  lemma SearchVisits(live: Graph, self: Name, seen: seq<Name>, pending: seq<Name>)
    requires pending != [] && pending[0] !in seen && !Blocks(live, self, pending[0])
    ensures Search(live, self, seen, pending)
         == Search(live, self, seen + [pending[0]], pending[1..] + live[pending[0]].ParentNames())
  {
  }

  lemma SearchStops(live: Graph, self: Name, seen: seq<Name>, pending: seq<Name>)
    requires pending == [] || (pending[0] !in seen && Blocks(live, self, pending[0]))
    ensures Search(live, self, seen, pending)
         == SearchResult(seen, if pending == [] then None
                               else if pending[0] !in live then Some(ResourceNotFound(pending[0]))
                               else Some(CycleDetected(pending[0])))
  {
  }

  /** The in-place queue computes what the textbook search computes; ParentGraph.ValidationExact
      says what that is. */
  method ValidateGraph(resource: Resource, resources: seq<Resource>)
      returns (involvedResources: seq<Resource>, involvedResource: Name, error: Option<GraphError>)
    ensures error == Validated(LiveMap(resources), resource).error
    ensures involvedResource == if error.Some? then error.value.involved else ""
    ensures AreResources(LiveMap(resources), Validated(LiveMap(resources), resource).visited, involvedResources)
  {
    var resourcesMap := CollectLive(resources);
    var visitedSet: set<Name> := {};
    var queue := resource.ParentNames();
    var visited := 0;
    hide Search, LiveMap;
    ghost var result := Validated(resourcesMap, resource);
    assert queue[..0] == [] && queue[0..] == queue;
    while |queue| > visited
      invariant 0 <= visited <= |queue|
      invariant visitedSet == Elements(queue[..visited])
      invariant forall i :: 0 <= i < visited ==> queue[i] in resourcesMap
      invariant result == Search(resourcesMap, resource.name, queue[..visited], queue[visited..])
      decreases resourcesMap.Keys - visitedSet, |queue| - visited
    {
      ghost var seen, pending := queue[..visited], queue[visited..];
      var current := queue[visited];
      assert pending[0] == current;
      if current in visitedSet {
        SearchSkips(resourcesMap, resource.name, seen, pending);
        queue := queue[..visited] + queue[visited + 1..];
        assert queue[..visited] == seen && queue[visited..] == pending[1..];
        continue;
      }
      if current !in resourcesMap {
        SearchStops(resourcesMap, resource.name, seen, pending);
        involvedResources := GetFromMap(resourcesMap, queue[..visited]);
        return involvedResources, current, Some(ResourceNotFound(current));
      }
      var parents := resourcesMap[current].ParentNames();
      if resource.name in parents {
        SearchStops(resourcesMap, resource.name, seen, pending);
        involvedResources := GetFromMap(resourcesMap, queue[..visited]);
        return involvedResources, current, Some(CycleDetected(current));
      }
      assert current in resourcesMap.Keys - visitedSet;
      SearchVisits(resourcesMap, resource.name, seen, pending);
      visitedSet := visitedSet + {current};
      visited := visited + 1;
      queue := queue + parents;
      assert queue[..visited] == seen + [current];
      assert queue[visited..] == pending[1..] + parents;
    }
    assert queue[visited..] == [];
    SearchStops(resourcesMap, resource.name, queue[..visited], []);
    involvedResources := GetFromMap(resourcesMap, queue[..visited]);
    return involvedResources, "", None;
  }

  /* ---- Whole-graph consequences ---- */

  ghost predicate WellNamed(live: Graph) {
    forall n :: n in live ==> live[n].name == n
  }

  /** No resource is its own proper ancestor. */
  ghost predicate Acyclic(live: Graph) {
    forall n, k: nat :: n in live ==> !ReachedIn(live, Parents(live, n), n, k)
  }

  ghost predicate AcceptsAll(live: Graph) {
    forall n :: n in live ==> Accepts(live, live[n])
  }

  /** Every parent is live and ranks strictly below its child. */
  ghost predicate RankedBy(live: Graph, rank: map<Name, nat>) {
    && live.Keys <= rank.Keys
    && forall n, p :: n in live && p in Parents(live, n) ==> p in live && rank[p] < rank[n]
  }

  /** Validating every resource against one snapshot is a complete test: it succeeds
      if and only if no parent is missing and the whole graph is acyclic. */
  lemma AcceptsAllExact(live: Graph)
    requires WellNamed(live)
    ensures AcceptsAll(live) <==> Closed(live) && Acyclic(live)
  {
    forall n | n in live {
      ValidationExact(live, live[n]);
    }
    if AcceptsAll(live) {
      forall n, p | n in live && p in Parents(live, n)
        ensures p in live
      {
        assert ReachedIn(live, Parents(live, n), p, 0);
        assert Reachable(live, Parents(live, n), p);
      }
      forall n, k: nat | n in live
        ensures !ReachedIn(live, Parents(live, n), n, k)
      {
        if ReachedIn(live, Parents(live, n), n, k) {
          ReachEndsInBlocker(live, Parents(live, n), n, k);
        }
      }
    }
    if Closed(live) && Acyclic(live) {
      forall n, m | n in live && Reachable(live, Parents(live, n), m)
        ensures !Blocks(live, n, m)
      {
        var k: nat :| ReachedIn(live, Parents(live, n), m, k);
        ReachStaysLive(live, Parents(live, n), m, k);
        if Blocks(live, n, m) {
          assert n in Parents(live, m) && ReachedIn(live, Parents(live, n), n, k + 1);
        }
      }
    }
  }

  /** A walk that returns to n passes a name that blocks n. */
  lemma ReachEndsInBlocker(live: Graph, starts: seq<Name>, n: Name, k: nat)
    requires n in live && starts == Parents(live, n)
    requires ReachedIn(live, starts, n, k)
    ensures exists m :: Reachable(live, starts, m) && Blocks(live, n, m)
  {
    if k == 0 {
      assert Reachable(live, starts, n) && Blocks(live, n, n);
    } else {
      var m :| ReachedIn(live, starts, m, k - 1) && n in Parents(live, m);
      assert Reachable(live, starts, m) && Blocks(live, n, m);
    }
  }

  lemma {:induction false} ReachStaysLive(live: Graph, starts: seq<Name>, n: Name, k: nat)
    requires Closed(live) && (forall s :: s in starts ==> s in live)
    requires ReachedIn(live, starts, n, k)
    ensures n in live
    decreases k
  {
    if k > 0 {
      var m :| ReachedIn(live, starts, m, k - 1) && n in Parents(live, m);
      ReachStaysLive(live, starts, m, k - 1);
    }
  }

  lemma {:induction false} RankFallsAlongReach(live: Graph, rank: map<Name, nat>, n: Name, m: Name, k: nat)
    requires RankedBy(live, rank) && n in live
    requires ReachedIn(live, Parents(live, n), m, k)
    ensures m in live && rank[m] + k < rank[n]
    decreases k
  {
    hide Parents;
    if k > 0 {
      var p :| ReachedIn(live, Parents(live, n), p, k - 1) && m in Parents(live, p);
      RankFallsAlongReach(live, rank, n, p, k - 1);
    }
  }

  lemma RankedIsAcyclic(live: Graph, rank: map<Name, nat>)
    requires RankedBy(live, rank)
    ensures Closed(live) && Acyclic(live)
  {
    forall n, k: nat | n in live
      ensures !ReachedIn(live, Parents(live, n), n, k)
    {
      if ReachedIn(live, Parents(live, n), n, k) {
        RankFallsAlongReach(live, rank, n, n, k);
      }
    }
  }

  lemma {:induction false} DistinctSize(s: seq<Name>)
    requires Distinct(s)
    ensures |Elements(s)| == |s|
  {
    if s == [] {
      assert Elements(s) == {};
    } else {
      var rest := s[1..];
      DistinctSize(rest);
      assert s[0] !in rest;
      assert Elements(s) == Elements(rest) + {s[0]};
    }
  }

  lemma SubsetSize<T>(a: set<T>, b: set<T>)
    requires a < b
    ensures |a| < |b|
  {
    var x :| x in b && x !in a;
    assert b == a + (b - a) && x in b - a;
  }

  lemma SubsetAtMost<T>(a: set<T>, b: set<T>)
    requires a <= b
    ensures |a| <= |b|
  {
    assert b == a + (b - a);
  }

  /** The number of resources validateGraph returns for each name. */
  function AncestorCounts(live: Graph): map<Name, nat> {
    map n | n in live :: |Validated(live, live[n]).visited|
  }

  lemma AncestorsGrow(live: Graph, n: Name, p: Name)
    requires WellNamed(live) && n in live && p in live && p in Parents(live, n)
    requires Accepts(live, live[n]) && Accepts(live, live[p]) && Acyclic(live)
    ensures Elements(Validated(live, live[p]).visited) < Elements(Validated(live, live[n]).visited)
  {
    ValidationExact(live, live[n]);
    ValidationExact(live, live[p]);
    var above, below := Validated(live, live[p]).visited, Validated(live, live[n]).visited;
    forall m | m in above
      ensures m in below
    {
      var k: nat :| ReachedIn(live, Parents(live, p), m, k);
      ReachThrough(live, Parents(live, n), p, m, k);
      assert Reachable(live, Parents(live, n), m);
    }
    assert ReachedIn(live, Parents(live, n), p, 0) && Reachable(live, Parents(live, n), p);
    assert p in below;
    assert !Reachable(live, Parents(live, p), p);
  }

  /** If every resource is accepted, the length of the returned ancestor list is a rank:
      it falls strictly from every resource to each of its parents. */
  lemma AcceptedGraphIsRanked(live: Graph)
    requires WellNamed(live) && AcceptsAll(live)
    ensures RankedBy(live, AncestorCounts(live))
  {
    AcceptsAllExact(live);
    forall n, p | n in live && p in Parents(live, n)
      ensures p in live && AncestorCounts(live)[p] < AncestorCounts(live)[n]
    {
      AncestorsGrow(live, n, p);
      ValidationExact(live, live[n]);
      ValidationExact(live, live[p]);
      DistinctSize(Validated(live, live[p]).visited);
      DistinctSize(Validated(live, live[n]).visited);
      SubsetSize(Elements(Validated(live, live[p]).visited), Elements(Validated(live, live[n]).visited));
    }
  }

  lemma {:induction false} RankBound(rank: map<Name, nat>) returns (bound: nat)
    ensures forall n :: n in rank ==> rank[n] < bound
    decreases |rank|
  {
    if rank == map[] {
      bound := 0;
    } else {
      var n :| n in rank;
      var rest := rank - {n};
      assert n !in rest && rest.Keys < rank.Keys;
      SubsetSize(rest.Keys, rank.Keys);
      bound := RankBound(rest);
      assert forall m :: m in rank ==> m == n || m in rest;
      bound := if rank[n] < bound then bound else rank[n] + 1;
    }
  }

  ghost predicate Descends(live: Graph, from: Name, n: Name) {
    Reachable(live, Parents(live, n), from)
  }

  /** The rank after r was put in: r goes above all old ranks, its descendants above r. */
  ghost function LiftedRank(live: Graph, r: Resource, rank: map<Name, nat>, bound: nat): map<Name, nat>
    requires forall n :: n in live ==> n == r.name || n in rank
  {
    map n | n in live ::
      if n == r.name then bound
      else if Descends(live, r.name, n) then rank[n] + bound + 1
      else rank[n]
  }

  lemma DescentPassesDown(live: Graph, from: Name, p: Name, n: Name)
    requires p in Parents(live, n) && (p == from || Descends(live, from, p))
    ensures Descends(live, from, n)
  {
    if p == from {
      assert ReachedIn(live, Parents(live, n), from, 0);
    } else {
      var k: nat :| ReachedIn(live, Parents(live, p), from, k);
      ReachThrough(live, Parents(live, n), p, from, k);
    }
  }

  lemma AcceptedParentIsOld(live: Graph, r: Resource, p: Name)
    requires r.name in live && live[r.name] == r && Accepts(live, r) && p in r.ParentNames()
    ensures p in live && p != r.name && !Descends(live, r.name, p)
  {
    ValidationExact(live, r);
    var starts := r.ParentNames();
    assert ReachedIn(live, starts, p, 0) && Reachable(live, starts, p);
    if Descends(live, r.name, p) {
      var k: nat :| ReachedIn(live, Parents(live, p), r.name, k);
      ReachThrough(live, starts, p, r.name, k);
      ReachEndsInBlocker(live, starts, r.name, k + 1);
    }
  }

  lemma LiftedRankFalls(live: Graph, rank: map<Name, nat>, bound: nat, r: Resource, n: Name, p: Name)
    requires WellNamed(live) && RankedBy(live, rank) && (forall m :: m in rank ==> rank[m] < bound)
    requires Accepts(live[r.name := r], r)
    requires n in live[r.name := r] && p in Parents(live[r.name := r], n)
    ensures var next := live[r.name := r];
            p in next && LiftedRank(next, r, rank, bound)[p] < LiftedRank(next, r, rank, bound)[n]
  {
    hide Descends, Accepts;
    var next := live[r.name := r];
    if n == r.name {
      AcceptedParentIsOld(next, r, p);
    } else {
      assert p in Parents(live, n) && p in live && rank[p] < rank[n];
      if p == r.name || Descends(next, r.name, p) {
        DescentPassesDown(next, r.name, p, n);
      }
    }
  }

  /** In a closed acyclic snapshot, validating one new or replaced resource is enough:
      it is accepted if and only if the snapshot with it is again closed and acyclic. */
  lemma ReplacementExact(live: Graph, rank: map<Name, nat>, r: Resource)
    requires WellNamed(live) && RankedBy(live, rank)
    ensures var next := live[r.name := r];
            Accepts(next, r) <==> Closed(next) && Acyclic(next)
  {
    var next := live[r.name := r];
    if Accepts(next, r) {
      var bound := RankBound(rank);
      forall n, p | n in next && p in Parents(next, n) {
        LiftedRankFalls(live, rank, bound, r, n, p);
      }
      RankedIsAcyclic(next, LiftedRank(next, r, rank, bound));
    }
    if Closed(next) && Acyclic(next) {
      AcceptsAllExact(next);
      assert Accepts(next, next[r.name]);
    }
  }
}
