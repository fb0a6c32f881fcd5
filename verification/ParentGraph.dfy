/** Data center resources, the parent relation between them, and the breadth-first
    search that validates one resource against a snapshot of the others. */
module ParentGraph {
  import opened Options

  type Name = string

  /** An edge to a parent, carrying the rendered coefficient expression. */
  datatype ParentRef = ParentRef(name: Name, coefficient: string)

  /** A resource as one reconcile pass sees it: its template expressions are already rendered. */
  datatype Resource = Resource(
    name: Name,
    deleting: bool,
    kind: string,
    parents: seq<ParentRef>,
    energyMetric: string,
    additionalLabels: map<string, string>)
  {
    function ParentNames(): (names: seq<Name>)
      ensures |names| == |parents|
      ensures forall i :: 0 <= i < |names| ==> names[i] == parents[i].name
    {
      seq(|parents|, i requires 0 <= i < |parents| => parents[i].name)
    }
  }

  type Graph = map<Name, Resource>

  /** The live resources by name; of two entries with one name the later one wins. */
  function LiveMap(resources: seq<Resource>): (live: Graph)
    ensures forall n :: n in live ==> live[n].name == n && live[n] in resources && !live[n].deleting
  {
    if resources == [] then map[]
    else
      var last := |resources| - 1;
      var live := LiveMap(resources[..last]);
      if resources[last].deleting then live else live[resources[last].name := resources[last]]
  }

  /** The i-th entry is the last live one called n. */
  ghost predicate LastLive(resources: seq<Resource>, n: Name, i: nat) {
    && i < |resources| && resources[i].name == n && !resources[i].deleting
    && forall j :: i < j < |resources| && resources[j].name == n ==> resources[j].deleting
  }

  lemma LastLiveStep(resources: seq<Resource>, n: Name, i: nat)
    requires resources != []
    ensures var last := |resources| - 1;
            LastLive(resources, n, i) <==>
              if resources[last].name == n && !resources[last].deleting then i == last
              else LastLive(resources[..last], n, i)
  {
    var last := |resources| - 1;
    if i < last {
      assert resources[..last][i] == resources[i];
      assert forall j :: i < j < last ==> resources[..last][j] == resources[j];
    }
  }

  /** The map holds exactly the names of live entries, each with its last live entry. */
  lemma {:induction false} LaterWins(resources: seq<Resource>, n: Name)
    ensures n in LiveMap(resources) <==> exists i: nat :: LastLive(resources, n, i)
    ensures forall i: nat :: LastLive(resources, n, i) ==> LiveMap(resources)[n] == resources[i]
  {
    if resources != [] {
      var last := |resources| - 1;
      forall i: nat {
        LastLiveStep(resources, n, i);
      }
      LiveMapStep(resources);
      hide LiveMap, LastLive;
      LaterWins(resources[..last], n);
      if resources[last].name == n && !resources[last].deleting {
        assert LastLive(resources, n, last);
      } else if i: nat :| LastLive(resources[..last], n, i) {
        assert LastLive(resources, n, i);
      }
    }
  }

  lemma LiveMapStep(resources: seq<Resource>)
    requires resources != []
    ensures var last := |resources| - 1;
            LiveMap(resources) == if resources[last].deleting then LiveMap(resources[..last])
                                  else LiveMap(resources[..last])[resources[last].name := resources[last]]
  {
  }

  /** The listed resources are live and no two share a name. */
  ghost predicate NamedOnce(resources: seq<Resource>) {
    && (forall i, j :: 0 <= i < j < |resources| ==> resources[i].name != resources[j].name)
    && (forall r :: r in resources ==> !r.deleting)
  }

  lemma {:induction false} LookupByName(resources: seq<Resource>)
    requires NamedOnce(resources)
    ensures forall r :: r in resources ==> r.name in LiveMap(resources) && LiveMap(resources)[r.name] == r
    ensures forall n :: n in LiveMap(resources) ==> LiveMap(resources)[n] in resources
  {
    if resources != [] {
      var k := |resources| - 1;
      LookupByName(resources[..k]);
      forall r | r in resources
        ensures r.name in LiveMap(resources) && LiveMap(resources)[r.name] == r
      {
        var i :| 0 <= i < |resources| && resources[i] == r;
        assert i < k ==> resources[i] in resources[..k] && resources[i].name != resources[k].name;
      }
    }
  }

  /* ---- Reachability ---- */

  function Parents(live: Graph, n: Name): seq<Name> {
    if n in live then live[n].ParentNames() else []
  }

  /** No parent is missing. */
  ghost predicate Closed(live: Graph) {
    forall n, p :: n in live && p in Parents(live, n) ==> p in live
  }

  /** n is reached from one of starts by following exactly k parent edges. */
  ghost predicate ReachedIn(live: Graph, starts: seq<Name>, n: Name, k: nat)
    decreases k
  {
    if k == 0 then n in starts
    else exists m :: ReachedIn(live, starts, m, k - 1) && n in Parents(live, m)
  }

  ghost predicate Reachable(live: Graph, starts: seq<Name>, n: Name) {
    exists k: nat :: ReachedIn(live, starts, n, k)
  }

  /** Some walk from starts has exactly k edges. */
  ghost predicate WalkOf(live: Graph, starts: seq<Name>, k: nat) {
    exists n :: ReachedIn(live, starts, n, k)
  }

  /** path starts in starts, follows parent edges and ends in n. */
  ghost predicate IsParentPath(live: Graph, starts: seq<Name>, path: seq<Name>, n: Name) {
    && path != [] && path[0] in starts && path[|path| - 1] == n
    && forall i :: 0 <= i < |path| - 1 ==> path[i + 1] in Parents(live, path[i])
  }

  /** n stops the validation of self: it is missing, or it lists self as its parent. */
  predicate Blocks(live: Graph, self: Name, n: Name) {
    n !in live || self in live[n].ParentNames()
  }

  lemma PathExtends(live: Graph, starts: seq<Name>, path: seq<Name>, m: Name, n: Name)
    requires IsParentPath(live, starts, path, m) && n in Parents(live, m)
    ensures IsParentPath(live, starts, path + [n], n)
  {
    hide Parents;
    var longer := path + [n];
    forall i | 0 <= i < |longer| - 1
      ensures longer[i + 1] in Parents(live, longer[i])
    {
      assert i < |path| - 1 ==> longer[i + 1] == path[i + 1];
    }
  }

  lemma {:induction false} PathOfReach(live: Graph, starts: seq<Name>, n: Name, k: nat) returns (path: seq<Name>)
    requires ReachedIn(live, starts, n, k)
    decreases k
    ensures |path| == k + 1 && IsParentPath(live, starts, path, n)
  {
    hide Parents;
    if k == 0 {
      path := [n];
    } else {
      var m :| ReachedIn(live, starts, m, k - 1) && n in Parents(live, m);
      var up := PathOfReach(live, starts, m, k - 1);
      PathExtends(live, starts, up, m, n);
      path := up + [n];
    }
  }

  lemma {:induction false} ReachOfPath(live: Graph, starts: seq<Name>, path: seq<Name>, n: Name)
    requires IsParentPath(live, starts, path, n)
    ensures ReachedIn(live, starts, n, |path| - 1)
  {
    var k := |path| - 1;
    if k > 0 {
      var shorter := path[..k];
      ReachOfPath(live, starts, shorter, path[k - 1]);
      assert path[k - 1 + 1] in Parents(live, path[k - 1]);
    }
  }

  /** Whatever the parents of p reach, everything that lists p reaches one step later. */
  lemma {:induction false} ReachThrough(live: Graph, starts: seq<Name>, p: Name, n: Name, k: nat)
    requires p in starts && ReachedIn(live, Parents(live, p), n, k)
    ensures ReachedIn(live, starts, n, k + 1)
    decreases k
  {
    if k == 0 {
      assert ReachedIn(live, starts, p, 0);
    } else {
      var m :| ReachedIn(live, Parents(live, p), m, k - 1) && n in Parents(live, m);
      ReachThrough(live, starts, p, m, k - 1);
    }
  }

  /** The converse: a name reached after k + 1 edges is reached after k from one of the first parents. */
  lemma {:induction false} ReachVia(live: Graph, starts: seq<Name>, n: Name, k: nat) returns (p: Name)
    requires ReachedIn(live, starts, n, k + 1)
    ensures p in starts && ReachedIn(live, Parents(live, p), n, k)
    decreases k
  {
    var m :| ReachedIn(live, starts, m, k) && n in Parents(live, m);
    if k == 0 {
      p := m;
    } else {
      p := ReachVia(live, starts, m, k - 1);
    }
  }

  /* ---- The textbook search ---- */

  datatype GraphError = ResourceNotFound(involved: Name) | CycleDetected(involved: Name)

  datatype SearchResult = SearchResult(visited: seq<Name>, error: Option<GraphError>)

  function Elements<T(!new)>(s: seq<T>): (e: set<T>)
    ensures forall x :: x in e <==> x in s
  {
    set x | x in s
  }

  /** Breadth-first search with a list of seen names and a FIFO of pending ones.
      A pending name that was seen before is skipped, never deleted. */
  function Search(live: Graph, self: Name, seen: seq<Name>, pending: seq<Name>): SearchResult
    decreases live.Keys - Elements(seen), |pending|
  {
    if pending == [] then
      SearchResult(seen, None)
    else if pending[0] in seen then
      Search(live, self, seen, pending[1..])
    else if pending[0] !in live then
      SearchResult(seen, Some(ResourceNotFound(pending[0])))
    else if self in live[pending[0]].ParentNames() then
      SearchResult(seen, Some(CycleDetected(pending[0])))
    else
      assert pending[0] in live.Keys - Elements(seen);
      Search(live, self, seen + [pending[0]], pending[1..] + live[pending[0]].ParentNames())
  }

  function Validated(live: Graph, r: Resource): SearchResult {
    Search(live, r.name, [], r.ParentNames())
  }

  predicate Accepts(live: Graph, r: Resource) {
    Validated(live, r).error.None?
  }

  /* ---- Correctness of the search ---- */

  ghost predicate Distinct<T>(s: seq<T>) {
    forall i, j :: 0 <= i < j < |s| ==> s[i] != s[j]
  }

  /** k is the length of a shortest parent path from starts to n. */
  ghost predicate Distance(live: Graph, starts: seq<Name>, n: Name, k: nat) {
    && ReachedIn(live, starts, n, k)
    && forall j: nat :: ReachedIn(live, starts, n, j) ==> k <= j
  }

  ghost predicate Listed(names: seq<Name>, levels: seq<nat>, n: Name, k: int)
    requires |names| == |levels|
  {
    exists i :: 0 <= i < |names| && names[i] == n && levels[i] <= k
  }

  ghost predicate Sorted(levels: seq<nat>) {
    forall i, j :: 0 <= i < j < |levels| ==> levels[i] <= levels[j]
  }

  /** Every listed name is at its level, by a shortest path when shortest is set. */
  ghost predicate AtLevels(live: Graph, starts: seq<Name>, names: seq<Name>, levels: seq<nat>)
    requires |names| == |levels|
  {
    forall i :: 0 <= i < |names| ==> ReachedIn(live, starts, names[i], levels[i])
  }

  /** The levels rise along the seen names and on into the queue, which spans at most two levels. */
  ghost predicate LevelsRise(ds: seq<nat>, dp: seq<nat>) {
    && Sorted(ds) && Sorted(dp)
    && (forall i, j :: 0 <= i < |ds| && 0 <= j < |dp| ==> ds[i] <= dp[j])
    && (forall j :: 0 <= j < |dp| ==> dp[j] <= dp[0] + 1)
  }

  /** n was seen, or waits in the queue, at a level of at most k. */
  ghost predicate Found(seen: seq<Name>, ds: seq<nat>, pending: seq<Name>, dp: seq<nat>, n: Name, k: int)
    requires |seen| == |ds| && |pending| == |dp|
  {
    Listed(seen, ds, n, k) || Listed(pending, dp, n, k)
  }

  /** The first names, and the parents of every seen name, were found on time. */
  ghost predicate Covers(live: Graph, starts: seq<Name>,
                         seen: seq<Name>, ds: seq<nat>, pending: seq<Name>, dp: seq<nat>)
    requires |seen| == |ds| && |pending| == |dp|
  {
    && (forall n :: n in starts ==> Found(seen, ds, pending, dp, n, 0))
    && (forall i, p :: 0 <= i < |seen| && p in Parents(live, seen[i]) ==>
          Found(seen, ds, pending, dp, p, ds[i] + 1))
  }

  /** The search state: seen names carry their distances, pending ones the level they were found at. */
  ghost predicate Frontier(live: Graph, starts: seq<Name>, self: Name,
                           seen: seq<Name>, ds: seq<nat>, pending: seq<Name>, dp: seq<nat>)
  {
    && |seen| == |ds| && |pending| == |dp|
    && Distinct(seen)
    && (forall n :: n in seen ==> !Blocks(live, self, n))
    && (forall i :: 0 <= i < |seen| ==> Distance(live, starts, seen[i], ds[i]))
    && AtLevels(live, starts, pending, dp)
    && LevelsRise(ds, dp)
    && Covers(live, starts, seen, ds, pending, dp)
  }

  /** Anything reachable within k is seen within k, or the head of the queue is no further away. */
  lemma {:induction false} FrontierCovers(live: Graph, starts: seq<Name>, self: Name,
      seen: seq<Name>, ds: seq<nat>, pending: seq<Name>, dp: seq<nat>, n: Name, k: nat)
    requires Frontier(live, starts, self, seen, ds, pending, dp)
    requires ReachedIn(live, starts, n, k)
    ensures Listed(seen, ds, n, k) || (pending != [] && dp[0] <= k)
    decreases k
  {
    if k > 0 {
      var m :| ReachedIn(live, starts, m, k - 1) && n in Parents(live, m);
      FrontierCovers(live, starts, self, seen, ds, pending, dp, m, k - 1);
      if Listed(seen, ds, m, k - 1) {
        var i :| 0 <= i < |seen| && seen[i] == m && ds[i] <= k - 1;
        assert Found(seen, ds, pending, dp, n, ds[i] + 1);
      }
    }
  }

  /** Names appear in non-decreasing distance. */
  ghost predicate InDistanceOrder(live: Graph, starts: seq<Name>, names: seq<Name>) {
    forall i, j, a: nat, b: nat | 0 <= i < j < |names| ::
      Distance(live, starts, names[i], a) && Distance(live, starts, names[j], b) ==> a <= b
  }

  /** What a finished search says about the names reachable from starts. */
  ghost predicate CorrectResult(live: Graph, starts: seq<Name>, self: Name, result: SearchResult) {
    && Distinct(result.visited)
    && (forall n :: n in result.visited ==> Reachable(live, starts, n) && !Blocks(live, self, n))
    && InDistanceOrder(live, starts, result.visited)
    && (match result.error
        case None =>
          forall n :: Reachable(live, starts, n) ==> n in result.visited
        case Some(e) =>
          NearestBlocker(live, starts, self, e.involved)
          && e == if e.involved in live then CycleDetected(e.involved) else ResourceNotFound(e.involved))
  }

  /** n is reachable, blocks self, and no blocking name is closer. */
  ghost predicate NearestBlocker(live: Graph, starts: seq<Name>, self: Name, n: Name) {
    exists k: nat ::
      && ReachedIn(live, starts, n, k) && Blocks(live, self, n)
      && forall m, j: nat :: ReachedIn(live, starts, m, j) && Blocks(live, self, m) ==> k <= j
  }

  lemma VisitedInOrder(live: Graph, starts: seq<Name>, self: Name,
      seen: seq<Name>, ds: seq<nat>, pending: seq<Name>, dp: seq<nat>)
    requires Frontier(live, starts, self, seen, ds, pending, dp)
    ensures InDistanceOrder(live, starts, seen)
  {
    forall i, j, a: nat, b: nat |
      0 <= i < j < |seen| && Distance(live, starts, seen[i], a) && Distance(live, starts, seen[j], b)
      ensures a <= b
    {
      assert Distance(live, starts, seen[i], ds[i]) && Distance(live, starts, seen[j], ds[j]);
      assert ReachedIn(live, starts, seen[i], a) && ReachedIn(live, starts, seen[j], b);
      assert ReachedIn(live, starts, seen[i], ds[i]) && ReachedIn(live, starts, seen[j], ds[j]);
    }
  }

  lemma HeadIsNearest(live: Graph, starts: seq<Name>, self: Name,
      seen: seq<Name>, ds: seq<nat>, pending: seq<Name>, dp: seq<nat>)
    requires Frontier(live, starts, self, seen, ds, pending, dp)
    requires pending != []
    ensures forall m, j: nat :: ReachedIn(live, starts, m, j) && m !in seen ==> dp[0] <= j
  {
    forall m, j: nat | ReachedIn(live, starts, m, j) && m !in seen
      ensures dp[0] <= j
    {
      FrontierCovers(live, starts, self, seen, ds, pending, dp, m, j);
    }
  }

  lemma SkipKeepsFrontier(live: Graph, starts: seq<Name>, self: Name,
      seen: seq<Name>, ds: seq<nat>, pending: seq<Name>, dp: seq<nat>)
    requires Frontier(live, starts, self, seen, ds, pending, dp)
    requires pending != [] && pending[0] in seen
    ensures Frontier(live, starts, self, seen, ds, pending[1..], dp[1..])
  {
    forall n, k: int | Found(seen, ds, pending, dp, n, k)
      ensures Found(seen, ds, pending[1..], dp[1..], n, k)
    {
      if Listed(pending, dp, n, k) {
        var i :| 0 <= i < |pending| && pending[i] == n && dp[i] <= k;
        if i == 0 {
          var j :| 0 <= j < |seen| && seen[j] == pending[0];
          assert ds[j] <= dp[0];
        } else {
          assert pending[1..][i - 1] == n && dp[1..][i - 1] <= k;
        }
      }
    }
  }

  lemma VisitKeepsLevels(ds: seq<nat>, dp: seq<nat>, added: nat)
    requires LevelsRise(ds, dp) && dp != []
    ensures LevelsRise(ds + [dp[0]], dp[1..] + seq(added, i => dp[0] + 1))
  {
    var rest := dp[1..] + seq(added, i => dp[0] + 1);
    forall j | 0 <= j < |rest|
      ensures dp[0] <= rest[j] <= dp[0] + 1
    {
    }
  }

  lemma VisitKeepsCover(live: Graph, starts: seq<Name>,
      seen: seq<Name>, ds: seq<nat>, pending: seq<Name>, dp: seq<nat>, ps: seq<Name>)
    requires |seen| == |ds| && |pending| == |dp| && pending != []
    requires Covers(live, starts, seen, ds, pending, dp) && ps == Parents(live, pending[0])
    ensures Covers(live, starts, seen + [pending[0]], ds + [dp[0]],
                   pending[1..] + ps, dp[1..] + seq(|ps|, i => dp[0] + 1))
  {
    var seen', ds' := seen + [pending[0]], ds + [dp[0]];
    var pending', dp' := pending[1..] + ps, dp[1..] + seq(|ps|, i => dp[0] + 1);
    forall n, k: int | Found(seen, ds, pending, dp, n, k)
      ensures Found(seen', ds', pending', dp', n, k)
    {
      if Listed(seen, ds, n, k) {
        var i :| 0 <= i < |seen| && seen[i] == n && ds[i] <= k;
        assert seen'[i] == n && ds'[i] <= k;
      } else {
        var i :| 0 <= i < |pending| && pending[i] == n && dp[i] <= k;
        if i == 0 {
          assert seen'[|seen|] == n && ds'[|seen|] <= k;
        } else {
          assert pending'[i - 1] == n && dp'[i - 1] <= k;
        }
      }
    }
    forall i, p | 0 <= i < |seen'| && p in Parents(live, seen'[i])
      ensures Found(seen', ds', pending', dp', p, ds'[i] + 1)
    {
      if i < |seen| {
        assert Found(seen, ds, pending, dp, p, ds[i] + 1);
      } else {
        var j :| 0 <= j < |ps| && ps[j] == p;
        assert pending'[|pending| - 1 + j] == p && dp'[|pending| - 1 + j] == dp[0] + 1;
      }
    }
  }

  lemma HeadIsReached(live: Graph, starts: seq<Name>, names: seq<Name>, levels: seq<nat>)
    requires |names| == |levels| && names != [] && AtLevels(live, starts, names, levels)
    ensures ReachedIn(live, starts, names[0], levels[0])
  {
  }

  lemma VisitKeepsReach(live: Graph, starts: seq<Name>, pending: seq<Name>, dp: seq<nat>, ps: seq<Name>)
    requires |pending| == |dp| && pending != [] && AtLevels(live, starts, pending, dp)
    requires ps == Parents(live, pending[0])
    ensures AtLevels(live, starts, pending[1..] + ps, dp[1..] + seq(|ps|, i => dp[0] + 1))
  {
    var pending', dp' := pending[1..] + ps, dp[1..] + seq(|ps|, i => dp[0] + 1);
    forall i | 0 <= i < |pending'|
      ensures ReachedIn(live, starts, pending'[i], dp'[i])
    {
      if i < |pending| - 1 {
        assert pending'[i] == pending[i + 1] && dp'[i] == dp[i + 1];
      } else {
        assert pending'[i] in ps && ReachedIn(live, starts, pending[0], dp[0] + 1 - 1);
      }
    }
  }

  lemma VisitKeepsFrontier(live: Graph, starts: seq<Name>, self: Name,
      seen: seq<Name>, ds: seq<nat>, pending: seq<Name>, dp: seq<nat>, ps: seq<Name>)
    requires Frontier(live, starts, self, seen, ds, pending, dp)
    requires pending != [] && pending[0] !in seen && !Blocks(live, self, pending[0])
    requires ps == Parents(live, pending[0])
    ensures Frontier(live, starts, self, seen + [pending[0]], ds + [dp[0]],
                     pending[1..] + ps, dp[1..] + seq(|ps|, i => dp[0] + 1))
  {
    hide Covers, LevelsRise, AtLevels;
    var n, d := pending[0], dp[0];
    assert Distance(live, starts, n, d) by {
      HeadIsNearest(live, starts, self, seen, ds, pending, dp);
      assert ReachedIn(live, starts, n, d) by { HeadIsReached(live, starts, pending, dp); }
    }
    VisitKeepsLevels(ds, dp, |ps|);
    VisitKeepsCover(live, starts, seen, ds, pending, dp, ps);
    VisitKeepsReach(live, starts, pending, dp, ps);
  }

  /** The search started from any frontier is correct: exact, nearest first and duplicate free. */
  lemma {:induction false} SearchCorrect(live: Graph, starts: seq<Name>, self: Name,
      seen: seq<Name>, ds: seq<nat>, pending: seq<Name>, dp: seq<nat>)
    requires Frontier(live, starts, self, seen, ds, pending, dp)
    ensures CorrectResult(live, starts, self, Search(live, self, seen, pending))
    decreases live.Keys - Elements(seen), |pending|
  {
    VisitedInOrder(live, starts, self, seen, ds, pending, dp);
    forall n | n in seen
      ensures Reachable(live, starts, n)
    {
      var i :| 0 <= i < |seen| && seen[i] == n;
      assert ReachedIn(live, starts, seen[i], ds[i]);
    }
    if pending == [] {
      forall n | Reachable(live, starts, n)
        ensures n in seen
      {
        var k: nat :| ReachedIn(live, starts, n, k);
        FrontierCovers(live, starts, self, seen, ds, pending, dp, n, k);
      }
    } else if pending[0] in seen {
      SkipKeepsFrontier(live, starts, self, seen, ds, pending, dp);
      SearchCorrect(live, starts, self, seen, ds, pending[1..], dp[1..]);
    } else if Blocks(live, self, pending[0]) {
      HeadIsNearest(live, starts, self, seen, ds, pending, dp);
      assert ReachedIn(live, starts, pending[0], dp[0]);
      assert NearestBlocker(live, starts, self, pending[0]);
    } else {
      var ps := live[pending[0]].ParentNames();
      VisitKeepsFrontier(live, starts, self, seen, ds, pending, dp, ps);
      assert pending[0] in live.Keys - Elements(seen);
      SearchCorrect(live, starts, self, seen + [pending[0]], ds + [dp[0]],
                    pending[1..] + ps, dp[1..] + seq(|ps|, i => dp[0] + 1));
    }
  }

  /** Validation of r is exact: it accepts if and only if every reachable name is live and none of
      them lists r; then it lists the proper ancestors, each once; otherwise it reports a nearest blocker. */
  lemma ValidationExact(live: Graph, r: Resource)
    ensures CorrectResult(live, r.ParentNames(), r.name, Validated(live, r))
    ensures Accepts(live, r) <==> forall n :: Reachable(live, r.ParentNames(), n) ==> !Blocks(live, r.name, n)
  {
    var starts := r.ParentNames();
    var dp := seq(|starts|, i => 0);
    forall n | n in starts
      ensures Listed(starts, dp, n, 0)
    {
      var i :| 0 <= i < |starts| && starts[i] == n;
      assert dp[i] <= 0;
    }
    SearchCorrect(live, starts, r.name, [], [], starts, dp);
  }
}
