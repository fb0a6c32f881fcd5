/** The equations the emitted rules state about power, on names instead of series:
    their one solution, its sum over paths, and convergence to it. */
module PowerEquations {
  import opened Options
  import opened ParentGraph
  import opened PromQL
  import opened Sums

  /** Recorded power by resource; a resource whose series is absent is missing. */
  type Powers = map<Name, real>

  /** The recorded coefficient of the edge to parent p, if its expression yields a value. */
  function Coefficient(raw: RawData, parents: seq<ParentRef>, p: Name): Option<real> {
    if parents == [] then None
    else if parents[0].name == p then
      if parents[0].coefficient != "" && parents[0].coefficient in raw
      then Some(raw[parents[0].coefficient].value) else None
    else Coefficient(raw, parents[1..], p)
  }

  function Share(live: Graph, raw: RawData, p: Name, n: Name): Option<real> {
    if n in live then Coefficient(raw, live[n].parents, p) else None
  }

  /** The weight of the edge from p to n; an absent coefficient weighs nothing. */
  function Weight(live: Graph, raw: RawData, p: Name, n: Name): real {
    if Share(live, raw, p, n).Some? then Share(live, raw, p, n).value else 0.0
  }

  function Power(ps: Powers, n: Name): real {
    if n in ps then ps[n] else 0.0
  }

  function Contributors(live: Graph, raw: RawData, ps: Powers, n: Name): set<Name> {
    set p | p in Parents(live, n) && Share(live, raw, p, n).Some? && p in ps
  }

  ghost function Inflow(live: Graph, raw: RawData, ps: Powers, n: Name): Name -> real {
    p => Weight(live, raw, p, n) * Power(ps, p)
  }

  /** What the power rule of n records when it is evaluated over ps. */
  ghost function Evaluated(live: Graph, raw: RawData, ps: Powers, n: Name): Option<real>
    requires n in live
  {
    if live[n].parents == [] then
      if live[n].energyMetric in raw then Some(raw[live[n].energyMetric].value) else None
    else if Contributors(live, raw, ps, n) == {} then None
    else Some(Sum(Contributors(live, raw, ps, n), Inflow(live, raw, ps, n)))
  }

  /** One synchronous evaluation of every rule. */
  ghost function Step(live: Graph, raw: RawData, ps: Powers): Powers {
    map n | n in live && Evaluated(live, raw, ps, n).Some? :: Evaluated(live, raw, ps, n).value
  }

  ghost function Rounds(live: Graph, raw: RawData, k: nat): Powers {
    if k == 0 then map[] else Step(live, raw, Rounds(live, raw, k - 1))
  }

  /** ps records at n exactly what the rule of n evaluates to over ps. */
  ghost predicate Satisfies(live: Graph, raw: RawData, ps: Powers, n: Name) {
    AgreeAt(ps, Step(live, raw, ps), n)
  }

  ghost predicate Solves(live: Graph, raw: RawData, ps: Powers) {
    forall n :: Satisfies(live, raw, ps, n)
  }

  /** No chain of parents above n is longer than k. */
  predicate ChainAtMost(live: Graph, n: Name, k: nat)
    decreases k
  {
    if k == 0 then Parents(live, n) == []
    else forall p :: p in Parents(live, n) ==> ChainAtMost(live, p, k - 1)
  }

  lemma WalkFromParent(live: Graph, starts: seq<Name>, p: Name, k: nat)
    requires p in starts && WalkOf(live, Parents(live, p), k)
    ensures WalkOf(live, starts, k + 1)
  {
    var m :| ReachedIn(live, Parents(live, p), m, k);
    ReachThrough(live, starts, p, m, k);
  }

  lemma WalkHasParent(live: Graph, starts: seq<Name>, k: nat) returns (p: Name)
    requires WalkOf(live, starts, k + 1)
    ensures p in starts && WalkOf(live, Parents(live, p), k)
  {
    var m :| ReachedIn(live, starts, m, k + 1);
    p := ReachVia(live, starts, m, k);
  }

  lemma WalkOfNone(live: Graph, starts: seq<Name>)
    ensures WalkOf(live, starts, 0) <==> starts != []
  {
    if starts != [] {
      assert ReachedIn(live, starts, starts[0], 0);
    }
  }

  /** The chain bound of n is exact: no walk upwards from its parents has k edges. */
  lemma {:induction false} ChainExact(live: Graph, n: Name, k: nat)
    ensures ChainAtMost(live, n, k) <==> !WalkOf(live, Parents(live, n), k)
    decreases k
  {
    hide WalkOf;
    var starts := Parents(live, n);
    if k == 0 {
      WalkOfNone(live, starts);
    } else {
      forall p | p in starts
        ensures ChainAtMost(live, p, k - 1) <==> !WalkOf(live, Parents(live, p), k - 1)
        ensures WalkOf(live, Parents(live, p), k - 1) ==> WalkOf(live, starts, k)
      {
        ChainExact(live, p, k - 1);
        if WalkOf(live, Parents(live, p), k - 1) {
          WalkFromParent(live, starts, p, k - 1);
        }
      }
      if WalkOf(live, starts, k) {
        var p := WalkHasParent(live, starts, k - 1);
      }
    }
  }

  ghost predicate AgreeAt(ps: Powers, qs: Powers, n: Name) {
    (n in ps <==> n in qs) && (n in ps ==> ps[n] == qs[n])
  }

  lemma EvaluatedAgrees(live: Graph, raw: RawData, ps: Powers, qs: Powers, n: Name)
    requires n in live && forall p :: p in Parents(live, n) ==> AgreeAt(ps, qs, p)
    ensures Evaluated(live, raw, ps, n) == Evaluated(live, raw, qs, n)
  {
    var cs := Contributors(live, raw, ps, n);
    forall p | p in Parents(live, n)
      ensures (p in cs <==> p in Contributors(live, raw, qs, n)) && Power(ps, p) == Power(qs, p)
    {
      assert AgreeAt(ps, qs, p);
    }
    assert cs == Contributors(live, raw, qs, n);
    SumEqual(cs, Inflow(live, raw, ps, n), Inflow(live, raw, qs, n));
  }

  lemma StepAgrees(live: Graph, raw: RawData, ps: Powers, qs: Powers, n: Name)
    requires forall p :: p in Parents(live, n) ==> AgreeAt(ps, qs, p)
    ensures AgreeAt(Step(live, raw, ps), Step(live, raw, qs), n)
  {
    if n in live {
      EvaluatedAgrees(live, raw, ps, qs, n);
    }
  }

  /** After more rounds than the longest ancestor chain of n, its recorded power is that of
      any solution: evaluation converges, and there is only one solution to converge to. */
  lemma {:induction false} RoundsReachSolution(live: Graph, raw: RawData, ps: Powers, n: Name, k: nat, j: nat)
    requires Solves(live, raw, ps) && ChainAtMost(live, n, k) && j > k
    ensures AgreeAt(Rounds(live, raw, j), ps, n)
    decreases k
  {
    hide Evaluated;
    if k > 0 {
      forall p | p in Parents(live, n)
        ensures AgreeAt(Rounds(live, raw, j - 1), ps, p)
      {
        RoundsReachSolution(live, raw, ps, p, k - 1, j - 1);
      }
    }
    assert Satisfies(live, raw, ps, n);
    StepAgrees(live, raw, Rounds(live, raw, j - 1), ps, n);
  }

  lemma {:induction false} RoundsStabilise(live: Graph, raw: RawData, n: Name, k: nat, i: nat, j: nat)
    requires ChainAtMost(live, n, k) && i > k && j > k
    ensures AgreeAt(Rounds(live, raw, i), Rounds(live, raw, j), n)
    decreases k
  {
    hide Evaluated;
    if k > 0 {
      forall p | p in Parents(live, n)
        ensures AgreeAt(Rounds(live, raw, i - 1), Rounds(live, raw, j - 1), p)
      {
        RoundsStabilise(live, raw, p, k - 1, i - 1, j - 1);
      }
    }
    StepAgrees(live, raw, Rounds(live, raw, i - 1), Rounds(live, raw, j - 1), n);
  }

  lemma PowersEqual(live: Graph, ps: Powers, qs: Powers)
    requires ps.Keys <= live.Keys && qs.Keys <= live.Keys
    requires forall n :: n in live ==> AgreeAt(ps, qs, n)
    ensures ps == qs
  {
    assert forall n :: n in ps ==> AgreeAt(ps, qs, n);
    assert forall n :: n in qs ==> AgreeAt(ps, qs, n);
    assert ps.Keys == qs.Keys;
  }

  /** When no ancestor chain is longer than k, the rules have exactly one solution,
      and k + 1 or more rounds from no series at all yield it. */
  lemma UniqueSolution(live: Graph, raw: RawData, k: nat, j: nat)
    requires (forall n :: n in live ==> ChainAtMost(live, n, k)) && j > k
    ensures Solves(live, raw, Rounds(live, raw, j))
    ensures forall ps :: Solves(live, raw, ps) ==> ps == Rounds(live, raw, j)
  {
    hide Evaluated;
    var solution := Rounds(live, raw, j);
    forall n
      ensures Satisfies(live, raw, solution, n)
    {
      if n in live {
        RoundsStabilise(live, raw, n, k, j, j + 1);
      }
    }
    forall ps | Solves(live, raw, ps)
      ensures ps == solution
    {
      forall n | n in live
        ensures AgreeAt(ps, solution, n)
      {
        RoundsReachSolution(live, raw, ps, n, k, j);
      }
      forall n | n in ps
        ensures n in live
      {
        assert Satisfies(live, raw, ps, n);
      }
      PowersEqual(live, ps, solution);
    }
  }

  /* ---- Evaluation in any order ---- */

  /** Evaluates the rule of n alone and keeps every other series. */
  ghost function EvaluateOne(live: Graph, raw: RawData, ps: Powers, n: Name): Powers {
    if n !in live then ps
    else match Evaluated(live, raw, ps, n)
         case None => ps - {n}
         case Some(v) => ps[n := v]
  }

  ghost function EvaluateAll(live: Graph, raw: RawData, ps: Powers, order: seq<Name>): Powers {
    if order == [] then ps
    else EvaluateOne(live, raw, EvaluateAll(live, raw, ps, order[..|order| - 1]), order[|order| - 1])
  }

  /** Every resource with chains of at most k carries its final value. */
  ghost predicate SettledBelow(live: Graph, solution: Powers, ps: Powers, k: int) {
    forall n, c: nat :: n in live && c < k && ChainAtMost(live, n, c) ==> AgreeAt(ps, solution, n)
  }

  lemma EvaluatingSettles(live: Graph, raw: RawData, solution: Powers, ps: Powers, k: nat, n: Name, m: Name, c: nat)
    requires Solves(live, raw, solution) && SettledBelow(live, solution, ps, k)
    requires Closed(live)
    requires n in live && m in live && ChainAtMost(live, n, c)
    requires c < k || (c == k && (m == n || AgreeAt(ps, solution, n)))
    ensures AgreeAt(EvaluateOne(live, raw, ps, m), solution, n)
  {
    if m == n {
      forall p | p in Parents(live, n)
        ensures AgreeAt(ps, solution, p)
      {
      }
      assert Satisfies(live, raw, solution, n);
      StepAgrees(live, raw, ps, solution, n);
    }
  }

  /** One pass in which every rule was evaluated at least once, in any order and as often
      as one likes, settles one more layer; nothing settled is ever lost. */
  lemma {:induction false} PassSettlesLayer(live: Graph, raw: RawData, solution: Powers, ps: Powers,
      order: seq<Name>, k: nat)
    requires Solves(live, raw, solution) && SettledBelow(live, solution, ps, k)
    requires Closed(live)
    ensures SettledBelow(live, solution, EvaluateAll(live, raw, ps, order), k)
    ensures forall n :: n in order && n in live && ChainAtMost(live, n, k) ==>
              AgreeAt(EvaluateAll(live, raw, ps, order), solution, n)
  {
    if order != [] {
      var last := |order| - 1;
      var before := EvaluateAll(live, raw, ps, order[..last]);
      PassSettlesLayer(live, raw, solution, ps, order[..last], k);
      forall n, c: nat | n in live && c < k && ChainAtMost(live, n, c)
        ensures AgreeAt(EvaluateAll(live, raw, ps, order), solution, n)
      {
        if order[last] in live {
          EvaluatingSettles(live, raw, solution, before, k, n, order[last], c);
        }
      }
      forall n | n in order && n in live && ChainAtMost(live, n, k)
        ensures AgreeAt(EvaluateAll(live, raw, ps, order), solution, n)
      {
        if order[last] in live {
          EvaluatingSettles(live, raw, solution, before, k, n, order[last], k);
        }
      }
    }
  }

  lemma LayerSettled(live: Graph, solution: Powers, ps: Powers, k: nat)
    requires SettledBelow(live, solution, ps, k)
    requires forall n :: n in live && ChainAtMost(live, n, k) ==> AgreeAt(ps, solution, n)
    ensures SettledBelow(live, solution, ps, k + 1)
  {
    hide ChainAtMost, AgreeAt;
  }

  ghost function Passes(live: Graph, raw: RawData, ps: Powers, orders: seq<seq<Name>>): Powers {
    if orders == [] then ps
    else EvaluateAll(live, raw, Passes(live, raw, ps, orders[..|orders| - 1]), orders[|orders| - 1])
  }

  /** Rule groups run on their own timers: whatever was recorded before and in whatever order they
      run, once each has run in k + 1 successive passes the recorded power is the solution. */
  lemma {:induction false} AnyOrderConverges(live: Graph, raw: RawData, solution: Powers, ps: Powers,
      orders: seq<seq<Name>>)
    requires Solves(live, raw, solution)
    requires Closed(live)
    requires forall order, n :: order in orders && n in live ==> n in order
    ensures SettledBelow(live, solution, Passes(live, raw, ps, orders), |orders|)
  {
    hide EvaluateAll, ChainAtMost, AgreeAt, Solves;
    if orders != [] {
      hide SettledBelow;
      var last := |orders| - 1;
      var before := Passes(live, raw, ps, orders[..last]);
      AnyOrderConverges(live, raw, solution, ps, orders[..last]);
      PassSettlesLayer(live, raw, solution, before, orders[last], last);
      LayerSettled(live, solution, EvaluateAll(live, raw, before, orders[last]), last);
    }
  }

  /* ---- The solution as a sum over paths ---- */

  predicate IsRoot(live: Graph, n: Name) {
    n in live && live[n].parents == []
  }

  /** q leads from a root down to n along parent edges. */
  ghost predicate IsRootPath(live: Graph, q: seq<Name>, n: Name) {
    && q != [] && q[|q| - 1] == n && IsRoot(live, q[0])
    && forall i :: 0 <= i < |q| - 1 ==> q[i] in Parents(live, q[i + 1])
  }

  /** All paths from a root to n with at most k edges. */
  ghost function RootPaths(live: Graph, n: Name, k: nat): set<seq<Name>>
    decreases k
  {
    if IsRoot(live, n) then {[n]}
    else if k == 0 then {}
    else set p, q | p in Parents(live, n) && q in RootPaths(live, p, k - 1) :: q + [n]
  }

  lemma ExtendedRootPath(live: Graph, r: seq<Name>, p: Name, n: Name)
    requires IsRootPath(live, r, p) && p in Parents(live, n)
    ensures IsRootPath(live, r + [n], n)
  {
    var q := r + [n];
    forall i | 0 <= i < |q| - 1
      ensures q[i] in Parents(live, q[i + 1])
    {
      if i < |r| - 1 {
        assert q[i] == r[i] && q[i + 1] == r[i + 1];
      }
    }
  }

  lemma ShortenedRootPath(live: Graph, q: seq<Name>, n: Name)
    requires IsRootPath(live, q, n) && |q| > 1
    ensures q == q[..|q| - 1] + [n] && IsRootPath(live, q[..|q| - 1], q[|q| - 2]) && q[|q| - 2] in Parents(live, n)
  {
    assert q[|q| - 2] in Parents(live, q[|q| - 2 + 1]);
  }

  lemma {:induction false} RootPathsSound(live: Graph, n: Name, k: nat, q: seq<Name>)
    requires q in RootPaths(live, n, k)
    ensures IsRootPath(live, q, n)
    decreases k
  {
    if !IsRoot(live, n) {
      var p, r :| p in Parents(live, n) && r in RootPaths(live, p, k - 1) && q == r + [n];
      RootPathsSound(live, p, k - 1, r);
      ExtendedRootPath(live, r, p, n);
    }
  }

  lemma {:induction false} RootPathsComplete(live: Graph, n: Name, k: nat, q: seq<Name>)
    requires ChainAtMost(live, n, k) && IsRootPath(live, q, n)
    ensures q in RootPaths(live, n, k)
    decreases k
  {
    if |q| == 1 {
      assert q == [n];
    } else {
      ShortenedRootPath(live, q, n);
      if k > 0 {
        RootPathsComplete(live, q[|q| - 2], k - 1, q[..|q| - 1]);
      }
    }
  }

  /** These are exactly the paths: with chains of at most k none is left out. */
  lemma RootPathsExact(live: Graph, n: Name, k: nat, q: seq<Name>)
    requires ChainAtMost(live, n, k)
    ensures q in RootPaths(live, n, k) <==> IsRootPath(live, q, n)
  {
    hide RootPaths, IsRootPath;
    if q in RootPaths(live, n, k) {
      RootPathsSound(live, n, k, q);
    }
    if IsRootPath(live, q, n) {
      RootPathsComplete(live, n, k, q);
    }
  }

  function RootPower(live: Graph, raw: RawData, n: Name): real {
    if IsRoot(live, n) && live[n].energyMetric in raw then raw[live[n].energyMetric].value else 0.0
  }

  /** The root's power times the coefficients along the path. */
  function PathPower(live: Graph, raw: RawData, q: seq<Name>): real {
    if q == [] then 0.0
    else if |q| == 1 then RootPower(live, raw, q[0])
    else PathPower(live, raw, q[..|q| - 1]) * Weight(live, raw, q[|q| - 2], q[|q| - 1])
  }

  ghost function PathTerm(live: Graph, raw: RawData): seq<Name> -> real {
    q => PathPower(live, raw, q)
  }

  ghost function Extended(qs: set<seq<Name>>, n: Name): set<seq<Name>> {
    set q | q in qs :: q + [n]
  }

  ghost function PathsVia(live: Graph, ps: set<Name>, n: Name, k: nat): set<seq<Name>> {
    set p, q | p in ps && q in RootPaths(live, p, k) :: q + [n]
  }

  lemma {:induction false} PathsEndAt(live: Graph, n: Name, k: nat, q: seq<Name>)
    requires q in RootPaths(live, n, k)
    ensures q != [] && q[|q| - 1] == n
  {
  }

  lemma ExtendedTerm(live: Graph, raw: RawData, q: seq<Name>, p: Name, n: Name)
    requires q != [] && q[|q| - 1] == p
    ensures PathTerm(live, raw)(q + [n]) == Scaled(Weight(live, raw, p, n), PathTerm(live, raw))(q)
  {
    assert (q + [n])[..|q|] == q;
  }

  function Append(n: Name): seq<Name> -> seq<Name> {
    (q: seq<Name>) => q + [n]
  }

  lemma ExtendedReindexed(qs: set<seq<Name>>, n: Name, f: seq<Name> -> real, g: seq<Name> -> real)
    requires forall q :: q in qs ==> f(q) == g(q + [n])
    ensures Sum(qs, f) == Sum(Extended(qs, n), g)
  {
    forall q, r | q in qs && r in qs && Append(n)(q) == Append(n)(r)
      ensures q == r
    {
      assert q == (q + [n])[..|q|] && r == (r + [n])[..|r|];
    }
    forall z | z in Extended(qs, n)
      ensures exists q :: q in qs && Append(n)(q) == z
    {
      var q :| q in qs && q + [n] == z;
      assert Append(n)(q) == z;
    }
    SumReindexed(qs, f, Extended(qs, n), g, Append(n));
  }

  lemma ExtendedSum(live: Graph, raw: RawData, p: Name, n: Name, k: nat)
    ensures Sum(Extended(RootPaths(live, p, k), n), PathTerm(live, raw))
         == Weight(live, raw, p, n) * Sum(RootPaths(live, p, k), PathTerm(live, raw))
  {
    hide PathTerm, Scaled, Weight, RootPaths, Sum;
    var qs := RootPaths(live, p, k);
    forall q | q in qs
      ensures Scaled(Weight(live, raw, p, n), PathTerm(live, raw))(q) == PathTerm(live, raw)(q + [n])
    {
      PathsEndAt(live, p, k, q);
      ExtendedTerm(live, raw, q, p, n);
    }
    ExtendedReindexed(qs, n, Scaled(Weight(live, raw, p, n), PathTerm(live, raw)), PathTerm(live, raw));
    SumScaled(qs, Weight(live, raw, p, n), PathTerm(live, raw));
  }

  ghost function ParentTerm(live: Graph, raw: RawData, n: Name, k: nat): Name -> real {
    p => Weight(live, raw, p, n) * Sum(RootPaths(live, p, k), PathTerm(live, raw))
  }

  lemma PathsSplit(live: Graph, ps: set<Name>, p: Name, n: Name, k: nat)
    requires p in ps
    ensures PathsVia(live, ps, n, k) == Extended(RootPaths(live, p, k), n) + PathsVia(live, ps - {p}, n, k)
    ensures Extended(RootPaths(live, p, k), n) !! PathsVia(live, ps - {p}, n, k)
  {
    var here, rest := Extended(RootPaths(live, p, k), n), PathsVia(live, ps - {p}, n, k);
    forall q | q in here
      ensures q !in rest && q in PathsVia(live, ps, n, k)
    {
      var a :| a in RootPaths(live, p, k) && q == a + [n];
      PathsEndAt(live, p, k, a);
      forall p', b | p' in ps - {p} && b in RootPaths(live, p', k)
        ensures q != b + [n]
      {
        PathsEndAt(live, p', k, b);
        assert (a + [n])[|a| - 1] == p && (b + [n])[|b| - 1] == p';
      }
    }
    forall q | q in PathsVia(live, ps, n, k)
      ensures q in here + rest
    {
      var p', b :| p' in ps && b in RootPaths(live, p', k) && q == b + [n];
    }
  }

  lemma ParentTermIsExtendedSum(live: Graph, raw: RawData, p: Name, n: Name, k: nat)
    ensures ParentTerm(live, raw, n, k)(p) == Sum(Extended(RootPaths(live, p, k), n), PathTerm(live, raw))
  {
    hide Weight, RootPaths, PathTerm, Sum;
    ExtendedSum(live, raw, p, n, k);
  }

  /** The paths into n, grouped by the parent they arrive from. */
  lemma {:induction false} PathsGroupedByParent(live: Graph, raw: RawData, ps: set<Name>, n: Name, k: nat)
    ensures Sum(PathsVia(live, ps, n, k), PathTerm(live, raw)) == Sum(ps, ParentTerm(live, raw, n, k))
    decreases |ps|
  {
    hide PathTerm, Weight, RootPaths, ParentTerm;
    if ps == {} {
      assert PathsVia(live, ps, n, k) == {};
    } else {
      var p :| p in ps;
      PathsSplit(live, ps, p, n, k);
      SumDisjoint(Extended(RootPaths(live, p, k), n), PathsVia(live, ps - {p}, n, k), PathTerm(live, raw));
      ParentTermIsExtendedSum(live, raw, p, n, k);
      PathsGroupedByParent(live, raw, ps - {p}, n, k);
      SumPick(ps, ParentTerm(live, raw, n, k), p);
    }
  }

  /** A child's power in a solution is the weighted sum over its parents. */
  lemma SolutionInflow(live: Graph, raw: RawData, ps: Powers, n: Name, all: set<Name>)
    requires Solves(live, raw, ps) && n in live && !IsRoot(live, n)
    requires Elements(Parents(live, n)) <= all
    ensures Power(ps, n) == Sum(all, Inflow(live, raw, ps, n))
  {
    var cs := Contributors(live, raw, ps, n);
    forall p | p in all - cs
      ensures Inflow(live, raw, ps, n)(p) == 0.0
    {
      if Share(live, raw, p, n).Some? {
        ShareNeedsParent(raw, live[n].parents, p);
      }
    }
    SumSupport(cs, all, Inflow(live, raw, ps, n));
    assert Satisfies(live, raw, ps, n);
  }

  lemma {:induction false} ShareNeedsParent(raw: RawData, parents: seq<ParentRef>, p: Name)
    requires Coefficient(raw, parents, p).Some?
    ensures exists i :: 0 <= i < |parents| && parents[i].name == p
  {
    if parents[0].name != p {
      ShareNeedsParent(raw, parents[1..], p);
      var i :| 0 <= i < |parents[1..]| && parents[1..][i].name == p;
      assert parents[i + 1].name == p;
    }
  }

  lemma RootPowerIsPathSum(live: Graph, raw: RawData, ps: Powers, n: Name, k: nat)
    requires Solves(live, raw, ps) && IsRoot(live, n)
    ensures Power(ps, n) == Sum(RootPaths(live, n, k), PathTerm(live, raw))
  {
    assert Satisfies(live, raw, ps, n);
    SumPick({[n]}, PathTerm(live, raw), [n]);
    assert {[n]} - {[n]} == {};
  }

  lemma InflowIsParentTerm(live: Graph, raw: RawData, ps: Powers, n: Name, k: nat, p: Name)
    requires Power(ps, p) == Sum(RootPaths(live, p, k), PathTerm(live, raw))
    ensures Inflow(live, raw, ps, n)(p) == ParentTerm(live, raw, n, k)(p)
  {
    hide Weight, Power, RootPaths, PathTerm, Sum;
  }

  lemma ChildPowerIsPathSum(live: Graph, raw: RawData, ps: Powers, n: Name, k: nat)
    requires Solves(live, raw, ps) && n in live && !IsRoot(live, n) && k > 0
    requires forall p :: p in Parents(live, n) ==>
               Power(ps, p) == Sum(RootPaths(live, p, k - 1), PathTerm(live, raw))
    ensures Power(ps, n) == Sum(RootPaths(live, n, k), PathTerm(live, raw))
  {
    hide PathTerm, Inflow, ParentTerm, Evaluated, Sum;
    var all := Elements(Parents(live, n));
    SolutionInflow(live, raw, ps, n, all);
    forall p | p in all
      ensures Inflow(live, raw, ps, n)(p) == ParentTerm(live, raw, n, k - 1)(p)
    {
      InflowIsParentTerm(live, raw, ps, n, k - 1, p);
    }
    SumEqual(all, Inflow(live, raw, ps, n), ParentTerm(live, raw, n, k - 1));
    PathsGroupedByParent(live, raw, all, n, k - 1);
    assert PathsVia(live, all, n, k - 1) == RootPaths(live, n, k);
  }

  /** The power of every resource is the sum, over all paths from a root, of the root's power
      times the coefficients on the path. */
  lemma {:induction false} PowerIsPathSum(live: Graph, raw: RawData, ps: Powers, n: Name, k: nat)
    requires Solves(live, raw, ps) && n in live && ChainAtMost(live, n, k)
    requires Closed(live)
    ensures Power(ps, n) == Sum(RootPaths(live, n, k), PathTerm(live, raw))
    decreases k
  {
    hide PathTerm, Evaluated, Sum, RootPaths;
    if IsRoot(live, n) {
      RootPowerIsPathSum(live, raw, ps, n, k);
    } else {
      assert live[n].ParentNames()[0] in Parents(live, n);
      forall p | p in Parents(live, n)
        ensures Power(ps, p) == Sum(RootPaths(live, p, k - 1), PathTerm(live, raw))
      {
        PowerIsPathSum(live, raw, ps, p, k - 1);
      }
      ChildPowerIsPathSum(live, raw, ps, n, k);
    }
  }
}
