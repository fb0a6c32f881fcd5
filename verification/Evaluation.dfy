/** Prometheus evaluating every emitted rule of a snapshot, round after round. */
module Evaluation {
  import opened Options
  import opened ParentGraph
  import opened PromQL
  import opened PowerEquations
  import opened RecordingRules
  import opened RuleSemantics
  import Conservation
  import GraphValidation
  import opened Sums

  ghost function Output(rule: RecordingRule, raw: RawData, store: Vector): Vector {
    Recorded(rule.record, rule.expr, rule.labels, raw, store)
  }

  /** What evaluating the rules over one store records. */
  ghost function Outputs(rules: seq<RecordingRule>, raw: RawData, store: Vector): Vector {
    if rules == [] then map[]
    else Outputs(rules[..|rules| - 1], raw, store) + Output(rules[|rules| - 1], raw, store)
  }

  function AllRules(rs: seq<Resource>): seq<RecordingRule> {
    if rs == [] then [] else AllRules(rs[..|rs| - 1]) + Rules(rs[|rs| - 1])
  }

  /** The recorded series after k synchronous rounds from an empty store. */
  ghost function StoreAfter(rs: seq<Resource>, raw: RawData, k: nat): Vector {
    if k == 0 then map[] else Outputs(AllRules(rs), raw, StoreAfter(rs, raw, k - 1))
  }

  ghost predicate IsRuleOf(rs: seq<Resource>, rule: RecordingRule) {
    exists r :: r in rs && rule in Rules(r)
  }

  lemma {:induction false} AllRulesExact(rs: seq<Resource>, rule: RecordingRule)
    ensures rule in AllRules(rs) <==> IsRuleOf(rs, rule)
  {
    hide Rules;
    if rs != [] {
      var init, last := rs[..|rs| - 1], rs[|rs| - 1];
      AllRulesExact(init, rule);
      assert forall r :: r in rs <==> r in init || r == last;
    }
  }

  lemma SortedCoefficientsExact(r: Resource, p: ParentRef)
    ensures p in SortedCoefficients(r.parents) <==> p in r.parents && p.coefficient != ""
  {
    var ps := SortedCoefficients(r.parents);
    FilteredElements(r.parents, p);
    assert p in multiset(ps) <==> p in ps;
    assert p in multiset(r.parents) <==> p in r.parents;
  }

  ghost predicate IsCoefficientRule(r: Resource, rule: RecordingRule) {
    exists p :: p in r.parents && p.coefficient != "" && rule == CoefficientRule(r.name, p)
  }

  lemma CoefficientRulesFound(r: Resource, rule: RecordingRule)
    ensures rule in CoefficientRules(r) <==> IsCoefficientRule(r, rule)
  {
    hide SortedCoefficients, CoefficientRule;
    var ps := SortedCoefficients(r.parents);
    if rule in CoefficientRules(r) {
      var i :| 0 <= i < |CoefficientRules(r)| && CoefficientRules(r)[i] == rule;
      SortedCoefficientsExact(r, ps[i]);
    }
    if IsCoefficientRule(r, rule) {
      var p :| p in r.parents && p.coefficient != "" && rule == CoefficientRule(r.name, p);
      SortedCoefficientsExact(r, p);
      var i :| 0 <= i < |ps| && ps[i] == p;
      assert CoefficientRules(r)[i] == rule;
    }
  }

  lemma RulesExact(r: Resource, rule: RecordingRule)
    ensures rule in Rules(r) <==> (rule == PowerRule(r) || IsCoefficientRule(r, rule))
  {
    hide CoefficientRules, PowerRule, IsCoefficientRule;
    CoefficientRulesFound(r, rule);
  }

  lemma RenamedSingle(s: Series, v: real, f: Series -> Series)
    ensures Renamed(map[s := v], f) == Some(map[f(s) := v])
  {
    var m := map[s := v];
    assert s in m;
    var renamed := Renamed(m, f).value;
    assert renamed == map[f(s) := v];
  }

  lemma CoefficientOutput(r: Resource, p: ParentRef, raw: RawData, store: Vector)
    ensures Output(CoefficientRule(r.name, p), raw, store)
         == if p.coefficient in raw then map[CoefficientSeries(raw, r, p) := raw[p.coefficient].value] else map[]
  {
    if p.coefficient in raw {
      RenamedSingle(Series("", raw[p.coefficient].labels), raw[p.coefficient].value,
                    Stamp(CoefficientMetricName, EdgeLabels(r.name, p)));
    }
  }

  ghost function SampleOf(labels: Labels, x: Option<real>): Vector {
    if x.None? then map[] else map[Series("", labels) := x.value]
  }

  ghost function PowerSample(raw: RawData, r: Resource, x: Option<real>): Vector {
    if x.None? then map[] else map[WattsSeries(raw, r) := x.value]
  }

  lemma StampedSample(r: Resource, raw: RawData, store: Vector, x: Option<real>, base: Labels)
    requires x.Some? ==> Series(EnergyMetricName, DropEmpty(base + SharedLabels(r, map[]))) == WattsSeries(raw, r)
    requires Eval(PowerRule(r).expr, raw, store) == Some(SampleOf(base, x))
    ensures Output(PowerRule(r), raw, store) == PowerSample(raw, r, x)
  {
    hide SharedLabels, WattsSeries, DropEmpty, Eval;
    if x.Some? {
      RenamedSingle(Series("", base), x.value, Stamp(EnergyMetricName, SharedLabels(r, map[])));
    }
  }

  lemma RootOutput(r: Resource, live: Graph, raw: RawData, store: Vector, ps: Powers)
    requires r.name in live && live[r.name] == r && r.parents == []
    ensures Output(PowerRule(r), raw, store) == PowerSample(raw, r, Evaluated(live, raw, ps, r.name))
  {
    StampedSample(r, raw, store, Evaluated(live, raw, ps, r.name), RawLabels(raw, r.energyMetric));
  }

  /** The power rule of r records exactly the value its equation gives, as one series. */
  lemma PowerOutput(r: Resource, rs: seq<Resource>, raw: RawData, store: Vector, ps: Powers, started: bool)
    requires Snapshot(rs) && r in rs && Represents(store, rs, raw, ps, started)
    requires ps.Keys <= LiveMap(rs).Keys && (started || ps == map[])
    requires r.name in LiveMap(rs) && LiveMap(rs)[r.name] == r
    ensures Output(PowerRule(r), raw, store) == PowerSample(raw, r, Evaluated(LiveMap(rs), raw, ps, r.name))
  {
    if r.parents == [] {
      RootOutput(r, LiveMap(rs), raw, store, ps);
    } else {
      WeightedSumMeaning(store, rs, raw, ps, started, r);
      hide Eval, Snapshot, Represents, LiveMap, Output, Evaluated, WeightedSum;
      StampedSample(r, raw, store, Evaluated(LiveMap(rs), raw, ps, r.name), map[]);
    }
  }

  lemma {:induction false} OutputsSound(rules: seq<RecordingRule>, rs: seq<Resource>, raw: RawData, store: Vector,
      ps: Powers)
    requires forall rule, s :: rule in rules && s in Output(rule, raw, store) ==>
               Recordable(rs, raw, ps, true, s, Output(rule, raw, store)[s])
    ensures forall s :: s in Outputs(rules, raw, store) ==>
              Recordable(rs, raw, ps, true, s, Outputs(rules, raw, store)[s])
  {
    if rules != [] {
      OutputsSound(rules[..|rules| - 1], rs, raw, store, ps);
    }
  }

  lemma {:induction false} OutputsComplete(rules: seq<RecordingRule>, raw: RawData, store: Vector,
      rule: RecordingRule, s: Series)
    requires rule in rules && s in Output(rule, raw, store)
    ensures s in Outputs(rules, raw, store)
  {
    if rule != rules[|rules| - 1] {
      assert rules == rules[..|rules| - 1] + [rules[|rules| - 1]];
      OutputsComplete(rules[..|rules| - 1], raw, store, rule, s);
    }
  }

  lemma RuleRecordsItsEquation(rule: RecordingRule, s: Series, rs: seq<Resource>, raw: RawData, store: Vector,
      ps: Powers, started: bool)
    requires Snapshot(rs) && Represents(store, rs, raw, ps, started)
    requires ps.Keys <= LiveMap(rs).Keys && (started || ps == map[])
    requires rule in AllRules(rs) && s in Output(rule, raw, store)
    ensures Recordable(rs, raw, Step(LiveMap(rs), raw, ps), true, s, Output(rule, raw, store)[s])
  {
    hide Snapshot, Represents, LiveMap, Output, Rules, AllRules, Evaluated;
    hide WattsSeries, CoefficientSeries, CoefficientRule, PowerRule;
    AllRulesExact(rs, rule);
    var r :| r in rs && rule in Rules(r);
    SnapshotLookup(rs);
    RulesExact(r, rule);
    var next := Step(LiveMap(rs), raw, ps);
    if rule == PowerRule(r) {
      PowerOutput(r, rs, raw, store, ps, started);
      assert HasPower(rs, raw, next, s, next[r.name]);
    } else {
      var p :| p in r.parents && p.coefficient != "" && rule == CoefficientRule(r.name, p);
      CoefficientOutput(r, p, raw, store);
      assert IsEdge(rs, raw, r, p);
      assert HasCoefficient(rs, raw, s, raw[p.coefficient].value);
    }
  }

  lemma EquationHasRule(s: Series, v: real, rs: seq<Resource>, raw: RawData, store: Vector, ps: Powers, started: bool)
    requires Snapshot(rs) && Represents(store, rs, raw, ps, started)
    requires ps.Keys <= LiveMap(rs).Keys && (started || ps == map[])
    requires Recordable(rs, raw, Step(LiveMap(rs), raw, ps), true, s, v)
    ensures s in Outputs(AllRules(rs), raw, store)
  {
    hide Snapshot, Represents, LiveMap, Output, Outputs, Rules, AllRules, Evaluated;
    hide WattsSeries, CoefficientSeries, CoefficientRule, PowerRule;
    SnapshotLookup(rs);
    var next := Step(LiveMap(rs), raw, ps);
    if HasPower(rs, raw, next, s, v) {
      var r :| r in rs && r.name in next && s == WattsSeries(raw, r) && v == next[r.name];
      PowerOutput(r, rs, raw, store, ps, started);
      RulesExact(r, PowerRule(r));
      AllRulesExact(rs, PowerRule(r));
      OutputsComplete(AllRules(rs), raw, store, PowerRule(r), s);
    } else {
      var r, p :| IsEdge(rs, raw, r, p) && s == CoefficientSeries(raw, r, p) && v == raw[p.coefficient].value;
      CoefficientOutput(r, p, raw, store);
      RulesExact(r, CoefficientRule(r.name, p));
      AllRulesExact(rs, CoefficientRule(r.name, p));
      OutputsComplete(AllRules(rs), raw, store, CoefficientRule(r.name, p), s);
    }
  }

  /** One round over series is one step of the equations. */
  lemma RoundIsStep(rs: seq<Resource>, raw: RawData, store: Vector, ps: Powers, started: bool)
    requires Snapshot(rs) && Represents(store, rs, raw, ps, started)
    requires ps.Keys <= LiveMap(rs).Keys && (started || ps == map[])
    ensures Represents(Outputs(AllRules(rs), raw, store), rs, raw, Step(LiveMap(rs), raw, ps), true)
  {
    hide Snapshot, Outputs, Output, AllRules, LiveMap, Recordable, Step;
    var next := Step(LiveMap(rs), raw, ps);
    var recorded := Outputs(AllRules(rs), raw, store);
    forall rule, s | rule in AllRules(rs) && s in Output(rule, raw, store)
      ensures Recordable(rs, raw, next, true, s, Output(rule, raw, store)[s])
    {
      RuleRecordsItsEquation(rule, s, rs, raw, store, ps, started);
    }
    OutputsSound(AllRules(rs), rs, raw, store, next);
    forall s, v | Recordable(rs, raw, next, true, s, v)
      ensures s in recorded && recorded[s] == v
    {
      EquationHasRule(s, v, rs, raw, store, ps, started);
      RecordingsApart(rs, raw, next, true, s, v, recorded[s]);
    }
  }

  lemma EmptyStoreRepresents(rs: seq<Resource>, raw: RawData)
    ensures Represents(map[], rs, raw, map[], false)
  {
  }

  lemma RoundsStayInside(live: Graph, raw: RawData, k: nat)
    ensures Rounds(live, raw, k).Keys <= live.Keys
  {
  }

  /** Compilation is faithful for every snapshot, cyclic or not: after k rounds the store holds
      exactly the series of the k-th iterate of the power equations. */
  lemma {:induction false} CompilationFaithful(rs: seq<Resource>, raw: RawData, k: nat)
    requires Snapshot(rs)
    ensures Represents(StoreAfter(rs, raw, k), rs, raw, Rounds(LiveMap(rs), raw, k), k > 0)
  {
    hide Snapshot, Represents, LiveMap, Step, Outputs, AllRules;
    if k == 0 {
      EmptyStoreRepresents(rs, raw);
    } else {
      CompilationFaithful(rs, raw, k - 1);
      RoundsStayInside(LiveMap(rs), raw, k - 1);
      RoundIsStep(rs, raw, StoreAfter(rs, raw, k - 1), Rounds(LiveMap(rs), raw, k - 1), k > 1);
    }
  }

  /* ---- From validation to recorded power ---- */

  lemma ParentLowersRank(live: Graph, rank: map<Name, nat>, n: Name)
    requires GraphValidation.RankedBy(live, rank) && n in live
    ensures Parents(live, n) == [] || rank[n] > 0
  {
    var parents := Parents(live, n);
    if parents != [] {
      assert parents[0] in parents;
      assert rank[parents[0]] < rank[n];
    }
  }

  lemma {:induction false} RankBoundsChain(live: Graph, rank: map<Name, nat>, n: Name, k: nat)
    requires GraphValidation.RankedBy(live, rank) && n in live && rank[n] <= k
    ensures ChainAtMost(live, n, k)
    decreases k
  {
    if k > 0 {
      forall p | p in Parents(live, n)
        ensures ChainAtMost(live, p, k - 1)
      {
        RankBoundsChain(live, rank, p, k - 1);
      }
    } else {
      ParentLowersRank(live, rank, n);
    }
  }

  lemma {:induction false} LiveMapSize(rs: seq<Resource>)
    ensures |LiveMap(rs)| <= |rs|
  {
    if rs != [] {
      var k := |rs| - 1;
      LiveMapSize(rs[..k]);
      var live, r := LiveMap(rs[..k]), rs[k];
      assert live[r.name := r].Keys == live.Keys + {r.name};
    }
  }

  lemma AncestorCountSmall(live: Graph, n: Name)
    requires GraphValidation.WellNamed(live) && GraphValidation.AcceptsAll(live) && n in live
    ensures GraphValidation.AncestorCounts(live)[n] <= |live|
  {
    ValidationExact(live, live[n]);
    var visited := Validated(live, live[n]).visited;
    GraphValidation.DistinctSize(visited);
    assert Elements(visited) <= live.Keys;
    GraphValidation.SubsetAtMost(Elements(visited), live.Keys);
  }

  lemma AcceptedChains(rs: seq<Resource>, n: Name)
    requires GraphValidation.AcceptsAll(LiveMap(rs)) && n in LiveMap(rs)
    ensures ChainAtMost(LiveMap(rs), n, |rs|)
  {
    var live := LiveMap(rs);
    GraphValidation.AcceptedGraphIsRanked(live);
    AncestorCountSmall(live, n);
    LiveMapSize(rs);
    RankBoundsChain(live, GraphValidation.AncestorCounts(live), n, |rs|);
  }

  /** End to end: if validateGraph accepts every listed resource against the list, then from round
      |rs| + 1 on Prometheus records for every resource the sum over all root paths of coefficient
      products times root power; these values are the only solution of the emitted rules. */
  lemma AcceptedSnapshotRecordsPathSums(rs: seq<Resource>, raw: RawData, j: nat)
    requires Snapshot(rs) && GraphValidation.AcceptsAll(LiveMap(rs)) && j > |rs|
    ensures var live, ps := LiveMap(rs), Rounds(LiveMap(rs), raw, j);
      && Represents(StoreAfter(rs, raw, j), rs, raw, ps, true)
      && Solves(live, raw, ps) && (forall qs :: Solves(live, raw, qs) ==> qs == ps)
      && (forall n :: n in live ==> Power(ps, n) == Sum(RootPaths(live, n, |rs|), PathTerm(live, raw)))
  {
    hide Snapshot, Represents, LiveMap, Rounds, StoreAfter, PathTerm, RootPaths, Sum;
    var live := LiveMap(rs);
    forall n | n in live
      ensures ChainAtMost(live, n, |rs|)
    {
      AcceptedChains(rs, n);
    }
    AcceptedIsClosed(rs);
    UniqueSolution(live, raw, |rs|, j);
    CompilationFaithful(rs, raw, j);
    forall n | n in live
      ensures Power(Rounds(live, raw, j), n) == Sum(RootPaths(live, n, |rs|), PathTerm(live, raw))
    {
      PowerIsPathSum(live, raw, Rounds(live, raw, j), n, |rs|);
    }
  }

  lemma AcceptedIsClosed(rs: seq<Resource>)
    requires GraphValidation.AcceptsAll(LiveMap(rs))
    ensures Closed(LiveMap(rs))
  {
    GraphValidation.AcceptsAllExact(LiveMap(rs));
  }

  /** What Prometheus records over an accepted snapshot conserves energy, and all of it reaches the
      childless resources if and only if every powered resource with children shares out all it has. */
  lemma AcceptedSnapshotConservesEnergy(rs: seq<Resource>, raw: RawData, j: nat)
    requires Snapshot(rs) && GraphValidation.AcceptsAll(LiveMap(rs)) && j > |rs|
    requires Conservation.NonNegativeInputs(LiveMap(rs), raw) && Conservation.FractionalShares(LiveMap(rs), raw)
    ensures var live, ps := LiveMap(rs), Rounds(LiveMap(rs), raw, j);
      && Represents(StoreAfter(rs, raw, j), rs, raw, ps, true)
      && var leaves, supply := Sum(Conservation.Leaves(live), Conservation.PowerOf(ps)),
                               Sum(Conservation.Roots(live), Conservation.PowerOf(ps));
         && leaves <= supply
         && (leaves == supply <==> forall p :: p in Conservation.Inner(live) ==>
               Power(ps, p) == 0.0 || Conservation.SharedOut(live, raw, p) == 1.0)
  {
    hide Snapshot, Represents, LiveMap, Rounds, StoreAfter, Sum;
    var live := LiveMap(rs);
    AcceptedSnapshotRecordsPathSums(rs, raw, j);
    AcceptedIsClosed(rs);
    forall n | n in live
      ensures ChainAtMost(live, n, |rs|)
    {
      AcceptedChains(rs, n);
    }
    Conservation.EnergyConserved(live, raw, Rounds(live, raw, j), |rs|);
  }
}
