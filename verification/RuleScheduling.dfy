/** Prometheus evaluating the emitted rules one at a time, each group on its own timer: whatever the
    order, the recorded series settle on the one solution of the power equations. */
module RuleScheduling {
  import opened Options
  import opened ParentGraph
  import opened PromQL
  import opened PowerEquations
  import opened RecordingRules
  import opened RuleSemantics
  import opened Evaluation

  /** s carries the rule's record name and labels, as everything the rule records does. */
  predicate Carries(rule: RecordingRule, s: Series) {
    s.metric == rule.record && forall k :: k in rule.labels ==> Label(s.labels, k) == rule.labels[k]
  }

  /** Evaluating one rule replaces what it recorded before and keeps every other series. */
  ghost function EvaluateRule(rule: RecordingRule, raw: RawData, store: Vector): Vector {
    (map s | s in store && !Carries(rule, s) :: store[s]) + Output(rule, raw, store)
  }

  ghost function EvaluateRules(order: seq<RecordingRule>, raw: RawData, store: Vector): Vector {
    if order == [] then store
    else EvaluateRule(order[|order| - 1], raw, EvaluateRules(order[..|order| - 1], raw, store))
  }

  ghost function EvaluatePasses(orders: seq<seq<RecordingRule>>, raw: RawData, store: Vector): Vector {
    if orders == [] then store
    else EvaluateRules(orders[|orders| - 1], raw, EvaluatePasses(orders[..|orders| - 1], raw, store))
  }

  /* ---- Stores in the middle of evaluation ---- */

  ghost predicate IsWatts(rs: seq<Resource>, raw: RawData, s: Series) {
    exists r :: r in rs && s == WattsSeries(raw, r)
  }

  /** Power series of the snapshot with any values, some of its coefficients, and nothing else. */
  ghost predicate Plausible(store: Vector, rs: seq<Resource>, raw: RawData) {
    forall s :: s in store ==> IsWatts(rs, raw, s) || HasCoefficient(rs, raw, s, store[s])
  }

  ghost predicate CoefficientsRecorded(store: Vector, rs: seq<Resource>, raw: RawData) {
    forall r, p :: IsEdge(rs, raw, r, p) ==> CoefficientSeries(raw, r, p) in store
  }

  ghost function PowersIn(store: Vector, live: Graph, raw: RawData): Powers {
    map n | n in live && WattsSeries(raw, live[n]) in store :: store[WattsSeries(raw, live[n])]
  }

  lemma WattsAreNoCoefficients(rs: seq<Resource>, raw: RawData, r: Resource, s: Series, v: real)
    requires HasCoefficient(rs, raw, s, v)
    ensures s != WattsSeries(raw, r)
  {
    MetricsDiffer(rs, raw, map[], s, v, v);
  }

  /** With all coefficients there, such a store represents the powers in it. */
  lemma PlausibleRepresents(store: Vector, rs: seq<Resource>, raw: RawData)
    requires Snapshot(rs) && Plausible(store, rs, raw) && CoefficientsRecorded(store, rs, raw)
    ensures Represents(store, rs, raw, PowersIn(store, LiveMap(rs), raw), true)
  {
    hide Snapshot, LiveMap, WattsSeries, CoefficientSeries;
    SnapshotLookup(rs);
    var ps := PowersIn(store, LiveMap(rs), raw);
    forall s | s in store
      ensures Recordable(rs, raw, ps, true, s, store[s])
    {
      if IsWatts(rs, raw, s) {
        var r :| r in rs && s == WattsSeries(raw, r);
        assert HasPower(rs, raw, ps, s, store[s]);
      }
    }
    forall s, v | Recordable(rs, raw, ps, true, s, v)
      ensures s in store && store[s] == v
    {
      if HasCoefficient(rs, raw, s, v) {
        var r, p :| IsEdge(rs, raw, r, p) && s == CoefficientSeries(raw, r, p) && v == raw[p.coefficient].value;
        RecordedCoefficient(store, rs, raw, s, v);
      }
    }
  }

  lemma RecordedCoefficient(store: Vector, rs: seq<Resource>, raw: RawData, s: Series, v: real)
    requires Snapshot(rs) && Plausible(store, rs, raw) && s in store && HasCoefficient(rs, raw, s, v)
    ensures store[s] == v
  {
    hide Snapshot, WattsSeries, CoefficientSeries;
    if IsWatts(rs, raw, s) {
      var r :| r in rs && s == WattsSeries(raw, r);
      WattsAreNoCoefficients(rs, raw, r, s, v);
    }
    EdgesApart(rs, raw, s, store[s], v);
  }

  /* ---- What one rule leaves alone ---- */

  lemma PowerCarries(raw: RawData, r: Resource)
    ensures Carries(PowerRule(r), WattsSeries(raw, r))
  {
  }

  lemma PowerCarriesOwn(rs: seq<Resource>, raw: RawData, r: Resource, q: Resource)
    requires Snapshot(rs) && r in rs && q in rs && Carries(PowerRule(r), WattsSeries(raw, q))
    ensures q == r
  {
    hide Snapshot, WattsSeries;
    PowerLabels(r);
    WattsLabel(raw, q);
    SameName(rs, r, q);
  }

  lemma PowerCarriesNoEdge(raw: RawData, r: Resource, q: Resource, p: ParentRef)
    ensures !Carries(PowerRule(r), CoefficientSeries(raw, q, p))
    ensures !Carries(CoefficientRule(q.name, p), WattsSeries(raw, r))
  {
    assert |EnergyMetricName| != |CoefficientMetricName|;
  }

  lemma EdgeCarriesOwn(rs: seq<Resource>, raw: RawData, r: Resource, p: ParentRef, q: Resource, o: ParentRef)
    requires Snapshot(rs) && r in rs && p in r.parents && IsEdge(rs, raw, q, o)
    requires Carries(CoefficientRule(r.name, p), CoefficientSeries(raw, q, o))
    ensures q == r && o == p
  {
    hide Snapshot, CoefficientSeries;
    CoefficientLabels(raw, q, o);
    var labels := CoefficientRule(r.name, p).labels;
    assert labels["parent"] == p.name && labels["child"] == r.name;
    SameName(rs, r, q);
    SnapshotParents(rs, r);
    SameParent(r.parents, p, o);
  }

  /** Whatever is in the store, a power rule records at most its resource's own series. */
  lemma PowerOutputShape(r: Resource, raw: RawData, store: Vector)
    ensures forall s :: s in Output(PowerRule(r), raw, store) ==> s == WattsSeries(raw, r)
  {
    if r.parents == [] {
      RootOutput(r, map[r.name := r], raw, store, map[]);
      hide Output;
    } else {
      SumShape(WeightedSum(r.name), raw, store);
      hide Eval;
      var result := Eval(PowerRule(r).expr, raw, store);
      if result.Some? {
        if result.value == map[] {
          StampedSample(r, raw, store, None, map[]);
        } else {
          StampedSample(r, raw, store, Some(result.value[Series("", map[])]), map[]);
        }
      }
    }
  }

  lemma SumShape(e: Expr, raw: RawData, store: Vector)
    requires e.SumOf?
    ensures var v := Eval(e, raw, store);
      v == None || v == Some(map[]) || exists x :: v == Some(map[Series("", map[]) := x])
  {
  }

  /* ---- One rule ---- */

  lemma EvaluatingKeepsPlausible(rule: RecordingRule, rs: seq<Resource>, raw: RawData, store: Vector)
    requires Snapshot(rs) && Plausible(store, rs, raw) && IsRuleOf(rs, rule)
    ensures Plausible(EvaluateRule(rule, raw, store), rs, raw)
  {
    hide Snapshot, Output, Rules, WattsSeries, CoefficientSeries, PowerRule, CoefficientRule, Carries;
    var r :| r in rs && rule in Rules(r);
    RulesExact(r, rule);
    if rule == PowerRule(r) {
      PowerOutputShape(r, raw, store);
      forall s | s in Output(rule, raw, store)
        ensures IsWatts(rs, raw, s)
      {
      }
    } else {
      var p :| p in r.parents && p.coefficient != "" && rule == CoefficientRule(r.name, p);
      CoefficientOutput(r, p, raw, store);
      if p.coefficient in raw {
        assert IsEdge(rs, raw, r, p);
        assert HasCoefficient(rs, raw, CoefficientSeries(raw, r, p), raw[p.coefficient].value);
      }
    }
  }

  /** No rule takes a recorded coefficient away. */
  lemma EvaluatingKeepsCoefficient(rule: RecordingRule, rs: seq<Resource>, raw: RawData, store: Vector,
      q: Resource, o: ParentRef)
    requires Snapshot(rs) && IsRuleOf(rs, rule) && IsEdge(rs, raw, q, o)
    requires CoefficientSeries(raw, q, o) in store || rule == CoefficientRule(q.name, o)
    ensures CoefficientSeries(raw, q, o) in EvaluateRule(rule, raw, store)
  {
    hide Snapshot, Output, Rules, CoefficientSeries, PowerRule, CoefficientRule, Carries;
    CoefficientOutput(q, o, raw, store);
    if rule != CoefficientRule(q.name, o) {
      var r :| r in rs && rule in Rules(r);
      RulesExact(r, rule);
      if rule == PowerRule(r) {
        PowerCarriesNoEdge(raw, r, q, o);
      } else {
        var p :| p in r.parents && p.coefficient != "" && rule == CoefficientRule(r.name, p);
        if Carries(rule, CoefficientSeries(raw, q, o)) {
          EdgeCarriesOwn(rs, raw, r, p, q, o);
        }
      }
    }
  }

  /** A coefficient rule leaves all power as it is. */
  lemma CoefficientKeepsPower(r: Resource, p: ParentRef, rs: seq<Resource>, raw: RawData, store: Vector)
    requires Snapshot(rs)
    ensures PowersIn(EvaluateRule(CoefficientRule(r.name, p), raw, store), LiveMap(rs), raw)
         == PowersIn(store, LiveMap(rs), raw)
  {
    hide Snapshot, Output, CoefficientSeries, WattsSeries, LiveMap, CoefficientRule, Carries;
    CoefficientOutput(r, p, raw, store);
    var live := LiveMap(rs);
    forall n | n in live
      ensures var s, next := WattsSeries(raw, live[n]), EvaluateRule(CoefficientRule(r.name, p), raw, store);
        (s in next <==> s in store) && (s in next ==> next[s] == store[s])
    {
      PowerCarriesNoEdge(raw, live[n], r, p);
      SeriesDiffer(raw, live[n], r, p);
    }
  }

  lemma SeriesDiffer(raw: RawData, r: Resource, q: Resource, p: ParentRef)
    ensures WattsSeries(raw, r) != CoefficientSeries(raw, q, p)
  {
    assert |EnergyMetricName| != |CoefficientMetricName|;
  }

  ghost predicate SameSample(store: Vector, next: Vector, s: Series) {
    (s in next <==> s in store) && (s in next ==> next[s] == store[s])
  }

  lemma PowerRecords(r: Resource, rs: seq<Resource>, raw: RawData, store: Vector)
    requires Snapshot(rs) && r in rs && Plausible(store, rs, raw) && CoefficientsRecorded(store, rs, raw)
    ensures r.name in LiveMap(rs) && LiveMap(rs)[r.name] == r
    ensures Output(PowerRule(r), raw, store)
         == PowerSample(raw, r, Evaluated(LiveMap(rs), raw, PowersIn(store, LiveMap(rs), raw), r.name))
  {
    hide Snapshot, Output, LiveMap, PowerRule, Evaluated, Represents, Plausible, CoefficientsRecorded;
    SnapshotLookup(rs);
    PlausibleRepresents(store, rs, raw);
    PowerOutput(r, rs, raw, store, PowersIn(store, LiveMap(rs), raw), true);
  }

  lemma PowerKeepsOthers(r: Resource, q: Resource, rs: seq<Resource>, raw: RawData, store: Vector, x: Option<real>)
    requires Snapshot(rs) && r in rs && q in rs && q != r
    requires Output(PowerRule(r), raw, store) == PowerSample(raw, r, x)
    ensures SameSample(store, EvaluateRule(PowerRule(r), raw, store), WattsSeries(raw, q))
  {
    hide Snapshot, Output, WattsSeries, PowerRule, Carries;
    if Carries(PowerRule(r), WattsSeries(raw, q)) {
      PowerCarriesOwn(rs, raw, r, q);
    }
    if WattsSeries(raw, q) == WattsSeries(raw, r) {
      PowerCarries(raw, r);
    }
  }

  lemma PowerReplacesOwn(r: Resource, raw: RawData, store: Vector, x: Option<real>)
    requires Output(PowerRule(r), raw, store) == PowerSample(raw, r, x)
    ensures var s, next := WattsSeries(raw, r), EvaluateRule(PowerRule(r), raw, store);
      if x.None? then s !in next else s in next && next[s] == x.value
  {
    hide Output, WattsSeries, PowerRule, Carries;
    PowerCarries(raw, r);
  }

  /** A power rule updates its resource's power by its equation and leaves all other power as it is. */
  lemma PowerUpdates(r: Resource, rs: seq<Resource>, raw: RawData, store: Vector)
    requires Snapshot(rs) && r in rs && Plausible(store, rs, raw) && CoefficientsRecorded(store, rs, raw)
    ensures PowersIn(EvaluateRule(PowerRule(r), raw, store), LiveMap(rs), raw)
         == EvaluateOne(LiveMap(rs), raw, PowersIn(store, LiveMap(rs), raw), r.name)
  {
    hide Snapshot, Output, WattsSeries, LiveMap, PowerRule, Evaluated, PowerSample, EvaluateRule;
    hide Plausible, CoefficientsRecorded;
    var live := LiveMap(rs);
    var ps, next := PowersIn(store, live, raw), EvaluateRule(PowerRule(r), raw, store);
    PowerRecords(r, rs, raw, store);
    PowerReplacesOwn(r, raw, store, Evaluated(live, raw, ps, r.name));
    SnapshotLookup(rs);
    forall n | n in live && n != r.name
      ensures SameSample(store, next, WattsSeries(raw, live[n]))
    {
      PowerKeepsOthers(r, live[n], rs, raw, store, Evaluated(live, raw, ps, r.name));
    }
    forall n | n in live
      ensures AgreeAt(PowersIn(next, live, raw), EvaluateOne(live, raw, ps, r.name), n)
    {
    }
    PowersEqual(live, PowersIn(next, live, raw), EvaluateOne(live, raw, ps, r.name));
  }

  /* ---- Many rules ---- */

  /** The resources whose power a list of rules evaluates, in that order. */
  function PowerNames(order: seq<RecordingRule>): seq<Name> {
    if order == [] then []
    else
      var last := order[|order| - 1];
      PowerNames(order[..|order| - 1])
        + if last.record == EnergyMetricName && "resource" in last.labels then [last.labels["resource"]] else []
  }

  lemma PowerNameOf(r: Resource, p: ParentRef)
    ensures PowerRule(r).record == EnergyMetricName
    ensures "resource" in PowerRule(r).labels && PowerRule(r).labels["resource"] == r.name
    ensures CoefficientRule(r.name, p).record != EnergyMetricName
  {
    PowerLabels(r);
    assert |EnergyMetricName| != |CoefficientMetricName|;
  }

  ghost predicate RulesOf(rs: seq<Resource>, order: seq<RecordingRule>) {
    forall rule :: rule in order ==> IsRuleOf(rs, rule)
  }

  lemma EvaluatingUpdates(rule: RecordingRule, rs: seq<Resource>, raw: RawData, store: Vector)
    requires Snapshot(rs) && IsRuleOf(rs, rule) && Plausible(store, rs, raw) && CoefficientsRecorded(store, rs, raw)
    ensures PowersIn(EvaluateRule(rule, raw, store), LiveMap(rs), raw)
         == if rule.record == EnergyMetricName && "resource" in rule.labels
            then EvaluateOne(LiveMap(rs), raw, PowersIn(store, LiveMap(rs), raw), rule.labels["resource"])
            else PowersIn(store, LiveMap(rs), raw)
  {
    hide Snapshot, Rules, LiveMap, PowerRule, CoefficientRule, EvaluateRule, EvaluateOne, PowersIn;
    hide Plausible, CoefficientsRecorded;
    var r :| r in rs && rule in Rules(r);
    RulesExact(r, rule);
    if rule == PowerRule(r) {
      PowerNameOf(r, ParentRef("", ""));
      PowerUpdates(r, rs, raw, store);
    } else {
      var p :| p in r.parents && p.coefficient != "" && rule == CoefficientRule(r.name, p);
      PowerNameOf(r, p);
      CoefficientKeepsPower(r, p, rs, raw, store);
    }
  }

  lemma EvaluatingKeepsCoefficients(rule: RecordingRule, rs: seq<Resource>, raw: RawData, store: Vector)
    requires Snapshot(rs) && IsRuleOf(rs, rule) && CoefficientsRecorded(store, rs, raw)
    ensures CoefficientsRecorded(EvaluateRule(rule, raw, store), rs, raw)
  {
    hide Snapshot, IsRuleOf, EvaluateRule, IsEdge, CoefficientSeries;
    forall q, o | IsEdge(rs, raw, q, o)
      ensures CoefficientSeries(raw, q, o) in EvaluateRule(rule, raw, store)
    {
      EvaluatingKeepsCoefficient(rule, rs, raw, store, q, o);
    }
  }

  /** Once all coefficients are there, evaluating rules is evaluating the equations they stand for. */
  lemma {:induction false} OrderIsOrder(order: seq<RecordingRule>, rs: seq<Resource>, raw: RawData, store: Vector)
    requires Snapshot(rs) && RulesOf(rs, order)
    requires Plausible(store, rs, raw) && CoefficientsRecorded(store, rs, raw)
    ensures var end := EvaluateRules(order, raw, store);
      && Plausible(end, rs, raw) && CoefficientsRecorded(end, rs, raw)
      && PowersIn(end, LiveMap(rs), raw)
           == EvaluateAll(LiveMap(rs), raw, PowersIn(store, LiveMap(rs), raw), PowerNames(order))
  {
    hide Snapshot, IsRuleOf, EvaluateRule, PowersIn, Plausible, CoefficientsRecorded, LiveMap, EvaluateOne;
    if order != [] {
      var init, last := order[..|order| - 1], order[|order| - 1];
      var before := EvaluateRules(init, raw, store);
      OrderIsOrder(init, rs, raw, store);
      EvaluatingKeepsPlausible(last, rs, raw, before);
      EvaluatingKeepsCoefficients(last, rs, raw, before);
      EvaluatingUpdates(last, rs, raw, before);
      NamesExtend(order);
      if last.record == EnergyMetricName && "resource" in last.labels {
        AllExtends(LiveMap(rs), raw, PowersIn(store, LiveMap(rs), raw), PowerNames(init), last.labels["resource"]);
      }
    }
  }

  lemma NamesExtend(order: seq<RecordingRule>)
    requires order != []
    ensures var init, last := order[..|order| - 1], order[|order| - 1];
      PowerNames(order) == if last.record == EnergyMetricName && "resource" in last.labels
                           then PowerNames(init) + [last.labels["resource"]] else PowerNames(init)
  {
  }

  lemma AllExtends(live: Graph, raw: RawData, ps: Powers, names: seq<Name>, n: Name)
    ensures EvaluateAll(live, raw, ps, names + [n]) == EvaluateOne(live, raw, EvaluateAll(live, raw, ps, names), n)
  {
    hide EvaluateOne;
    assert (names + [n])[..|names|] == names;
  }

  /** From any plausible store, the empty one included, one pass over all rules records all coefficients. */
  lemma {:induction false} FirstPassRecords(order: seq<RecordingRule>, rs: seq<Resource>, raw: RawData, store: Vector)
    requires Snapshot(rs) && RulesOf(rs, order) && Plausible(store, rs, raw)
    ensures Plausible(EvaluateRules(order, raw, store), rs, raw)
    ensures forall q, o :: IsEdge(rs, raw, q, o) && CoefficientRule(q.name, o) in order ==>
              CoefficientSeries(raw, q, o) in EvaluateRules(order, raw, store)
  {
    hide Snapshot, IsRuleOf, EvaluateRule, Plausible, IsEdge, CoefficientSeries, CoefficientRule;
    if order != [] {
      var init, last := order[..|order| - 1], order[|order| - 1];
      var before := EvaluateRules(init, raw, store);
      FirstPassRecords(init, rs, raw, store);
      EvaluatingKeepsPlausible(last, rs, raw, before);
      forall q, o | IsEdge(rs, raw, q, o) && CoefficientRule(q.name, o) in order
        ensures CoefficientSeries(raw, q, o) in EvaluateRules(order, raw, store)
      {
        EvaluatingKeepsCoefficient(last, rs, raw, before, q, o);
      }
    }
  }

  ghost predicate CompletePass(rs: seq<Resource>, order: seq<RecordingRule>) {
    forall rule :: rule in order <==> IsRuleOf(rs, rule)
  }

  lemma EdgeHasRule(rs: seq<Resource>, raw: RawData, r: Resource, p: ParentRef)
    requires IsEdge(rs, raw, r, p)
    ensures IsRuleOf(rs, CoefficientRule(r.name, p))
  {
    RulesExact(r, CoefficientRule(r.name, p));
    hide Rules, CoefficientRule;
  }

  lemma {:induction false} NamesComplete(order: seq<RecordingRule>, r: Resource)
    requires PowerRule(r) in order
    ensures r.name in PowerNames(order)
  {
    hide PowerRule;
    PowerNameOf(r, ParentRef("", ""));
    var init := order[..|order| - 1];
    if PowerRule(r) != order[|order| - 1] {
      assert order == init + [order[|order| - 1]];
      NamesComplete(init, r);
    }
  }

  lemma PassNamesAll(rs: seq<Resource>, order: seq<RecordingRule>, n: Name)
    requires CompletePass(rs, order) && n in LiveMap(rs)
    ensures n in PowerNames(order)
  {
    hide LiveMap, PowerRule, Rules;
    var r := LiveMap(rs)[n];
    RulesExact(r, PowerRule(r));
    assert IsRuleOf(rs, PowerRule(r));
    NamesComplete(order, r);
  }

  function AllPowerNames(orders: seq<seq<RecordingRule>>): (names: seq<seq<Name>>)
    ensures |names| == |orders|
    ensures forall i :: 0 <= i < |orders| ==> names[i] == PowerNames(orders[i])
  {
    seq(|orders|, i requires 0 <= i < |orders| => PowerNames(orders[i]))
  }

  lemma {:induction false} PassesArePasses(orders: seq<seq<RecordingRule>>, rs: seq<Resource>,
      raw: RawData, store: Vector)
    requires Snapshot(rs) && (forall order :: order in orders ==> RulesOf(rs, order))
    requires Plausible(store, rs, raw) && CoefficientsRecorded(store, rs, raw)
    ensures var end := EvaluatePasses(orders, raw, store);
      && Plausible(end, rs, raw) && CoefficientsRecorded(end, rs, raw)
      && PowersIn(end, LiveMap(rs), raw)
           == Passes(LiveMap(rs), raw, PowersIn(store, LiveMap(rs), raw), AllPowerNames(orders))
  {
    hide Snapshot, RulesOf, EvaluateRules, PowersIn, Plausible, CoefficientsRecorded, LiveMap, EvaluateAll, PowerNames;
    if orders != [] {
      var init, last := orders[..|orders| - 1], orders[|orders| - 1];
      PassesArePasses(init, rs, raw, store);
      OrderIsOrder(last, rs, raw, EvaluatePasses(init, raw, store));
      assert AllPowerNames(orders)[..|orders| - 1] == AllPowerNames(init);
    }
  }

  lemma PassesShift(orders: seq<seq<RecordingRule>>, raw: RawData, store: Vector)
    requires orders != []
    ensures EvaluatePasses(orders, raw, store)
         == EvaluatePasses(orders[1..], raw, EvaluateRules(orders[0], raw, store))
    decreases |orders|
  {
    hide EvaluateRules;
    if |orders| > 1 {
      PassesShift(orders[..|orders| - 1], raw, store);
      assert orders[..|orders| - 1][1..] == orders[1..][..|orders| - 2];
    } else {
      assert orders[..0] == [] && orders[1..] == [];
    }
  }

  lemma CompleteFirstPass(order: seq<RecordingRule>, rs: seq<Resource>, raw: RawData, store: Vector)
    requires Snapshot(rs) && CompletePass(rs, order) && Plausible(store, rs, raw)
    ensures var end := EvaluateRules(order, raw, store); Plausible(end, rs, raw) && CoefficientsRecorded(end, rs, raw)
  {
    hide Snapshot, IsRuleOf, EvaluateRules, Plausible, IsEdge, CoefficientSeries, CoefficientRule;
    FirstPassRecords(order, rs, raw, store);
    forall q, o | IsEdge(rs, raw, q, o)
      ensures CoefficientSeries(raw, q, o) in EvaluateRules(order, raw, store)
    {
      EdgeHasRule(rs, raw, q, o);
    }
  }

  lemma SettledIsSolution(live: Graph, solution: Powers, ps: Powers, k: nat, j: int)
    requires SettledBelow(live, solution, ps, j) && j > k && forall n :: n in live ==> ChainAtMost(live, n, k)
    requires solution.Keys <= live.Keys && ps.Keys <= live.Keys
    ensures ps == solution
  {
    hide ChainAtMost, AgreeAt;
    forall n | n in live
      ensures AgreeAt(ps, solution, n)
    {
    }
    PowersEqual(live, ps, solution);
  }

  /** Rule groups run on their own timers. Let every rule run at least once in each of k + 2 successive
      stretches of time, in any order and as often as one likes, starting from no series at all or from
      any series such rules may have left. When no ancestor chain is longer than k, the recorded series
      then are exactly those of the one solution. */
  lemma AnyOrderRecordsSolution(orders: seq<seq<RecordingRule>>, rs: seq<Resource>, raw: RawData, store: Vector,
      solution: Powers, k: nat)
    requires Snapshot(rs) && Plausible(store, rs, raw) && Closed(LiveMap(rs))
    requires forall n :: n in LiveMap(rs) ==> ChainAtMost(LiveMap(rs), n, k)
    requires Solves(LiveMap(rs), raw, solution) && solution.Keys <= LiveMap(rs).Keys
    requires |orders| >= k + 2 && forall order :: order in orders ==> CompletePass(rs, order)
    ensures Represents(EvaluatePasses(orders, raw, store), rs, raw, solution, true)
  {
    hide Snapshot, Represents, CompletePass, Solves, SettledBelow, ChainAtMost, LiveMap, EvaluateRules, EvaluatePasses;
    hide Plausible, CoefficientsRecorded, Passes, PowersIn, AllPowerNames;
    var live, rest := LiveMap(rs), orders[1..];
    var first := EvaluateRules(orders[0], raw, store);
    var end := EvaluatePasses(rest, raw, first);
    assert orders[0] in orders;
    CompleteFirstPass(orders[0], rs, raw, store);
    PassesShift(orders, raw, store);
    forall order | order in rest
      ensures CompletePass(rs, order) && RulesOf(rs, order)
    {
      assert order in orders;
      CompleteIsOf(rs, order);
    }
    PassesArePasses(rest, rs, raw, first);
    forall names, n | names in AllPowerNames(rest) && n in live
      ensures n in names
    {
      var i :| 0 <= i < |rest| && names == PowerNames(rest[i]);
      PassNamesAll(rs, rest[i], n);
    }
    AnyOrderConverges(live, raw, solution, PowersIn(first, live, raw), AllPowerNames(rest));
    PowersInside(end, live, raw);
    SettledIsSolution(live, solution, PowersIn(end, live, raw), k, |rest|);
    PlausibleRepresents(end, rs, raw);
  }

  lemma CompleteIsOf(rs: seq<Resource>, order: seq<RecordingRule>)
    requires CompletePass(rs, order)
    ensures RulesOf(rs, order)
  {
  }

  lemma PowersInside(store: Vector, live: Graph, raw: RawData)
    ensures PowersIn(store, live, raw).Keys <= live.Keys
  {
  }
}
