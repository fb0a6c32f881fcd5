/** From any state a run can leave behind, two passes over every resource without failures bring
    files, Prometheus and conditions to the one state the specifications determine; the rules
    loaded then record the power of the whole graph. */
module RuleFileConvergence {
  import opened Conditions
  import opened ParentGraph
  import opened RecordingRules
  import opened RuleFileProtocol
  import opened RuleFileSafety
  import Evaluation
  import GraphValidation
  import PowerEquations
  import PromQL
  import RuleScheduling
  import RuleSemantics
  import Sums

  function DoneStatus(generation: nat): Status {
    var yes := Condition(True, generation);
    Status(yes, yes, yes)
  }

  /** Nothing is left to do for n. */
  predicate Done(w: World, n: Name) {
    && Held(w, n) && !w.objects[n].resource.deleting
    && w.objects[n].status == DoneStatus(w.objects[n].generation)
    && Current(w, n) && w.loaded == w.ruleFiles
  }

  /** The specification was found invalid, and that is on record. */
  predicate Rejected(w: World, n: Name) {
    && Held(w, n) && !w.objects[n].resource.deleting
    && w.objects[n].status.validated == Condition(False, w.objects[n].generation)
    && w.objects[n].status.ready == Condition(Unknown, w.objects[n].generation)
  }

  predicate Valid(w: World, n: Name) {
    n in w.objects && Validates(w, w.objects[n].resource, {})
  }

  /** Every live resource has a specification that validates against the others. */
  ghost predicate Steady(w: World) {
    forall n :: n in LiveGraph(w) ==> Validates(w, LiveGraph(w)[n], {})
  }

  function CompiledFiles(live: Graph): RuleFiles {
    map n | n in live :: Written(CompiledFile(live[n]))
  }

  /* ---- One pass without failures ---- */

  lemma CalmRelease(w: World, n: Name)
    requires n in w.objects && SaneObject(n, w.objects[n]) && w.objects[n].resource.deleting
    ensures var files := w.ruleFiles - {n};
            Reconcile(w, n, {}) == World(w.objects - {n}, files, files)
  {
    var s := Start(w, n);
    assert Pipeline[0..] == Pipeline;
    RunUnfolds(0, s, {});
  }

  lemma CalmFinalizer(w: World, n: Name)
    requires n in w.objects && SaneObject(n, w.objects[n])
    requires !w.objects[n].resource.deleting && !w.objects[n].finalizer
    ensures Reconcile(w, n, {}) == w.(objects := w.objects[n := w.objects[n].(finalizer := true).WithReady(Unknown)])
  {
    var s := Start(w, n);
    assert Pipeline[0..] == Pipeline;
    RunUnfolds(0, s, {});
    RunUnfolds(1, s, {});
  }

  lemma CalmCompletion(w: World, n: Name)
    requires n in w.objects && SaneObject(n, w.objects[n]) && w.objects[n].finalizer
    requires !w.objects[n].resource.deleting && Validates(w, w.objects[n].resource, {})
    ensures var o, files := w.objects[n], w.ruleFiles[n := Written(CompiledFile(w.objects[n].resource))];
            Reconcile(w, n, {}) == World(w.objects[n := o.(status := DoneStatus(o.generation))], files, files)
  {
    var s := Start(w, n);
    assert Pipeline[0..] == Pipeline;
    RunUnfolds(0, s, {});
    RunUnfolds(1, s, {});
    LateRun(s, {});
    hide Validates, CompiledFile;
  }

  lemma CalmRejection(w: World, n: Name)
    requires n in w.objects && SaneObject(n, w.objects[n]) && w.objects[n].finalizer
    requires !w.objects[n].resource.deleting && !Valid(w, n)
    ensures Reconcile(w, n, {}) == w.(objects := w.objects[n := w.objects[n].WithReady(Unknown).WithValidated(False)])
  {
    var s := Start(w, n);
    assert Pipeline[0..] == Pipeline;
    RunUnfolds(0, s, {});
    RunUnfolds(1, s, {});
    LateRun(s, {});
    hide Validates, CompiledFile, RuleFileStep;
  }

  /** So does one over a rejected resource. */
  lemma RejectedPassIsIdle(w: World, n: Name)
    requires Inv(w) && Rejected(w, n) && !Valid(w, n)
    ensures Reconcile(w, n, {}) == w
  {
    CalmRejection(w, n);
    hide Reconcile, Valid;
    assert w.objects[n := w.objects[n]] == w.objects;
  }

  /** A further pass over a finished resource changes nothing at all. */
  lemma DonePassIsIdle(w: World, n: Name)
    requires Inv(w) && Done(w, n) && Validates(w, w.objects[n].resource, {})
    ensures Reconcile(w, n, {}) == w
  {
    CalmCompletion(w, n);
    hide Reconcile, Validates;
    assert w.objects[n := w.objects[n]] == w.objects;
    assert w.ruleFiles[n := w.ruleFiles[n]] == w.ruleFiles;
  }

  /* ---- Many passes ---- */

  /** Nothing changes for n any more: it is finished if it validates, and rejected if it does not. */
  predicate AtRest(w: World, n: Name)
    requires n in w.objects
  {
    if Valid(w, n) then Done(w, n) else Rejected(w, n)
  }

  /** How far n has come: finalizer, then everything; a deleted resource is at rest when it is gone. */
  function Stage(w: World, n: Name): nat {
    if n !in w.objects then 2
    else if AtRest(w, n) then 2
    else if Held(w, n) && !w.objects[n].resource.deleting then 1
    else 0
  }

  /** What one pass without failures does to n, and what it leaves alone. */
  ghost predicate Advances(w: World, next: World, n: Name) {
    && Inv(next) && LiveGraph(next) == LiveGraph(w) && next.objects.Keys <= w.objects.Keys
    && Stage(next, n) >= (if Stage(w, n) == 0 then 1 else 2)
    && forall m :: Stage(next, m) >= Stage(w, m)
  }

  lemma SameVerdict(w: World, next: World, m: Name)
    requires LiveGraph(next) == LiveGraph(w)
    requires m in w.objects && m in next.objects && next.objects[m].resource == w.objects[m].resource
    ensures Valid(next, m) <==> Valid(w, m)
  {
    hide Accepts, ValidSpec;
  }

  /** The pass has changed n and files of n alone, if the files were loaded. */
  ghost predicate LeavesOthers(w: World, next: World, n: Name) {
    && OnlyFileOf(w, next.(objects := w.objects), n)
    && (w.loaded == w.ruleFiles ==> next.loaded == next.ruleFiles)
    && forall m :: m != n ==>
         (m in next.objects <==> m in w.objects) && (m in w.objects ==> next.objects[m] == w.objects[m])
  }

  lemma OthersKeepStage(w: World, next: World, n: Name, m: Name)
    requires LiveGraph(next) == LiveGraph(w) && LeavesOthers(w, next, n) && m != n
    ensures Stage(next, m) >= Stage(w, m)
  {
    hide LiveGraph, Valid, CompiledFile;
    if m in w.objects {
      SameVerdict(w, next, m);
      OtherFilesStay(w, next.(objects := w.objects), n, m);
    }
  }

  lemma OnlyOneAdvances(w: World, next: World, n: Name)
    requires Inv(next) && LiveGraph(next) == LiveGraph(w) && next.objects.Keys <= w.objects.Keys
    requires LeavesOthers(w, next, n) && Stage(next, n) >= (if Stage(w, n) == 0 then 1 else 2)
    ensures Advances(w, next, n)
  {
    hide Inv, LiveGraph, LeavesOthers, Stage;
    StageBound(w, n);
    forall m
      ensures Stage(next, m) >= Stage(w, m)
    {
      if m != n {
        OthersKeepStage(w, next, n, m);
      }
    }
  }

  lemma StageBound(w: World, n: Name)
    ensures Stage(w, n) <= 2
  {
  }

  /** In any state, and whatever is wrong with other specifications. */
  lemma CalmPassAdvances(w: World, n: Name)
    requires Inv(w)
    ensures Advances(w, Reconcile(w, n, {}), n)
  {
    hide Reconcile, Valid, CompiledFile;
    if n in w.objects {
      PassSafe(w, n, {});
      var o, next := w.objects[n], Reconcile(w, n, {});
      hide Inv, Advances;
      SaneAt(w, n);
      if o.resource.deleting {
        CalmRelease(w, n);
        ReleaseAdvances(w, n);
      } else if !o.finalizer {
        CalmFinalizer(w, n);
        FinalizerAdvances(w, n);
      } else if Valid(w, n) {
        ValidAt(w, n);
        CalmCompletion(w, n);
        CompletionAdvances(w, n);
      } else {
        CalmRejection(w, n);
        RejectionAdvances(w, n);
      }
    } else {
      NothingToDo(w, n);
    }
  }

  lemma SaneAt(w: World, n: Name)
    requires Inv(w) && n in w.objects
    ensures SaneObject(n, w.objects[n])
  {
  }

  lemma ValidAt(w: World, n: Name)
    requires Valid(w, n)
    ensures Validates(w, w.objects[n].resource, {})
  {
  }

  lemma NothingToDo(w: World, n: Name)
    requires Inv(w) && n !in w.objects
    ensures Advances(w, Reconcile(w, n, {}), n)
  {
  }

  lemma ReleaseAdvances(w: World, n: Name)
    requires n in w.objects && w.objects[n].resource.deleting
    requires Inv(World(w.objects - {n}, w.ruleFiles - {n}, w.ruleFiles - {n}))
    ensures Advances(w, World(w.objects - {n}, w.ruleFiles - {n}, w.ruleFiles - {n}), n)
  {
    hide Inv, AtRest;
    OnlyOneAdvances(w, World(w.objects - {n}, w.ruleFiles - {n}, w.ruleFiles - {n}), n);
  }

  lemma FinalizerAdvances(w: World, n: Name)
    requires n in w.objects && !w.objects[n].resource.deleting && !w.objects[n].finalizer
    requires Inv(w.(objects := w.objects[n := w.objects[n].(finalizer := true).WithReady(Unknown)]))
    ensures Advances(w, w.(objects := w.objects[n := w.objects[n].(finalizer := true).WithReady(Unknown)]), n)
  {
    hide Inv, Valid, CompiledFile;
    OnlyOneAdvances(w, w.(objects := w.objects[n := w.objects[n].(finalizer := true).WithReady(Unknown)]), n);
  }

  lemma CompletionAdvances(w: World, n: Name)
    requires n in w.objects && w.objects[n].finalizer && !w.objects[n].resource.deleting && Valid(w, n)
    requires var o, files := w.objects[n], w.ruleFiles[n := Written(CompiledFile(w.objects[n].resource))];
             Inv(World(w.objects[n := o.(status := DoneStatus(o.generation))], files, files))
    ensures var o, files := w.objects[n], w.ruleFiles[n := Written(CompiledFile(w.objects[n].resource))];
            Advances(w, World(w.objects[n := o.(status := DoneStatus(o.generation))], files, files), n)
  {
    hide Inv, Valid, CompiledFile;
    var o, files := w.objects[n], w.ruleFiles[n := Written(CompiledFile(w.objects[n].resource))];
    var next := World(w.objects[n := o.(status := DoneStatus(o.generation))], files, files);
    SameVerdict(w, next, n);
    OnlyOneAdvances(w, next, n);
  }

  lemma RejectionAdvances(w: World, n: Name)
    requires n in w.objects && w.objects[n].finalizer && !w.objects[n].resource.deleting && !Valid(w, n)
    requires Inv(w.(objects := w.objects[n := w.objects[n].WithReady(Unknown).WithValidated(False)]))
    ensures Advances(w, w.(objects := w.objects[n := w.objects[n].WithReady(Unknown).WithValidated(False)]), n)
  {
    hide Inv, Valid, CompiledFile;
    var next := w.(objects := w.objects[n := w.objects[n].WithReady(Unknown).WithValidated(False)]);
    SameVerdict(w, next, n);
    OnlyOneAdvances(w, next, n);
  }

  /** Passes without failures over the named resources, one after the other. */
  function Sweep(w: World, names: seq<Name>): World {
    if names == [] then w else Reconcile(Sweep(w, names[..|names| - 1]), names[|names| - 1], {})
  }

  ghost predicate Swept(w: World, end: World, names: seq<Name>) {
    && Inv(end) && LiveGraph(end) == LiveGraph(w) && end.objects.Keys <= w.objects.Keys
    && forall n :: Stage(end, n) >= 2 || Stage(end, n) >= Stage(w, n) + multiset(names)[n]
  }

  lemma {:induction false} SweepAdvances(w: World, names: seq<Name>)
    requires Inv(w)
    ensures Swept(w, Sweep(w, names), names)
  {
    hide Inv, Stage, Reconcile, LiveGraph;
    if names != [] {
      var init, last := names[..|names| - 1], names[|names| - 1];
      SweepAdvances(w, init);
      CalmPassAdvances(Sweep(w, init), last);
      assert names == init + [last];
    }
  }

  lemma SameGraphSteady(w: World, next: World)
    requires Steady(w) && LiveGraph(next) == LiveGraph(w)
    ensures Steady(next)
  {
    hide Accepts;
  }

  /* ---- Every resource comes to rest ---- */

  /** What is stored are the live resources; one is finished exactly if it validates against the others,
      and otherwise rejected. */
  ghost predicate AllAtRest(w: World, live: Graph) {
    && LiveGraph(w) == live && w.objects.Keys == live.Keys
    && forall n :: n in w.objects ==> (Done(w, n) <==> Valid(w, n)) && (Rejected(w, n) <==> !Valid(w, n))
  }

  lemma StagesAtRest(w: World, n: Name)
    requires n in w.objects && Stage(w, n) >= 2
    ensures !w.objects[n].resource.deleting
    ensures (Done(w, n) <==> Valid(w, n)) && (Rejected(w, n) <==> !Valid(w, n))
  {
    hide Valid, CompiledFile;
  }

  lemma AtRestIsIdle(w: World, n: Name)
    requires Inv(w) && Stage(w, n) >= 2
    ensures Reconcile(w, n, {}) == w
  {
    hide Inv, CompiledFile, Validates;
    if n in w.objects {
      StagesAtRest(w, n);
      if Valid(w, n) {
        DonePassIsIdle(w, n);
      } else {
        RejectedPassIsIdle(w, n);
      }
    }
  }

  /** Self-healing, resource by resource: whatever edits, deletions, crashes and failures came before,
      once every stored resource has had two passes without failures, in any order, the deleted ones are
      gone, a live one is Ready with its compiled file on disk and loaded exactly if its specification
      validates against the others, and a rejected one says so. Further passes change nothing. */
  lemma SweepsSettle(w: World, names: seq<Name>)
    requires ReachableWorld(w) && forall n :: n in w.objects ==> multiset(names)[n] >= 2
    ensures AllAtRest(Sweep(w, names), LiveGraph(w))
    ensures forall n :: Reconcile(Sweep(w, names), n, {}) == Sweep(w, names)
  {
    hide Reconcile, Valid, Done, Rejected, Inv, Sweep, Stage;
    ReachableIsSafe(w);
    SweepAdvances(w, names);
    var end := Sweep(w, names);
    forall n
      ensures Reconcile(end, n, {}) == end
    {
      GoneIsStaged(end, n);
      AtRestIsIdle(end, n);
    }
    forall n | n in end.objects
      ensures !end.objects[n].resource.deleting
      ensures (Done(end, n) <==> Valid(end, n)) && (Rejected(end, n) <==> !Valid(end, n))
    {
      StagesAtRest(end, n);
    }
  }

  lemma GoneIsStaged(w: World, n: Name)
    ensures n !in w.objects ==> Stage(w, n) == 2
  {
  }

  /* ---- The one final state ---- */

  ghost predicate Converged(w: World, live: Graph) {
    && LiveGraph(w) == live && w.objects.Keys == live.Keys
    && w.ruleFiles == CompiledFiles(live) && w.loaded == w.ruleFiles
    && forall n :: n in w.objects ==> Done(w, n)
  }

  lemma AllValidIsConverged(w: World, live: Graph)
    requires Inv(w) && AllAtRest(w, live) && Steady(w)
    ensures Converged(w, live)
  {
    hide CompiledFile, Validates;
    forall n | n in w.objects
      ensures Done(w, n)
    {
      assert LiveGraph(w)[n] == w.objects[n].resource;
    }
  }

  /** When all live specifications validate, every live resource is Ready, and both the disk and
      Prometheus hold exactly the compiled files. */
  lemma SweepsConverge(w: World, names: seq<Name>)
    requires ReachableWorld(w) && Steady(w)
    requires forall n :: n in w.objects ==> multiset(names)[n] >= 2
    ensures Converged(Sweep(w, names), LiveGraph(w))
    ensures forall n :: Reconcile(Sweep(w, names), n, {}) == Sweep(w, names)
  {
    hide Reconcile, Inv, Sweep, Stage, Steady, AllAtRest, Converged;
    ReachableIsSafe(w);
    SweepAdvances(w, names);
    SweepsSettle(w, names);
    SameGraphSteady(w, Sweep(w, names));
    AllValidIsConverged(Sweep(w, names), LiveGraph(w));
  }

  /* ---- Ready can mislead ---- */

  /** A root resource that validates on its own. */
  predicate PlainRoot(r: Resource) {
    r.parents == [] && !r.deleting && ValidSpec(r)
  }

  lemma PlainRootValidates(w: World, r: Resource, faults: set<Effect>)
    requires PlainRoot(r)
    ensures Validates(w, r, faults)
  {
    assert r.ParentNames() == [];
  }

  function Setup(r: Resource): seq<Event> {
    [Create(r), Pass(r.name, {}), Pass(r.name, {})]
  }

  function Stored(r: Resource): World {
    World(map[r.name := Object(r, 1, false, NoStatus)], map[], map[])
  }

  function Finished(r: Resource): World {
    var files := map[r.name := Written(CompiledFile(r))];
    World(map[r.name := Object(r, 1, true, DoneStatus(1))], files, files)
  }

  lemma SetupFinishes(r: Resource)
    requires PlainRoot(r)
    ensures RunEvents(Initial, Setup(r)) == Finished(r)
  {
    var setup := Setup(r);
    assert setup[..2][..1][..0] == [] && setup[..2][..1] == [Create(r)] && setup[..2] == [Create(r), Pass(r.name, {})];
    assert RunEvents(Initial, setup[..2][..1]) == Stored(r);
    CalmFinalizer(Stored(r), r.name);
    var once := Reconcile(Stored(r), r.name, {});
    PlainRootValidates(once, r, {});
    CalmCompletion(once, r.name);
    hide Reconcile, CompiledFile, Validates;
    assert RunEvents(Initial, setup[..2]) == once;
    assert once.ruleFiles[r.name := Written(CompiledFile(r))] == Finished(r).ruleFiles;
    assert Reconcile(once, r.name, {}).objects == Finished(r).objects;
  }

  /** Both ways in which Ready comes to stand over another file can happen: a torn write nobody could
      record, and an edit of what a template refers to. */
  lemma ReadyCanMislead(r: Resource, energyMetric: string)
    requires PlainRoot(r) && energyMetric != r.energyMetric
    ensures var ready := RunEvents(Initial, Setup(r));
      && LosesTear(ready, Pass(r.name, {WriteTorn, FinalPatch}))
      && OutdatesFile(ready, Rerender(r.name, energyMetric, []))
    ensures !AlwaysTruthful(Setup(r) + [Pass(r.name, {WriteTorn, FinalPatch})])
    ensures !AlwaysTruthful(Setup(r) + [Rerender(r.name, energyMetric, [])])
  {
    SetupFinishes(r);
    PlainRootValidates(Finished(r), r, {WriteTorn, FinalPatch});
    OtherMetricOtherFile(r, energyMetric);
    hide RunEvents, Validates, CompiledFile, Rerendered;
    MisleadingRun(Setup(r), Pass(r.name, {WriteTorn, FinalPatch}));
    MisleadingRun(Setup(r), Rerender(r.name, energyMetric, []));
  }

  lemma OtherMetricOtherFile(r: Resource, energyMetric: string)
    requires r.parents == [] && energyMetric != r.energyMetric
    ensures CompiledFile(Rerendered(r, energyMetric, [])) != CompiledFile(r)
  {
    var q := Rerendered(r, energyMetric, []);
    hide CoefficientRules;
    assert Rules(q)[0].expr != Rules(r)[0].expr;
    assert CompiledFile(q).groups[0].rules == Rules(q) && CompiledFile(r).groups[0].rules == Rules(r);
  }

  lemma MisleadingRun(setup: seq<Event>, e: Event)
    requires Misleads(RunEvents(Initial, setup), e)
    ensures !AlwaysTruthful(setup + [e])
  {
    var events := setup + [e];
    hide RunEvents, Misleads, AlwaysTruthful;
    assert events[..|setup|] == setup && events[|setup|] == e;
    ReadyMeansCurrent(events);
  }

  /* ---- What the loaded rules record ---- */

  ghost predicate LoadedRule(loaded: RuleFiles, rule: RecordingRule) {
    exists n, g :: n in loaded && loaded[n].Written? && g in loaded[n].file.groups && rule in g.rules
  }

  lemma LoadedRulesExact(rs: seq<Resource>, rule: RecordingRule)
    requires RuleSemantics.Snapshot(rs)
    ensures LoadedRule(CompiledFiles(LiveMap(rs)), rule) <==> rule in Evaluation.AllRules(rs)
  {
    hide Rules, LiveMap, RuleSemantics.Snapshot;
    var live := LiveMap(rs);
    var files := CompiledFiles(live);
    Evaluation.AllRulesExact(rs, rule);
    RuleSemantics.SnapshotLookup(rs);
    if rule in Evaluation.AllRules(rs) {
      var r :| r in rs && rule in Rules(r);
      assert r.name in files && files[r.name] == Written(CompiledFile(r));
      assert CompiledFile(r).groups[0] in files[r.name].file.groups;
    }
  }

  lemma SteadyGraphIsAccepted(w: World)
    requires Steady(w)
    ensures GraphValidation.AcceptsAll(LiveGraph(w))
  {
    hide Accepts;
  }

  /** Every loaded rule runs at least once in each stretch of time, and no other rule runs. */
  ghost predicate RunsLoaded(loaded: RuleFiles, orders: seq<seq<RecordingRule>>) {
    forall order, rule :: order in orders ==> (rule in order <==> LoadedRule(loaded, rule))
  }

  lemma LoadedPassesAreComplete(loaded: RuleFiles, rs: seq<Resource>, orders: seq<seq<RecordingRule>>)
    requires RuleSemantics.Snapshot(rs) && loaded == CompiledFiles(LiveMap(rs)) && RunsLoaded(loaded, orders)
    ensures forall order :: order in orders ==> RuleScheduling.CompletePass(rs, order)
  {
    hide LoadedRule, RuleSemantics.Snapshot, LiveMap, CompiledFiles, Evaluation.AllRules, Evaluation.IsRuleOf;
    forall order, rule | order in orders
      ensures rule in order <==> Evaluation.IsRuleOf(rs, rule)
    {
      LoadedRulesExact(rs, rule);
      Evaluation.AllRulesExact(rs, rule);
    }
  }

  /** What any evaluation of the loaded rules comes to over an accepted snapshot. */
  lemma LoadedRulesRecordSolution(rs: seq<Resource>, raw: PromQL.RawData, orders: seq<seq<RecordingRule>>,
      store: PromQL.Vector)
    requires RuleSemantics.Snapshot(rs) && GraphValidation.AcceptsAll(LiveMap(rs))
    requires RunsLoaded(CompiledFiles(LiveMap(rs)), orders) && |orders| >= |rs| + 2
    requires RuleScheduling.Plausible(store, rs, raw)
    ensures RuleSemantics.Represents(RuleScheduling.EvaluatePasses(orders, raw, store), rs, raw,
                                     PowerEquations.Rounds(LiveMap(rs), raw, |rs| + 1), true)
  {
    hide *;
    var live := LiveMap(rs);
    LoadedPassesAreComplete(CompiledFiles(live), rs, orders);
    Evaluation.AcceptedIsClosed(rs);
    forall n | n in live
      ensures PowerEquations.ChainAtMost(live, n, |rs|)
    {
      Evaluation.AcceptedChains(rs, n);
    }
    Evaluation.RoundsStayInside(live, raw, |rs| + 1);
    PowerEquations.UniqueSolution(live, raw, |rs|, |rs| + 1);
    RuleScheduling.AnyOrderRecordsSolution(orders, rs, raw, store, PowerEquations.Rounds(live, raw, |rs| + 1), |rs|);
  }

  /** From stored specifications to recorded power: after such passes let Prometheus evaluate the rules
      in the files it has loaded, one at a time, in any order and as often as it likes, so that each
      runs at least once in |rs| + 2 successive stretches of time. From any series such rules may have
      left, what is recorded then is for every resource the sum over all its root paths of coefficient
      products times root power, the only solution of the loaded rules. */
  lemma OperatorRecordsPathSums(w: World, names: seq<Name>, rs: seq<Resource>, raw: PromQL.RawData,
      orders: seq<seq<RecordingRule>>, store: PromQL.Vector)
    requires ReachableWorld(w) && Steady(w)
    requires forall n :: n in w.objects ==> multiset(names)[n] >= 2
    requires RuleSemantics.Snapshot(rs) && LiveMap(rs) == LiveGraph(w)
    requires RunsLoaded(Sweep(w, names).loaded, orders) && |orders| >= |rs| + 2
    requires RuleScheduling.Plausible(store, rs, raw)
    ensures var live, ps := LiveMap(rs), PowerEquations.Rounds(LiveMap(rs), raw, |rs| + 1);
      && RuleSemantics.Represents(RuleScheduling.EvaluatePasses(orders, raw, store), rs, raw, ps, true)
      && PowerEquations.Solves(live, raw, ps)
      && (forall qs :: PowerEquations.Solves(live, raw, qs) ==> qs == ps)
      && forall n :: n in live ==>
           PowerEquations.Power(ps, n)
             == Sums.Sum(PowerEquations.RootPaths(live, n, |rs|), PowerEquations.PathTerm(live, raw))
  {
    hide *;
    assert Converged(Sweep(w, names), LiveGraph(w)) by { SweepsConverge(w, names); }
    ConvergedLoads(Sweep(w, names), LiveGraph(w));
    SteadyGraphIsAccepted(w);
    Evaluation.AcceptedSnapshotRecordsPathSums(rs, raw, |rs| + 1);
    LoadedRulesRecordSolution(rs, raw, orders, store);
  }

  lemma ConvergedLoads(w: World, live: Graph)
    requires Converged(w, live)
    ensures w.loaded == CompiledFiles(live)
  {
  }
}
