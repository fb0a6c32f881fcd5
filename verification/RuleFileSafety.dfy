/** Guarantees of the DataCenterResource reconciler in every run: no orphan rule files, and what
    Ready can be trusted for. */
module RuleFileSafety {
  import opened Conditions
  import opened Steps
  import opened ParentGraph
  import opened RecordingRules
  import opened RuleFileProtocol

  /** n is stored and its finalizer is persisted. */
  predicate Held(w: World, n: Name) {
    n in w.objects && w.objects[n].finalizer
  }

  predicate SaneObject(n: Name, o: Object) {
    && o.resource.name == n && (o.resource.deleting ==> o.finalizer)
    && o.status.ready.generation <= o.generation
  }

  ghost predicate Inv(w: World) {
    && (forall n :: n in w.objects ==> SaneObject(n, w.objects[n]))
    && (forall n :: n in w.ruleFiles || n in w.loaded ==> Held(w, n))
  }

  /* ---- One pass ---- */

  /** How a pass over n ends. */
  datatype Outcome =
    | Completed        // every step continued: Ready
    | CutShort         // a step failed; the finalizer is kept
    | FinalizerAdded   // nothing but the finalizer
    | Released         // file gone, reload done, finalizer dropped

  predicate OnlyFileOf(w: World, next: World, n: Name) {
    && next.objects == w.objects
    && next.ruleFiles - {n} == w.ruleFiles - {n}
    && (next.loaded == w.loaded || next.loaded == next.ruleFiles)
  }

  /** The pass gets as far as the write of the rule file, and the write tears. */
  predicate TearsWrite(w: World, r: Resource, faults: set<Effect>) {
    && Validates(w, r, faults) && WriteTorn in faults
    && faults !! {ResolveTemplates, MakeDirectory, MarshalFile, WriteRefused}
  }

  /** What a live resource's interrupted pass makes of its rule file. */
  predicate LeftFile(w: World, next: World, r: Resource, faults: set<Effect>) {
    if TearsWrite(w, r, faults) then next.ruleFiles == w.ruleFiles[r.name := Torn]
    else
      || next.ruleFiles == w.ruleFiles
      || (Validates(w, r, faults) && next.ruleFiles == w.ruleFiles[r.name := Written(CompiledFile(r))])
  }

  ghost predicate EndsAs(outcome: Outcome, w: World, n: Name, s: PassState, action: Action, faults: set<Effect>)
    requires n in w.objects
  {
    var o := w.objects[n];
    && OnlyFileOf(w, s.world, n) && s.obj.resource == o.resource && s.obj.generation == o.generation
    && action == (match outcome
                  case Completed => Continue
                  case CutShort => Error
                  case _ => Stop)
    && (match outcome
        case Completed =>
          && o.finalizer && s.obj.finalizer && !o.resource.deleting
          && s.obj.status.ready == Condition(True, o.generation)
          && Validates(w, o.resource, faults) && !TearsWrite(w, o.resource, faults)
          && n in s.world.ruleFiles && s.world.ruleFiles[n] == Written(CompiledFile(o.resource))
          && s.world.loaded == s.world.ruleFiles
        case CutShort =>
          && o.finalizer && s.obj.finalizer && s.obj.status.ready == Condition(Unknown, o.generation)
          && (!o.resource.deleting ==> LeftFile(w, s.world, o.resource, faults))
        case FinalizerAdded =>
          && !o.finalizer && s.obj.finalizer && !o.resource.deleting && s.world == w
          && s.obj.status.ready == Condition(Unknown, o.generation)
        case Released =>
          && o.finalizer && !s.obj.finalizer && o.resource.deleting
          && n !in s.world.ruleFiles && s.world.loaded == s.world.ruleFiles)
  }

  lemma RunUnfolds(i: nat, s: PassState, faults: set<Effect>)
    requires i <= 5
    ensures Run(Executor(faults), Pipeline[i..], s) ==
      if i == 5 then (s, Continue)
      else var (next, action) := Exec(Pipeline[i], s, faults);
           if action == Continue then Run(Executor(faults), Pipeline[i + 1..], next) else (next, action)
  {
    hide Exec;
    if i < 5 {
      assert Pipeline[i..][0] == Pipeline[i] && Pipeline[i..][1..] == Pipeline[i + 1..];
    }
  }

  function RunFrom(i: nat, s: PassState, faults: set<Effect>): (PassState, Action)
    requires i <= 5
  {
    Run(Executor(faults), Pipeline[i..], s)
  }

  /** Validation, then the rule file, then Ready. */
  lemma LateRun(s: PassState, faults: set<Effect>)
    ensures var (checked, valid) := ValidationStep(s, faults);
            var (written, applied) := RuleFileStep(checked, faults);
            RunFrom(2, s, faults) ==
              if valid != Continue then (checked, valid)
              else if applied != Continue then (written, applied)
              else ReadyStep(written)
  {
    hide ValidationStep, RuleFileStep;
    var checked := ValidationStep(s, faults).0;
    var written := RuleFileStep(checked, faults).0;
    RunUnfolds(2, s, faults);
    RunUnfolds(3, checked, faults);
    RunUnfolds(4, written, faults);
    RunUnfolds(5, ReadyStep(written).0, faults);
  }

  predicate StopsWrite(faults: set<Effect>) {
    !(faults !! {ResolveTemplates, MakeDirectory, MarshalFile, WriteRefused})
  }

  /** A failing write leaves every other file and every field but the conditions alone. */
  lemma WriteFailure(s: PassState, faults: set<Effect>)
    requires RuleFileStep(s, faults).1 != Continue
    ensures RuleFileStep(s, faults).1 == Error
    ensures var (next, action) := RuleFileStep(s, faults);
      && next.obj == s.obj.WithApplied(False) && OnlyFileOf(s.world, next.world, s.obj.resource.name)
      && next.world.ruleFiles ==
           if StopsWrite(faults) then s.world.ruleFiles
           else s.world.ruleFiles[s.obj.resource.name :=
             if WriteTorn in faults then Torn else Written(CompiledFile(s.obj.resource))]
  {
    hide CompiledFile;
  }

  lemma WriteSuccess(s: PassState, faults: set<Effect>)
    requires RuleFileStep(s, faults).1 == Continue
    ensures var (next, action) := RuleFileStep(s, faults);
            && WriteTorn !in faults && next.obj == s.obj.WithApplied(True)
            && OnlyFileOf(s.world, next.world, s.obj.resource.name)
            && s.obj.resource.name in next.world.ruleFiles
            && next.world.ruleFiles[s.obj.resource.name] == Written(CompiledFile(s.obj.resource))
            && next.world.loaded == next.world.ruleFiles
  {
    hide CompiledFile;
  }

  /** Validation and writing, once the finalizer is there. */
  lemma LateSteps(w: World, n: Name, s: PassState, faults: set<Effect>) returns (outcome: Outcome)
    requires n in w.objects && SaneObject(n, w.objects[n]) && s == Start(w, n)
    requires w.objects[n].finalizer && !w.objects[n].resource.deleting
    ensures EndsAs(outcome, w, n, RunFrom(2, s, faults).0, RunFrom(2, s, faults).1, faults)
  {
    LateRun(s, faults);
    var (checked, valid) := ValidationStep(s, faults);
    var (written, applied) := RuleFileStep(checked, faults);
    hide RunFrom, RuleFileStep, Validates, CompiledFile;
    if valid != Continue {
      outcome := CutShort;
    } else if applied != Continue {
      WriteFailure(checked, faults);
      outcome := CutShort;
    } else {
      WriteSuccess(checked, faults);
      outcome := Completed;
    }
  }

  lemma PassEnds(w: World, n: Name, faults: set<Effect>) returns (outcome: Outcome)
    requires n in w.objects && SaneObject(n, w.objects[n])
    ensures EndsAs(outcome, w, n, RunPipeline(Start(w, n), faults).0, RunPipeline(Start(w, n), faults).1, faults)
  {
    var s := Start(w, n);
    assert Pipeline[0..] == Pipeline;
    RunUnfolds(0, s, faults);
    RunUnfolds(1, s, faults);
    hide Run;
    if w.objects[n].resource.deleting {
      outcome := if RemoveFile in faults || Reload in faults then CutShort else Released;
    } else if !w.objects[n].finalizer {
      outcome := FinalizerAdded;
    } else {
      hide EndsAs;
      outcome := LateSteps(w, n, s, faults);
    }
  }

  /* ---- No orphans ---- */

  lemma OtherFilesStay(w: World, next: World, n: Name, m: Name)
    requires OnlyFileOf(w, next, n) && m != n
    ensures m in next.ruleFiles <==> m in w.ruleFiles
    ensures m in w.ruleFiles ==> next.ruleFiles[m] == w.ruleFiles[m]
  {
    assert m in next.ruleFiles <==> m in next.ruleFiles - {n};
    assert m in w.ruleFiles <==> m in w.ruleFiles - {n};
    assert m in w.ruleFiles ==> (w.ruleFiles - {n})[m] == w.ruleFiles[m];
  }

  lemma FilesStayHeld(w: World, next: World, n: Name)
    requires Inv(w) && Held(w, n) && OnlyFileOf(w, next, n)
    ensures forall m :: m in next.ruleFiles || m in next.loaded ==> Held(w, m)
  {
    forall m | m in next.ruleFiles
      ensures Held(w, m)
    {
      if m != n {
        OtherFilesStay(w, next, n, m);
      }
    }
  }

  lemma PassSafe(w: World, n: Name, faults: set<Effect>)
    requires Inv(w)
    ensures Inv(Reconcile(w, n, faults))
  {
    hide RunPipeline, Validates, TearsWrite, LeftFile, CompiledFile;
    if n in w.objects && GetObject !in faults {
      var outcome := PassEnds(w, n, faults);
      var next := RunPipeline(Start(w, n), faults).0.world;
      if Held(w, n) {
        FilesStayHeld(w, next, n);
      }
    }
  }

  lemma EventSafe(w: World, e: Event)
    requires Inv(w)
    ensures Inv(Apply(w, e))
  {
    hide Reconcile;
    if e.Pass? {
      PassSafe(w, e.name, e.faults);
    }
  }

  lemma {:induction false} RunSafe(w: World, events: seq<Event>)
    requires Inv(w)
    ensures Inv(RunEvents(w, events))
  {
    hide Inv, Apply;
    if events != [] {
      RunSafe(w, events[..|events| - 1]);
      EventSafe(RunEvents(w, events[..|events| - 1]), events[|events| - 1]);
    }
  }

  lemma ReachableIsSafe(w: World)
    requires ReachableWorld(w)
    ensures Inv(w)
  {
    var events :| w == RunEvents(Initial, events);
    RunSafe(Initial, events);
  }

  /** In every run, every rule file on disk and every rule file Prometheus has loaded belongs to a
      stored resource whose finalizer is persisted. */
  lemma NoOrphanRuleFiles(w: World)
    requires ReachableWorld(w)
    ensures forall n :: n in w.ruleFiles || n in w.loaded ==> Held(w, n)
  {
    ReachableIsSafe(w);
  }

  /** A resource leaves the store only when its file is gone and Prometheus has reloaded since. */
  lemma ReleaseReloads(w: World, n: Name, faults: set<Effect>)
    requires ReachableWorld(w) && n in w.objects && n !in Reconcile(w, n, faults).objects
    ensures var next := Reconcile(w, n, faults);
      && w.objects[n].resource.deleting
      && n !in next.ruleFiles && n !in next.loaded && next.loaded == next.ruleFiles
  {
    ReachableIsSafe(w);
    if GetObject !in faults {
      var outcome := PassEnds(w, n, faults);
      hide RunPipeline, Validates;
    }
  }

  /** A pass that leaves another file than before for a live resource has validated it. */
  lemma OnlyValidatedIsWritten(w: World, n: Name, faults: set<Effect>)
    requires ReachableWorld(w) && n in w.objects && !w.objects[n].resource.deleting
    requires Reconcile(w, n, faults).ruleFiles != w.ruleFiles
    ensures Validates(w, w.objects[n].resource, faults)
  {
    ReachableIsSafe(w);
    var outcome := PassEnds(w, n, faults);
    hide RunPipeline, Validates;
  }

  /* ---- Ready ---- */

  predicate IsReady(w: World, n: Name) {
    n in w.objects && w.objects[n].status.ready.status == True
  }

  /** The rule file of n is on disk as its specification compiles, and loaded. */
  predicate Current(w: World, n: Name) {
    && n in w.objects && n in w.ruleFiles && n in w.loaded
    && w.ruleFiles[n] == Written(CompiledFile(w.objects[n].resource)) && w.loaded[n] == w.ruleFiles[n]
  }

  /** The stored Ready after a pass is True exactly if all its steps continued and were recorded,
      or nothing was recorded and it was True before; a recorded completion is current. */
  lemma ReadyAfterPass(w: World, n: Name, faults: set<Effect>)
    requires ReachableWorld(w) && n in w.objects && GetObject !in faults
    ensures var next, completed := Reconcile(w, n, faults), RunPipeline(Start(w, n), faults).1 == Continue;
      && (IsReady(next, n) <==> if FinalPatch in faults then IsReady(w, n) else completed)
      && (completed ==> Current(next, n) && Validates(w, w.objects[n].resource, faults))
  {
    ReachableIsSafe(w);
    var outcome := PassEnds(w, n, faults);
    hide RunPipeline, Validates, CompiledFile;
  }

  /* ---- When Ready can be trusted ---- */

  /** Ready=True, reported for the present specification of a resource that is not being deleted. */
  predicate ReadyNow(w: World, n: Name) {
    && n in w.objects && !w.objects[n].resource.deleting
    && w.objects[n].status.ready == Condition(True, w.objects[n].generation)
  }

  lemma PartsFromFile(w: World, n: Name, faults: set<Effect>)
    requires Inv(w) && ReadyNow(w, n) && Current(w, n)
    ensures var next := Reconcile(w, n, faults);
            ReadyNow(next, n) && !Current(next, n) <==>
              GetObject !in faults && FinalPatch in faults && TearsWrite(w, w.objects[n].resource, faults)
  {
    hide RunPipeline, CompiledFile, TearsWrite, Validates;
    if GetObject !in faults {
      var outcome := PassEnds(w, n, faults);
    }
  }

  /** Exactly one kind of pass leaves Ready=True over a file that is not the current one: its write
      tears and the patch that would have recorded the failure is lost as well. */
  lemma ReadyPartsFromFile(w: World, n: Name, faults: set<Effect>)
    requires ReachableWorld(w) && ReadyNow(w, n) && Current(w, n)
    ensures var next := Reconcile(w, n, faults);
            ReadyNow(next, n) && !Current(next, n) <==>
              GetObject !in faults && FinalPatch in faults && TearsWrite(w, w.objects[n].resource, faults)
  {
    ReachableIsSafe(w);
    PartsFromFile(w, n, faults);
  }

  /** Ready=True for the present specification of n means that exactly its compiled file is on disk
      and loaded. */
  predicate TruthfulAt(w: World, n: Name) {
    ReadyNow(w, n) ==> Current(w, n)
  }

  ghost predicate Truthful(w: World) {
    forall n :: TruthfulAt(w, n)
  }

  /** A pass over a Ready resource whose write tears and whose status patch is lost. */
  predicate LosesTear(w: World, e: Event) {
    && e.Pass? && ReadyNow(w, e.name) && GetObject !in e.faults && FinalPatch in e.faults
    && TearsWrite(w, w.objects[e.name].resource, e.faults)
  }

  /** An edit of a ConfigMap or Secret after which a Ready resource compiles to another file. */
  predicate OutdatesFile(w: World, e: Event) {
    && e.Rerender? && ReadyNow(w, e.name)
    && var r := w.objects[e.name].resource;
       CompiledFile(Rerendered(r, e.energyMetric, e.coefficients)) != CompiledFile(r)
  }

  predicate Misleads(w: World, e: Event) {
    LosesTear(w, e) || OutdatesFile(w, e)
  }

  lemma UnreadyPassIsTruthful(w: World, n: Name, faults: set<Effect>)
    requires Inv(w) && !ReadyNow(w, n)
    ensures TruthfulAt(Reconcile(w, n, faults), n)
  {
    hide RunPipeline, CompiledFile, TearsWrite, LeftFile, Validates;
    if n in w.objects && GetObject !in faults {
      var outcome := PassEnds(w, n, faults);
    }
  }

  lemma OtherPassIsTruthful(w: World, n: Name, faults: set<Effect>, m: Name)
    requires Inv(w) && TruthfulAt(w, m) && m != n
    ensures TruthfulAt(Reconcile(w, n, faults), m)
  {
    hide RunPipeline, CompiledFile, TearsWrite, LeftFile, Validates;
    if n in w.objects && GetObject !in faults {
      var outcome := PassEnds(w, n, faults);
      OtherFilesStay(w, RunPipeline(Start(w, n), faults).0.world, n, m);
    }
  }

  lemma PassTruth(w: World, n: Name, faults: set<Effect>)
    requires Inv(w) && Truthful(w)
    ensures Truthful(Reconcile(w, n, faults)) <==> !LosesTear(w, Pass(n, faults))
  {
    hide Inv, Reconcile, Current, TearsWrite, ReadyNow;
    assert TruthfulAt(w, n);
    if ReadyNow(w, n) {
      PartsFromFile(w, n, faults);
    } else {
      UnreadyPassIsTruthful(w, n, faults);
    }
    forall m | m != n
      ensures TruthfulAt(Reconcile(w, n, faults), m)
    {
      assert TruthfulAt(w, m);
      OtherPassIsTruthful(w, n, faults, m);
    }
    assert Truthful(Reconcile(w, n, faults)) ==> TruthfulAt(Reconcile(w, n, faults), n);
    if LosesTear(w, Pass(n, faults)) {
      LostTearMisleads(w, n, faults);
    }
  }

  lemma LostTearMisleads(w: World, n: Name, faults: set<Effect>)
    requires Inv(w) && Truthful(w) && LosesTear(w, Pass(n, faults))
    ensures !TruthfulAt(Reconcile(w, n, faults), n)
  {
    hide Inv, Reconcile, TearsWrite, ReadyNow;
    assert TruthfulAt(w, n);
    PartsFromFile(w, n, faults);
  }

  lemma RerenderTruthAt(w: World, e: Event, m: Name)
    requires Inv(w) && TruthfulAt(w, m) && e.Rerender?
    ensures m != e.name ==> TruthfulAt(Apply(w, e), m)
    ensures m == e.name ==> (TruthfulAt(Apply(w, e), m) <==> !OutdatesFile(w, e))
  {
    hide CompiledFile, Rerendered, Reconcile;
  }

  lemma RerenderTruth(w: World, e: Event)
    requires Inv(w) && Truthful(w) && e.Rerender?
    ensures Truthful(Apply(w, e)) <==> !OutdatesFile(w, e)
  {
    hide Inv, TruthfulAt, OutdatesFile, Apply;
    forall m
      ensures m != e.name ==> TruthfulAt(Apply(w, e), m)
      ensures m == e.name ==> (TruthfulAt(Apply(w, e), m) <==> !OutdatesFile(w, e))
    {
      assert TruthfulAt(w, m);
      RerenderTruthAt(w, e, m);
    }
    assert TruthfulAt(Apply(w, e), e.name) <==> !OutdatesFile(w, e);
  }

  lemma OtherEventIsTruthful(w: World, e: Event, m: Name)
    requires Inv(w) && TruthfulAt(w, m) && !e.Pass? && !e.Rerender?
    ensures TruthfulAt(Apply(w, e), m)
  {
    hide CompiledFile, Reconcile;
  }

  lemma PassIsReconcile(w: World, e: Event)
    ensures e.Pass? ==> Apply(w, e) == Reconcile(w, e.name, e.faults)
    ensures e.Pass? ==> e == Pass(e.name, e.faults)
  {
    hide Reconcile;
  }

  /** What can come between Ready=True and the file it stands for is exactly a lost torn write and a
      template edit that changes the file; the first one in a run does. */
  lemma TruthExactly(w: World, e: Event)
    requires Inv(w) && Truthful(w)
    ensures Truthful(Apply(w, e)) <==> !Misleads(w, e)
  {
    hide Inv, TruthfulAt, TearsWrite, CompiledFile, Rerendered, ReadyNow, Reconcile, Apply;
    PassIsReconcile(w, e);
    if e.Pass? {
      PassTruth(w, e.name, e.faults);
    } else if e.Rerender? {
      RerenderTruth(w, e);
    } else {
      forall m
        ensures TruthfulAt(Apply(w, e), m)
      {
        assert TruthfulAt(w, m);
        OtherEventIsTruthful(w, e, m);
      }
    }
  }

  lemma StartsSafe()
    ensures Inv(Initial) && Truthful(Initial)
  {
  }

  ghost predicate MisleadsNever(events: seq<Event>) {
    forall k :: 0 <= k < |events| ==> !Misleads(RunEvents(Initial, events[..k]), events[k])
  }

  ghost predicate AlwaysTruthful(events: seq<Event>) {
    forall k :: 0 <= k <= |events| ==> Truthful(RunEvents(Initial, events[..k]))
  }

  lemma RunExtends(events: seq<Event>, k: nat)
    requires k < |events|
    ensures RunEvents(Initial, events[..k + 1]) == Apply(RunEvents(Initial, events[..k]), events[k])
  {
    assert events[..k + 1][..k] == events[..k];
  }

  lemma {:induction false} TruthfulUpTo(events: seq<Event>, k: nat)
    requires k <= |events| && MisleadsNever(events)
    ensures Truthful(RunEvents(Initial, events[..k]))
  {
    hide Truthful, Apply, Misleads, Inv;
    StartsSafe();
    if k > 0 {
      TruthfulUpTo(events, k - 1);
      RunSafe(Initial, events[..k - 1]);
      RunExtends(events, k - 1);
      TruthExactly(RunEvents(Initial, events[..k - 1]), events[k - 1]);
    }
  }

  /** In a run, Ready=True for the present specification of a resource always means that exactly its
      compiled file is on disk and loaded, if and only if no torn write over a Ready resource goes
      unrecorded and no ConfigMap or Secret edit changes the file of a Ready resource. */
  lemma ReadyMeansCurrent(events: seq<Event>)
    ensures AlwaysTruthful(events) <==> MisleadsNever(events)
  {
    hide Truthful, Apply, Misleads, Inv;
    StartsSafe();
    if MisleadsNever(events) {
      forall k | 0 <= k <= |events|
        ensures Truthful(RunEvents(Initial, events[..k]))
      {
        TruthfulUpTo(events, k);
      }
    }
    if AlwaysTruthful(events) {
      forall k | 0 <= k < |events|
        ensures !Misleads(RunEvents(Initial, events[..k]), events[k])
      {
        RunSafe(Initial, events[..k]);
        RunExtends(events, k);
        TruthExactly(RunEvents(Initial, events[..k]), events[k]);
        assert Truthful(RunEvents(Initial, events[..k + 1]));
      }
    }
  }
}
