/** What the SNMP exporter is told to load: not only the merged file but also the configuration its
    annotation stands for always serves every Ready device. */
module DeviceExport {
  import opened Options
  import opened Conditions
  import opened Steps
  import opened DeviceFiles
  import opened DeviceProtocol
  import opened DeviceInvariant
  import opened DevicePass
  import opened DeviceRuns
  import opened DeviceConvergence
  import opened DeviceTheorems
  import DeviceHealing

  /** The annotation is the hash of a configuration that has the entries of u. */
  predicate EntriesExported(w: World, u: Uid) {
    u in w.devices && w.annotation.Some? && HasEntries(w.annotation.value.content, w.devices[u])
  }

  predicate ReadyLive(w: World, u: Uid) {
    Active(w, u) && ReadyNow(w.devices[u])
  }

  /* ---- The annotation over one pass ---- */

  lemma StepAnnotation(id: StepId, s: PassState, u: Uid, faults: set<Effect>)
    ensures var (next, action) := Exec(id, s, u, faults);
      && (next.world.annotation == s.world.annotation || Exported(next.world))
      && (id != ExporterReload && action == Continue ==> next.world.annotation == s.world.annotation)
      && (id == Ready ==> next.world == s.world)
  {
    hide MergeOf, DesiredGenerator, OwnedJobs;
    match id
    case Deletion => DeletionAnnotation(s, u, faults);
    case GeneratorJob => hide EvaluateJobStep, CreateJobStep; JobAnnotation(s, u, faults);
    case _ =>
  }

  lemma JobAnnotation(s: PassState, u: Uid, faults: set<Effect>)
    ensures JobStep(s, u, faults).0.world.annotation == s.world.annotation
  {
    hide OwnedJobs;
  }

  lemma DeletionAnnotation(s: PassState, u: Uid, faults: set<Effect>)
    ensures var (next, action) := DeletionStep(s, u, faults);
      && (next.world.annotation == s.world.annotation || Exported(next.world))
      && (action == Continue ==> next == s)
  {
    hide MergeOf, OwnedJobs;
  }

  lemma {:induction false} RunAnnotation(i: nat, s: PassState, u: Uid, faults: set<Effect>)
    requires i <= 8
    ensures var end := RunFrom(i, s, u, faults).0.world; end.annotation == s.world.annotation || Exported(end)
    ensures i >= 7 ==> RunFrom(i, s, u, faults).0.world == s.world
    decreases 8 - i
  {
    hide Exec, RunFrom, Exported;
    RunFromStep(i, s, u, faults);
    if i < 8 {
      StepAnnotation(Pipeline[i], s, u, faults);
      RunAnnotation(i + 1, Exec(Pipeline[i], s, u, faults).0, u, faults);
    }
  }

  /** A pass leaves the annotation alone or makes it the hash of the merged file it leaves. */
  lemma PassAnnotation(w: World, v: Uid, faults: set<Effect>)
    ensures var next := Reconcile(w, v, faults); next.annotation == w.annotation || Exported(next)
  {
    hide RunFrom, RunPipeline;
    if v in w.devices && GetDevice !in faults {
      RunFromStart(StartOf(w, v), v, faults);
      RunAnnotation(0, StartOf(w, v), v, faults);
    }
  }

  lemma EventAnnotation(w: World, e: Event)
    ensures var next := Apply(w, e); next.annotation == w.annotation || Exported(next)
  {
    hide Reconcile, Exported;
    if e.Pass? {
      PassAnnotation(w, e.uid, e.faults);
    }
  }

  /* ---- Over runs ---- */

  lemma UndisturbedKeepsObject(w: World, e: Event, u: Uid)
    requires Inv(w) && Active(w, u) && Undisturbed(w, Apply(w, e), u)
    ensures SameObject(Apply(w, e).devices[u], w.devices[u])
  {
    hide Inv, Reconcile, Generated, StartedJob;
    if e.Pass? {
      DeviceHealing.PassKeepsObject(w, e.uid, e.faults, u);
    }
  }

  lemma ExportedServes(w: World, u: Uid)
    requires Exported(w) && Served(w, u)
    ensures EntriesExported(w, u)
  {
    ServedHasEntries(w, u);
    hide Served, HasEntries;
  }

  /** No event takes the entries of a served device out of what the annotation stands for, unless it
      edits or deletes the device. */
  lemma ExportKept(w: World, e: Event, u: Uid)
    requires Inv(w) && Served(w, u) && EntriesExported(w, u) && Undisturbed(w, Apply(w, e), u)
    ensures Served(Apply(w, e), u) && EntriesExported(Apply(w, e), u)
  {
    ServedIsActive(w, u);
    hide Inv, Served, Apply, Exported;
    var next := Apply(w, e);
    EventSafe(w, e);
    UndisturbedKeepsObject(w, e, u);
    EventAnnotation(w, e);
    if Exported(next) {
      ExportedServes(next, u);
    }
  }

  lemma ServedIsActive(w: World, u: Uid)
    requires Served(w, u)
    ensures Active(w, u)
  {
  }

  lemma ReadyIsServed(w: World, u: Uid)
    requires Inv(w) && ReadyLive(w, u)
    ensures Served(w, u)
  {
    hide Served, ConvergedStatus;
  }

  /** Only a pass over u itself makes it Ready. */
  lemma ReadyWasReady(w: World, e: Event, u: Uid)
    requires Inv(w) && ReadyLive(Apply(w, e), u)
    requires e.Pass? ==> e.uid != u
    ensures ReadyLive(w, u) && Undisturbed(w, Apply(w, e), u)
  {
    hide Reconcile, Generated, StartedJob;
    if u in w.devices {
      assert SaneDevice(w.devices[u]);
    }
    hide Inv;
    if e.Pass? {
      PassKeepsReady(w, e.uid, e.faults, u);
    }
  }

  lemma PassKeepsReady(w: World, v: Uid, faults: set<Effect>, u: Uid)
    requires Inv(w) && v != u && ReadyLive(Reconcile(w, v, faults), u)
    ensures ReadyLive(w, u) && Undisturbed(w, Reconcile(w, v, faults), u)
  {
    hide Inv, RunPipeline;
    if v in w.devices && GetDevice !in faults {
      var s := PassShape(w, v, faults);
    }
  }

  lemma OwnPassExports(w: World, faults: set<Effect>, u: Uid)
    requires Reachable(w) && ReadyLive(Reconcile(w, u, faults), u)
    ensures Exported(Reconcile(w, u, faults)) || Reconcile(w, u, faults).devices == w.devices
  {
    ReachableIsSafe(w);
    hide Inv, Reachable, RunPipeline, Exported;
    if u in w.devices && GetDevice !in faults {
      var s := PassShape(w, u, faults);
      if FinalPatch !in faults {
        ReadyAfterPass(w, u, faults);
      }
    }
  }

  ghost predicate ReadyIsExportedAt(w: World, u: Uid) {
    ReadyLive(w, u) ==> EntriesExported(w, u)
  }

  lemma EventKeepsExport(w: World, e: Event, u: Uid)
    requires Reachable(w) && ReadyIsExportedAt(w, u)
    ensures ReadyIsExportedAt(Apply(w, e), u)
  {
    hide Inv, Reachable, Served, Exported, EntriesExported, Apply;
    ReachableIsSafe(w);
    EventSafe(w, e);
    var next := Apply(w, e);
    if ReadyLive(next, u) {
      ReadyIsServed(next, u);
      if e.Pass? && e.uid == u {
        PassIsReconcile(w, e);
        OwnPassExports(w, e.faults, u);
        if Exported(next) {
          ExportedServes(next, u);
        } else {
          ReadyIsServed(w, u);
          ExportKept(w, e, u);
        }
      } else {
        ReadyWasReady(w, e, u);
        ReadyIsServed(w, u);
        ExportKept(w, e, u);
      }
    }
  }

  lemma PassIsReconcile(w: World, e: Event)
    requires e.Pass?
    ensures Apply(w, e) == Reconcile(w, e.uid, e.faults)
  {
  }

  lemma {:induction false} RunKeepsExport(annotation: Option<Digest>, events: seq<Event>, u: Uid)
    ensures ReadyIsExportedAt(RunEvents(Initial(annotation), events), u)
  {
    hide Apply, ReadyIsExportedAt;
    if events == [] {
      NothingReady(annotation, u);
    } else {
      var init := events[..|events| - 1];
      RunKeepsExport(annotation, init, u);
      RunIsReachable(annotation, init);
      EventKeepsExport(RunEvents(Initial(annotation), init), events[|events| - 1], u);
    }
  }

  lemma NothingReady(annotation: Option<Digest>, u: Uid)
    ensures ReadyIsExportedAt(Initial(annotation), u)
  {
  }

  lemma RunIsReachable(annotation: Option<Digest>, events: seq<Event>)
    ensures Reachable(RunEvents(Initial(annotation), events))
  {
  }

  /** In every reachable state the exporter's annotation is the hash of a configuration that has the
      entries of every Ready device, even after another device's pass wrote the merged file and died
      before it patched the exporter. */
  lemma ReadyIsExported(w: World, u: Uid)
    requires Reachable(w) && ReadyLive(w, u)
    ensures EntriesInMerged(w, u) && EntriesExported(w, u)
  {
    var annotation, events :| w == RunEvents(Initial(annotation), events);
    RunKeepsExport(annotation, events, u);
    ReadyMeansConverged(w, u);
  }

  lemma {:induction false} ExportOutlastsRun(w: World, events: seq<Event>, u: Uid)
    requires Inv(w) && Served(w, u) && EntriesExported(w, u) && UndisturbedRun(w, events, u)
    ensures Served(RunEvents(w, events), u) && EntriesExported(RunEvents(w, events), u)
  {
    hide Inv, Served, Apply, EntriesExported;
    if events != [] {
      var last := |events| - 1;
      var before := RunEvents(w, events[..last]);
      UndisturbedInit(w, events, u);
      ExportOutlastsRun(w, events[..last], u);
      RunSafe(w, events[..last]);
      ExportKept(before, events[last], u);
    }
  }

  lemma UndisturbedInit(w: World, events: seq<Event>, u: Uid)
    requires events != [] && UndisturbedRun(w, events, u)
    ensures var init := events[..|events| - 1];
      UndisturbedRun(w, init, u) && Undisturbed(RunEvents(w, init), RunEvents(w, events), u)
  {
    hide Apply;
    var last := |events| - 1;
    forall k | 0 <= k <= last
      ensures Undisturbed(w, RunEvents(w, events[..last][..k]), u)
    {
      assert events[..last][..k] == events[..k];
    }
    assert events[..|events|] == events && Undisturbed(w, RunEvents(w, events[..|events|]), u);
    assert Undisturbed(w, RunEvents(w, events[..last]), u);
  }

  /** Once Ready at its current generation, a device stays in the merged file and in what the exporter is
      told to load until its own specification changes or it is deleted, whatever other devices, jobs,
      failures and its own later passes do. */
  lemma ReadyStaysExported(w: World, events: seq<Event>, u: Uid)
    requires Reachable(w) && ReadyLive(w, u) && UndisturbedRun(w, events, u)
    ensures EntriesInMerged(RunEvents(w, events), u) && EntriesExported(RunEvents(w, events), u)
  {
    hide Inv, Reachable, Served, RunEvents, EntriesInMerged, EntriesExported;
    ReachableIsSafe(w);
    ReadyIsServed(w, u);
    ReadyIsExported(w, u);
    ExportOutlastsRun(w, events, u);
    ServedHasEntries(RunEvents(w, events), u);
  }
}
