/** Guarantees of the PhysicalMeasurement reconciler in every run. */
module TargetFileSafety {
  import opened Conditions
  import opened Steps
  import opened TargetFileProtocol

  /** n is stored and its finalizer is persisted. */
  predicate Held(w: World, n: Name) {
    n in w.objects && w.objects[n].finalizer
  }

  predicate SaneObject(n: Name, m: Measurement) {
    && m.name == n && (m.deleting ==> m.finalizer)
    && m.status.ready.generation <= m.generation
  }

  /** The file lies where its measurement's own clean-up will look for it. */
  predicate OwnedFile(w: World, p: TargetPath) {
    Held(w, p.name) && PathOf(w.objects[p.name]) == p
  }

  ghost predicate Sane(w: World) {
    forall n :: n in w.objects ==> SaneObject(n, w.objects[n])
  }

  ghost predicate NoOrphans(w: World) {
    forall p :: p in w.files ==> OwnedFile(w, p)
  }

  /** Ready=True, reported for the present specification of a measurement that is not being deleted. */
  predicate ReadyNow(w: World, n: Name) {
    && n in w.objects && !w.objects[n].deleting
    && w.objects[n].status.ready == Condition(True, w.objects[n].generation)
  }

  /** The target file says what the specification says. */
  predicate Current(w: World, n: Name) {
    && Held(w, n) && PathOf(w.objects[n]) in w.files
    && w.files[PathOf(w.objects[n])] == [TargetOf(w.objects[n])]
  }

  predicate TruthfulAt(w: World, n: Name) {
    ReadyNow(w, n) ==> Current(w, n)
  }

  /* ---- One pass ---- */

  /** No device is asked for, or it is found. */
  predicate DeviceKnown(w: World, m: Measurement, faults: set<Effect>) {
    m.spec.device == "" || (GetDevice !in faults && m.spec.device in w.devices)
  }

  /** What a live measurement's pass needs in order to complete. */
  predicate NothingFails(w: World, m: Measurement, faults: set<Effect>) {
    && DeviceKnown(w, m, faults)
    && faults !! {MarshalFile, ReadFile}
    && (faults !! {MakeDirectory, WriteFile} || (PathOf(m) in w.files && w.files[PathOf(m)] == [TargetOf(m)]))
  }

  datatype Outcome =
    | Completed        // every step continued: Ready
    | CutShort         // a step failed or asked for a retry; the finalizer is kept
    | FinalizerAdded   // nothing but the finalizer
    | Released         // file gone, finalizer dropped

  function FilesAfter(outcome: Outcome, w: World, m: Measurement): TargetFiles {
    match outcome
    case Completed => w.files[PathOf(m) := [TargetOf(m)]]
    case Released => w.files - {PathOf(m)}
    case _ => w.files
  }

  function OutcomeOf(w: World, m: Measurement, faults: set<Effect>): Outcome {
    if m.deleting then (if RemoveFile in faults then CutShort else Released)
    else if !m.finalizer then FinalizerAdded
    else if NothingFails(w, m, faults) then Completed
    else CutShort
  }

  predicate SameObject(m: Measurement, n: Measurement) {
    n.name == m.name && n.spec == m.spec && n.generation == m.generation && n.deleting == m.deleting
  }

  /** What the pass ends with: a missing device asks for a retry, every other obstacle is an error. */
  function ActionOf(w: World, m: Measurement, faults: set<Effect>): Action {
    match OutcomeOf(w, m, faults)
    case Completed => Continue
    case CutShort =>
      if !m.deleting && m.spec.device != "" && GetDevice !in faults && m.spec.device !in w.devices
      then Requeue else Error
    case _ => Stop
  }

  /** The conditions after the pass; one that is not reached keeps what it said. */
  function StatusAfter(w: World, m: Measurement, faults: set<Effect>): Status {
    var done := OutcomeOf(w, m, faults).Completed?;
    var checked := !m.deleting && m.finalizer;
    var known := DeviceKnown(w, m, faults);
    Status(
      Condition(if done then True else Unknown, m.generation),
      if checked then Condition(if known then True else False, m.generation) else m.status.validated,
      if (checked && known) || (m.deleting && RemoveFile in faults)
      then Condition(if done then True else False, m.generation) else m.status.applied)
  }

  predicate EndsAs(outcome: Outcome, w: World, m: Measurement, faults: set<Effect>, s: PassState, action: Action) {
    && s.world == w.(files := FilesAfter(outcome, w, m))
    && SameObject(m, s.obj) && s.obj.finalizer == !outcome.Released?
    && s.obj.status == StatusAfter(w, m, faults) && action == ActionOf(w, m, faults)
  }

  lemma RunUnfolds(i: nat, s: PassState, faults: set<Effect>)
    requires i <= 5
    ensures Run(Executor(faults), Pipeline[i..], s) ==
      if i == 5 then (s, Continue)
      else var (next, action) := Exec(Pipeline[i], s, faults);
           if action == Continue then Run(Executor(faults), Pipeline[i + 1..], next) else (next, action)
  {
    hide Exec;
    if i < 5 {
      assert Pipeline[i..][0] == Pipeline[i] && Pipeline[i..][1..] == Pipeline[i + 1..];
    }
  }

  function RunFrom(i: nat, s: PassState, faults: set<Effect>): (PassState, Action)
    requires i <= 5
  {
    Run(Executor(faults), Pipeline[i..], s)
  }

  /** Validation, then the target file, then Ready. */
  lemma LateRun(s: PassState, faults: set<Effect>)
    ensures var (checked, valid) := ValidationStep(s, faults);
            var (written, applied) := TargetFileStep(checked, faults);
            RunFrom(2, s, faults) ==
              if valid != Continue then (checked, valid)
              else if applied != Continue then (written, applied)
              else ReadyStep(written)
  {
    hide ValidationStep, TargetFileStep;
    var checked := ValidationStep(s, faults).0;
    var written := TargetFileStep(checked, faults).0;
    RunUnfolds(2, s, faults);
    RunUnfolds(3, checked, faults);
    RunUnfolds(4, written, faults);
    RunUnfolds(5, ReadyStep(written).0, faults);
  }

  lemma LateSteps(w: World, n: Name, faults: set<Effect>)
    requires n in w.objects && SaneObject(n, w.objects[n]) && w.objects[n].finalizer && !w.objects[n].deleting
    ensures var m, r := w.objects[n], RunFrom(2, Start(w, n), faults);
            EndsAs(OutcomeOf(w, m, faults), w, m, faults, r.0, r.1)
  {
    LateRun(Start(w, n), faults);
    hide RunFrom, TargetOf, Subdir;
    var m := w.objects[n];
    var path, desired := PathOf(m), [TargetOf(m)];
    assert path in w.files && w.files[path] == desired ==> w.files[path := desired] == w.files;
  }

  /** What a pass does is settled by its failures: it completes exactly if the measurement is live
      and held, its device is found and no step fails. Files, finalizer, conditions and whether it is retried
      are as the tables above say. */
  lemma PassEnds(w: World, n: Name, faults: set<Effect>)
    requires n in w.objects && SaneObject(n, w.objects[n])
    ensures var m, r := w.objects[n], RunPipeline(Start(w, n), faults);
            EndsAs(OutcomeOf(w, m, faults), w, m, faults, r.0, r.1)
  {
    var s := Start(w, n);
    assert Pipeline[0..] == Pipeline;
    RunUnfolds(0, s, faults);
    RunUnfolds(1, s, faults);
    hide Run, NothingFails, TargetOf, Subdir;
    if !w.objects[n].deleting && w.objects[n].finalizer {
      hide EndsAs, OutcomeOf;
      LateSteps(w, n, faults);
    }
  }

  /** A measurement under deletion that only somebody else's finalizer keeps is left alone. */
  lemma LeavesForeign(w: World, n: Name, faults: set<Effect>)
    requires n in w.objects && w.objects[n].deleting && !w.objects[n].finalizer
    ensures RunPipeline(Start(w, n), faults) == (Start(w, n), Stop)
  {
    hide Run;
    assert Pipeline[0..] == Pipeline;
    RunUnfolds(0, Start(w, n), faults);
  }

  /* ---- Runs: what holds always ---- */

  lemma PassKeepsSane(w: World, n: Name, faults: set<Effect>)
    requires Sane(w)
    ensures Sane(Reconcile(w, n, faults))
  {
    if n in w.objects && GetObject !in faults {
      PassEnds(w, n, faults);
      hide RunPipeline, NothingFails, FilesAfter;
    }
  }

  lemma PassKeepsNoOrphans(w: World, n: Name, faults: set<Effect>)
    requires Sane(w) && NoOrphans(w)
    ensures NoOrphans(Reconcile(w, n, faults))
  {
    if n in w.objects && GetObject !in faults {
      PassEnds(w, n, faults);
      hide RunPipeline, NothingFails, TargetOf, Subdir;
    }
  }

  lemma SaneAt(w: World, n: Name)
    requires Sane(w) && n in w.objects
    ensures SaneObject(n, w.objects[n])
  {
  }

  lemma PassKeepsTruth(w: World, n: Name, faults: set<Effect>, m: Name)
    requires Sane(w) && TruthfulAt(w, m)
    ensures TruthfulAt(Reconcile(w, n, faults), m)
  {
    hide RunPipeline, NothingFails, Subdir, RoutingLabels, Sane;
    if n in w.objects && GetObject !in faults {
      assert SaneObject(n, w.objects[n]) by { SaneAt(w, n); }
      PassEnds(w, n, faults);
      assert m in w.objects ==> SaneObject(m, w.objects[m]) by { if m in w.objects { SaneAt(w, m); } }
    }
  }

  lemma EventKeeps(w: World, e: Event, m: Name)
    requires Sane(w) && TruthfulAt(w, m)
    ensures Sane(Apply(w, e)) && TruthfulAt(Apply(w, e), m)
  {
    if e.Pass? {
      PassKeepsSane(w, e.name, e.faults);
      PassKeepsTruth(w, e.name, e.faults, m);
    } else {
      hide TargetOf, Subdir, Reconcile;
    }
  }

  lemma StartsSane(n: Name)
    ensures Sane(Initial) && TruthfulAt(Initial, n) && NoOrphans(Initial)
  {
  }

  lemma {:induction false} RunKeeps(events: seq<Event>, n: Name)
    ensures Sane(RunEvents(Initial, events)) && TruthfulAt(RunEvents(Initial, events), n)
  {
    hide Sane, TruthfulAt, Apply;
    StartsSane(n);
    if events != [] {
      RunKeeps(events[..|events| - 1], n);
      EventKeeps(RunEvents(Initial, events[..|events| - 1]), events[|events| - 1], n);
    }
  }

  /** In every run: Ready=True for the present specification means the target file Prometheus reads
      is exactly the one this specification asks for, in the directory of its type. */
  lemma ReadyMeansCurrent(w: World, n: Name)
    requires ReachableWorld(w) && ReadyNow(w, n)
    ensures Current(w, n)
  {
    var events :| w == RunEvents(Initial, events);
    RunKeeps(events, n);
  }

  function KindText(kind: Kind): string {
    if kind.Snmp? then "snmp" else "prometheus-exporter"
  }

  /** The labels a scrape of m carries whatever additional labels say. */
  function OwnLabels(m: Measurement): Labels {
    var common := map["name" := m.name, "instance" := m.spec.ip, "type" := KindText(m.spec.kind)];
    if m.spec.kind.PrometheusExporter? then common
    else common["job" := m.spec.device]["__param_module" := m.spec.device]["__param_auth" := m.spec.device]
  }

  lemma OwnLabelsExact(m: Measurement)
    ensures OwnLabels(m) == RoutingLabels(m.spec) + map["name" := m.name, "instance" := m.spec.ip]
  {
  }

  lemma TargetText(m: Measurement)
    ensures PathOf(m) == TargetPath(KindText(m.spec.kind), m.name) && TargetOf(m).targets == [m.spec.ip]
    ensures TargetOf(m).labels.Keys == m.spec.additionalLabels.Keys + OwnLabels(m).Keys
    ensures forall k :: k in OwnLabels(m) ==> TargetOf(m).labels[k] == OwnLabels(m)[k]
    ensures forall k :: k in m.spec.additionalLabels && k !in OwnLabels(m) ==>
              TargetOf(m).labels[k] == m.spec.additionalLabels[k]
  {
    OwnLabelsExact(m);
    hide OwnLabels, RoutingLabels;
    assert TargetOf(m).labels == m.spec.additionalLabels + OwnLabels(m);
  }

  /** What Prometheus reads for a Ready measurement of either kind: one target, its address, in the
      directory of its kind, with its own labels and the other additional ones. */
  lemma ReadyIsScraped(w: World, n: Name)
    requires ReachableWorld(w) && ReadyNow(w, n)
    ensures var m := w.objects[n];
      && TargetPath(KindText(m.spec.kind), n) in w.files
      && |w.files[TargetPath(KindText(m.spec.kind), n)]| == 1
    ensures var m := w.objects[n];
            var target := w.files[TargetPath(KindText(m.spec.kind), n)][0];
      && target.targets == [m.spec.ip] && target.labels.Keys == m.spec.additionalLabels.Keys + OwnLabels(m).Keys
      && (forall k :: k in OwnLabels(m) ==> target.labels[k] == OwnLabels(m)[k])
      && (forall k :: k in m.spec.additionalLabels && k !in OwnLabels(m) ==>
            target.labels[k] == m.spec.additionalLabels[k])
  {
    hide RunEvents, TargetOf, PathOf, OwnLabels, KindText;
    ReadyMeansCurrent(w, n);
    NameIsKey(w, n);
    TargetText(w.objects[n]);
  }

  lemma NameIsKey(w: World, n: Name)
    requires ReachableWorld(w) && n in w.objects
    ensures w.objects[n].name == n
  {
    var events :| w == RunEvents(Initial, events);
    RunKeeps(events, n);
  }

  /* ---- Runs: orphans ---- */

  /** An edit of the type of a measurement that already has a target file. */
  predicate StrandsFile(w: World, e: Event) {
    && e.Edit? && e.name in w.objects && PathOf(w.objects[e.name]) in w.files
    && Subdir(e.spec.kind) != Subdir(w.objects[e.name].spec.kind)
  }

  /** Nothing else ever strands a file, and this always does. */
  lemma OrphansExactly(w: World, e: Event)
    requires Sane(w) && NoOrphans(w)
    ensures NoOrphans(Apply(w, e)) <==> !StrandsFile(w, e)
  {
    if e.Pass? {
      PassKeepsNoOrphans(w, e.name, e.faults);
    } else {
      hide TargetOf, Subdir, Reconcile;
      if StrandsFile(w, e) {
        assert !OwnedFile(Apply(w, e), PathOf(w.objects[e.name]));
      }
    }
  }

  ghost predicate StrandsNothing(events: seq<Event>) {
    forall k :: 0 <= k < |events| ==> !StrandsFile(RunEvents(Initial, events[..k]), events[k])
  }

  ghost predicate NeverOrphans(events: seq<Event>) {
    forall k :: 0 <= k <= |events| ==> NoOrphans(RunEvents(Initial, events[..k]))
  }

  lemma RunExtends(events: seq<Event>, k: nat)
    requires k < |events|
    ensures RunEvents(Initial, events[..k + 1]) == Apply(RunEvents(Initial, events[..k]), events[k])
  {
    assert events[..k + 1][..k] == events[..k];
  }

  lemma {:induction false} NoOrphansUpTo(events: seq<Event>, k: nat)
    requires k <= |events| && StrandsNothing(events)
    ensures NoOrphans(RunEvents(Initial, events[..k]))
  {
    hide NoOrphans, Apply, StrandsFile, Sane, TruthfulAt;
    if k == 0 {
      StartsSane("");
    } else {
      NoOrphansUpTo(events, k - 1);
      RunKeeps(events[..k - 1], "");
      RunExtends(events, k - 1);
      OrphansExactly(RunEvents(Initial, events[..k - 1]), events[k - 1]);
    }
  }

  /** A run never leaves a target file that no held measurement will clean up, at any moment and
      whatever fails in between, if and only if no edit in it changes the type of a measurement
      that has a target file. */
  lemma NoOrphanTargetFiles(events: seq<Event>)
    ensures NeverOrphans(events) <==> StrandsNothing(events)
  {
    hide NoOrphans, Apply, StrandsFile, Sane, TruthfulAt;
    if StrandsNothing(events) {
      forall k | 0 <= k <= |events|
        ensures NoOrphans(RunEvents(Initial, events[..k]))
      {
        NoOrphansUpTo(events, k);
      }
    }
    if NeverOrphans(events) {
      forall k | 0 <= k < |events|
        ensures !StrandsFile(RunEvents(Initial, events[..k]), events[k])
      {
        RunKeeps(events[..k], "");
        RunExtends(events, k);
        OrphansExactly(RunEvents(Initial, events[..k]), events[k]);
        assert NoOrphans(RunEvents(Initial, events[..k + 1]));
      }
    }
  }

  /** A measurement leaves the store only when the file of its present type is gone; a file of
      another type that carries its name survives it. */
  lemma ReleaseRemovesFile(w: World, n: Name, faults: set<Effect>)
    requires ReachableWorld(w) && n in w.objects && n !in Reconcile(w, n, faults).objects
    ensures w.objects[n].deleting && Reconcile(w, n, faults).files == w.files - {PathOf(w.objects[n])}
  {
    var events :| w == RunEvents(Initial, events);
    RunKeeps(events, n);
    if GetObject !in faults {
      PassEnds(w, n, faults);
      hide RunPipeline, NothingFails, PathOf;
    }
  }

  /** A measurement leaves the store exactly when its release is recorded. If it stays, its stored Ready
      after the pass is True exactly if the pass completed and was recorded, or was not recorded and it
      was True before. */
  lemma ReadyAfterPass(w: World, n: Name, faults: set<Effect>)
    requires ReachableWorld(w) && n in w.objects && GetObject !in faults
    ensures n !in Reconcile(w, n, faults).objects <==>
      w.objects[n].deleting && RemoveFile !in faults && FinalPatch !in faults
    ensures n in Reconcile(w, n, faults).objects ==>
      (Reconcile(w, n, faults).objects[n].status.ready.status == True <==>
        if FinalPatch in faults then w.objects[n].status.ready.status == True
        else !w.objects[n].deleting && w.objects[n].finalizer && NothingFails(w, w.objects[n], faults))
  {
    var events :| w == RunEvents(Initial, events);
    RunKeeps(events, n);
    PassEnds(w, n, faults);
    hide RunPipeline, NothingFails, PathOf;
  }

  predicate DeviceExists(w: World, m: Measurement) {
    m.spec.device == "" || m.spec.device in w.devices
  }

  lemma FirstPass(w: World, n: Name)
    requires Sane(w) && n in w.objects && !w.objects[n].deleting && DeviceExists(w, w.objects[n])
    ensures var next := Reconcile(w, n, {});
            Held(next, n) && SameObject(w.objects[n], next.objects[n]) && DeviceExists(next, next.objects[n])
  {
    PassEnds(w, n, {});
    hide RunPipeline, NothingFails, PathOf, TargetOf;
  }

  lemma CompletingPass(w: World, n: Name)
    requires Sane(w) && Held(w, n) && !w.objects[n].deleting && DeviceExists(w, w.objects[n])
    ensures var m, yes := w.objects[n], Condition(True, w.objects[n].generation);
            Reconcile(w, n, {}) == World(w.objects[n := m.(status := Status(yes, yes, yes))], w.devices,
                                         w.files[PathOf(m) := [TargetOf(m)]])
  {
    PassEnds(w, n, {});
    hide RunPipeline, PathOf, TargetOf;
  }

  /** Two passes without failures make any live measurement whose device exists Ready, from
      whatever state a run has left; a third changes nothing. */
  lemma TwoPassesSettle(w: World, n: Name)
    requires ReachableWorld(w) && n in w.objects && !w.objects[n].deleting
    requires DeviceExists(w, w.objects[n])
    ensures var end := Reconcile(Reconcile(w, n, {}), n, {});
            ReadyNow(end, n) && Current(end, n) && Reconcile(end, n, {}) == end
  {
    var events :| w == RunEvents(Initial, events);
    RunKeeps(events, n);
    var once := Reconcile(w, n, {});
    var twice := Reconcile(once, n, {});
    PassKeepsSane(w, n, {});
    FirstPass(w, n);
    PassKeepsSane(once, n, {});
    CompletingPass(once, n);
    hide Reconcile, RoutingLabels, Subdir, Sane;
    CompletingPass(twice, n);
    assert twice.files[PathOf(twice.objects[n]) := [TargetOf(twice.objects[n])]] == twice.files;
    assert twice.objects[n := twice.objects[n]] == twice.objects;
  }

  lemma ThreeEvents(w: World, events: seq<Event>)
    requires |events| == 3
    ensures RunEvents(w, events) == Apply(Apply(Apply(w, events[0]), events[1]), events[2])
  {
    hide Apply;
    assert events[..2][..1] == events[..1] && events[..1][..0] == [];
    assert RunEvents(w, events[..1]) == Apply(w, events[0]);
    assert RunEvents(w, events[..2]) == Apply(RunEvents(w, events[..1]), events[1]);
  }

  function Setup(n: Name, spec: Spec): seq<Event> {
    [Create(n, spec), Pass(n, {}), Pass(n, {})]
  }

  /** Such an edit can happen: once an exporter has its target file, it may be turned into a measurement
      over SNMP, with whatever device. */
  lemma FilesCanBeStranded(n: Name, ip: string, device: Name)
    ensures exists events :: !StrandsNothing(events) && !NeverOrphans(events)
  {
    hide RunEvents, Reconcile, TargetOf;
    var before, after := Spec(PrometheusExporter, ip, "", map[]), Spec(Snmp, ip, device, map[]);
    var setup := Setup(n, before);
    var events := setup + [Edit(n, after)];
    var created := Apply(Initial, setup[0]);
    var once := Reconcile(created, n, {});
    var ready := Reconcile(once, n, {});
    ThreeEvents(Initial, setup);
    ReachedFile(created, once, ready, n);
    assert events[..3] == setup && events[3] == Edit(n, after);
    assert StrandsFile(ready, Edit(n, after));
    assert !StrandsNothing(events);
    NoOrphanTargetFiles(events);
  }

  lemma ReachedFile(created: World, once: World, ready: World, n: Name)
    requires Sane(created) && n in created.objects && !created.objects[n].deleting
    requires created.objects[n].spec.device == ""
    requires once == Reconcile(created, n, {}) && ready == Reconcile(once, n, {})
    ensures n in ready.objects && ready.objects[n].spec == created.objects[n].spec && ready.objects[n].name == n
    ensures PathOf(ready.objects[n]) in ready.files
  {
    PassKeepsSane(created, n, {});
    FirstPass(created, n);
    CompletingPass(once, n);
    hide Reconcile, TargetOf, Subdir;
  }
}
