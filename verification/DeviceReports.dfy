/** How a pass over a device ends, what it leaves behind and what it reports, read off the cluster and
    the failures alone. */
module DeviceReports {
  import opened Options
  import opened Conditions
  import opened Steps
  import opened SnmpMerge
  import opened DeviceFiles
  import opened DeviceProtocol
  import opened DeviceInvariant
  import opened DevicePass

  /* ---- What is reported ---- */

  /** The action a pass ends with, and what it makes of two conditions; None leaves one alone. */
  datatype Report = Report(action: Action, generated: Option<ConditionStatus>, applied: Option<ConditionStatus>)

  function Shown(status: Option<ConditionStatus>, generation: nat, before: Condition): Condition {
    if status.None? then before else Condition(status.value, generation)
  }

  ghost predicate MergeFails(files: Files, faults: set<Effect>) {
    || !(faults !! {ListConfigs, ReadMerged}) || MergeOf(files).None?
    || (WriteMerged in faults
        && !(SnmpMergedFile in files && files[SnmpMergedFile] == MergeOf(files).value))
  }

  predicate ReloadFails(merged: Content, annotation: Option<Digest>, faults: set<Effect>) {
    || !(faults !! {ReadMergedAgain, GetExporter})
    || (PatchExporter in faults && annotation != Some(Sha256(merged)))
  }

  /** Something goes wrong between merging the SNMP files and annotating the exporter. */
  ghost predicate ExportFails(files: Files, annotation: Option<Digest>, faults: set<Effect>) {
    MergeFails(files, faults) || ReloadFails(MergeOf(files).value, annotation, faults)
  }

  predicate GeneratorFails(w: World, u: Uid, faults: set<Effect>)
    requires u in w.devices
  {
    || !(faults !! {ReadGenerator, ResolveAuth})
    || (WriteGenerator in faults
        && !(GeneratorFile(u) in w.files && w.files[GeneratorFile(u)] == DesiredGenerator(w.devices[u])))
  }

  predicate JobsStay(w: World, u: Uid, faults: set<Effect>)
    requires u in w.devices
  {
    ListJobs in faults || (DeleteJob in faults && w.devices[u].name in w.jobs)
  }

  predicate CleanupFails(w: World, u: Uid, faults: set<Effect>)
    requires u in w.devices
  {
    JobsStay(w, u, faults) || !(faults !! {RemoveGenerator, RemoveSnmp})
  }

  ghost function DeletionReport(w: World, u: Uid, faults: set<Effect>): Report
    requires u in w.devices
  {
    if CleanupFails(w, u, faults) || ExportFails(w.files - {GeneratorFile(u), SnmpFile(u)}, w.annotation, faults)
    then Report(Error, None, Some(False))
    else Report(Stop, None, Some(True))
  }

  /** The job decides how far a live device gets; None when it is complete. */
  function JobReport(w: World, u: Uid, faults: set<Effect>): Option<Report>
    requires u in w.devices
  {
    var d := w.devices[u];
    if ListJobs in faults then Some(Report(Error, Some(False), None))
    else if d.name !in w.jobs then
      Some(if faults !! {BuildJob, CreateJob} then Report(Stop, Some(Unknown), None)
           else Report(Error, Some(False), None))
    else if w.jobs[d.name].generation != d.generation then
      Some(if DeleteJob in faults then Report(Error, Some(False), None) else Report(Stop, Some(True), None))
    else if w.jobs[d.name].state.Failed? then Some(Report(Stop, Some(False), None))
    else if !w.jobs[d.name].state.Complete? then Some(Report(Stop, Some(Unknown), None))
    else None
  }

  ghost function ReportOf(w: World, u: Uid, faults: set<Effect>): Report
    requires u in w.devices
  {
    if w.devices[u].deleting then DeletionReport(w, u, faults)
    else if !w.devices[u].finalizer then Report(Stop, None, None)
    else if GeneratorFails(w, u, faults) then Report(Error, Some(False), None)
    else if JobReport(w, u, faults).Some? then JobReport(w, u, faults).value
    else if ReadSnmp in faults then Report(Error, Some(False), None)
    else if ExportFails(w.files, w.annotation, faults) then Report(Error, Some(True), Some(False))
    else Report(Continue, Some(True), Some(True))
  }

  /* ---- What is left behind ---- */

  /** The merged file is replaced by the merge, and then the exporter annotated with its hash. */
  ghost function AfterExport(w: World, faults: set<Effect>): World {
    if MergeFails(w.files, faults) then w
    else
      var merged := MergeOf(w.files).value;
      var hash := if ReloadFails(merged, w.annotation, faults) then w.annotation else Some(Sha256(merged));
      w.(files := w.files[SnmpMergedFile := merged], annotation := hash)
  }

  /** The device's jobs go first, then its generator file, then its SNMP file. */
  function CleanedUp(w: World, u: Uid, faults: set<Effect>): World
    requires u in w.devices
  {
    if JobsStay(w, u, faults) then w
    else
      var gone := if RemoveGenerator in faults then {} else if RemoveSnmp in faults then {GeneratorFile(u)}
                  else {GeneratorFile(u), SnmpFile(u)};
      w.(jobs := w.jobs - {w.devices[u].name}, files := w.files - gone)
  }

  function JobsAfter(w: World, u: Uid, faults: set<Effect>): map<Name, Job>
    requires u in w.devices
  {
    var d := w.devices[u];
    if ListJobs in faults then w.jobs
    else if d.name !in w.jobs then
      if faults !! {BuildJob, CreateJob} then w.jobs[d.name := Job(u, d.generation, Waiting)] else w.jobs
    else if w.jobs[d.name].generation != d.generation && DeleteJob !in faults then w.jobs - {d.name}
    else w.jobs
  }

  function Generating(w: World, u: Uid): World
    requires u in w.devices
  {
    w.(files := w.files[GeneratorFile(u) := DesiredGenerator(w.devices[u])])
  }

  ghost function WorldAfter(w: World, u: Uid, faults: set<Effect>): World
    requires u in w.devices
  {
    if w.devices[u].deleting then
      if CleanupFails(w, u, faults) then CleanedUp(w, u, faults) else AfterExport(CleanedUp(w, u, faults), faults)
    else if !w.devices[u].finalizer || GeneratorFails(w, u, faults) then w
    else if JobReport(w, u, faults).Some? then Generating(w, u).(jobs := JobsAfter(w, u, faults))
    else if ReadSnmp in faults then Generating(w, u)
    else AfterExport(Generating(w, u), faults)
  }

  /** A live device's pass gets as far as its SNMP file, and hashes it. */
  predicate Hashes(w: World, u: Uid, faults: set<Effect>)
    requires u in w.devices
  {
    && !w.devices[u].deleting && w.devices[u].finalizer && !GeneratorFails(w, u, faults)
    && JobReport(w, u, faults).None? && ReadSnmp !in faults && SnmpFile(u) in w.files
  }

  ghost function ObjectAfter(w: World, u: Uid, faults: set<Effect>): Device
    requires u in w.devices
  {
    var d, report := w.devices[u], ReportOf(w, u, faults);
    d.(finalizer := !(d.deleting && report.action == Stop),
       status := Status(
         Condition(if report.action == Continue then True else Unknown, d.generation),
         Shown(report.generated, d.generation, d.status.generated),
         Shown(report.applied, d.generation, d.status.applied),
         if Hashes(w, u, faults) then Some(Sha256(w.files[SnmpFile(u)])) else d.status.configHash))
  }

  ghost function EndOf(w: World, u: Uid, faults: set<Effect>): (PassState, Action)
    requires u in w.devices
  {
    (PassState(WorldAfter(w, u, faults), ObjectAfter(w, u, faults)), ReportOf(w, u, faults).action)
  }

  /* ---- Merging and reloading ---- */

  lemma MergeReport(s: PassState, faults: set<Effect>)
    ensures var (next, action) := MergeStep(s, faults);
      && action == (if MergeFails(s.world.files, faults) then Error else Continue)
      && next.obj == s.obj.WithApplied(if action == Continue then Unknown else False)
      && next.world == (if action == Error then s.world
                        else s.world.(files := s.world.files[SnmpMergedFile := MergeOf(s.world.files).value]))
  {
    hide MergeOf;
    var files := s.world.files;
    if SnmpMergedFile in files {
      assert files[SnmpMergedFile := files[SnmpMergedFile]] == files;
    }
  }

  lemma ReloadReport(s: PassState, faults: set<Effect>)
    requires SnmpMergedFile in s.world.files
    ensures var (next, action) := ReloadStep(s, faults);
            var merged := s.world.files[SnmpMergedFile];
      && action == (if ReloadFails(merged, s.world.annotation, faults) then Error else Continue)
      && next.obj == s.obj.WithApplied(if action == Continue then True else False)
      && next.world == s.world.(annotation := if action == Error then s.world.annotation else Some(Sha256(merged)))
  {
  }

  lemma ExportReport(s: PassState, faults: set<Effect>)
    ensures var (merged, mergeAction) := MergeStep(s, faults);
            var (reloaded, reloadAction) := ReloadStep(merged, faults);
            var (end, action) := if mergeAction == Error then (merged, mergeAction) else (reloaded, reloadAction);
      && mergeAction in {Continue, Error} && action in {Continue, Error}
      && (action == Error <==> ExportFails(s.world.files, s.world.annotation, faults))
      && end.obj == s.obj.WithApplied(if action == Continue then True else False)
      && end.world == AfterExport(s.world, faults)
  {
    hide MergeOf, MergeStep, ReloadStep, MergeFails, ReloadFails;
    MergeReport(s, faults);
    var (merged, mergeAction) := MergeStep(s, faults);
    if mergeAction == Continue {
      ReloadReport(merged, faults);
    }
  }

  /* ---- Deletion ---- */

  lemma CleanupReport(w: World, u: Uid, faults: set<Effect>, s: PassState)
    requires u in w.devices && s.world == w
    requires OwnedJobs(w.jobs, u) == if w.devices[u].name in w.jobs then {w.devices[u].name} else {}
    ensures var (next, action) := CleanupStep(s, u, faults);
      && action == (if CleanupFails(w, u, faults) then Error else Continue)
      && next.obj == (if action == Continue then s.obj else s.obj.WithApplied(False))
      && next.world == CleanedUp(w, u, faults)
  {
    hide OwnedJobs;
    assert w.files - {GeneratorFile(u)} - {SnmpFile(u)} == w.files - {GeneratorFile(u), SnmpFile(u)};
    assert w.jobs - {w.devices[u].name} == w.jobs - OwnedJobs(w.jobs, u);
    assert w.files - {} == w.files;
  }

  lemma DeletionReports(w: World, u: Uid, faults: set<Effect>)
    requires u in w.devices && w.devices[u].deleting && w.devices[u].finalizer
    requires OwnedJobs(w.jobs, u) == if w.devices[u].name in w.jobs then {w.devices[u].name} else {}
    ensures DeletionStep(StartOf(w, u), u, faults) == EndOf(w, u, faults)
  {
    hide OwnedJobs, CleanupStep, MergeStep, ReloadStep, ExportFails, CleanedUp, AfterExport;
    var s := StartOf(w, u);
    CleanupReport(w, u, faults, s);
    ExportReport(CleanupStep(s, u, faults).0, faults);
    CleanedFiles(w, u, faults);
  }

  lemma CleanedFiles(w: World, u: Uid, faults: set<Effect>)
    requires u in w.devices
    ensures CleanedUp(w, u, faults).annotation == w.annotation
    ensures !CleanupFails(w, u, faults) ==>
      CleanedUp(w, u, faults).files == w.files - {GeneratorFile(u), SnmpFile(u)}
  {
  }

  /* ---- A live device ---- */

  lemma GeneratorReport(w: World, u: Uid, faults: set<Effect>)
    requires u in w.devices
    ensures var (next, action) := GeneratorStep(StartOf(w, u), u, faults);
      && action == (if GeneratorFails(w, u, faults) then Error else Continue)
      && next.obj == StartOf(w, u).obj.WithGenerated(if action == Continue then True else False)
      && next.world == (if action == Error then w else Generating(w, u))
  {
    assert DesiredGenerator(StartOf(w, u).obj) == DesiredGenerator(w.devices[u]);
    hide DesiredGenerator;
    if GeneratorFile(u) in w.files {
      assert w.files[GeneratorFile(u) := w.files[GeneratorFile(u)]] == w.files;
    }
  }

  lemma JobStepReport(w: World, u: Uid, faults: set<Effect>, s: PassState)
    requires u in w.devices && s.world.jobs == w.jobs
    requires OwnedJobs(w.jobs, u) == if w.devices[u].name in w.jobs then {w.devices[u].name} else {}
    requires SameObject(s.obj, w.devices[u]) && s.obj.status.generated == Condition(True, s.obj.generation)
    ensures var (next, action) := JobStep(s, u, faults);
      && action == (if JobReport(w, u, faults).Some? then JobReport(w, u, faults).value.action else Continue)
      && next.obj == s.obj.WithGenerated(
           if JobReport(w, u, faults).Some? then JobReport(w, u, faults).value.generated.value else Unknown)
      && next.world == s.world.(jobs := JobsAfter(w, u, faults))
      && (JobReport(w, u, faults).None? ==> JobsAfter(w, u, faults) == w.jobs)
  {
    hide OwnedJobs;
    var n := w.devices[u].name;
    if n in w.jobs {
      assert OwnedJobs(s.world.jobs, u) == {n};
    }
  }

  lemma ContentReport(s: PassState, u: Uid, faults: set<Effect>)
    requires SnmpFile(u) in s.world.files
    ensures var (next, action) := ContentStep(s, u, faults);
      && action == (if ReadSnmp in faults then Error else Continue) && next.world == s.world
      && next.obj == s.obj.(status := s.obj.status.(
           configHash := if action == Error then s.obj.status.configHash else Some(Sha256(s.world.files[SnmpFile(u)])),
           generated := Condition(if action == Continue then True else False, s.obj.generation)))
  {
  }

  /** From the content step on. */
  lemma LateReports(s: PassState, u: Uid, faults: set<Effect>)
    requires SnmpFile(u) in s.world.files
    ensures var (end, action) := RunFrom(4, s, u, faults);
            var hashed := s.obj.(status := s.obj.status.(configHash := Some(Sha256(s.world.files[SnmpFile(u)]))));
      if ReadSnmp in faults then action == Error && end == s.(obj := s.obj.WithGenerated(False))
      else
        var failed := ExportFails(s.world.files, s.world.annotation, faults);
        && action == (if failed then Error else Continue) && end.world == AfterExport(s.world, faults)
        && end.obj == (if failed then hashed.WithGenerated(True).WithApplied(False)
                       else hashed.WithGenerated(True).WithApplied(True).WithReady(True))
  {
    hide ContentStep, MergeStep, ReloadStep, RunFrom, ExportFails, AfterExport;
    RunFromStep(4, s, u, faults);
    ContentReport(s, u, faults);
    var hashed := ContentStep(s, u, faults).0;
    RunFromStep(5, hashed, u, faults);
    ExportReport(hashed, faults);
    var merged := MergeStep(hashed, faults).0;
    RunFromStep(6, merged, u, faults);
    var reloaded := ReloadStep(merged, faults).0;
    RunFromStep(7, reloaded, u, faults);
    RunFromStep(8, ReadyStep(reloaded).0, u, faults);
  }

  lemma SameExport(w: World, u: Uid, faults: set<Effect>)
    requires u in w.devices
    ensures ExportFails(Generating(w, u).files, w.annotation, faults) <==> ExportFails(w.files, w.annotation, faults)
  {
    hide MergeOf, DesiredGenerator;
    MergeDependsOnSnmpFiles(Generating(w, u).files, w.files);
  }

  lemma LiveReports(w: World, u: Uid, faults: set<Effect>)
    requires Inv(w) && u in w.devices && !w.devices[u].deleting && w.devices[u].finalizer
    ensures RunFrom(2, StartOf(w, u), u, faults) == EndOf(w, u, faults)
  {
    hide Inv, GeneratorStep, JobStep, RunFrom, ExportFails, GeneratorFails, OwnedJobs, DesiredGenerator, Generated,
      AfterExport, JobsAfter, JobReport;
    var s := StartOf(w, u);
    OwnedIsNamed(w, u);
    RunFromStep(2, s, u, faults);
    GeneratorReport(w, u, faults);
    var written := GeneratorStep(s, u, faults).0;
    RunFromStep(3, written, u, faults);
    if !GeneratorFails(w, u, faults) {
      JobStepReport(w, u, faults, written);
      JobReportForm(w, u, faults);
      var checked := JobStep(written, u, faults).0;
      if JobReport(w, u, faults).None? {
        CompleteHasOutput(w, u, faults);
        LateReports(checked, u, faults);
        SameExport(w, u, faults);
      }
    }
  }

  /** A job that holds a pass up says so in one condition. */
  lemma JobReportForm(w: World, u: Uid, faults: set<Effect>)
    requires u in w.devices
    ensures var r := JobReport(w, u, faults);
            r.Some? ==> r.value.generated.Some? && r.value.applied.None? && r.value.action in {Stop, Error}
  {
  }

  lemma CompleteHasOutput(w: World, u: Uid, faults: set<Effect>)
    requires Inv(w) && u in w.devices && !w.devices[u].deleting && JobReport(w, u, faults).None?
    ensures SnmpFile(u) in w.files
  {
    JobsOfInv(w, w.devices[u].name);
    assert JobCurrent(w, w.devices[u].name);
    hide DesiredGenerator, Generated;
  }

  /** Whatever fails: jobs, files, the annotation, the finalizer, the conditions and whether the pass is
      retried are exactly those of the tables. */
  lemma PassReports(w: World, u: Uid, faults: set<Effect>)
    requires Inv(w) && u in w.devices
    ensures RunPipeline(StartOf(w, u), u, faults) == EndOf(w, u, faults)
  {
    hide Inv, RunFrom, RunPipeline, ExportFails, GeneratorFails, OwnedJobs, DesiredGenerator;
    var s := StartOf(w, u);
    SaneAt(w, u);
    RunFromStart(s, u, faults);
    RunFromStep(0, s, u, faults);
    if w.devices[u].deleting {
      OwnedIsNamed(w, u);
      DeletionEnds(s, u, faults);
      DeletionReports(w, u, faults);
    } else {
      hide JobReport, DeletionReport;
      RunFromStep(1, s, u, faults);
      if w.devices[u].finalizer {
        EarlyStepsPass(s, u, faults);
        LiveReports(w, u, faults);
      } else {
        FinalizerFirst(s, u, faults);
      }
    }
  }

  lemma SaneAt(w: World, u: Uid)
    requires Inv(w) && u in w.devices
    ensures SaneDevice(w.devices[u])
  {
  }

  lemma DeletionEnds(s: PassState, u: Uid, faults: set<Effect>)
    requires s.obj.deleting && s.obj.finalizer
    ensures DeletionStep(s, u, faults).1 != Continue && Exec(Pipeline[0], s, u, faults) == DeletionStep(s, u, faults)
  {
    hide MergeStep, ReloadStep, CleanupStep;
  }

  lemma EarlyStepsPass(s: PassState, u: Uid, faults: set<Effect>)
    requires !s.obj.deleting && s.obj.finalizer
    ensures Exec(Pipeline[0], s, u, faults) == (s, Continue) && Exec(Pipeline[1], s, u, faults) == (s, Continue)
  {
    hide MergeStep, ReloadStep, CleanupStep;
  }

  lemma FinalizerFirst(s: PassState, u: Uid, faults: set<Effect>)
    requires !s.obj.deleting && !s.obj.finalizer
    ensures Exec(Pipeline[0], s, u, faults) == (s, Continue)
    ensures Exec(Pipeline[1], s, u, faults) == (s.(obj := s.obj.(finalizer := true)), Stop)
  {
    hide MergeStep, ReloadStep, CleanupStep;
  }

  /** A recorded pass stores this, unless it releases the device. */
  lemma StoredReport(w: World, u: Uid, faults: set<Effect>)
    requires Inv(w) && u in w.devices && faults !! {GetDevice, FinalPatch}
    requires u in Reconcile(w, u, faults).devices
    ensures Reconcile(w, u, faults).devices[u] == ObjectAfter(w, u, faults)
  {
    hide Inv, RunPipeline, ObjectAfter, WorldAfter;
    PassReports(w, u, faults);
  }

  /* ---- States no run reaches, which the steps handle all the same ---- */

  /** A device under deletion that only somebody else's finalizer keeps is left alone. */
  lemma LeavesForeign(w: World, u: Uid, faults: set<Effect>)
    requires u in w.devices && w.devices[u].deleting && !w.devices[u].finalizer
    ensures RunPipeline(StartOf(w, u), u, faults) == (StartOf(w, u), Stop)
  {
    hide RunFrom, RunPipeline, MergeStep, ReloadStep, CleanupStep;
    RunFromStart(StartOf(w, u), u, faults);
    RunFromStep(0, StartOf(w, u), u, faults);
  }

  /** Several jobs, and a job of another owner under the device's name, are reported, and no job
      is touched. */
  lemma OddJobs(s: PassState, u: Uid, faults: set<Effect>)
    requires (exists n, m :: n in OwnedJobs(s.world.jobs, u) && m in OwnedJobs(s.world.jobs, u) && n != m)
      || (s.obj.name in s.world.jobs && OwnedJobs(s.world.jobs, u) == {})
    ensures JobStep(s, u, faults) == (s.(obj := s.obj.WithGenerated(False)), Error)
  {
    hide EvaluateJobStep;
    if n, m :| n in OwnedJobs(s.world.jobs, u) && m in OwnedJobs(s.world.jobs, u) && n != m {
      assert !exists k :: OwnedJobs(s.world.jobs, u) == {k};
    }
  }

  /** A missing output fails the pass; a missing merged file leaves the exporter alone. */
  lemma MissingFiles(s: PassState, u: Uid, faults: set<Effect>)
    ensures SnmpFile(u) !in s.world.files ==>
      ContentStep(s, u, faults) == (s.(obj := s.obj.WithGenerated(False)), Error)
    ensures SnmpMergedFile !in s.world.files && ReadMergedAgain !in faults ==>
      ReloadStep(s, faults) == (s.(obj := s.obj.WithApplied(Unknown)), Continue)
  {
  }
}
