/** The MeasurementDevice reconciler as it executes: methods that update the cluster and the object
    in hand, each equal to its step of the protocol. */
module DeviceController {
  import opened Options
  import opened Conditions
  import opened Steps
  import opened SnmpMerge
  import opened DeviceFiles
  import P = DeviceProtocol
  import opened DeviceProtocol
  import DeviceInvariant
  import DeviceRuns

  class Reconciler {
    var devices: map<Uid, Device>
    var jobs: map<Name, Job>
    var files: Files
    var annotation: Option<Digest>
    var obj: Device

    constructor (annotation: Option<Digest>)
      ensures Cluster() == Initial(annotation)
    {
      this.devices, this.jobs, this.files, this.annotation := map[], map[], map[], annotation;
      this.obj := Device("", 0, Spec([], ""), false, false, NoStatus);
    }

    function Cluster(): World
      reads this
    {
      World(devices, jobs, files, annotation)
    }

    function State(): PassState
      reads this
    {
      PassState(Cluster(), obj)
    }

    /** Every job whose owner reference names the device. */
    method GetOwnedJobs(uid: Uid) returns (owned: set<Name>)
      ensures owned == OwnedJobs(jobs, uid)
    {
      owned := {};
      var left := jobs.Keys;
      while left != {}
        invariant left <= jobs.Keys
        invariant owned == set n | n in jobs && n !in left && jobs[n].owner == uid
        decreases |left|
      {
        var n :| n in left;
        if jobs[n].owner == uid {
          owned := owned + {n};
        }
        left := left - {n};
      }
    }

    /** The names under snmp/yml, in whatever order the file system yields them. */
    method CollectSubFiles() returns (entries: seq<FileName>)
      ensures forall f :: f in entries <==> f in SnmpDirectory(files)
    {
      hide SnmpDirectory;
      entries := [];
      var left := SnmpDirectory(files).Keys;
      while left != {}
        invariant left <= SnmpDirectory(files).Keys
        invariant forall f :: f in entries <==> f in SnmpDirectory(files) && f !in left
        decreases |left|
      {
        var f :| f in left;
        entries := entries + [f];
        left := left - {f};
      }
    }

    method ReconcileMergedSNMPFile(faults: set<Effect>) returns (action: Action)
      modifies this
      ensures (State(), action) == MergeStep(old(State()), faults)
    {
      hide Merged, SnmpDirectory;
      if ListConfigs in faults {
        obj := obj.WithApplied(False);
        return Error;
      }
      var entries := CollectSubFiles();
      var merged := GetMergedSortedSNMPConfig(SnmpDirectory(files), entries);
      if merged.None? || ReadMerged in faults {
        obj := obj.WithApplied(False);
        return Error;
      }
      if SnmpMergedFile in files && files[SnmpMergedFile] == merged.value {
        obj := obj.WithApplied(Unknown);
        return Continue;
      }
      if WriteMerged in faults {
        obj := obj.WithApplied(False);
        return Error;
      }
      files := files[SnmpMergedFile := merged.value];
      obj := obj.WithApplied(Unknown);
      return Continue;
    }

    method ReconcileExporterReload(faults: set<Effect>) returns (action: Action)
      modifies this
      ensures (State(), action) == ReloadStep(old(State()), faults)
    {
      if ReadMergedAgain in faults {
        obj := obj.WithApplied(False);
        return Error;
      }
      if SnmpMergedFile !in files {
        obj := obj.WithApplied(Unknown);
        return Continue;
      }
      var desiredHash := Sha256(files[SnmpMergedFile]);
      if GetExporter in faults {
        obj := obj.WithApplied(False);
        return Error;
      }
      if annotation == Some(desiredHash) {
        obj := obj.WithApplied(True);
        return Continue;
      }
      if PatchExporter in faults {
        obj := obj.WithApplied(False);
        return Error;
      }
      annotation := Some(desiredHash);
      obj := obj.WithApplied(True);
      return Continue;
    }

    /** Deletes the jobs one by one until a deletion fails. */
    method DeleteJobs(owned: set<Name>, faults: set<Effect>) returns (ok: bool)
      modifies this`jobs
      ensures ok == (owned == {} || DeleteJob !in faults)
      ensures jobs == if ok then old(jobs) - owned else old(jobs)
    {
      var left := owned;
      while left != {}
        invariant left <= owned && jobs == old(jobs) - (owned - left)
        invariant left != owned ==> DeleteJob !in faults
        decreases |left|
      {
        var n :| n in left;
        if DeleteJob in faults {
          assert owned - left == {};
          return false;
        }
        jobs := jobs - {n};
        left := left - {n};
      }
      assert owned - left == owned;
      return true;
    }

    /** Deletes the owned jobs, then the generator and the SNMP file. */
    method CleanUp(uid: Uid, faults: set<Effect>) returns (action: Action)
      modifies this
      ensures (State(), action) == CleanupStep(old(State()), uid, faults)
    {
      if ListJobs in faults {
        obj := obj.WithApplied(False);
        return Error;
      }
      var owned := GetOwnedJobs(uid);
      var deleted := DeleteJobs(owned, faults);
      if !deleted {
        obj := obj.WithApplied(False);
        return Error;
      }
      if RemoveGenerator in faults {
        obj := obj.WithApplied(False);
        return Error;
      }
      files := files - {GeneratorFile(uid)};
      if RemoveSnmp in faults {
        obj := obj.WithApplied(False);
        return Error;
      }
      files := files - {SnmpFile(uid)};
      return Continue;
    }

    method ReconcileDeletion(uid: Uid, faults: set<Effect>) returns (action: Action)
      modifies this
      ensures (State(), action) == DeletionStep(old(State()), uid, faults)
    {
      hide MergeStep, ReloadStep, CleanupStep;
      if !obj.deleting {
        return Continue;
      }
      if !obj.finalizer {
        return Stop;
      }
      action := CleanUp(uid, faults);
      if action == Error {
        return;
      }
      action := ReconcileMergedSNMPFile(faults);
      if action == Error {
        return;
      }
      action := ReconcileExporterReload(faults);
      if action == Error {
        return;
      }
      obj := obj.(finalizer := false);
      return Stop;
    }

    method EnsureFinalizerIsSet() returns (action: Action)
      modifies this
      ensures (State(), action) == FinalizerStep(old(State()))
    {
      if obj.finalizer {
        return Continue;
      }
      obj := obj.(finalizer := true);
      return Stop;
    }

    method ReconcileGeneratorFile(uid: Uid, faults: set<Effect>) returns (action: Action)
      modifies this
      ensures (State(), action) == GeneratorStep(old(State()), uid, faults)
    {
      if ReadGenerator in faults || ResolveAuth in faults {
        obj := obj.WithGenerated(False);
        return Error;
      }
      var desired := DesiredGenerator(obj);
      if GeneratorFile(uid) in files && files[GeneratorFile(uid)] == desired {
        obj := obj.WithGenerated(True);
        return Continue;
      }
      if WriteGenerator in faults {
        obj := obj.WithGenerated(False);
        return Error;
      }
      files := files[GeneratorFile(uid) := desired];
      obj := obj.WithGenerated(True);
      return Continue;
    }

    method CreateGeneratorJob(uid: Uid, faults: set<Effect>) returns (action: Action)
      modifies this
      ensures (State(), action) == CreateJobStep(old(State()), uid, faults)
    {
      if BuildJob in faults || CreateJob in faults || obj.name in jobs {
        obj := obj.WithGenerated(False);
        return Error;
      }
      jobs := jobs[obj.name := Job(uid, obj.generation, Waiting)];
      obj := obj.WithGenerated(Unknown);
      return Stop;
    }

    method EvaluateGeneratorJob(n: Name, faults: set<Effect>) returns (action: Action)
      requires n in jobs
      modifies this
      ensures (State(), action) == EvaluateJobStep(old(State()), n, faults)
    {
      var job := jobs[n];
      if job.generation != obj.generation {
        if DeleteJob in faults {
          obj := obj.WithGenerated(False);
          return Error;
        }
        jobs := jobs - {n};
        return Stop;
      }
      if job.state.Complete? {
        obj := obj.WithGenerated(Unknown);
        return Continue;
      } else if job.state.Failed? {
        obj := obj.WithGenerated(False);
        return Stop;
      } else {
        obj := obj.WithGenerated(Unknown);
        return Stop;
      }
    }

    method ReconcileSNMPGeneratorJob(uid: Uid, faults: set<Effect>) returns (action: Action)
      modifies this
      ensures (State(), action) == JobStep(old(State()), uid, faults)
    {
      hide CreateJobStep, EvaluateJobStep;
      if ListJobs in faults {
        obj := obj.WithGenerated(False);
        return Error;
      }
      var owned := GetOwnedJobs(uid);
      if owned == {} {
        action := CreateGeneratorJob(uid, faults);
      } else {
        var n :| n in owned;
        if owned == {n} {
          action := EvaluateGeneratorJob(n, faults);
        } else {
          assert !exists m :: owned == {m};
          obj := obj.WithGenerated(False);
          action := Error;
        }
      }
    }

    method ReconcileSNMPFileContent(uid: Uid, faults: set<Effect>) returns (action: Action)
      modifies this
      ensures (State(), action) == ContentStep(old(State()), uid, faults)
    {
      if ReadSnmp in faults || SnmpFile(uid) !in files {
        obj := obj.WithGenerated(False);
        return Error;
      }
      var configHash := Sha256(files[SnmpFile(uid)]);
      if obj.status.configHash != Some(configHash) {
        obj := obj.(status := obj.status.(configHash := Some(configHash)));
      }
      obj := obj.WithGenerated(True);
      return Continue;
    }

    method ReconcileReady() returns (action: Action)
      modifies this
      ensures (State(), action) == ReadyStep(old(State()))
    {
      obj := obj.WithReady(True);
      return Continue;
    }

    method Execute(id: StepId, uid: Uid, faults: set<Effect>) returns (action: Action)
      modifies this
      ensures (State(), action) == Exec(id, old(State()), uid, faults)
    {
      hide DeletionStep, JobStep, MergeStep, ReloadStep, GeneratorStep, ContentStep;
      match id
      case Deletion => action := ReconcileDeletion(uid, faults);
      case Finalizer => action := EnsureFinalizerIsSet();
      case Generator => action := ReconcileGeneratorFile(uid, faults);
      case GeneratorJob => action := ReconcileSNMPGeneratorJob(uid, faults);
      case SnmpContent => action := ReconcileSNMPFileContent(uid, faults);
      case MergedSnmp => action := ReconcileMergedSNMPFile(faults);
      case ExporterReload => action := ReconcileExporterReload(faults);
      case Ready => action := ReconcileReady();
    }

    /** The step interpreter: in order, with early exit. */
    method RunSteps(steps: seq<StepId>, uid: Uid, faults: set<Effect>) returns (action: Action)
      modifies this
      ensures (State(), action) == Run(Executor(uid, faults), steps, old(State()))
    {
      hide Exec;
      ghost var exec := Executor(uid, faults);
      var i := 0;
      assert steps[0..] == steps;
      while i < |steps|
        invariant 0 <= i <= |steps|
        invariant Run(exec, steps, old(State())) == Run(exec, steps[i..], State())
      {
        assert steps[i..][0] == steps[i] && steps[i..][1..] == steps[i + 1..];
        action := Execute(steps[i], uid, faults);
        if action != Continue {
          return;
        }
        i := i + 1;
      }
      return Continue;
    }

    /** One reconcile pass keeps the invariant of the protocol. */
    method Reconcile(uid: Uid, faults: set<Effect>)
      requires DeviceInvariant.Inv(Cluster())
      modifies this
      ensures Cluster() == P.Reconcile(old(Cluster()), uid, faults)
      ensures DeviceInvariant.Inv(Cluster())
    {
      DeviceRuns.PassSafe(Cluster(), uid, faults);
      hide Run, Exec, Executor, DeviceInvariant.Inv;
      if uid !in devices || GetDevice in faults {
        return;
      }
      obj := devices[uid].WithReady(Unknown);
      var action := RunSteps(Pipeline, uid, faults);
      if FinalPatch in faults {
        return;
      }
      if obj.deleting && !obj.finalizer {
        devices := devices - {uid};
      } else {
        devices := devices[uid := obj];
      }
    }
  }
}
