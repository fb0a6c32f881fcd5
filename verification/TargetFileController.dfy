/** The PhysicalMeasurement reconciler as it executes: methods that update the target files and the
    object in hand, each equal to its step of the protocol. */
module TargetFileController {
  import opened Conditions
  import opened Steps
  import P = TargetFileProtocol
  import opened TargetFileProtocol
  import TargetFileSafety

  method ApplyDefaultAndAdditionalLabels(m: Measurement, labels: Labels) returns (merged: Labels)
    ensures merged.Keys == m.spec.additionalLabels.Keys + labels.Keys + {"name", "instance"}
    ensures merged["name"] == m.name && merged["instance"] == m.spec.ip
    ensures forall k :: k in labels && k !in {"name", "instance"} ==> merged[k] == labels[k]
    ensures forall k :: k in m.spec.additionalLabels && k !in labels && k !in {"name", "instance"} ==>
              merged[k] == m.spec.additionalLabels[k]
  {
    var defaults := labels;
    defaults := defaults["name" := m.name];
    defaults := defaults["instance" := m.spec.ip];
    merged := m.spec.additionalLabels;
    merged := merged + defaults;
  }

  method CreateFileSDTarget(m: Measurement) returns (target: FileSDTarget)
    ensures target == TargetOf(m)
  {
    var labels: Labels := map[];
    if m.spec.kind == PrometheusExporter {
      labels := labels["type" := "prometheus-exporter"];
    } else {
      labels := map["__param_module" := m.spec.device, "__param_auth" := m.spec.device,
                    "job" := m.spec.device, "type" := "snmp"];
    }
    var merged := ApplyDefaultAndAdditionalLabels(m, labels);
    assert merged == TargetOf(m).labels;
    return FileSDTarget([m.spec.ip], merged);
  }

  class Reconciler {
    var objects: map<Name, Measurement>
    var devices: set<Name>
    var files: TargetFiles
    var obj: Measurement

    constructor ()
      ensures Cluster() == Initial
    {
      this.objects, this.devices, this.files := map[], {}, map[];
      this.obj := Measurement("", 0, Spec(Snmp, "", "", map[]), false, false, NoStatus);
    }

    function Cluster(): World
      reads this
    {
      World(objects, devices, files)
    }

    function State(): PassState
      reads this
    {
      PassState(Cluster(), obj)
    }

    method ReconcileDeletion(faults: set<Effect>) returns (action: Action)
      modifies this
      ensures (State(), action) == DeletionStep(old(State()), faults)
    {
      if !obj.deleting {
        return Continue;
      }
      if !obj.finalizer {
        return Stop;
      }
      if RemoveFile in faults {
        obj := obj.WithApplied(False);
        return Error;
      }
      files := files - {PathOf(obj)};
      obj := obj.(finalizer := false);
      return Stop;
    }

    method EnsureFinalizerIsSet() returns (action: Action)
      modifies this
      ensures (State(), action) == FinalizerStep(old(State()))
    {
      if obj.finalizer {
        return Continue;
      }
      obj := obj.(finalizer := true);
      return Stop;
    }

    method ReconcileValidation(faults: set<Effect>) returns (action: Action)
      modifies this
      ensures (State(), action) == ValidationStep(old(State()), faults)
    {
      var deviceName := obj.spec.device;
      if deviceName == "" {
        obj := obj.WithValidated(True);
        return Continue;
      }
      if GetDevice in faults {
        obj := obj.WithValidated(False);
        return Error;
      }
      if deviceName !in devices {
        obj := obj.WithValidated(False);
        return Requeue;
      }
      obj := obj.WithValidated(True);
      return Continue;
    }

    method ReconcileTargetFile(faults: set<Effect>) returns (action: Action)
      modifies this
      ensures (State(), action) == TargetFileStep(old(State()), faults)
    {
      var target := CreateFileSDTarget(obj);
      if MarshalFile in faults || ReadFile in faults {
        obj := obj.WithApplied(False);
        return Error;
      }
      var path := PathOf(obj);
      if path !in files || files[path] != [target] {
        action := WriteTargetFile(path, [target], faults);
        return;
      }
      obj := obj.WithApplied(True);
      return Continue;
    }

    method WriteTargetFile(path: TargetPath, desired: Content, faults: set<Effect>) returns (action: Action)
      modifies this
      ensures action == if faults !! {MakeDirectory, WriteFile} then Continue else Error
      ensures objects == old(objects) && devices == old(devices)
      ensures files == if action == Continue then old(files)[path := desired] else old(files)
      ensures obj == old(obj).WithApplied(if action == Continue then True else False)
    {
      if MakeDirectory in faults || WriteFile in faults {
        obj := obj.WithApplied(False);
        return Error;
      }
      files := files[path := desired];
      obj := obj.WithApplied(True);
      return Continue;
    }

    method ReconcileReady() returns (action: Action)
      modifies this
      ensures (State(), action) == ReadyStep(old(State()))
    {
      obj := obj.WithReady(True);
      return Continue;
    }

    method Execute(id: StepId, faults: set<Effect>) returns (action: Action)
      modifies this
      ensures (State(), action) == Exec(id, old(State()), faults)
    {
      hide DeletionStep, ValidationStep, TargetFileStep;
      match id
      case Deletion => action := ReconcileDeletion(faults);
      case Finalizer => action := EnsureFinalizerIsSet();
      case Validation => action := ReconcileValidation(faults);
      case TargetFile => action := ReconcileTargetFile(faults);
      case Ready => action := ReconcileReady();
    }

    /** The step interpreter: in order, with early exit. */
    method RunSteps(steps: seq<StepId>, faults: set<Effect>) returns (action: Action)
      modifies this
      ensures (State(), action) == Run(Executor(faults), steps, old(State()))
    {
      hide Exec;
      ghost var exec := Executor(faults);
      var i := 0;
      assert steps[0..] == steps;
      while i < |steps|
        invariant 0 <= i <= |steps|
        invariant Run(exec, steps, old(State())) == Run(exec, steps[i..], State())
      {
        assert steps[i..][0] == steps[i] && steps[i..][1..] == steps[i + 1..];
        action := Execute(steps[i], faults);
        if action != Continue {
          return;
        }
        i := i + 1;
      }
      return Continue;
    }

    /** One reconcile pass: it keeps every file with a held measurement, if they all were so before. */
    method Reconcile(n: Name, faults: set<Effect>)
      requires TargetFileSafety.Sane(Cluster())
      modifies this
      ensures Cluster() == P.Reconcile(old(Cluster()), n, faults)
      ensures TargetFileSafety.Sane(Cluster())
      ensures old(TargetFileSafety.NoOrphans(Cluster())) ==> TargetFileSafety.NoOrphans(Cluster())
    {
      TargetFileSafety.PassKeepsSane(Cluster(), n, faults);
      if TargetFileSafety.NoOrphans(Cluster()) {
        TargetFileSafety.PassKeepsNoOrphans(Cluster(), n, faults);
      }
      hide Run, Exec, Executor, TargetFileSafety.Sane, TargetFileSafety.NoOrphans;
      if n !in objects || GetObject in faults {
        return;
      }
      obj := objects[n].WithReady(Unknown);
      var action := RunSteps(Pipeline, faults);
      if FinalPatch in faults {
        return;
      }
      if obj.deleting && !obj.finalizer {
        objects := objects - {n};
      } else {
        objects := objects[n := obj];
      }
    }
  }
}
