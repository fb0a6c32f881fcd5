/** The DataCenterResource reconciler as it executes: methods that update the rule files, Prometheus
    and the object in hand, each equal to its step of the protocol. */
module RuleFileController {
  import opened Conditions
  import opened Steps
  import opened ParentGraph
  import opened RecordingRules
  import GraphValidation
  import P = RuleFileProtocol
  import opened RuleFileProtocol
  import RuleFileSafety

  predicate Named(objects: map<Name, Object>) {
    forall n :: n in objects ==> objects[n].resource.name == n
  }

  function LiveOutside(objects: map<Name, Object>, left: set<Name>): Graph {
    map n | n in objects && n !in left && !objects[n].resource.deleting :: objects[n].resource
  }

  lemma ListingOne(objects: map<Name, Object>, resources: seq<Resource>, left: set<Name>, n: Name)
    requires Named(objects) && n in objects && n in left && LiveMap(resources) == LiveOutside(objects, left)
    ensures LiveMap(resources + [objects[n].resource]) == LiveOutside(objects, left - {n})
  {
    var listed := resources + [objects[n].resource];
    assert listed[..|listed| - 1] == resources;
  }

  class Reconciler {
    var objects: map<Name, Object>
    var ruleFiles: RuleFiles
    var loaded: RuleFiles
    var obj: Object

    constructor ()
      ensures Cluster() == Initial
    {
      this.objects, this.ruleFiles, this.loaded := map[], map[], map[];
      this.obj := Object(GraphValidation.NoResource, 0, false, NoStatus);
    }

    function Cluster(): World
      reads this
    {
      World(objects, ruleFiles, loaded)
    }

    function State(): PassState
      reads this
    {
      PassState(Cluster(), obj)
    }

    method DeleteRuleFile(faults: set<Effect>) returns (ok: bool)
      modifies this`ruleFiles
      ensures ok == (RemoveFile !in faults)
      ensures ruleFiles == if ok then old(ruleFiles) - {obj.resource.name} else old(ruleFiles)
    {
      if RemoveFile in faults {
        return false;
      }
      ruleFiles := ruleFiles - {obj.resource.name};
      return true;
    }

    method ReloadPrometheus(faults: set<Effect>) returns (ok: bool)
      modifies this`loaded
      ensures ok == (Reload !in faults)
      ensures loaded == if ok then ruleFiles else old(loaded)
    {
      if Reload in faults {
        return false;
      }
      loaded := ruleFiles;
      return true;
    }

    method ReconcileDeletion(faults: set<Effect>) returns (action: Action)
      modifies this
      ensures objects == old(objects)
      ensures (State(), action) == DeletionStep(old(State()), faults)
    {
      if !obj.resource.deleting {
        return Continue;
      }
      if !obj.finalizer {
        return Stop;
      }
      var removed := DeleteRuleFile(faults);
      if !removed {
        obj := obj.WithApplied(False);
        return Error;
      }
      var reloaded := ReloadPrometheus(faults);
      if !reloaded {
        obj := obj.WithApplied(False);
        return Error;
      }
      obj := obj.(finalizer := false);
      return Stop;
    }

    method EnsureFinalizerIsSet() returns (action: Action)
      modifies this
      ensures objects == old(objects)
      ensures (State(), action) == FinalizerStep(old(State()))
    {
      if obj.finalizer {
        return Continue;
      }
      obj := obj.(finalizer := true);
      return Stop;
    }

    /** The stored resources in whatever order the API yields them; an error leaves the list empty. */
    method List(faults: set<Effect>) returns (resources: seq<Resource>)
      requires Named(objects)
      ensures LiveMap(resources) == ListedGraph(Cluster(), faults)
    {
      resources := [];
      if ListResources in faults {
        return;
      }
      var left := objects.Keys;
      hide LiveMap;
      assert LiveMap(resources) == LiveOutside(objects, left) by { EmptyListing(); }
      while left != {}
        invariant left <= objects.Keys
        invariant LiveMap(resources) == LiveOutside(objects, left)
        decreases |left|
      {
        var n :| n in left;
        ListingOne(objects, resources, left, n);
        resources := resources + [objects[n].resource];
        left := left - {n};
      }
    }

    lemma EmptyListing()
      ensures LiveMap([]) == map[]
    {
    }

    method ReconcileValidation(faults: set<Effect>) returns (action: Action)
      requires Named(objects)
      modifies this
      ensures objects == old(objects)
      ensures (State(), action) == ValidationStep(old(State()), faults)
    {
      hide LiveMap, Validated;
      var resources := List(faults);
      var visited, involved, error := GraphValidation.ValidateGraph(obj.resource, resources);
      if error.Some? || obj.resource.kind !in KnownKinds || "" in obj.resource.additionalLabels {
        obj := obj.WithValidated(False);
        return Error;
      }
      obj := obj.WithValidated(True);
      return Continue;
    }

    /** BuildRuleFile always yields a file, so the branch that deletes one has no counterpart. */
    method ReconcileWriteRuleFile(faults: set<Effect>) returns (action: Action)
      modifies this
      ensures objects == old(objects)
      ensures (State(), action) == RuleFileStep(old(State()), faults)
    {
      hide CompiledFile;
      if ResolveTemplates in faults {
        obj := obj.WithApplied(False);
        return Error;
      }
      var ruleFile := BuildRuleFile(obj.resource);
      if MakeDirectory in faults || MarshalFile in faults || WriteRefused in faults {
        obj := obj.WithApplied(False);
        return Error;
      }
      if WriteTorn in faults {
        ruleFiles := ruleFiles[obj.resource.name := Torn];
        obj := obj.WithApplied(False);
        return Error;
      }
      ruleFiles := ruleFiles[obj.resource.name := Written(ruleFile.value)];
      var reloaded := ReloadPrometheus(faults);
      if !reloaded {
        obj := obj.WithApplied(False);
        return Error;
      }
      obj := obj.WithApplied(True);
      return Continue;
    }

    method ReconcileReady() returns (action: Action)
      modifies this
      ensures objects == old(objects)
      ensures (State(), action) == ReadyStep(old(State()))
    {
      obj := obj.WithReady(True);
      return Continue;
    }

    method Execute(id: StepId, faults: set<Effect>) returns (action: Action)
      requires Named(objects)
      modifies this
      ensures objects == old(objects)
      ensures (State(), action) == Exec(id, old(State()), faults)
    {
      hide DeletionStep, ValidationStep, RuleFileStep;
      match id
      case Deletion => action := ReconcileDeletion(faults);
      case Finalizer => action := EnsureFinalizerIsSet();
      case Validation => action := ReconcileValidation(faults);
      case RuleFileWrite => action := ReconcileWriteRuleFile(faults);
      case Ready => action := ReconcileReady();
    }

    /** The step interpreter: in order, with early exit. */
    method RunSteps(steps: seq<StepId>, faults: set<Effect>) returns (action: Action)
      requires Named(objects)
      modifies this
      ensures objects == old(objects)
      ensures (State(), action) == Run(Executor(faults), steps, old(State()))
    {
      hide Exec;
      ghost var exec := Executor(faults);
      var i := 0;
      assert steps[0..] == steps;
      while i < |steps|
        invariant 0 <= i <= |steps|
        invariant objects == old(objects)
        invariant Run(exec, steps, old(State())) == Run(exec, steps[i..], State())
      {
        assert steps[i..][0] == steps[i] && steps[i..][1..] == steps[i + 1..];
        action := Execute(steps[i], faults);
        if action != Continue {
          return;
        }
        i := i + 1;
      }
      return Continue;
    }

    /** One reconcile pass keeps the invariant of the protocol. */
    method Reconcile(n: Name, faults: set<Effect>)
      requires RuleFileSafety.Inv(Cluster())
      modifies this
      ensures Cluster() == P.Reconcile(old(Cluster()), n, faults)
      ensures RuleFileSafety.Inv(Cluster())
    {
      RuleFileSafety.PassSafe(Cluster(), n, faults);
      hide Run, Exec, Executor;
      if n !in objects || GetObject in faults {
        return;
      }
      obj := objects[n].WithReady(Unknown);
      var action := RunSteps(Pipeline, faults);
      if FinalPatch in faults {
        return;
      }
      if obj.resource.deleting && !obj.finalizer {
        objects := objects - {n};
      } else {
        objects := objects[n := obj];
      }
    }
  }
}
