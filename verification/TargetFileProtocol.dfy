/** The PhysicalMeasurement reconciler: the target files Prometheus watches, and the finalizer that
    ties each to a stored measurement. */
module TargetFileProtocol {
  import opened Conditions
  import opened Steps

  type Name = string

  type Labels = map<string, string>

  datatype Kind = Snmp | PrometheusExporter

  datatype Spec = Spec(kind: Kind, ip: string, device: Name, additionalLabels: Labels)

  datatype Status = Status(ready: Condition, validated: Condition, applied: Condition)

  const NoStatus := Status(Condition(Unknown, 0), Condition(Unknown, 0), Condition(Unknown, 0))

  datatype Measurement = Measurement(
    name: Name, generation: nat, spec: Spec, deleting: bool, finalizer: bool, status: Status)
  {
    function WithReady(s: ConditionStatus): Measurement {
      this.(status := status.(ready := Condition(s, generation)))
    }

    function WithValidated(s: ConditionStatus): Measurement {
      this.(status := status.(validated := Condition(s, generation)))
    }

    function WithApplied(s: ConditionStatus): Measurement {
      this.(status := status.(applied := Condition(s, generation)))
    }
  }

  /* ---- The scrape target ---- */

  datatype FileSDTarget = FileSDTarget(targets: seq<string>, labels: Labels)

  /** The labels that route the scrape; the exporter reads auth and module by these. */
  function RoutingLabels(spec: Spec): Labels {
    match spec.kind
    case PrometheusExporter => map["type" := "prometheus-exporter"]
    case Snmp => map["__param_module" := spec.device, "__param_auth" := spec.device,
                     "job" := spec.device, "type" := "snmp"]
  }

  /** The default labels win over the additional ones. */
  function TargetOf(m: Measurement): FileSDTarget {
    FileSDTarget([m.spec.ip],
      m.spec.additionalLabels + RoutingLabels(m.spec) + map["name" := m.name, "instance" := m.spec.ip])
  }

  /** No additional label can redirect a scrape or rename its target, and none other is lost. */
  lemma DefaultLabelsWin(m: Measurement)
    ensures var labels, own := TargetOf(m).labels, RoutingLabels(m.spec).Keys + {"name", "instance"};
      && "name" in labels && labels["name"] == m.name && "instance" in labels && labels["instance"] == m.spec.ip
      && (forall k :: k in RoutingLabels(m.spec) ==> k in labels && labels[k] == RoutingLabels(m.spec)[k])
      && labels.Keys == m.spec.additionalLabels.Keys + own
      && (forall k :: k in m.spec.additionalLabels && k !in own ==> labels[k] == m.spec.additionalLabels[k])
  {
    assert "name" !in RoutingLabels(m.spec) && "instance" !in RoutingLabels(m.spec);
  }

  /** The subdirectory Prometheus scrapes with the configuration of the measurement's type. */
  function Subdir(kind: Kind): string {
    if kind.PrometheusExporter? then "prometheus-exporter" else "snmp"
  }

  datatype TargetPath = TargetPath(subdir: string, name: Name)

  function PathOf(m: Measurement): TargetPath {
    TargetPath(Subdir(m.spec.kind), m.name)
  }

  type Content = seq<FileSDTarget>

  type TargetFiles = map<TargetPath, Content>

  /* ---- The steps of a pass ---- */

  datatype World = World(objects: map<Name, Measurement>, devices: set<Name>, files: TargetFiles)

  datatype Effect = GetObject | RemoveFile | GetDevice | MarshalFile | ReadFile | MakeDirectory | WriteFile | FinalPatch

  datatype PassState = PassState(world: World, obj: Measurement)

  function DeletionStep(s: PassState, faults: set<Effect>): (PassState, Action) {
    if !s.obj.deleting then (s, Continue)
    else if !s.obj.finalizer then (s, Stop)
    else if RemoveFile in faults then (s.(obj := s.obj.WithApplied(False)), Error)
    else (PassState(s.world.(files := s.world.files - {PathOf(s.obj)}), s.obj.(finalizer := false)), Stop)
  }

  function FinalizerStep(s: PassState): (PassState, Action) {
    if s.obj.finalizer then (s, Continue) else (s.(obj := s.obj.(finalizer := true)), Stop)
  }

  function ValidationStep(s: PassState, faults: set<Effect>): (PassState, Action) {
    var device := s.obj.spec.device;
    if device == "" then (s.(obj := s.obj.WithValidated(True)), Continue)
    else if GetDevice in faults then (s.(obj := s.obj.WithValidated(False)), Error)
    else if device !in s.world.devices then (s.(obj := s.obj.WithValidated(False)), Requeue)
    else (s.(obj := s.obj.WithValidated(True)), Continue)
  }

  /** The write replaces the file atomically: a failed one leaves the old content. */
  function TargetFileStep(s: PassState, faults: set<Effect>): (PassState, Action) {
    var path, desired := PathOf(s.obj), [TargetOf(s.obj)];
    var failed := s.(obj := s.obj.WithApplied(False));
    var done := s.(obj := s.obj.WithApplied(True));
    if MarshalFile in faults || ReadFile in faults then (failed, Error)
    else if path in s.world.files && s.world.files[path] == desired then (done, Continue)
    else if MakeDirectory in faults || WriteFile in faults then (failed, Error)
    else (done.(world := s.world.(files := s.world.files[path := desired])), Continue)
  }

  function ReadyStep(s: PassState): (PassState, Action) {
    (s.(obj := s.obj.WithReady(True)), Continue)
  }

  datatype StepId = Deletion | Finalizer | Validation | TargetFile | Ready

  const Pipeline := [Deletion, Finalizer, Validation, TargetFile, Ready]

  function Exec(id: StepId, s: PassState, faults: set<Effect>): (PassState, Action) {
    match id
    case Deletion => DeletionStep(s, faults)
    case Finalizer => FinalizerStep(s)
    case Validation => ValidationStep(s, faults)
    case TargetFile => TargetFileStep(s, faults)
    case Ready => ReadyStep(s)
  }

  function Executor(faults: set<Effect>): (StepId, PassState) -> (PassState, Action) {
    (id: StepId, s: PassState) => Exec(id, s, faults)
  }

  function Start(w: World, n: Name): PassState
    requires n in w.objects
  {
    PassState(w, w.objects[n].WithReady(Unknown))
  }

  function RunPipeline(s: PassState, faults: set<Effect>): (PassState, Action) {
    Run(Executor(faults), Pipeline, s)
  }

  function Persist(w: World, n: Name, obj: Measurement): World {
    if obj.deleting && !obj.finalizer then w.(objects := w.objects - {n})
    else w.(objects := w.objects[n := obj])
  }

  function Reconcile(w: World, n: Name, faults: set<Effect>): World {
    if n !in w.objects || GetObject in faults then w
    else
      var s := RunPipeline(Start(w, n), faults).0;
      if FinalPatch in faults then s.world else Persist(s.world, n, s.obj)
  }

  /* ---- Events and runs ---- */

  datatype Event =
    | Create(name: Name, spec: Spec)
    | Edit(name: Name, spec: Spec)
    | Delete(name: Name)
    | DeviceAppears(device: Name)
    | DeviceVanishes(device: Name)
    | Pass(name: Name, faults: set<Effect>)

  function Apply(w: World, e: Event): World {
    match e
    case Create(n, spec) =>
      if n in w.objects then w
      else w.(objects := w.objects[n := Measurement(n, 1, spec, false, false, NoStatus)])
    case Edit(n, spec) =>
      if n !in w.objects || w.objects[n].spec == spec then w
      else
        var m := w.objects[n];
        w.(objects := w.objects[n := m.(spec := spec, generation := m.generation + 1)])
    case Delete(n) =>
      if n !in w.objects || w.objects[n].deleting then w
      else if w.objects[n].finalizer then w.(objects := w.objects[n := w.objects[n].(deleting := true)])
      else w.(objects := w.objects - {n})
    case DeviceAppears(d) =>
      w.(devices := w.devices + {d})
    case DeviceVanishes(d) =>
      w.(devices := w.devices - {d})
    case Pass(n, faults) =>
      Reconcile(w, n, faults)
  }

  const Initial := World(map[], {}, map[])

  function RunEvents(w: World, events: seq<Event>): World {
    if events == [] then w else Apply(RunEvents(w, events[..|events| - 1]), events[|events| - 1])
  }

  ghost predicate ReachableWorld(w: World) {
    exists events :: w == RunEvents(Initial, events)
  }
}
