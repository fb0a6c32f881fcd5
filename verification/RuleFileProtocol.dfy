/** The DataCenterResource reconciler: rule files on disk, what Prometheus has loaded, and the
    finalizer that ties both to a stored resource. */
module RuleFileProtocol {
  import opened Conditions
  import opened Steps
  import opened ParentGraph
  import opened RecordingRules

  datatype Status = Status(ready: Condition, validated: Condition, applied: Condition)

  /** A stored resource; its templates are rendered and its name is its key. */
  datatype Object = Object(resource: Resource, generation: nat, finalizer: bool, status: Status)
  {
    function WithReady(s: ConditionStatus): Object {
      this.(status := status.(ready := Condition(s, generation)))
    }

    function WithValidated(s: ConditionStatus): Object {
      this.(status := status.(validated := Condition(s, generation)))
    }

    function WithApplied(s: ConditionStatus): Object {
      this.(status := status.(applied := Condition(s, generation)))
    }
  }

  /** os.WriteFile truncates before it writes: a failed write may leave a torn file. */
  datatype FileContent = Written(file: RuleFile) | Torn

  type RuleFiles = map<Name, FileContent>

  datatype World = World(objects: map<Name, Object>, ruleFiles: RuleFiles, loaded: RuleFiles)

  datatype Effect =
    | GetObject | RemoveFile | Reload | ListResources | ResolveTemplates
    | MakeDirectory | MarshalFile | WriteRefused | WriteTorn | FinalPatch

  datatype PassState = PassState(world: World, obj: Object)

  const KnownKinds := {"", "pdu", "baremetal", "vm", "kubernetes", "heat"}

  predicate ValidSpec(r: Resource) {
    r.kind in KnownKinds && "" !in r.additionalLabels
  }

  /** The stored resources that are not being deleted. */
  function LiveGraph(w: World): Graph {
    map n | n in w.objects && !w.objects[n].resource.deleting :: w.objects[n].resource
  }

  /** What the pass sees of the others: a failed listing is ignored and reads as empty. */
  function ListedGraph(w: World, faults: set<Effect>): Graph {
    if ListResources in faults then map[] else LiveGraph(w)
  }

  predicate Validates(w: World, r: Resource, faults: set<Effect>) {
    Accepts(ListedGraph(w, faults), r) && ValidSpec(r)
  }

  /* ---- The steps ---- */

  function DeletionStep(s: PassState, faults: set<Effect>): (PassState, Action) {
    var n := s.obj.resource.name;
    if !s.obj.resource.deleting then (s, Continue)
    else if !s.obj.finalizer then (s, Stop)
    else if RemoveFile in faults then (s.(obj := s.obj.WithApplied(False)), Error)
    else
      var removed := s.world.(ruleFiles := s.world.ruleFiles - {n});
      if Reload in faults then (PassState(removed, s.obj.WithApplied(False)), Error)
      else (PassState(removed.(loaded := removed.ruleFiles), s.obj.(finalizer := false)), Stop)
  }

  function FinalizerStep(s: PassState): (PassState, Action) {
    if s.obj.finalizer then (s, Continue) else (s.(obj := s.obj.(finalizer := true)), Stop)
  }

  function ValidationStep(s: PassState, faults: set<Effect>): (PassState, Action) {
    if Validates(s.world, s.obj.resource, faults) then (s.(obj := s.obj.WithValidated(True)), Continue)
    else (s.(obj := s.obj.WithValidated(False)), Error)
  }

  function RuleFileStep(s: PassState, faults: set<Effect>): (PassState, Action) {
    var n := s.obj.resource.name;
    var failed := s.obj.WithApplied(False);
    if ResolveTemplates in faults || MakeDirectory in faults || MarshalFile in faults || WriteRefused in faults then
      (s.(obj := failed), Error)
    else if WriteTorn in faults then
      (PassState(s.world.(ruleFiles := s.world.ruleFiles[n := Torn]), failed), Error)
    else
      var written := s.world.(ruleFiles := s.world.ruleFiles[n := Written(CompiledFile(s.obj.resource))]);
      if Reload in faults then (PassState(written, failed), Error)
      else (PassState(written.(loaded := written.ruleFiles), s.obj.WithApplied(True)), Continue)
  }

  function ReadyStep(s: PassState): (PassState, Action) {
    (s.(obj := s.obj.WithReady(True)), Continue)
  }

  datatype StepId = Deletion | Finalizer | Validation | RuleFileWrite | Ready

  const Pipeline := [Deletion, Finalizer, Validation, RuleFileWrite, Ready]

  function Exec(id: StepId, s: PassState, faults: set<Effect>): (PassState, Action) {
    match id
    case Deletion => DeletionStep(s, faults)
    case Finalizer => FinalizerStep(s)
    case Validation => ValidationStep(s, faults)
    case RuleFileWrite => RuleFileStep(s, faults)
    case Ready => ReadyStep(s)
  }

  function Executor(faults: set<Effect>): (StepId, PassState) -> (PassState, Action) {
    (id: StepId, s: PassState) => Exec(id, s, faults)
  }

  function Start(w: World, n: Name): PassState
    requires n in w.objects
  {
    PassState(w, w.objects[n].WithReady(Unknown))
  }

  function RunPipeline(s: PassState, faults: set<Effect>): (PassState, Action) {
    Run(Executor(faults), Pipeline, s)
  }

  function Persist(w: World, n: Name, obj: Object): World {
    if obj.resource.deleting && !obj.finalizer then w.(objects := w.objects - {n})
    else w.(objects := w.objects[n := obj])
  }

  function Reconcile(w: World, n: Name, faults: set<Effect>): World {
    if n !in w.objects || GetObject in faults then w
    else
      var s := RunPipeline(Start(w, n), faults).0;
      if FinalPatch in faults then s.world else Persist(s.world, n, s.obj)
  }

  /* ---- Events and runs ---- */

  datatype Event =
    | Create(resource: Resource)
    | Edit(name: Name, kind: string, parents: seq<ParentRef>, energyMetric: string, labels: map<string, string>)
    | Delete(name: Name)
    | Rerender(name: Name, energyMetric: string, coefficients: seq<string>)
    | PrometheusReloads
    | Pass(name: Name, faults: set<Effect>)

  const NoStatus := Status(Condition(Unknown, 0), Condition(Unknown, 0), Condition(Unknown, 0))

  /** The resource after a ConfigMap or Secret its templates refer to has changed. */
  function Rerendered(r: Resource, energyMetric: string, coefficients: seq<string>): (next: Resource)
    ensures next.name == r.name && next.deleting == r.deleting && next.ParentNames() == r.ParentNames()
  {
    r.(energyMetric := energyMetric,
       parents := seq(|r.parents|, i requires 0 <= i < |r.parents| =>
         if i < |coefficients| then r.parents[i].(coefficient := coefficients[i]) else r.parents[i]))
  }

  /** An edit of a ConfigMap or Secret changes what templates render to, but not the generation. */
  function Apply(w: World, e: Event): World {
    match e
    case Create(r) =>
      if r.name in w.objects || r.deleting then w
      else w.(objects := w.objects[r.name := Object(r, 1, false, NoStatus)])
    case Edit(n, kind, parents, energyMetric, labels) =>
      if n !in w.objects then w
      else
        var o := w.objects[n];
        var r := o.resource.(kind := kind, parents := parents, energyMetric := energyMetric,
                             additionalLabels := labels);
        w.(objects := w.objects[n := o.(resource := r, generation := o.generation + 1)])
    case Delete(n) =>
      if n !in w.objects || w.objects[n].resource.deleting then w
      else if w.objects[n].finalizer then
        w.(objects := w.objects[n := w.objects[n].(resource := w.objects[n].resource.(deleting := true))])
      else w.(objects := w.objects - {n})
    case Rerender(n, energyMetric, coefficients) =>
      if n !in w.objects then w
      else
        var o := w.objects[n];
        w.(objects := w.objects[n := o.(resource := Rerendered(o.resource, energyMetric, coefficients))])
    case PrometheusReloads =>
      w.(loaded := w.ruleFiles)
    case Pass(n, faults) =>
      Reconcile(w, n, faults)
  }

  const Initial := World(map[], map[], map[])

  function RunEvents(w: World, events: seq<Event>): World {
    if events == [] then w else Apply(RunEvents(w, events[..|events| - 1]), events[|events| - 1])
  }

  ghost predicate ReachableWorld(w: World) {
    exists events :: w == RunEvents(Initial, events)
  }
}
