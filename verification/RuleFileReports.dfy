/** How a pass over a DataCenterResource ends, what it leaves behind and what it reports, read off the
    stored state and the failures alone. */
module RuleFileReports {
  import opened Options
  import opened Conditions
  import opened Steps
  import opened ParentGraph
  import opened RecordingRules
  import opened RuleFileProtocol
  import opened RuleFileSafety

  /** The resource passes validation: no name that its parents lead to is missing or lists it as a parent,
      its type is a known one, and no additional label is nameless. A failed listing shows no others. */
  ghost predicate PassesValidation(w: World, r: Resource, faults: set<Effect>) {
    var live := if ListResources in faults then map[] else LiveGraph(w);
    && (forall m :: Reachable(live, r.ParentNames(), m) ==> m in live && r.name !in live[m].ParentNames())
    && (r.kind == "" || r.kind == "pdu" || r.kind == "baremetal" || r.kind == "vm" || r.kind == "kubernetes"
        || r.kind == "heat")
    && "" !in r.additionalLabels.Keys
  }

  lemma ValidatesExact(w: World, r: Resource, faults: set<Effect>)
    ensures Validates(w, r, faults) <==> PassesValidation(w, r, faults)
  {
    ValidationExact(ListedGraph(w, faults), r);
    hide Accepts, Reachable, LiveGraph;
  }

  datatype Report = Report(action: Action, validated: Option<ConditionStatus>, applied: Option<ConditionStatus>)

  function Shown(status: Option<ConditionStatus>, generation: nat, before: Condition): Condition {
    if status.None? then before else Condition(status.value, generation)
  }

  ghost function ReportOf(w: World, o: Object, faults: set<Effect>): Report {
    if o.resource.deleting then
      if faults !! {RemoveFile, Reload} then Report(Stop, None, None) else Report(Error, None, Some(False))
    else if !o.finalizer then Report(Stop, None, None)
    else if !PassesValidation(w, o.resource, faults) then Report(Error, Some(False), None)
    else if faults !! {ResolveTemplates, MakeDirectory, MarshalFile, WriteRefused, WriteTorn, Reload} then
      Report(Continue, Some(True), Some(True))
    else Report(Error, Some(True), Some(False))
  }

  /** What is on disk after the pass. */
  ghost function DiskAfter(w: World, o: Object, faults: set<Effect>): RuleFiles {
    var n := o.resource.name;
    if o.resource.deleting then
      if RemoveFile in faults then w.ruleFiles else w.ruleFiles - {n}
    else if !o.finalizer || !PassesValidation(w, o.resource, faults) then w.ruleFiles
    else if !(faults !! {ResolveTemplates, MakeDirectory, MarshalFile, WriteRefused}) then w.ruleFiles
    else w.ruleFiles[n := if WriteTorn in faults then Torn else Written(CompiledFile(o.resource))]
  }

  /** The pass gets as far as a reload that succeeds. */
  ghost predicate Reloads(w: World, o: Object, faults: set<Effect>) {
    && Reload !in faults && o.finalizer
    && (o.resource.deleting ==> RemoveFile !in faults)
    && (!o.resource.deleting ==> PassesValidation(w, o.resource, faults))
    && (!o.resource.deleting ==> faults !! {ResolveTemplates, MakeDirectory, MarshalFile, WriteRefused, WriteTorn})
  }

  ghost function WorldAfter(w: World, o: Object, faults: set<Effect>): World {
    var disk := DiskAfter(w, o, faults);
    World(w.objects, disk, if Reloads(w, o, faults) then disk else w.loaded)
  }

  ghost function StatusAfter(w: World, o: Object, faults: set<Effect>): Status {
    var report := ReportOf(w, o, faults);
    Status(Condition(if report.action == Continue then True else Unknown, o.generation),
           Shown(report.validated, o.generation, o.status.validated),
           Shown(report.applied, o.generation, o.status.applied))
  }

  /** The finalizer goes with a clean release and is there after any other pass. */
  predicate FinalizerAfter(o: Object, faults: set<Effect>) {
    !(o.resource.deleting && faults !! {RemoveFile, Reload})
  }

  ghost function ObjectAfter(w: World, o: Object, faults: set<Effect>): Object {
    o.(finalizer := FinalizerAfter(o, faults), status := StatusAfter(w, o, faults))
  }

  ghost function EndOf(w: World, o: Object, faults: set<Effect>): (PassState, Action) {
    (PassState(WorldAfter(w, o, faults), ObjectAfter(w, o, faults)), ReportOf(w, o, faults).action)
  }

  /** Whatever fails: the files, what is loaded, the conditions, the finalizer and whether the pass is
      retried are exactly those of the tables. */
  lemma PassReports(w: World, n: Name, faults: set<Effect>)
    requires n in w.objects && SaneObject(n, w.objects[n])
    ensures RunPipeline(Start(w, n), faults) == EndOf(w, w.objects[n], faults)
  {
    hide Run, Validates, PassesValidation, CompiledFile;
    var s, o := Start(w, n), w.objects[n];
    assert Pipeline[0..] == Pipeline;
    RunUnfolds(0, s, faults);
    RunUnfolds(1, s, faults);
    if !o.resource.deleting && o.finalizer {
      hide EndOf;
      LiveReports(w, n, faults);
    }
  }

  lemma LiveReports(w: World, n: Name, faults: set<Effect>)
    requires n in w.objects && SaneObject(n, w.objects[n])
    requires !w.objects[n].resource.deleting && w.objects[n].finalizer
    ensures RunFrom(2, Start(w, n), faults) == EndOf(w, w.objects[n], faults)
  {
    hide RunFrom, Validates, PassesValidation, CompiledFile;
    ValidatesExact(w, w.objects[n].resource, faults);
    LateRun(Start(w, n), faults);
  }

  /** A resource under deletion that only somebody else's finalizer keeps is left alone. */
  lemma LeavesForeign(w: World, n: Name, faults: set<Effect>)
    requires n in w.objects && w.objects[n].resource.deleting && !w.objects[n].finalizer
    ensures RunPipeline(Start(w, n), faults) == (Start(w, n), Stop)
  {
    hide Run;
    assert Pipeline[0..] == Pipeline;
    RunUnfolds(0, Start(w, n), faults);
  }
}
