/** The MeasurementDevice reconciler as a transition system: what every step of a pass does to the
    shared cluster state, and what users, jobs and failures may do in between. */
module DeviceProtocol {
  import opened Options
  import opened Conditions
  import opened Steps
  import opened SnmpMerge
  import opened DeviceFiles

  type Name = string

  /** Hashing, as an injective function of the content. */
  datatype Digest = Sha256(content: Content)

  datatype Status = Status(ready: Condition, generated: Condition, applied: Condition, configHash: Option<Digest>)

  const NoStatus := Status(Condition(Unknown, 0), Condition(Unknown, 0), Condition(Unknown, 0), None)

  /** The auth value is what authFrom resolves to for this generation. */
  datatype Spec = Spec(walks: seq<string>, auth: string)

  datatype Device = Device(
    name: Name, generation: nat, spec: Spec, deleting: bool, finalizer: bool, status: Status)
  {
    function WithReady(s: ConditionStatus): Device {
      this.(status := status.(ready := Condition(s, generation)))
    }

    function WithGenerated(s: ConditionStatus): Device {
      this.(status := status.(generated := Condition(s, generation)))
    }

    function WithApplied(s: ConditionStatus): Device {
      this.(status := status.(applied := Condition(s, generation)))
    }
  }

  /** A running generator has read its input. */
  datatype JobState = Waiting | Running(input: Content) | Complete | Failed

  datatype Job = Job(owner: Uid, generation: nat, state: JobState)

  datatype World = World(
    devices: map<Uid, Device>,
    jobs: map<Name, Job>,
    files: Files,
    annotation: Option<Digest>)

  /** The operations of one pass that may fail; a pass is given the set of those that do. */
  datatype Effect =
    | GetDevice | ListJobs | DeleteJob | RemoveGenerator | RemoveSnmp
    | ListConfigs | ReadMerged | WriteMerged | ReadMergedAgain | GetExporter | PatchExporter
    | ReadGenerator | ResolveAuth | WriteGenerator | BuildJob | CreateJob | ReadSnmp | FinalPatch

  /** The shared state and the object in hand while a pass runs. */
  datatype PassState = PassState(world: World, obj: Device)

  function DesiredGenerator(d: Device): Content {
    Config(map[d.name := Auth(d.spec.auth)], map[d.name := Walks(d.spec.walks)])
  }

  function Compiled(e: Entry): Entry {
    if e.Walks? then Metrics(e.walks) else e
  }

  /** What a generator job writes for its input. */
  function Generated(c: Content): Content {
    if c.Config? then Config(c.auths, map k | k in c.modules :: Compiled(c.modules[k])) else c
  }

  function OwnedJobs(jobs: map<Name, Job>, uid: Uid): set<Name> {
    set n | n in jobs && jobs[n].owner == uid
  }

  /* ---- The steps of a pass ---- */

  ghost function MergeStep(s: PassState, faults: set<Effect>): (PassState, Action) {
    var merged := MergeOf(s.world.files);
    var failed := s.(obj := s.obj.WithApplied(False));
    var done := s.(obj := s.obj.WithApplied(Unknown));
    if ListConfigs in faults || merged.None? || ReadMerged in faults then (failed, Error)
    else if SnmpMergedFile in s.world.files && s.world.files[SnmpMergedFile] == merged.value then (done, Continue)
    else if WriteMerged in faults then (failed, Error)
    else (done.(world := s.world.(files := s.world.files[SnmpMergedFile := merged.value])), Continue)
  }

  function ReloadStep(s: PassState, faults: set<Effect>): (PassState, Action) {
    var failed := s.(obj := s.obj.WithApplied(False));
    var done := s.(obj := s.obj.WithApplied(True));
    if ReadMergedAgain in faults then (failed, Error)
    else if SnmpMergedFile !in s.world.files then (s.(obj := s.obj.WithApplied(Unknown)), Continue)
    else if GetExporter in faults then (failed, Error)
    else
      var hash := Some(Sha256(s.world.files[SnmpMergedFile]));
      if s.world.annotation == hash then (done, Continue)
      else if PatchExporter in faults then (failed, Error)
      else (done.(world := s.world.(annotation := hash)), Continue)
  }

  /** Deletes the owned jobs, then the two files; stops at the first failure. */
  function CleanupStep(s: PassState, uid: Uid, faults: set<Effect>): (PassState, Action) {
    var w := s.world;
    var failed := s.obj.WithApplied(False);
    var owned := OwnedJobs(w.jobs, uid);
    if ListJobs in faults || (owned != {} && DeleteJob in faults) then (PassState(w, failed), Error)
    else
      var w1 := w.(jobs := w.jobs - owned);
      if RemoveGenerator in faults then (PassState(w1, failed), Error)
      else
        var w2 := w1.(files := w1.files - {GeneratorFile(uid)});
        if RemoveSnmp in faults then (PassState(w2, failed), Error)
        else (PassState(w2.(files := w2.files - {SnmpFile(uid)}), s.obj), Continue)
  }

  ghost function DeletionStep(s: PassState, uid: Uid, faults: set<Effect>): (PassState, Action) {
    if !s.obj.deleting then (s, Continue)
    else if !s.obj.finalizer then (s, Stop)
    else
      var (s1, a1) := CleanupStep(s, uid, faults);
      if a1.Error? then (s1, a1)
      else
        var (s2, a2) := MergeStep(s1, faults);
        if a2.Error? then (s2, a2)
        else
          var (s3, a3) := ReloadStep(s2, faults);
          if a3.Error? then (s3, a3)
          else (s3.(obj := s3.obj.(finalizer := false)), Stop)
  }

  function FinalizerStep(s: PassState): (PassState, Action) {
    if s.obj.finalizer then (s, Continue) else (s.(obj := s.obj.(finalizer := true)), Stop)
  }

  function GeneratorStep(s: PassState, uid: Uid, faults: set<Effect>): (PassState, Action) {
    var failed := s.(obj := s.obj.WithGenerated(False));
    var done := s.(obj := s.obj.WithGenerated(True));
    var desired := DesiredGenerator(s.obj);
    if ReadGenerator in faults || ResolveAuth in faults then (failed, Error)
    else if GeneratorFile(uid) in s.world.files && s.world.files[GeneratorFile(uid)] == desired then (done, Continue)
    else if WriteGenerator in faults then (failed, Error)
    else (done.(world := s.world.(files := s.world.files[GeneratorFile(uid) := desired])), Continue)
  }

  function CreateJobStep(s: PassState, uid: Uid, faults: set<Effect>): (PassState, Action) {
    if BuildJob in faults || CreateJob in faults || s.obj.name in s.world.jobs then
      (s.(obj := s.obj.WithGenerated(False)), Error)
    else
      (PassState(s.world.(jobs := s.world.jobs[s.obj.name := Job(uid, s.obj.generation, Waiting)]),
                 s.obj.WithGenerated(Unknown)), Stop)
  }

  function EvaluateJobStep(s: PassState, n: Name, faults: set<Effect>): (PassState, Action)
    requires n in s.world.jobs
  {
    var job := s.world.jobs[n];
    if job.generation != s.obj.generation then
      if DeleteJob in faults then (s.(obj := s.obj.WithGenerated(False)), Error)
      else (s.(world := s.world.(jobs := s.world.jobs - {n})), Stop)
    else match job.state
      case Complete => (s.(obj := s.obj.WithGenerated(Unknown)), Continue)
      case Failed => (s.(obj := s.obj.WithGenerated(False)), Stop)
      case _ => (s.(obj := s.obj.WithGenerated(Unknown)), Stop)
  }

  ghost function JobStep(s: PassState, uid: Uid, faults: set<Effect>): (PassState, Action) {
    var owned := OwnedJobs(s.world.jobs, uid);
    if ListJobs in faults then (s.(obj := s.obj.WithGenerated(False)), Error)
    else if owned == {} then CreateJobStep(s, uid, faults)
    else if exists n :: owned == {n} then
      var n :| owned == {n};
      EvaluateJobStep(s, n, faults)
    else (s.(obj := s.obj.WithGenerated(False)), Error)
  }

  function ContentStep(s: PassState, uid: Uid, faults: set<Effect>): (PassState, Action) {
    if ReadSnmp in faults || SnmpFile(uid) !in s.world.files then
      (s.(obj := s.obj.WithGenerated(False)), Error)
    else
      var obj := s.obj.(status := s.obj.status.(configHash := Some(Sha256(s.world.files[SnmpFile(uid)]))));
      (s.(obj := obj.WithGenerated(True)), Continue)
  }

  function ReadyStep(s: PassState): (PassState, Action) {
    (s.(obj := s.obj.WithReady(True)), Continue)
  }

  /* ---- The pass ---- */

  datatype StepId = Deletion | Finalizer | Generator | GeneratorJob | SnmpContent | MergedSnmp | ExporterReload | Ready

  const Pipeline := [Deletion, Finalizer, Generator, GeneratorJob, SnmpContent, MergedSnmp, ExporterReload, Ready]

  ghost function Exec(id: StepId, s: PassState, uid: Uid, faults: set<Effect>): (PassState, Action) {
    match id
    case Deletion => DeletionStep(s, uid, faults)
    case Finalizer => FinalizerStep(s)
    case Generator => GeneratorStep(s, uid, faults)
    case GeneratorJob => JobStep(s, uid, faults)
    case SnmpContent => ContentStep(s, uid, faults)
    case MergedSnmp => MergeStep(s, faults)
    case ExporterReload => ReloadStep(s, faults)
    case Ready => ReadyStep(s)
  }

  ghost function Executor(uid: Uid, faults: set<Effect>): (StepId, PassState) -> (PassState, Action) {
    (id: StepId, s: PassState) => Exec(id, s, uid, faults)
  }

  /** The deferred patch stores finalizer and status; an object being deleted whose last
      finalizer is gone leaves the store. */
  function Persist(w: World, uid: Uid, obj: Device): World {
    if obj.deleting && !obj.finalizer then w.(devices := w.devices - {uid})
    else w.(devices := w.devices[uid := obj])
  }

  ghost function RunPipeline(s: PassState, uid: Uid, faults: set<Effect>): (PassState, Action) {
    Run(Executor(uid, faults), Pipeline, s)
  }

  /** One reconcile pass over device uid in which the given effects fail. */
  ghost function Reconcile(w: World, uid: Uid, faults: set<Effect>): World {
    if uid !in w.devices || GetDevice in faults then w
    else
      var s := RunPipeline(PassState(w, w.devices[uid].WithReady(Unknown)), uid, faults).0;
      if FinalPatch in faults then s.world else Persist(s.world, uid, s.obj)
  }

  /* ---- Everything else that happens ---- */

  datatype Event =
    | Create(uid: Uid, name: Name, spec: Spec)
    | Edit(uid: Uid, spec: Spec)
    | Delete(uid: Uid)
    | JobStarts(job: Name)
    | JobSucceeds(job: Name)
    | JobFails(job: Name)
    | JobVanishes(job: Name)
    | Pass(uid: Uid, faults: set<Effect>)

  function NamesTaken(w: World): set<Name> {
    set u | u in w.devices :: w.devices[u].name
  }

  function StartedJob(w: World, n: Name): Job
    requires n in w.jobs
  {
    var job := w.jobs[n];
    if GeneratorFile(job.owner) in w.files && w.files[GeneratorFile(job.owner)].Config?
    then job.(state := Running(w.files[GeneratorFile(job.owner)]))
    else job.(state := Failed)
  }

  /** The effect of an event; one that is not possible changes nothing. */
  ghost function Apply(w: World, e: Event): World {
    match e
    case Create(uid, name, spec) =>
      if uid in w.devices || name in NamesTaken(w) then w
      else w.(devices := w.devices[uid := Device(name, 1, spec, false, false, NoStatus)])
    case Edit(uid, spec) =>
      if uid !in w.devices || w.devices[uid].spec == spec then w
      else
        var d := w.devices[uid];
        w.(devices := w.devices[uid := d.(spec := spec, generation := d.generation + 1)])
    case Delete(uid) =>
      if uid !in w.devices || w.devices[uid].deleting then w
      else if w.devices[uid].finalizer then w.(devices := w.devices[uid := w.devices[uid].(deleting := true)])
      else w.(devices := w.devices - {uid})
    case JobStarts(n) =>
      if n in w.jobs && w.jobs[n].state.Waiting? then w.(jobs := w.jobs[n := StartedJob(w, n)]) else w
    case JobSucceeds(n) =>
      if n in w.jobs && w.jobs[n].state.Running? then
        var job := w.jobs[n];
        w.(jobs := w.jobs[n := job.(state := Complete)],
           files := w.files[SnmpFile(job.owner) := Generated(job.state.input)])
      else w
    case JobFails(n) =>
      if n in w.jobs && !w.jobs[n].state.Complete? then w.(jobs := w.jobs[n := w.jobs[n].(state := Failed)]) else w
    case JobVanishes(n) =>
      w.(jobs := w.jobs - {n})
    case Pass(uid, faults) =>
      Reconcile(w, uid, faults)
  }

  /** An empty volume and no objects; the exporter may carry any annotation. */
  function Initial(annotation: Option<Digest>): World {
    World(map[], map[], map[], annotation)
  }

  ghost function RunEvents(w: World, events: seq<Event>): World {
    if events == [] then w else Apply(RunEvents(w, events[..|events| - 1]), events[|events| - 1])
  }

  ghost predicate Reachable(w: World) {
    exists annotation, events :: w == RunEvents(Initial(annotation), events)
  }
}
