/** One reconcile pass, step by step: the invariant survives every step and every failure, and the
    ways a pass can end are exactly four. */
module DevicePass {
  import opened Options
  import opened Conditions
  import opened Steps
  import opened DeviceFiles
  import opened DeviceProtocol
  import opened DeviceInvariant

  /** obj is d up to finalizer and status. */
  predicate SameObject(obj: Device, d: Device) {
    obj.name == d.name && obj.generation == d.generation && obj.spec == d.spec && obj.deleting == d.deleting
  }

  /** Only what belongs to u, and what all devices share, has changed since. */
  ghost predicate Local(w: World, next: World, u: Uid)
    requires u in w.devices
  {
    && (forall n :: n != w.devices[u].name ==> (n in next.jobs <==> n in w.jobs))
    && (forall n :: n != w.devices[u].name && n in w.jobs && n in next.jobs ==> next.jobs[n] == w.jobs[n])
    && (forall p: Path :: !p.SnmpMergedFile? && p.uid != u ==> (p in next.files <==> p in w.files))
    && (forall p: Path :: !p.SnmpMergedFile? && p.uid != u && p in w.files && p in next.files ==>
          next.files[p] == w.files[p])
  }

  /** A pass over u has turned the cluster from w0 into w so far. */
  ghost predicate Carried(w0: World, w: World, u: Uid) {
    && u in w0.devices && w.devices == w0.devices
    && Inv(w) && KeepsServed(w0, w) && Local(w0, w, u)
  }

  /** A pass over u that started in w0 has got to s. */
  ghost predicate Underway(w0: World, s: PassState, u: Uid) {
    Carried(w0, s.world, u) && SameObject(s.obj, w0.devices[u])
  }

  lemma LocalChain(a: World, b: World, c: World, u: Uid)
    requires u in a.devices && b.devices == a.devices && Local(a, b, u) && Local(b, c, u)
    ensures Local(a, c, u)
  {
    forall n | n != a.devices[u].name
      ensures (n in c.jobs <==> n in a.jobs) && (n in a.jobs && n in c.jobs ==> c.jobs[n] == a.jobs[n])
    {
      assert n in b.jobs <==> n in a.jobs;
    }
    forall p: Path | !p.SnmpMergedFile? && p.uid != u
      ensures (p in c.files <==> p in a.files) && (p in a.files && p in c.files ==> c.files[p] == a.files[p])
    {
      assert p in b.files <==> p in a.files;
    }
  }

  lemma CarriedOn(w0: World, w: World, next: World, u: Uid)
    requires Carried(w0, w, u) && next.devices == w.devices
    requires Inv(next) && KeepsServed(w, next) && Local(w, next, u)
    ensures Carried(w0, next, u)
  {
    LocalChain(w0, w, next, u);
    hide Inv, Served, Local;
  }

  predicate Desires(s: PassState, u: Uid) {
    GeneratorFile(u) in s.world.files && s.world.files[GeneratorFile(u)] == DesiredGenerator(s.obj)
  }

  predicate JobDone(s: PassState, u: Uid) {
    && s.obj.name in s.world.jobs && s.world.jobs[s.obj.name] == Job(u, s.obj.generation, Complete)
  }

  predicate Hashed(s: PassState, u: Uid) {
    && SnmpFile(u) in s.world.files
    && s.obj.status.configHash == Some(Sha256(s.world.files[SnmpFile(u)]))
    && s.obj.status.generated == Condition(True, s.obj.generation)
  }

  ghost predicate MergedCurrent(w: World) {
    SnmpMergedFile in w.files && MergeOf(w.files) == Some(w.files[SnmpMergedFile])
  }

  predicate Applied(s: PassState) {
    Exported(s.world) && s.obj.status.applied == Condition(True, s.obj.generation)
  }

  /** What is known once the first i steps have continued. */
  ghost predicate Stage(i: nat, w0: World, s: PassState, u: Uid) {
    && Underway(w0, s, u)
    && s.obj.finalizer == w0.devices[u].finalizer
    && s.obj.status.ready == Condition(if i == 8 then True else Unknown, s.obj.generation)
    && (i >= 1 ==> !s.obj.deleting)
    && (i >= 2 ==> s.obj.finalizer)
    && (i >= 3 ==> Desires(s, u))
    && (i >= 4 ==> JobDone(s, u))
    && (i >= 5 ==> Hashed(s, u))
    && (i >= 6 ==> MergedCurrent(s.world))
    && (i >= 7 ==> Applied(s))
  }

  /* ---- The ways a pass can end ---- */

  /** Every step continued. */
  ghost predicate Completed(w0: World, s: PassState, u: Uid) {
    Stage(8, w0, s, u)
  }

  /** Cut short: the finalizer stays, Ready is not claimed. */
  ghost predicate CutShort(w0: World, s: PassState, u: Uid) {
    && Underway(w0, s, u)
    && s.obj.finalizer && w0.devices[u].finalizer
    && s.obj.status.ready == Condition(Unknown, s.obj.generation)
  }

  ghost predicate FinalizerAdded(w0: World, s: PassState, u: Uid) {
    && Underway(w0, s, u) && s.world == w0
    && s.obj.finalizer && !w0.devices[u].finalizer && !s.obj.deleting
    && s.obj.status.ready == Condition(Unknown, s.obj.generation)
  }

  /** Nothing of u is left, and the exporter runs on the merge of the others. */
  ghost predicate Clean(w: World, u: Uid) {
    && OwnedJobs(w.jobs, u) == {}
    && GeneratorFile(u) !in w.files && SnmpFile(u) !in w.files
    && MergedCurrent(w) && Exported(w)
  }

  ghost predicate Released(w0: World, s: PassState, u: Uid) {
    && Underway(w0, s, u)
    && w0.devices[u].deleting && w0.devices[u].finalizer && !s.obj.finalizer
    && Clean(s.world, u)
  }

  ghost predicate Ended(w0: World, s: PassState, u: Uid, action: Action) {
    if action.Continue? then Completed(w0, s, u)
    else CutShort(w0, s, u) || FinalizerAdded(w0, s, u) || Released(w0, s, u)
  }

  /* ---- Steps shared by reconciling and deleting ---- */

  lemma HeldCarried(w0: World, w: World, u: Uid)
    requires Carried(w0, w, u) && w0.devices[u].finalizer
    ensures Inv(w) && Held(w, u) && w.devices[u] == w0.devices[u]
  {
    hide Inv, KeepsServed, Local;
  }

  lemma CarriedIsInv(w0: World, w: World, u: Uid)
    requires Carried(w0, w, u)
    ensures Inv(w) && u in w.devices && w.devices[u] == w0.devices[u]
  {
    hide Inv, KeepsServed, Local;
  }

  ghost predicate SameOtherFiles(w: World, next: World) {
    && (forall p: Path :: !p.SnmpMergedFile? ==> (p in next.files <==> p in w.files))
    && (forall p: Path :: !p.SnmpMergedFile? && p in w.files && p in next.files ==> next.files[p] == w.files[p])
  }

  predicate OnlyApplied(obj: Device, next: Device) {
    next == obj.(status := obj.status.(applied := next.status.applied))
  }

  ghost function WithMerged(w: World): World {
    if MergeOf(w.files).Some? then w.(files := w.files[SnmpMergedFile := MergeOf(w.files).value]) else w
  }

  lemma WithMergedCurrent(w: World)
    requires MergeOf(w.files).Some?
    ensures MergedCurrent(WithMerged(w))
  {
    hide MergeOf;
    MergeDependsOnSnmpFiles(w.files, WithMerged(w).files);
  }

  lemma WithMergedLocal(w: World, u: Uid)
    requires u in w.devices
    ensures Local(w, WithMerged(w), u) && SameOtherFiles(w, WithMerged(w))
    ensures WithMerged(w) == w.(files := WithMerged(w).files)
  {
    hide MergeOf;
  }

  lemma WithMergedCarried(w0: World, w: World, u: Uid)
    requires Carried(w0, w, u) && w0.devices[u].finalizer
    ensures MergeOf(w.files).Some?
    ensures Carried(w0, WithMerged(w), u) && MergedCurrent(WithMerged(w))
  {
    HeldCarried(w0, w, u);
    WithMergedLocal(w, u);
    hide Carried, Inv, KeepsServed, MergeOf, Local, MergedCurrent, Held;
    MergedWritten(w, u);
    WithMergedCurrent(w);
    CarriedOn(w0, w, WithMerged(w), u);
  }

  lemma MergeStepForm(s: PassState, faults: set<Effect>)
    requires MergeOf(s.world.files).Some?
    ensures var (next, action) := MergeStep(s, faults);
      && OnlyApplied(s.obj, next.obj) && (action == Continue || action == Error)
      && (next.world == s.world || next.world == WithMerged(s.world))
      && (action == Continue ==> next.world == WithMerged(s.world))
  {
    hide MergeOf;
    var merged := MergeOf(s.world.files).value;
    if SnmpMergedFile in s.world.files && s.world.files[SnmpMergedFile] == merged {
      assert s.world.files[SnmpMergedFile := merged] == s.world.files;
    }
  }

  /** The merge step ends with the merged file current, or reports an error; it touches nothing else. */
  lemma MergeStepKeeps(w0: World, s: PassState, u: Uid, faults: set<Effect>)
    requires Underway(w0, s, u) && w0.devices[u].finalizer
    ensures var (next, action) := MergeStep(s, faults);
      && Underway(w0, next, u) && (action == Continue || action == Error)
      && (action == Continue ==> MergedCurrent(next.world))
      && OnlyApplied(s.obj, next.obj) && SameOtherFiles(s.world, next.world)
      && next.world == s.world.(files := next.world.files)
  {
    WithMergedCarried(w0, s.world, u);
    WithMergedLocal(s.world, u);
    hide Carried, MergeOf, WithMerged, MergedCurrent, Local;
    MergeStepForm(s, faults);
    hide MergeStep;
  }

  lemma AnnotatedCarried(w0: World, w: World, u: Uid)
    requires Carried(w0, w, u) && SnmpMergedFile in w.files
    ensures Carried(w0, w.(annotation := Some(Sha256(w.files[SnmpMergedFile]))), u)
  {
    CarriedIsInv(w0, w, u);
    hide Carried, Inv, KeepsServed;
    Annotated(w);
    CarriedOn(w0, w, w.(annotation := Some(Sha256(w.files[SnmpMergedFile]))), u);
  }

  lemma ReloadStepForm(s: PassState, faults: set<Effect>)
    requires SnmpMergedFile in s.world.files
    ensures var (next, action) := ReloadStep(s, faults);
      && OnlyApplied(s.obj, next.obj) && (action == Continue || action == Error)
      && (next.world == s.world
          || next.world == s.world.(annotation := Some(Sha256(s.world.files[SnmpMergedFile]))))
      && (action == Continue ==> Applied(next))
  {
  }

  /** The reload step ends with the exporter carrying the merged file's hash, or reports an error. */
  lemma ReloadStepKeeps(w0: World, s: PassState, u: Uid, faults: set<Effect>)
    requires Underway(w0, s, u) && MergedCurrent(s.world)
    ensures var (next, action) := ReloadStep(s, faults);
      && Underway(w0, next, u) && (action == Continue || action == Error)
      && MergedCurrent(next.world)
      && (action == Continue ==> Applied(next))
      && OnlyApplied(s.obj, next.obj)
      && next.world == s.world.(annotation := next.world.annotation)
  {
    AnnotatedCarried(w0, s.world, u);
    ReloadStepForm(s, faults);
    hide Carried, MergeOf, ReloadStep;
  }

  /* ---- Deletion ---- */

  function WithoutJobs(w: World, u: Uid): World {
    w.(jobs := w.jobs - OwnedJobs(w.jobs, u))
  }

  lemma WithoutJobsCarried(w0: World, w: World, u: Uid)
    requires Carried(w0, w, u)
    ensures Carried(w0, WithoutJobs(w, u), u) && OwnedJobs(WithoutJobs(w, u).jobs, u) == {}
  {
    CarriedIsInv(w0, w, u);
    hide Carried;
    OwnedJobsAreNamed(w, u);
    hide Inv, KeepsServed;
    JobsDropped(w, OwnedJobs(w.jobs, u));
    CarriedOn(w0, w, WithoutJobs(w, u), u);
  }

  function WithoutFile(w: World, p: Path): World {
    w.(files := w.files - {p})
  }

  lemma WithoutFileCarried(w0: World, w: World, u: Uid, p: Path)
    requires Carried(w0, w, u) && w0.devices[u].deleting && w0.devices[u].finalizer
    requires OwnedJobs(w.jobs, u) == {} && (p == GeneratorFile(u) || p == SnmpFile(u))
    ensures Carried(w0, WithoutFile(w, p), u)
  {
    HeldCarried(w0, w, u);
    hide Carried, Inv, KeepsServed;
    FileDropped(w, u, p);
    CarriedOn(w0, w, WithoutFile(w, p), u);
  }

  predicate NothingOwned(w: World, u: Uid) {
    OwnedJobs(w.jobs, u) == {} && GeneratorFile(u) !in w.files && SnmpFile(u) !in w.files
  }

  lemma CleanupStepKeeps(w0: World, s: PassState, u: Uid, faults: set<Effect>)
    requires Underway(w0, s, u) && w0.devices[u].deleting && w0.devices[u].finalizer
    ensures var (next, action) := CleanupStep(s, u, faults);
      && Underway(w0, next, u) && (action == Continue || action == Error)
      && OnlyApplied(s.obj, next.obj)
      && (action == Continue ==> NothingOwned(next.world, u))
  {
    hide Carried;
    WithoutJobsCarried(w0, s.world, u);
    var w1 := WithoutJobs(s.world, u);
    WithoutFileCarried(w0, w1, u, GeneratorFile(u));
    var w2 := WithoutFile(w1, GeneratorFile(u));
    WithoutFileCarried(w0, w2, u, SnmpFile(u));
    hide OwnedJobs;
  }

  /** u is under deletion and still holds its finalizer. */
  ghost predicate Leaving(w0: World, s: PassState, u: Uid) {
    && Underway(w0, s, u) && w0.devices[u].deleting && w0.devices[u].finalizer && s.obj.finalizer
    && s.obj.status.ready == Condition(Unknown, s.obj.generation)
  }

  lemma LeavingKept(w0: World, s: PassState, next: PassState, u: Uid)
    requires Leaving(w0, s, u) && Underway(w0, next, u) && OnlyApplied(s.obj, next.obj)
    ensures Leaving(w0, next, u) && CutShort(w0, next, u)
  {
    hide Carried;
  }

  lemma LeavingReloads(w0: World, s: PassState, u: Uid, faults: set<Effect>)
    requires Leaving(w0, s, u) && NothingOwned(s.world, u) && MergedCurrent(s.world)
    ensures var (next, action) := ReloadStep(s, faults);
      if action == Error then CutShort(w0, next, u)
      else Released(w0, next.(obj := next.obj.(finalizer := false)), u)
  {
    ReloadStepKeeps(w0, s, u, faults);
    hide Carried, ReloadStep, MergedCurrent, Applied;
    var (next, action) := ReloadStep(s, faults);
    LeavingKept(w0, s, next, u);
    NothingOwnedKept(s.world, next.world, u);
    hide NothingOwned;
    if action == Continue {
      CleanWhenApplied(next, u);
      hide Clean;
    }
  }

  lemma LeavingMerges(w0: World, s: PassState, u: Uid, faults: set<Effect>)
    requires Leaving(w0, s, u) && NothingOwned(s.world, u)
    ensures var (next, action) := MergeStep(s, faults);
      if action == Error then CutShort(w0, next, u)
      else Leaving(w0, next, u) && NothingOwned(next.world, u) && MergedCurrent(next.world)
  {
    hide Carried, MergeOf, MergedCurrent, DesiredGenerator;
    MergeStepKeeps(w0, s, u, faults);
    var (next, action) := MergeStep(s, faults);
    LeavingKept(w0, s, next, u);
    NothingOwnedKept(s.world, next.world, u);
  }

  lemma LeavingCleansUp(w0: World, s: PassState, u: Uid, faults: set<Effect>)
    requires Leaving(w0, s, u)
    ensures var (next, action) := CleanupStep(s, u, faults);
      if action == Error then CutShort(w0, next, u) else Leaving(w0, next, u) && NothingOwned(next.world, u)
  {
    CleanupStepKeeps(w0, s, u, faults);
    hide Carried, CleanupStep, NothingOwned;
    var (next, action) := CleanupStep(s, u, faults);
    LeavingKept(w0, s, next, u);
  }

  lemma DeletingStepKeeps(w0: World, s: PassState, u: Uid, faults: set<Effect>)
    requires Leaving(w0, s, u) && s.obj.deleting
    ensures var (next, action) := DeletionStep(s, u, faults); Ended(w0, next, u, action) && action != Continue
  {
    LeavingCleansUp(w0, s, u, faults);
    assert s.obj.finalizer;
    hide Carried, CleanupStep, MergeStep, ReloadStep, NothingOwned, MergedCurrent, Leaving, CutShort, Released;
    var (s1, a1) := CleanupStep(s, u, faults);
    if a1 != Error {
      LeavingMerges(w0, s1, u, faults);
      var (s2, a2) := MergeStep(s1, faults);
      if a2 != Error {
        LeavingReloads(w0, s2, u, faults);
      }
    }
  }

  lemma NothingOwnedKept(w: World, next: World, u: Uid)
    requires NothingOwned(w, u) && next.jobs == w.jobs && SameOtherFiles(w, next)
    ensures NothingOwned(next, u)
  {
  }

  lemma CleanWhenApplied(s: PassState, u: Uid)
    requires NothingOwned(s.world, u) && MergedCurrent(s.world) && Applied(s)
    ensures Clean(s.world, u)
  {
  }

  lemma DeletionStepKeeps(w0: World, s: PassState, u: Uid, faults: set<Effect>)
    requires Stage(0, w0, s, u) && SaneDevice(w0.devices[u])
    ensures var (next, action) := DeletionStep(s, u, faults);
      if action == Continue then Stage(1, w0, next, u) else Ended(w0, next, u, action)
  {
    hide Carried;
    if s.obj.deleting {
      DeletingStepKeeps(w0, s, u, faults);
      hide DeletionStep;
    }
  }

  /* ---- Reconciling ---- */

  lemma FinalizerStepKeeps(w0: World, s: PassState, u: Uid)
    requires Stage(1, w0, s, u) && s.world == w0
    ensures var (next, action) := FinalizerStep(s);
      if action == Continue then Stage(2, w0, next, u) else Ended(w0, next, u, action)
  {
    hide Carried;
  }

  lemma GeneratorCarried(w0: World, w: World, u: Uid)
    requires Carried(w0, w, u) && w0.devices[u].finalizer && !w0.devices[u].deleting
    ensures Carried(w0, w.(files := w.files[GeneratorFile(u) := DesiredGenerator(w0.devices[u])]), u)
  {
    HeldCarried(w0, w, u);
    hide Carried, Inv, KeepsServed, DesiredGenerator;
    GeneratorWritten(w, u);
    CarriedOn(w0, w, w.(files := w.files[GeneratorFile(u) := DesiredGenerator(w0.devices[u])]), u);
  }

  lemma SameDesire(obj: Device, d: Device)
    requires SameObject(obj, d)
    ensures DesiredGenerator(obj) == DesiredGenerator(d)
  {
  }

  lemma GeneratorStepKeeps(w0: World, s: PassState, u: Uid, faults: set<Effect>)
    requires Stage(2, w0, s, u)
    ensures var (next, action) := GeneratorStep(s, u, faults);
      if action == Continue then Stage(3, w0, next, u) else Ended(w0, next, u, action)
  {
    GeneratorCarried(w0, s.world, u);
    SameDesire(s.obj, w0.devices[u]);
    var (next, action) := GeneratorStep(s, u, faults);
    SameDesire(next.obj, w0.devices[u]);
    hide Carried, DesiredGenerator;
  }

  lemma JobsLocal(w: World, next: World, u: Uid)
    requires u in w.devices && next == w.(jobs := next.jobs)
    requires forall n :: n != w.devices[u].name ==>
      (n in next.jobs <==> n in w.jobs) && (n in w.jobs ==> next.jobs[n] == w.jobs[n])
    ensures Local(w, next, u)
  {
  }

  lemma JobAddedCarried(w0: World, w: World, u: Uid)
    requires Carried(w0, w, u) && w0.devices[u].finalizer && !w0.devices[u].deleting
    requires w0.devices[u].name !in w.jobs
    requires GeneratorFile(u) in w.files && w.files[GeneratorFile(u)] == DesiredGenerator(w0.devices[u])
    ensures var d := w0.devices[u];
            Carried(w0, w.(jobs := w.jobs[d.name := Job(u, d.generation, Waiting)]), u)
  {
    HeldCarried(w0, w, u);
    var next := w.(jobs := w.jobs[w0.devices[u].name := Job(u, w0.devices[u].generation, Waiting)]);
    JobsLocal(w, next, u);
    hide Carried, Inv, KeepsServed, DesiredGenerator, Local;
    JobAdded(w, u);
    CarriedOn(w0, w, next, u);
  }

  lemma CreateJobStepKeeps(w0: World, s: PassState, u: Uid, faults: set<Effect>)
    requires Stage(3, w0, s, u)
    ensures var (next, action) := CreateJobStep(s, u, faults); action != Continue && Ended(w0, next, u, action)
  {
    SameDesire(s.obj, w0.devices[u]);
    if s.obj.name !in s.world.jobs {
      JobAddedCarried(w0, s.world, u);
    }
    hide Carried, DesiredGenerator;
  }

  lemma JobDroppedCarried(w0: World, w: World, u: Uid)
    requires Carried(w0, w, u)
    ensures Carried(w0, w.(jobs := w.jobs - {w0.devices[u].name}), u)
  {
    CarriedIsInv(w0, w, u);
    hide Carried, Inv, KeepsServed;
    JobsDropped(w, {w0.devices[u].name});
    CarriedOn(w0, w, w.(jobs := w.jobs - {w0.devices[u].name}), u);
  }

  lemma EvaluateJobStepKeeps(w0: World, s: PassState, u: Uid, faults: set<Effect>)
    requires Stage(3, w0, s, u) && s.obj.name in s.world.jobs && s.world.jobs[s.obj.name].owner == u
    ensures var (next, action) := EvaluateJobStep(s, s.obj.name, faults);
      if action == Continue then Stage(4, w0, next, u) else Ended(w0, next, u, action)
  {
    hide Carried, DesiredGenerator;
    JobDroppedCarried(w0, s.world, u);
    var (next, action) := EvaluateJobStep(s, s.obj.name, faults);
    SameDesire(next.obj, s.obj);
  }

  lemma JobStepKeeps(w0: World, s: PassState, u: Uid, faults: set<Effect>)
    requires Stage(3, w0, s, u)
    ensures var (next, action) := JobStep(s, u, faults);
      if action == Continue then Stage(4, w0, next, u) else Ended(w0, next, u, action)
  {
    CarriedIsInv(w0, s.world, u);
    OwnedJobsAreNamed(s.world, u);
    hide Inv, Carried, DesiredGenerator, CreateJobStep, EvaluateJobStep;
    var owned := OwnedJobs(s.world.jobs, u);
    if owned == {} {
      CreateJobStepKeeps(w0, s, u, faults);
    } else {
      var n :| n in owned;
      assert owned == {s.obj.name};
      EvaluateJobStepKeeps(w0, s, u, faults);
    }
  }

  /** A completed job of the current generation has written the current output. */
  lemma OutputPresent(w0: World, s: PassState, u: Uid)
    requires Stage(4, w0, s, u)
    ensures HasOutput(s.world, u)
  {
    CarriedIsInv(w0, s.world, u);
    hide Carried, DesiredGenerator, Generated;
    JobsOfInv(s.world, s.obj.name);
  }

  lemma ContentStepKeeps(w0: World, s: PassState, u: Uid, faults: set<Effect>)
    requires Stage(4, w0, s, u)
    ensures var (next, action) := ContentStep(s, u, faults);
      if action == Continue then Stage(5, w0, next, u) else Ended(w0, next, u, action)
  {
    OutputPresent(w0, s, u);
    var (next, action) := ContentStep(s, u, faults);
    SameDesire(next.obj, s.obj);
    hide Carried, DesiredGenerator, Generated;
  }

  lemma MergedStageKeeps(w0: World, s: PassState, u: Uid, faults: set<Effect>)
    requires Stage(5, w0, s, u)
    ensures var (next, action) := MergeStep(s, faults);
      if action == Continue then Stage(6, w0, next, u) else Ended(w0, next, u, action)
  {
    hide Carried, MergeOf, MergedCurrent, DesiredGenerator;
    MergeStepKeeps(w0, s, u, faults);
    var (next, action) := MergeStep(s, faults);
    SameDesire(next.obj, s.obj);
  }

  lemma ReloadStageKeeps(w0: World, s: PassState, u: Uid, faults: set<Effect>)
    requires Stage(6, w0, s, u)
    ensures var (next, action) := ReloadStep(s, faults);
      if action == Continue then Stage(7, w0, next, u) else Ended(w0, next, u, action)
  {
    hide Carried, MergedCurrent, DesiredGenerator;
    ReloadStepKeeps(w0, s, u, faults);
    var (next, action) := ReloadStep(s, faults);
    SameDesire(next.obj, s.obj);
  }

  lemma ReadyStageKeeps(w0: World, s: PassState, u: Uid)
    requires Stage(7, w0, s, u)
    ensures Stage(8, w0, ReadyStep(s).0, u)
  {
    SameDesire(ReadyStep(s).0.obj, s.obj);
    hide Carried, MergedCurrent, DesiredGenerator;
  }

  /* ---- The whole run ---- */

  /** The i-th step keeps the pass on its stages. */
  lemma StepKeepsStage(i: nat, w0: World, s: PassState, u: Uid, faults: set<Effect>)
    requires i < 8 && Stage(i, w0, s, u) && SaneDevice(w0.devices[u]) && (i <= 1 ==> s.world == w0)
    ensures var (next, action) := Exec(Pipeline[i], s, u, faults);
      if action == Continue then Stage(i + 1, w0, next, u) && (i == 0 ==> next.world == w0)
      else Ended(w0, next, u, action)
  {
    hide Stage, Ended, MergeStep, ReloadStep, JobStep, GeneratorStep, ContentStep, CleanupStep;
    match i
    case 0 => DeletionStepKeeps(w0, s, u, faults);
    case 1 => FinalizerStepKeeps(w0, s, u);
    case 2 => GeneratorStepKeeps(w0, s, u, faults);
    case 3 => JobStepKeeps(w0, s, u, faults);
    case 4 => ContentStepKeeps(w0, s, u, faults);
    case 5 => MergedStageKeeps(w0, s, u, faults);
    case 6 => ReloadStageKeeps(w0, s, u, faults);
    case 7 => ReadyStageKeeps(w0, s, u);
  }

  ghost function RunFrom(i: nat, s: PassState, u: Uid, faults: set<Effect>): (PassState, Action)
    requires i <= 8
  {
    Run(Executor(u, faults), Pipeline[i..], s)
  }

  lemma RunFromStep(i: nat, s: PassState, u: Uid, faults: set<Effect>)
    requires i <= 8
    ensures RunFrom(i, s, u, faults) == if i == 8 then (s, Continue)
      else var (next, action) := Exec(Pipeline[i], s, u, faults);
           if action == Continue then RunFrom(i + 1, next, u, faults) else (next, action)
  {
    hide Exec;
    if i < 8 {
      assert Pipeline[i..][0] == Pipeline[i] && Pipeline[i..][1..] == Pipeline[i + 1..];
    }
  }

  lemma {:induction false} RunFromEnds(i: nat, w0: World, s: PassState, u: Uid, faults: set<Effect>)
    requires i <= 8 && Stage(i, w0, s, u) && SaneDevice(w0.devices[u]) && (i <= 1 ==> s.world == w0)
    ensures var (next, action) := RunFrom(i, s, u, faults); Ended(w0, next, u, action)
    decreases 8 - i
  {
    RunFromStep(i, s, u, faults);
    if i < 8 {
      StepKeepsStage(i, w0, s, u, faults);
      hide Stage, Ended, Exec, RunFrom;
      var (next, action) := Exec(Pipeline[i], s, u, faults);
      if action == Continue {
        RunFromEnds(i + 1, w0, next, u, faults);
      }
    } else {
      hide Stage, RunFrom;
    }
  }

  lemma StartsAtStageZero(w: World, u: Uid)
    requires Inv(w) && u in w.devices
    ensures Stage(0, w, PassState(w, w.devices[u].WithReady(Unknown)), u) && SaneDevice(w.devices[u])
  {
  }

  /** Every pass ends completed, cut short, with the finalizer added, or with it released. */
  lemma PassEnds(w: World, u: Uid, faults: set<Effect>)
    requires Inv(w) && u in w.devices
    ensures var (s, action) := RunPipeline(PassState(w, w.devices[u].WithReady(Unknown)), u, faults);
            Ended(w, s, u, action)
  {
    StartsAtStageZero(w, u);
    hide Inv, Stage, Ended, Exec;
    RunFromEnds(0, w, PassState(w, w.devices[u].WithReady(Unknown)), u, faults);
    assert Pipeline[0..] == Pipeline;
  }

  ghost function StartOf(w: World, u: Uid): PassState
    requires u in w.devices
  {
    PassState(w, w.devices[u].WithReady(Unknown))
  }

  lemma RunFromStart(s: PassState, u: Uid, faults: set<Effect>)
    ensures RunPipeline(s, u, faults) == RunFrom(0, s, u, faults)
  {
    assert Pipeline[0..] == Pipeline;
  }

  lemma OwnedIsNamed(w: World, u: Uid)
    requires Inv(w) && u in w.devices
    ensures OwnedJobs(w.jobs, u) == if w.devices[u].name in w.jobs then {w.devices[u].name} else {}
  {
    OwnedJobsAreNamed(w, u);
    var n := w.devices[u].name;
    if n in w.jobs {
      assert JobOwned(w, n);
    }
  }
}
