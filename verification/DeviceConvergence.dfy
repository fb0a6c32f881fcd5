/** Progress of the MeasurementDevice controller: failure-free passes and succeeding jobs make a
    device Ready after a bounded number of steps, and then nothing changes any more. */
module DeviceConvergence {
  import opened Options
  import opened Conditions
  import opened Steps
  import opened DeviceFiles
  import opened DeviceProtocol
  import opened DeviceInvariant
  import opened DevicePass
  import opened DeviceReports
  import opened DeviceRuns

  /* ---- What a failure-free pass does ---- */

  const NoFaults: set<Effect> := {}

  lemma MergeStepSucceeds(w0: World, s: PassState, u: Uid)
    requires Underway(w0, s, u)
    ensures MergeStep(s, NoFaults).1 == Continue && MergeStep(s, NoFaults).0.world.jobs == s.world.jobs
  {
    CarriedIsInv(w0, s.world, u);
    hide Carried, MergeOf;
    MergeInReachableState(s.world);
  }

  lemma ContentStepSucceeds(w0: World, s: PassState, u: Uid)
    requires Stage(4, w0, s, u)
    ensures ContentStep(s, u, NoFaults).1 == Continue
  {
    OutputPresent(w0, s, u);
    hide Stage, DesiredGenerator, Generated;
  }

  lemma StageIsUnderway(i: nat, w0: World, s: PassState, u: Uid)
    requires Stage(i, w0, s, u)
    ensures Underway(w0, s, u)
  {
    hide Underway;
  }

  /** From the fourth step on nothing stops a failure-free pass, and no job is touched. */
  lemma LateStepSucceeds(i: nat, w0: World, s: PassState, u: Uid)
    requires 4 <= i < 8 && Stage(i, w0, s, u)
    ensures Exec(Pipeline[i], s, u, NoFaults).1 == Continue
    ensures Exec(Pipeline[i], s, u, NoFaults).0.world.jobs == s.world.jobs
  {
    hide Stage, MergeStep;
    match i
    case 4 => ContentStepSucceeds(w0, s, u);
    case 5 => StageIsUnderway(i, w0, s, u); MergeStepSucceeds(w0, s, u);
    case 6 =>
    case 7 =>
  }

  lemma {:induction false} LateStepsComplete(i: nat, w0: World, s: PassState, u: Uid)
    requires 4 <= i <= 8 && Stage(i, w0, s, u) && SaneDevice(w0.devices[u])
    ensures var (next, action) := RunFrom(i, s, u, NoFaults);
            action == Continue && Completed(w0, next, u) && next.world.jobs == s.world.jobs
    decreases 8 - i
  {
    hide Stage, Exec, RunFrom, Completed, SaneDevice;
    RunFromStep(i, s, u, NoFaults);
    if i < 8 {
      LateStepSucceeds(i, w0, s, u);
      StepKeepsStage(i, w0, s, u, NoFaults);
      var (next, action) := Exec(Pipeline[i], s, u, NoFaults);
      LateStepsComplete(i + 1, w0, next, u);
    } else {
      LastStageCompletes(w0, s, u);
    }
  }

  lemma LastStageCompletes(w: World, s: PassState, u: Uid)
    requires Stage(8, w, s, u)
    ensures Completed(w, s, u)
  {
  }

  /** A failure-free pass over a held device reaches the job step with all jobs as they were. */
  lemma ReachesJobStep(w: World, u: Uid) returns (s: PassState)
    requires Inv(w) && Held(w, u) && !w.devices[u].deleting
    ensures Stage(3, w, s, u) && s.world.jobs == w.jobs
    ensures RunPipeline(StartOf(w, u), u, NoFaults) == RunFrom(3, s, u, NoFaults)
  {
    hide Inv, Carried, Stage, RunFrom, DesiredGenerator;
    StartsAtStageZero(w, u);
    var s0 := StartOf(w, u);
    RunFromStart(s0, u, NoFaults);
    StepKeepsStage(0, w, s0, u, NoFaults);
    RunFromStep(0, s0, u, NoFaults);
    var s1 := Exec(Pipeline[0], s0, u, NoFaults).0;
    assert s1 == s0;
    StepKeepsStage(1, w, s1, u, NoFaults);
    RunFromStep(1, s1, u, NoFaults);
    var s2 := Exec(Pipeline[1], s1, u, NoFaults).0;
    assert s2 == s0;
    StepKeepsStage(2, w, s2, u, NoFaults);
    RunFromStep(2, s2, u, NoFaults);
    s := Exec(Pipeline[2], s2, u, NoFaults).0;
  }

  /* ---- How far a device is from Ready ---- */

  /** 0: ready and its job done; 1: job done; 2: job running; 3: job waiting; 4: no job;
      5: job of an older generation; 6: no finalizer; 7: the current job failed. */
  function Distance(w: World, u: Uid): nat
    requires u in w.devices
  {
    var d := w.devices[u];
    if !d.finalizer then 6
    else if d.name !in w.jobs then 4
    else if w.jobs[d.name].generation != d.generation then 5
    else match w.jobs[d.name].state
      case Waiting => 3
      case Running(_) => 2
      case Complete => if ReadyNow(d) then 0 else 1
      case Failed => 7
  }

  predicate Active(w: World, u: Uid) {
    u in w.devices && !w.devices[u].deleting
  }

  /** The job of the device's present generation has failed. */
  predicate JobFailedNow(w: World, u: Uid)
    requires u in w.devices
  {
    var d := w.devices[u];
    d.name in w.jobs && w.jobs[d.name].generation == d.generation && w.jobs[d.name].state.Failed?
  }

  lemma DistanceBound(w: World, u: Uid)
    requires u in w.devices
    ensures Distance(w, u) <= 7
  {
  }

  lemma FailedIsStuck(w: World, u: Uid)
    requires Inv(w) && Active(w, u)
    ensures JobFailedNow(w, u) <==> Distance(w, u) == 7
  {
    if JobFailedNow(w, u) {
      JobsOfInv(w, w.devices[u].name);
    }
    hide Inv;
  }

  /** The job step of a failure-free pass, by the state of the device's one job. */
  lemma JobStepForm(w: World, s: PassState, u: Uid)
    requires Inv(w) && u in w.devices && Stage(3, w, s, u) && s.world.jobs == w.jobs
    ensures var (next, action) := JobStep(s, u, NoFaults);
            var d := w.devices[u];
      && (next.obj.finalizer && next.obj.status.ready == Condition(Unknown, d.generation))
      && (d.name !in w.jobs ==> action == Stop && next.world.jobs == w.jobs[d.name := Job(u, d.generation, Waiting)])
      && (d.name in w.jobs && w.jobs[d.name].generation != d.generation ==>
            action == Stop && next.world.jobs == w.jobs - {d.name})
      && (d.name in w.jobs && w.jobs[d.name].generation == d.generation ==>
            next.world.jobs == w.jobs && (action == Continue <==> w.jobs[d.name].state == Complete))
      && (action == Continue ==> Stage(4, w, next, u))
  {
    hide Inv, Carried, DesiredGenerator;
    OwnedIsNamed(w, u);
    JobStepKeeps(w, s, u, NoFaults);
  }

  ghost function FaultFree(w: World, u: Uid): World {
    Reconcile(w, u, NoFaults)
  }

  lemma FinalizerPass(w: World, u: Uid)
    requires Inv(w) && Active(w, u) && !w.devices[u].finalizer
    ensures var next := FaultFree(w, u);
      && Active(next, u) && next.devices[u].generation == w.devices[u].generation
      && Held(next, u) && next.jobs == w.jobs && w.devices[u].name !in w.jobs
      && next.devices[u].name == w.devices[u].name
  {
    forall n | n in w.jobs
      ensures n != w.devices[u].name
    {
      JobsOfInv(w, n);
    }
    hide Inv;
    var s := StartOf(w, u);
    assert Pipeline[0..] == Pipeline;
    RunFromStep(0, s, u, NoFaults);
    RunFromStep(1, s, u, NoFaults);
    hide RunFrom;
  }

  /** How the jobs and the object in hand come out of a failure-free run over a held device. */
  ghost predicate RunOutcome(w: World, s: PassState, u: Uid)
    requires u in w.devices
  {
    var d := w.devices[u];
    && s.world.devices == w.devices && SameObject(s.obj, d) && s.obj.finalizer && !s.obj.deleting
    && (d.name !in w.jobs ==> s.world.jobs == w.jobs[d.name := Job(u, d.generation, Waiting)])
    && (d.name in w.jobs && w.jobs[d.name].generation != d.generation ==> s.world.jobs == w.jobs - {d.name})
    && (d.name in w.jobs && w.jobs[d.name].generation == d.generation ==> s.world.jobs == w.jobs)
    && (ReadyNow(s.obj) <==> Distance(w, u) <= 1)
  }

  lemma UnderwayShape(w: World, s: PassState, u: Uid)
    requires Underway(w, s, u)
    ensures u in w.devices && s.world.devices == w.devices && SameObject(s.obj, w.devices[u])
  {
    hide Inv, KeepsServed, Local;
  }

  lemma LateOutcome(w: World, s: PassState, u: Uid) returns (end: PassState)
    requires Stage(4, w, s, u) && SaneDevice(w.devices[u]) && s.world.jobs == w.jobs && Distance(w, u) <= 1
    ensures RunFrom(4, s, u, NoFaults) == (end, Continue) && RunOutcome(w, end, u)
  {
    LateStepsComplete(4, w, s, u);
    hide Stage, RunFrom, ReadyNow;
    end := RunFrom(4, s, u, NoFaults).0;
    CompletedEnd(w, end, u);
    UnderwayShape(w, end, u);
  }

  lemma StoppedOutcome(w: World, s: PassState, u: Uid, next: PassState)
    requires Inv(w) && u in w.devices && Stage(3, w, s, u) && s.world.jobs == w.jobs
    requires JobStep(s, u, NoFaults).0 == next && JobStep(s, u, NoFaults).1 != Continue
    ensures RunOutcome(w, next, u) && Distance(w, u) > 1
  {
    hide Inv, JobStep, Stage, Ended, Underway;
    JobStepForm(w, s, u);
    JobStepKeeps(w, s, u, NoFaults);
    StoppedShape(w, next, u, JobStep(s, u, NoFaults).1);
    StageFacts(w, s, u);
  }

  lemma StoppedShape(w: World, s: PassState, u: Uid, action: Action)
    requires Ended(w, s, u, action)
    ensures Underway(w, s, u)
    ensures u in w.devices && s.world.devices == w.devices && SameObject(s.obj, w.devices[u])
  {
    EndedIsUnderway(w, s, u, action);
    UnderwayShape(w, s, u);
    hide Underway;
  }

  lemma StageFacts(w: World, s: PassState, u: Uid)
    requires Stage(3, w, s, u)
    ensures u in w.devices && w.devices[u].finalizer && !w.devices[u].deleting
  {
    StageIsUnderway(3, w, s, u);
    UnderwayShape(w, s, u);
    hide Underway, DesiredGenerator;
  }

  lemma HeldRun(w: World, u: Uid) returns (s: PassState)
    requires Inv(w) && Active(w, u) && Held(w, u)
    ensures RunPipeline(StartOf(w, u), u, NoFaults).0 == s && RunOutcome(w, s, u)
  {
    var s3 := ReachesJobStep(w, u);
    JobStepForm(w, s3, u);
    RunFromStep(3, s3, u, NoFaults);
    assert SaneDevice(w.devices[u]);
    hide JobStep, Stage, RunFrom, RunPipeline, RunOutcome;
    var (s4, action) := JobStep(s3, u, NoFaults);
    if action == Continue {
      s := LateOutcome(w, s4, u);
    } else {
      s := s4;
      StoppedOutcome(w, s3, u, s4);
    }
  }

  /** A failure-free pass over a held device: how the job and the stored object come out. */
  lemma HeldPass(w: World, u: Uid)
    requires Inv(w) && Active(w, u) && Held(w, u)
    ensures var next, d := FaultFree(w, u), w.devices[u];
      && Active(next, u) && Held(next, u)
      && next.devices[u].generation == d.generation && next.devices[u].name == d.name
      && (d.name !in w.jobs ==> next.jobs == w.jobs[d.name := Job(u, d.generation, Waiting)])
      && (d.name in w.jobs && w.jobs[d.name].generation != d.generation ==> next.jobs == w.jobs - {d.name})
      && (d.name in w.jobs && w.jobs[d.name].generation == d.generation ==> next.jobs == w.jobs)
      && (ReadyNow(next.devices[u]) <==> Distance(w, u) <= 1)
  {
    hide Inv, RunPipeline, Distance;
    var s := HeldRun(w, u);
  }

  lemma CompletedEnd(w: World, s: PassState, u: Uid)
    requires Completed(w, s, u)
    ensures Underway(w, s, u) && s.obj.finalizer && !s.obj.deleting && ReadyNow(s.obj)
  {
    hide Carried, MergedCurrent;
  }

  /** A failure-free pass never sets a device back, and brings it closer unless it is waiting for
      its job, is already there or its job of the present generation has failed. */
  lemma PassApproaches(w: World, u: Uid)
    requires Inv(w) && Active(w, u)
    ensures var next := FaultFree(w, u);
      && Active(next, u)
      && (if Distance(w, u) in {0, 2, 3, 7} then Distance(next, u) == Distance(w, u)
          else Distance(next, u) < Distance(w, u))
  {
    hide Inv, FaultFree;
    if w.devices[u].finalizer {
      HeldPass(w, u);
    } else {
      FinalizerPass(w, u);
    }
  }

  /** A failed job of the present generation is never replaced; after the pass the device is not Ready
      and says that generating failed. */
  lemma FailedJobBlocks(w: World, u: Uid)
    requires Inv(w) && Active(w, u) && JobFailedNow(w, u)
    ensures var next := FaultFree(w, u);
      && Active(next, u) && JobFailedNow(next, u) && !ReadyNow(next.devices[u])
      && SaysFailed(next.devices[u])
  {
    FailedIsStuck(w, u);
    JobsOfInv(w, w.devices[u].name);
    hide Inv, FaultFree;
    HeldPass(w, u);
    FailureIsReported(w, u);
  }

  predicate SaysFailed(d: Device) {
    d.status.generated == Condition(False, d.generation)
  }

  lemma FailureIsReported(w: World, u: Uid)
    requires Inv(w) && Held(w, u) && Active(w, u) && JobFailedNow(w, u) && u in FaultFree(w, u).devices
    ensures FaultFree(w, u).devices[u].status.generated == Condition(False, w.devices[u].generation)
  {
    hide Inv, Reconcile, ExportFails, DesiredGenerator;
    StoredReport(w, u, {});
  }

  /** While its job has yet to start or to finish, a failure-free pass reports that generating is under
      way. */
  lemma WaitingIsReported(w: World, u: Uid)
    requires Inv(w) && Active(w, u) && Distance(w, u) in {2, 3, 4}
    ensures var next := FaultFree(w, u);
      Active(next, u) && next.devices[u].status.generated == Condition(Unknown, next.devices[u].generation)
  {
    hide Inv, Reconcile, ExportFails, DesiredGenerator;
    HeldPass(w, u);
    StoredReport(w, u, {});
  }

  /* ---- Runs ---- */

  /** e neither edits nor deletes u, fails none of its passes, and takes no job from it. */
  predicate Calm(w: World, e: Event, u: Uid)
    requires u in w.devices
  {
    match e
    case Edit(v, _) => v != u
    case Delete(v) => v != u
    case JobFails(n) => n != w.devices[u].name
    case JobVanishes(n) => n != w.devices[u].name
    case Pass(v, faults) => v == u ==> faults == {}
    case _ => true
  }

  /** e is what u is waiting for: progress of its job, or else a pass. */
  predicate Effective(w: World, e: Event, u: Uid)
    requires u in w.devices
  {
    match Distance(w, u)
    case 3 => e == JobStarts(w.devices[u].name)
    case 2 => e == JobSucceeds(w.devices[u].name)
    case _ => e.Pass? && e.uid == u
  }

  lemma PassShape(w: World, v: Uid, faults: set<Effect>) returns (s: PassState)
    requires Inv(w) && v in w.devices && GetDevice !in faults
    ensures Reconcile(w, v, faults) == if FinalPatch in faults then s.world else Persist(s.world, v, s.obj)
    ensures Underway(w, s, v) && s.world.devices == w.devices && SameObject(s.obj, w.devices[v])
  {
    hide Inv, Ended, RunPipeline, Underway, Persist;
    var r := RunPipeline(StartOf(w, v), v, faults);
    PassEnds(w, v, faults);
    EndedIsUnderway(w, r.0, v, r.1);
    UnderwayShape(w, r.0, v);
    s := r.0;
  }

  lemma OtherJobsStay(w: World, s: PassState, v: Uid, n: Name)
    requires Underway(w, s, v) && n != w.devices[v].name
    ensures n in s.world.jobs <==> n in w.jobs
    ensures n in w.jobs ==> s.world.jobs[n] == w.jobs[n]
  {
    hide Inv, KeepsServed;
  }

  lemma NamesDiffer(w: World, u: Uid, v: Uid)
    requires Inv(w) && u in w.devices && v in w.devices && u != v
    ensures w.devices[u].name != w.devices[v].name
  {
  }

  /** What a pass over another device leaves of u. */
  lemma OtherPass(w: World, v: Uid, faults: set<Effect>, u: Uid)
    requires Inv(w) && Active(w, u) && v != u
    ensures var next := Reconcile(w, v, faults);
      && u in next.devices && next.devices[u] == w.devices[u]
      && (w.devices[u].name in next.jobs <==> w.devices[u].name in w.jobs)
      && (w.devices[u].name in w.jobs ==> next.jobs[w.devices[u].name] == w.jobs[w.devices[u].name])
  {
    hide Inv, Underway, RunPipeline;
    if v in w.devices && GetDevice !in faults {
      var s := PassShape(w, v, faults);
      NamesDiffer(w, u, v);
      OtherJobsStay(w, s, v, w.devices[u].name);
    }
  }

  lemma SameDistance(w: World, next: World, u: Uid)
    requires u in w.devices && u in next.devices && next.devices[u] == w.devices[u]
    requires w.devices[u].name in next.jobs <==> w.devices[u].name in w.jobs
    requires w.devices[u].name in w.jobs ==> next.jobs[w.devices[u].name] == w.jobs[w.devices[u].name]
    ensures Distance(next, u) == Distance(w, u)
  {
  }

  /** The job of u, when it is of the current generation, can start: its input is there. */
  lemma StartApproaches(w: World, u: Uid)
    requires Inv(w) && Active(w, u) && Distance(w, u) <= 6
    requires w.devices[u].name in w.jobs && w.jobs[w.devices[u].name].state.Waiting?
    ensures var next := Apply(w, JobStarts(w.devices[u].name));
      && Active(next, u) && Distance(next, u) <= Distance(w, u)
      && (Distance(w, u) == 3 ==> Distance(next, u) == 2)
  {
    var n := w.devices[u].name;
    JobsOfInv(w, n);
    assert w.jobs[n].owner == u;
    hide Inv;
    assert DesiredGenerator(w.devices[u]).Config?;
    hide DesiredGenerator, Generated;
  }

  lemma BystanderStep(w: World, e: Event, u: Uid)
    requires Active(w, u) && Calm(w, e, u)
    requires e.Create? || e.Edit? || e.Delete? || e.JobFails? || e.JobVanishes?
    ensures Active(Apply(w, e), u) && Distance(Apply(w, e), u) == Distance(w, u)
    ensures Apply(w, e).devices[u] == w.devices[u]
  {
    hide Distance;
    SameDistance(w, Apply(w, e), u);
  }

  lemma JobStartStep(w: World, n: Name, u: Uid)
    requires Inv(w) && Active(w, u) && Distance(w, u) <= 6
    ensures var next := Apply(w, JobStarts(n));
      && Active(next, u) && Distance(next, u) <= Distance(w, u)
      && (Distance(w, u) == 3 && n == w.devices[u].name ==> Distance(next, u) == 2)
  {
    if n == w.devices[u].name && n in w.jobs && w.jobs[n].state.Waiting? {
      StartApproaches(w, u);
    } else {
      hide Inv;
      SameDistance(w, Apply(w, JobStarts(n)), u);
    }
  }

  lemma JobSuccessStep(w: World, n: Name, u: Uid)
    requires Active(w, u) && Distance(w, u) <= 6
    ensures var next := Apply(w, JobSucceeds(n));
      && Active(next, u) && Distance(next, u) <= Distance(w, u)
      && (Distance(w, u) == 2 && n == w.devices[u].name ==> Distance(next, u) < 2)
  {
    hide Generated;
    if n != w.devices[u].name {
      SameDistance(w, Apply(w, JobSucceeds(n)), u);
    }
  }

  lemma PassStep(w: World, v: Uid, faults: set<Effect>, u: Uid)
    requires Inv(w) && Active(w, u) && Distance(w, u) <= 6 && (v == u ==> faults == {})
    ensures var next := Reconcile(w, v, faults);
      && Active(next, u) && Distance(next, u) <= Distance(w, u)
      && (v == u && Distance(w, u) !in {0, 2, 3} ==> Distance(next, u) < Distance(w, u))
  {
    hide Inv, Reconcile;
    if v == u {
      PassApproaches(w, u);
    } else {
      OtherPass(w, v, faults, u);
      SameDistance(w, Reconcile(w, v, faults), u);
    }
  }

  lemma UnfailedStep(w: World, e: Event, u: Uid)
    requires Inv(w) && Active(w, u) && Distance(w, u) <= 6 && Calm(w, e, u)
    ensures var next := Apply(w, e);
      && Active(next, u) && Distance(next, u) <= Distance(w, u)
      && (Effective(w, e, u) && Distance(w, u) > 0 ==> Distance(next, u) < Distance(w, u))
  {
    hide Inv, Reconcile, Distance;
    match e
    case JobStarts(n) => JobStartStep(w, n, u); hide Apply;
    case JobSucceeds(n) => JobSuccessStep(w, n, u); hide Apply;
    case Pass(v, faults) => PassStep(w, v, faults, u);
    case _ => BystanderStep(w, e, u); hide Apply;
  }

  /** Only the job's own start and success touch a job: a failed one stays as it is. */
  lemma FailedJobStays(w: World, e: Event, u: Uid)
    requires Active(w, u) && JobFailedNow(w, u) && (e.JobStarts? || e.JobSucceeds?)
    ensures var next := Apply(w, e); Active(next, u) && next.devices == w.devices && JobFailedNow(next, u)
  {
    hide Generated, StartedJob;
  }

  lemma StuckPass(w: World, v: Uid, faults: set<Effect>, u: Uid)
    requires Inv(w) && Active(w, u) && JobFailedNow(w, u) && (v == u ==> faults == {})
    ensures var next := Reconcile(w, v, faults);
      && Active(next, u) && JobFailedNow(next, u)
      && (ReadyNow(next.devices[u]) ==> v != u && ReadyNow(w.devices[u]))
      && (SaysFailed(next.devices[u]) <== v == u || SaysFailed(w.devices[u]))
  {
    hide Inv, Reconcile;
    if v == u {
      FailedJobBlocks(w, u);
    } else {
      OtherPass(w, v, faults, u);
    }
  }

  /** No calm event gets a device past a failed job of its present generation. */
  lemma StuckStep(w: World, e: Event, u: Uid)
    requires Inv(w) && Active(w, u) && JobFailedNow(w, u) && Calm(w, e, u)
    ensures var next := Apply(w, e);
      && Active(next, u) && JobFailedNow(next, u)
      && (ReadyNow(next.devices[u]) ==> !(e.Pass? && e.uid == u) && ReadyNow(w.devices[u]))
      && (SaysFailed(next.devices[u]) <== (e.Pass? && e.uid == u) || SaysFailed(w.devices[u]))
  {
    hide Inv, Reconcile, ReadyNow;
    match e
    case JobStarts(_) => FailedJobStays(w, e, u); hide Apply;
    case JobSucceeds(_) => FailedJobStays(w, e, u); hide Apply;
    case Pass(v, faults) => StuckPass(w, v, faults, u);
    case _ => BystanderStep(w, e, u);
  }

  /** Where one event that may be effective takes a device. */
  predicate Nearer(before: nat, after: nat, effective: nat) {
    if before == 7 then after == 7
    else after <= before && (after > 0 ==> after + effective <= before)
  }

  /** A calm event never takes a device further from Ready, and an effective one takes it closer,
      unless its job of the present generation has failed: then it stays where it is. */
  lemma CalmStep(w: World, e: Event, u: Uid)
    requires Inv(w) && Active(w, u) && Calm(w, e, u)
    ensures var next := Apply(w, e);
      Active(next, u) && Nearer(Distance(w, u), Distance(next, u), if Effective(w, e, u) then 1 else 0)
  {
    EventSafe(w, e);
    hide Inv, Apply, Calm, Effective;
    FailedIsStuck(w, u);
    if JobFailedNow(w, u) {
      StuckStep(w, e, u);
      FailedIsStuck(Apply(w, e), u);
    } else {
      hide JobFailedNow;
      UnfailedStep(w, e, u);
    }
  }

  ghost predicate CalmRun(w: World, events: seq<Event>, u: Uid) {
    events == [] || (
      var before := RunEvents(w, events[..|events| - 1]);
      CalmRun(w, events[..|events| - 1], u) && u in before.devices && Calm(before, events[|events| - 1], u))
  }

  /** How many events of the run were effective for u. */
  ghost function Advances(w: World, events: seq<Event>, u: Uid): nat
    requires CalmRun(w, events, u)
  {
    if events == [] then 0
    else
      var before := RunEvents(w, events[..|events| - 1]);
      Advances(w, events[..|events| - 1], u) + if Effective(before, events[|events| - 1], u) then 1 else 0
  }

  /** In a calm run every effective event is one step towards Ready, unless the job of the present
      generation had failed at the start. */
  lemma {:induction false} CalmRunApproaches(w: World, events: seq<Event>, u: Uid)
    requires Inv(w) && Active(w, u) && CalmRun(w, events, u)
    ensures var end := RunEvents(w, events);
      Inv(end) && Active(end, u) && Nearer(Distance(w, u), Distance(end, u), Advances(w, events, u))
  {
    hide Inv, Apply, Calm, Effective, Distance;
    DistanceBound(w, u);
    if events != [] {
      var init := events[..|events| - 1];
      CalmRunApproaches(w, init, u);
      CalmStep(RunEvents(w, init), events[|events| - 1], u);
      EventSafe(RunEvents(w, init), events[|events| - 1]);
    }
  }

  /** After the first effective event of a calm run that starts with a failed job, the device is not
      Ready and says that generating failed, for good. */
  lemma {:induction false} StuckRun(w: World, events: seq<Event>, u: Uid)
    requires Inv(w) && Active(w, u) && JobFailedNow(w, u) && CalmRun(w, events, u)
    ensures var end := RunEvents(w, events);
      && Inv(end) && Active(end, u) && JobFailedNow(end, u)
      && (Advances(w, events, u) > 0 ==> !ReadyNow(end.devices[u]) && SaysFailed(end.devices[u]))
  {
    hide Inv, Apply, Calm, Active, JobFailedNow, Distance, ReadyNow;
    if events != [] {
      var init, last := events[..|events| - 1], events[|events| - 1];
      StuckRun(w, init, u);
      var before := RunEvents(w, init);
      StuckStep(before, last, u);
      EventSafe(before, last);
      FailedIsStuck(before, u);
    }
  }

  /** Convergence, exactly: a run in which nobody edits or deletes the device, its own passes and
      jobs do not fail from now on, and six events are what it waits for, makes it Ready at its
      present generation if and only if its job of that generation had not failed before. Whatever
      failures led to the first state, and whatever happens to the other devices. */
  lemma DeviceConverges(w: World, events: seq<Event>, u: Uid)
    requires Reachable(w) && Active(w, u)
    requires CalmRun(w, events, u) && Advances(w, events, u) >= 6
    ensures Active(RunEvents(w, events), u)
    ensures ReadyNow(RunEvents(w, events).devices[u]) <==> !JobFailedNow(w, u)
    ensures Served(RunEvents(w, events), u) || JobFailedNow(w, u)
  {
    ReachableIsSafe(w);
    FailedIsStuck(w, u);
    CalmRunApproaches(w, events, u);
    var end := RunEvents(w, events);
    if JobFailedNow(w, u) {
      StuckRun(w, events, u);
      hide RunEvents, Advances, CalmRun, Inv, Served;
    } else {
      hide RunEvents, Advances, CalmRun;
      assert Distance(end, u) == 0;
      assert ReadyServed(end);
    }
  }

  /** What u is waiting for; a failed job has to be taken away first. */
  function NextEvent(w: World, u: Uid): Event {
    if u !in w.devices then Pass(u, {})
    else match Distance(w, u)
    case 7 => JobVanishes(w.devices[u].name)
    case 3 => JobStarts(w.devices[u].name)
    case 2 => JobSucceeds(w.devices[u].name)
    case _ => Pass(u, {})
  }

  lemma VanishedJob(w: World, u: Uid)
    requires Inv(w) && Active(w, u) && Distance(w, u) == 7
    ensures Active(Apply(w, NextEvent(w, u)), u) && Distance(Apply(w, NextEvent(w, u)), u) == 4
  {
    hide Inv;
  }

  lemma NextIsEffective(w: World, u: Uid)
    requires Active(w, u) && Distance(w, u) <= 6
    ensures Calm(w, NextEvent(w, u), u) && Effective(w, NextEvent(w, u), u)
  {
  }

  lemma NextEventApproaches(w: World, u: Uid)
    requires Inv(w) && Active(w, u)
    ensures var next := Apply(w, NextEvent(w, u));
      && Inv(next) && Active(next, u)
      && Distance(next, u) <= if Distance(w, u) == 0 then 0 else Distance(w, u) - 1
  {
    hide Inv, Apply, NextEvent, Distance, Calm, Effective;
    EventSafe(w, NextEvent(w, u));
    DistanceBound(w, u);
    if Distance(w, u) == 7 {
      VanishedJob(w, u);
    } else {
      NextIsEffective(w, u);
      CalmStep(w, NextEvent(w, u), u);
    }
  }

  /** The run in which u gets k times what it is waiting for. */
  ghost function PromptRun(w: World, u: Uid, k: nat): seq<Event> {
    if k == 0 then []
    else
      var init := PromptRun(w, u, k - 1);
      init + [NextEvent(RunEvents(w, init), u)]
  }

  lemma {:induction false} PromptRunApproaches(w: World, u: Uid, k: nat)
    requires Inv(w) && Active(w, u)
    ensures var end := RunEvents(w, PromptRun(w, u, k));
      && |PromptRun(w, u, k)| == k && Inv(end) && Active(end, u)
      && Distance(end, u) <= if Distance(w, u) <= k then 0 else Distance(w, u) - k
  {
    hide Inv, Apply, Distance, NextEvent;
    if k > 0 {
      var init := PromptRun(w, u, k - 1);
      PromptRunApproaches(w, u, k - 1);
      NextEventApproaches(RunEvents(w, init), u);
      assert PromptRun(w, u, k)[..k - 1] == init;
    }
  }

  /** There is no dead end: from every reachable state, a failed job included, seven further events
      can make an active device Ready at its current generation. */
  lemma ReadyStaysPossible(w: World, u: Uid)
    requires Reachable(w) && Active(w, u)
    ensures exists events ::
      |events| == 7 && u in RunEvents(w, events).devices && ReadyNow(RunEvents(w, events).devices[u])
  {
    hide RunEvents, PromptRun, Inv, Reachable;
    ReachableIsSafe(w);
    DistanceBound(w, u);
    PromptRunApproaches(w, u, 7);
    var end := RunEvents(w, PromptRun(w, u, 7));
    assert Distance(end, u) == 0;
  }

  /** A failed job of the present generation does occur: create a device, let two passes run without
      failures, and let the job they created fail. */
  lemma JobCanFail(u: Uid, name: Name, spec: Spec)
    ensures exists w :: Reachable(w) && Active(w, u) && JobFailedNow(w, u)
  {
    hide Reconcile, Inv;
    var start := Initial(None);
    var events := [Create(u, name, spec), Pass(u, {}), Pass(u, {}), JobFails(name)];
    var created := Apply(start, events[0]);
    InitialInv(None);
    EventSafe(start, events[0]);
    var once := Apply(created, events[1]);
    FinalizerPass(created, u);
    EventSafe(created, events[1]);
    var twice := Apply(once, events[2]);
    HeldPass(once, u);
    var end := Apply(twice, events[3]);
    assert Active(end, u) && JobFailedNow(end, u);
    FourEvents(start, events);
    ReachedFromStart(end, events);
  }

  lemma FourEvents(w: World, events: seq<Event>)
    requires |events| == 4
    ensures RunEvents(w, events) == Apply(Apply(Apply(Apply(w, events[0]), events[1]), events[2]), events[3])
  {
    hide Apply;
    assert events[..3][..2] == events[..2] && events[..2][..1] == events[..1] && events[..1][..0] == [];
    assert RunEvents(w, events[..1]) == Apply(w, events[0]);
    assert RunEvents(w, events[..2]) == Apply(RunEvents(w, events[..1]), events[1]);
    assert RunEvents(w, events[..3]) == Apply(RunEvents(w, events[..2]), events[2]);
  }

  lemma ReachedFromStart(w: World, events: seq<Event>)
    requires w == RunEvents(Initial(None), events)
    ensures Reachable(w)
  {
  }

  /* ---- Quiescence ---- */

  /** Everything held is Ready and u's own job is done. */
  ghost predicate Quiet(w: World, u: Uid) {
    && Inv(w) && Settled(w) && Held(w, u)
    && w.devices[u].name in w.jobs && w.jobs[w.devices[u].name] == Job(u, w.devices[u].generation, Complete)
  }

  lemma QuietFacts(w: World, u: Uid)
    requires Quiet(w, u)
    ensures MergedCurrent(w) && Exported(w) && !w.devices[u].deleting
    ensures GeneratorFile(u) in w.files && w.files[GeneratorFile(u)] == DesiredGenerator(w.devices[u])
    ensures HasOutput(w, u) && OwnedJobs(w.jobs, u) == {w.devices[u].name}
    ensures w.devices[u].status == ConvergedStatus(w.devices[u]) && SaneDevice(w.devices[u])
  {
    assert Served(w, u);
    SettledMergeIsCurrent(w);
    OwnedIsNamed(w, u);
    hide MergeOf, DesiredGenerator, Generated, Includes;
  }

  lemma QuietGenerator(s: PassState, u: Uid)
    requires GeneratorFile(u) in s.world.files && s.world.files[GeneratorFile(u)] == DesiredGenerator(s.obj)
    ensures GeneratorStep(s, u, NoFaults) == (s.(obj := s.obj.WithGenerated(True)), Continue)
  {
    hide DesiredGenerator;
  }

  lemma QuietJob(s: PassState, u: Uid)
    requires OwnedJobs(s.world.jobs, u) == {s.obj.name} && s.obj.name in s.world.jobs
    requires s.world.jobs[s.obj.name] == Job(u, s.obj.generation, Complete)
    ensures JobStep(s, u, NoFaults) == (s.(obj := s.obj.WithGenerated(Unknown)), Continue)
  {
    hide OwnedJobs;
  }

  lemma QuietMerge(s: PassState)
    requires MergedCurrent(s.world)
    ensures MergeStep(s, NoFaults) == (s.(obj := s.obj.WithApplied(Unknown)), Continue)
  {
    hide MergeOf;
  }

  lemma QuietReload(s: PassState)
    requires Exported(s.world)
    ensures ReloadStep(s, NoFaults) == (s.(obj := s.obj.WithApplied(True)), Continue)
  {
  }

  lemma StageObject(i: nat, w: World, s: PassState, u: Uid)
    requires Stage(i, w, s, u)
    ensures u in w.devices && SameObject(s.obj, w.devices[u]) && s.obj.finalizer == w.devices[u].finalizer
  {
    StageIsUnderway(i, w, s, u);
    UnderwayShape(w, s, u);
    hide Underway, MergedCurrent, DesiredGenerator;
  }

  lemma QuietContent(w: World, s: PassState, u: Uid)
    requires HasOutput(w, u) && s.world == w
    ensures ContentStep(s, u, NoFaults).1 == Continue && ContentStep(s, u, NoFaults).0.world == w
  {
    hide Generated, DesiredGenerator;
  }

  lemma QuietJobStage(w: World, s: PassState, u: Uid)
    requires Quiet(w, u) && s.world == w && u in w.devices && SameObject(s.obj, w.devices[u])
    ensures JobStep(s, u, NoFaults).1 == Continue && JobStep(s, u, NoFaults).0.world == w
  {
    QuietFacts(w, u);
    hide Inv, Settled, MergedCurrent, Exported, DesiredGenerator, HasOutput, OwnedJobs, ConvergedStatus, SaneDevice;
    QuietJob(s, u);
    hide JobStep;
  }

  lemma QuietGeneratorStage(w: World, s: PassState, u: Uid)
    requires Quiet(w, u) && s.world == w && u in w.devices && SameObject(s.obj, w.devices[u])
    ensures GeneratorStep(s, u, NoFaults).1 == Continue && GeneratorStep(s, u, NoFaults).0.world == w
  {
    QuietFacts(w, u);
    SameDesire(s.obj, w.devices[u]);
    hide Quiet, MergedCurrent, Exported, DesiredGenerator, HasOutput, OwnedJobs, ConvergedStatus, SaneDevice;
    QuietGenerator(s, u);
    hide GeneratorStep;
  }

  lemma QuietLateStage(w: World, s: PassState, u: Uid)
    requires Quiet(w, u) && s.world == w
    ensures ContentStep(s, u, NoFaults).1 == Continue && ContentStep(s, u, NoFaults).0.world == w
    ensures MergeStep(s, NoFaults).1 == Continue && MergeStep(s, NoFaults).0.world == w
    ensures ReloadStep(s, NoFaults).1 == Continue && ReloadStep(s, NoFaults).0.world == w
  {
    QuietFacts(w, u);
    hide Quiet, MergedCurrent, Exported, DesiredGenerator, HasOutput, OwnedJobs, ConvergedStatus, SaneDevice;
    QuietContent(w, s, u);
    QuietMerge(s);
    QuietReload(s);
    hide ContentStep, MergeStep, ReloadStep;
  }

  lemma EdgeSteps(s: PassState, u: Uid)
    requires !s.obj.deleting && s.obj.finalizer
    ensures DeletionStep(s, u, NoFaults) == (s, Continue)
    ensures FinalizerStep(s) == (s, Continue)
    ensures ReadyStep(s).1 == Continue && ReadyStep(s).0.world == s.world
  {
    hide CleanupStep, MergeStep, ReloadStep;
  }

  lemma QuietStep(i: nat, w: World, s: PassState, u: Uid)
    requires i < 8 && Quiet(w, u) && Stage(i, w, s, u) && s.world == w
    ensures Exec(Pipeline[i], s, u, NoFaults).1 == Continue && Exec(Pipeline[i], s, u, NoFaults).0.world == w
  {
    hide DeletionStep, FinalizerStep, ReadyStep, ContentStep, MergeStep, ReloadStep, GeneratorStep, JobStep;
    hide Stage, Quiet, Inv;
    StageObject(i, w, s, u);
    QuietIsStored(w, u);
    QuietLateStage(w, s, u);
    QuietGeneratorStage(w, s, u);
    QuietJobStage(w, s, u);
    EdgeSteps(s, u);
  }

  lemma {:induction false} QuietRun(i: nat, w: World, s: PassState, u: Uid) returns (end: PassState)
    requires i <= 8 && Quiet(w, u) && Stage(i, w, s, u) && s.world == w && SaneDevice(w.devices[u])
    ensures RunFrom(i, s, u, NoFaults) == (end, Continue) && Completed(w, end, u) && end.world == w
    decreases 8 - i
  {
    hide Stage, Exec, RunFrom, Quiet, Completed;
    RunFromStep(i, s, u, NoFaults);
    if i < 8 {
      StepKeepsStage(i, w, s, u, NoFaults);
      QuietStep(i, w, s, u);
      end := QuietRun(i + 1, w, Exec(Pipeline[i], s, u, NoFaults).0, u);
    } else {
      LastStageCompletes(w, s, u);
      end := s;
    }
  }

  lemma SameConvergedStatus(obj: Device, d: Device)
    requires SameObject(obj, d)
    ensures ConvergedStatus(obj) == ConvergedStatus(d)
  {
    SameDesire(obj, d);
    hide DesiredGenerator, Generated;
  }

  lemma QuietIsStored(w: World, u: Uid)
    requires Quiet(w, u)
    ensures Inv(w) && u in w.devices && w.devices[u].finalizer && !w.devices[u].deleting
  {
    hide Inv;
  }

  lemma QuietEnd(w: World, end: PassState, u: Uid)
    requires Quiet(w, u) && Completed(w, end, u) && end.world == w
    ensures end.obj == w.devices[u] && end.obj.finalizer
  {
    QuietFacts(w, u);
    StageObject(8, w, end, u);
    CompletedStatus(w, end, u);
    SameConvergedStatus(end.obj, w.devices[u]);
    hide Stage, ConvergedStatus, Inv, Settled, HasOutput, MergedCurrent, Exported, DesiredGenerator, OwnedJobs;
  }

  lemma PersistSame(w: World, u: Uid)
    requires u in w.devices && w.devices[u].finalizer
    ensures Persist(w, u, w.devices[u]) == w
  {
    assert w.devices[u := w.devices[u]] == w.devices;
  }

  lemma FaultFreeIs(w: World, u: Uid, s: PassState)
    requires u in w.devices && RunPipeline(StartOf(w, u), u, NoFaults).0 == s
    ensures FaultFree(w, u) == Persist(s.world, u, s.obj)
  {
    hide RunPipeline, Persist;
  }

  /** A failure-free pass over a quiet cluster changes nothing: no file, job, annotation or object. */
  lemma QuietPassIsIdle(w: World, u: Uid)
    requires Quiet(w, u)
    ensures FaultFree(w, u) == w
  {
    QuietIsStored(w, u);
    hide Quiet, Stage, RunFrom, RunPipeline, Inv, MergedCurrent, FaultFree, Persist;
    StartsAtStageZero(w, u);
    RunFromStart(StartOf(w, u), u, NoFaults);
    var end := QuietRun(0, w, StartOf(w, u), u);
    QuietEnd(w, end, u);
    FaultFreeIs(w, u, end);
    PersistSame(w, u);
  }

  /* ---- Deletion terminates ---- */

  lemma {:induction false} CleanupSucceeds(s: PassState, u: Uid)
    ensures CleanupStep(s, u, NoFaults).1 == Continue
  {
  }

  lemma ReloadSucceeds(s: PassState)
    ensures ReloadStep(s, NoFaults).1 == Continue
  {
  }

  lemma DeletionStepReleases(w: World, s: PassState, u: Uid)
    requires Inv(w) && u in w.devices && w.devices[u].deleting && s == StartOf(w, u)
    ensures var (next, action) := DeletionStep(s, u, NoFaults);
      action == Stop && !next.obj.finalizer && next.obj.deleting
  {
    assert SaneDevice(w.devices[u]);
    StartsAtStageZero(w, u);
    StageIsUnderway(0, w, s, u);
    hide Stage, Inv, Carried;
    CleanupSucceeds(s, u);
    CleanupStepKeeps(w, s, u, NoFaults);
    hide CleanupStep, NothingOwned;
    var s1 := CleanupStep(s, u, NoFaults).0;
    MergeStepSucceeds(w, s1, u);
    MergeStepKeeps(w, s1, u, NoFaults);
    hide MergeStep, MergedCurrent;
    var s2 := MergeStep(s1, NoFaults).0;
    ReloadSucceeds(s2);
    ReloadStepKeeps(w, s2, u, NoFaults);
    hide ReloadStep, Applied;
  }

  /** One failure-free pass releases a device under deletion, whatever failed before. */
  lemma DeletionCompletes(w: World, u: Uid)
    requires Inv(w) && u in w.devices && w.devices[u].deleting
    ensures u !in FaultFree(w, u).devices
  {
    var s := StartOf(w, u);
    DeletionStepReleases(w, s, u);
    RunFromStart(StartOf(w, u), u, NoFaults);
    RunFromStep(0, s, u, NoFaults);
    PassKeepsDevices(w, u);
    hide RunFrom, RunPipeline, DeletionStep, Inv;
  }

  lemma PassKeepsDevices(w: World, u: Uid)
    requires Inv(w) && u in w.devices
    ensures RunPipeline(StartOf(w, u), u, NoFaults).0.world.devices == w.devices
  {
    PassEnds(w, u, NoFaults);
    hide RunPipeline, Inv;
    var (s, action) := RunPipeline(StartOf(w, u), u, NoFaults);
    EndedIsUnderway(w, s, u, action);
    UnderwayShape(w, s, u);
  }
}
