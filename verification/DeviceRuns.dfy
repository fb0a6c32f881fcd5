/** Safety of the MeasurementDevice protocol over every run: any interleaving of user edits,
    deletions, job progress and passes of any devices with any failures. */
module DeviceRuns {
  import opened Conditions
  import opened Steps
  import opened DeviceFiles
  import opened DeviceProtocol
  import opened DeviceInvariant
  import opened DevicePass

  /* ---- Changes of stored objects ---- */

  /** u is still stored, under the generation it had, and not being deleted. */
  predicate Undisturbed(w: World, next: World, u: Uid) {
    && u in w.devices && u in next.devices
    && next.devices[u].generation == w.devices[u].generation && !next.devices[u].deleting
  }

  /** An event ends nobody's service but that of devices it edits or deletes. */
  ghost predicate Stable(w: World, next: World) {
    forall u :: Served(w, u) && Undisturbed(w, next, u) ==> Served(next, u)
  }

  ghost function WithDevice(w: World, u: Uid, d: Device): World {
    w.(devices := w.devices[u := d])
  }

  /** d may take the place of what is stored under u, which may be nothing. */
  ghost predicate MayReplace(w: World, u: Uid, d: Device) {
    && SaneDevice(d)
    && (forall v :: v in w.devices && w.devices[v].name == d.name ==> v == u)
    && (u in w.devices ==> w.devices[u].name == d.name && w.devices[u].generation <= d.generation)
    && (u in w.devices && w.devices[u].finalizer ==> d.finalizer)
    && (u in w.devices && w.devices[u].generation == d.generation ==>
          w.devices[u].spec == d.spec && (w.devices[u].deleting ==> d.deleting))
  }

  lemma ReplacedKeepsJobs(w: World, u: Uid, d: Device)
    requires Inv(w) && MayReplace(w, u, d)
    ensures JobsOwned(WithDevice(w, u, d)) && JobsCurrent(WithDevice(w, u, d))
  {
    var next := WithDevice(w, u, d);
    forall n | n in next.jobs
      ensures JobOwned(next, n) && JobCurrent(next, n)
    {
      JobsOfInv(w, n);
      hide Inv;
      if w.jobs[n].owner == u && w.devices[u].generation == d.generation {
        assert DesiredGenerator(d) == DesiredGenerator(w.devices[u]);
      }
      hide DesiredGenerator, Generated;
    }
  }

  lemma ReplacedKeepsFiles(w: World, u: Uid, d: Device)
    requires Inv(w) && MayReplace(w, u, d)
    ensures FilesOwned(WithDevice(w, u, d)) && MergedOwned(WithDevice(w, u, d))
    ensures NamesUnique(WithDevice(w, u, d)) && DevicesSane(WithDevice(w, u, d))
  {
    var next := WithDevice(w, u, d);
    forall p | p in next.files
      ensures FileOwned(next, p)
    {
      assert FileOwned(w, p);
    }
    forall k | HeldName(w, k)
      ensures HeldName(next, k)
    {
      var v :| Held(w, v) && w.devices[v].name == k;
      assert Held(next, v) && next.devices[v].name == k;
    }
  }

  lemma ReplacedKeepsServed(w: World, u: Uid, d: Device, v: Uid)
    requires Inv(w) && MayReplace(w, u, d) && Served(w, v) && Undisturbed(w, WithDevice(w, u, d), v)
    ensures Served(WithDevice(w, u, d), v)
  {
    if v == u {
      assert DesiredGenerator(d) == DesiredGenerator(w.devices[u]);
    }
    hide DesiredGenerator, Generated, Includes;
  }

  /** Storing d keeps the invariant if Ready is claimed only when it is true. */
  lemma DeviceReplaced(w: World, u: Uid, d: Device)
    requires Inv(w) && MayReplace(w, u, d)
    requires ReadyNow(d) && !d.deleting ==> Served(WithDevice(w, u, d), u) && d.status == ConvergedStatus(d)
    requires SettledExported(WithDevice(w, u, d))
    ensures Inv(WithDevice(w, u, d)) && Stable(w, WithDevice(w, u, d))
  {
    ReplacedKeepsJobs(w, u, d);
    ReplacedKeepsFiles(w, u, d);
    var next := WithDevice(w, u, d);
    forall v | Served(w, v) && Undisturbed(w, next, v)
      ensures Served(next, v)
    {
      ReplacedKeepsServed(w, u, d, v);
    }
    hide Served, SettledExported, JobsCurrent, JobsOwned, FilesOwned, MergedOwned, NamesUnique, DevicesSane;
    forall v | v in next.devices && ReadyNow(next.devices[v]) && !next.devices[v].deleting
      ensures Served(next, v) && next.devices[v].status == ConvergedStatus(next.devices[v])
    {
      if v != u {
        assert Served(w, v);
      }
    }
  }

  lemma NotSettledWith(w: World, u: Uid, d: Device)
    requires d.finalizer && (d.deleting || !ReadyNow(d))
    ensures SettledExported(WithDevice(w, u, d))
  {
    assert Held(WithDevice(w, u, d), u);
  }

  lemma UnheldKeepsSettled(w: World, u: Uid, d: Device)
    requires Inv(w) && !Held(w, u) && !d.finalizer
    ensures SettledExported(WithDevice(w, u, d))
  {
    var next := WithDevice(w, u, d);
    if Settled(next) {
      forall v | Held(w, v)
        ensures !w.devices[v].deleting && ReadyNow(w.devices[v])
      {
        assert Held(next, v);
      }
    }
  }

  ghost function WithoutDevice(w: World, u: Uid): World {
    w.(devices := w.devices - {u})
  }

  lemma RemovedOwnsNoJob(w: World, u: Uid, n: Name)
    requires Inv(w) && u in w.devices && (!Held(w, u) || Clean(w, u)) && n in w.jobs
    ensures w.jobs[n].owner != u && JobOwned(WithoutDevice(w, u), n) && JobCurrent(WithoutDevice(w, u), n)
  {
    JobsOfInv(w, n);
    hide Inv, MergedCurrent, Exported, DesiredGenerator, Generated, IsConfigOf;
    assert n in OwnedJobs(w.jobs, u) <==> w.jobs[n].owner == u;
  }

  lemma RemovedOwnsNoFile(w: World, u: Uid)
    requires Inv(w) && u in w.devices && (!Held(w, u) || Clean(w, u))
    ensures FilesOwned(WithoutDevice(w, u))
  {
    forall p | p in w.files
      ensures FileOwned(WithoutDevice(w, u), p)
    {
      assert FileOwned(w, p);
    }
  }

  lemma DeviceRemoved(w: World, u: Uid)
    requires Inv(w) && u in w.devices
    requires !Held(w, u) || Clean(w, u)
    ensures Inv(WithoutDevice(w, u)) && Stable(w, WithoutDevice(w, u))
  {
    var next := WithoutDevice(w, u);
    RemovedOwnsNoFile(w, u);
    RemovedKeepsMerged(w, u);
    RemovedKeepsServed(w, u);
    RemovedKeepsSettled(w, u);
    hide Served, SettledExported, MergedOwned, JobOwned, JobCurrent, FilesOwned, Clean, Held;
    forall n | n in next.jobs
      ensures JobOwned(next, n) && JobCurrent(next, n)
    {
      RemovedOwnsNoJob(w, u, n);
    }
    forall v | v in next.devices && ReadyNow(next.devices[v]) && !next.devices[v].deleting
      ensures Served(next, v) && next.devices[v].status == ConvergedStatus(next.devices[v])
    {
      assert Served(w, v);
    }
  }

  lemma RemovedKeepsServed(w: World, u: Uid)
    ensures forall v :: v != u && Served(w, v) ==> Served(WithoutDevice(w, u), v)
  {
    hide DesiredGenerator, Generated, Includes;
  }

  lemma RemovedKeepsSettled(w: World, u: Uid)
    requires Inv(w) && u in w.devices && (!Held(w, u) || Clean(w, u))
    ensures SettledExported(WithoutDevice(w, u))
  {
    var next := WithoutDevice(w, u);
    if Settled(next) && !Held(w, u) {
      forall v | Held(w, v)
        ensures !w.devices[v].deleting && ReadyNow(w.devices[v])
      {
        assert Held(next, v);
      }
    }
  }

  lemma RemovedKeepsMerged(w: World, u: Uid)
    requires Inv(w) && u in w.devices && (!Held(w, u) || Clean(w, u))
    ensures MergedOwned(WithoutDevice(w, u))
  {
    var next := WithoutDevice(w, u);
    if SnmpMergedFile in w.files {
      if Held(w, u) {
        MergeInReachableState(w);
      }
      var merged := w.files[SnmpMergedFile];
      hide MergeOf;
      forall k | k in merged.auths || k in merged.modules
        ensures HeldName(next, k)
      {
        var v :| Held(w, v) && w.devices[v].name == k && v != u;
        assert Held(next, v);
      }
    }
  }

  /* ---- The final patch ---- */

  lemma CarriedIsStable(w: World, s: PassState, u: Uid)
    requires Underway(w, s, u)
    ensures Inv(s.world) && Stable(w, s.world) && KeepsServed(w, s.world)
  {
    hide Inv, Served, Local;
  }

  lemma StableChain(a: World, b: World, c: World, u: Uid)
    requires KeepsServed(a, b) && Stable(b, c) && b.devices == a.devices
    ensures Stable(a, c)
  {
    hide Served;
  }

  lemma MayPersist(w: World, s: PassState, u: Uid)
    requires Inv(w) && Underway(w, s, u)
    requires s.obj.status.ready.generation == s.obj.generation
    requires (s.obj.deleting ==> s.obj.finalizer) && (w.devices[u].finalizer ==> s.obj.finalizer)
    ensures MayReplace(s.world, u, s.obj)
  {
    hide KeepsServed, Local;
  }

  lemma CompletedHasOutput(w: World, s: PassState, u: Uid)
    requires Completed(w, s, u)
    ensures Held(s.world, u) && HasOutput(s.world, u) && SnmpMergedFile in s.world.files
    ensures Includes(s.world.files[SnmpMergedFile], s.world.files[SnmpFile(u)])
  {
    CarriedIsInv(w, s.world, u);
    hide Carried, DesiredGenerator, Generated;
    JobsOfInv(s.world, s.obj.name);
    MergeIncludesPart(s.world, u);
    hide Inv, MergeOf, Includes;
  }

  lemma CompletedStatus(w: World, s: PassState, u: Uid)
    requires Completed(w, s, u) && HasOutput(s.world, u)
    ensures s.obj.status == ConvergedStatus(s.obj) && ReadyNow(s.obj) && Exported(s.world)
  {
    CarriedIsInv(w, s.world, u);
    SameDesire(s.obj, s.world.devices[u]);
    hide Carried, Inv, MergeOf, DesiredGenerator, Generated, MergedCurrent, Desires;
  }

  lemma ServedAfterReplacing(w: World, u: Uid, d: Device)
    requires Held(w, u) && HasOutput(w, u) && SameObject(d, w.devices[u]) && d.finalizer && !d.deleting
    requires GeneratorFile(u) in w.files && w.files[GeneratorFile(u)] == DesiredGenerator(d)
    requires SnmpMergedFile in w.files && Includes(w.files[SnmpMergedFile], w.files[SnmpFile(u)])
    requires d.name in w.jobs ==> w.jobs[d.name].generation == d.generation
    ensures Served(WithDevice(w, u, d), u)
  {
    SameDesire(d, w.devices[u]);
    hide DesiredGenerator, Generated, Includes;
  }

  lemma CompletedIsServed(w: World, s: PassState, u: Uid)
    requires Completed(w, s, u)
    ensures Served(WithDevice(s.world, u, s.obj), u) && s.obj.status == ConvergedStatus(s.obj)
    ensures ReadyNow(s.obj) && Exported(s.world)
  {
    CompletedHasOutput(w, s, u);
    CompletedStatus(w, s, u);
    hide Carried, Served, ConvergedStatus, ReadyNow, Exported, MergedCurrent, DesiredGenerator, Includes, HasOutput;
    ServedAfterReplacing(s.world, u, s.obj);
  }

  lemma CompletedPersists(w: World, s: PassState, u: Uid)
    requires Inv(w) && Completed(w, s, u)
    ensures Inv(Persist(s.world, u, s.obj)) && Stable(w, Persist(s.world, u, s.obj))
  {
    CarriedIsStable(w, s, u);
    MayPersist(w, s, u);
    CompletedIsServed(w, s, u);
    hide Inv, Stage, Served, MayReplace, ConvergedStatus, Underway, KeepsServed;
    DeviceReplaced(s.world, u, s.obj);
    StableChain(w, s.world, WithDevice(s.world, u, s.obj), u);
  }

  lemma UnreadyPersists(w: World, s: PassState, u: Uid)
    requires Inv(w) && (CutShort(w, s, u) || FinalizerAdded(w, s, u))
    ensures Inv(Persist(s.world, u, s.obj)) && Stable(w, Persist(s.world, u, s.obj))
  {
    CarriedIsStable(w, s, u);
    MayPersist(w, s, u);
    hide Inv, Served, MayReplace, Underway, KeepsServed;
    NotSettledWith(s.world, u, s.obj);
    DeviceReplaced(s.world, u, s.obj);
    StableChain(w, s.world, WithDevice(s.world, u, s.obj), u);
  }

  lemma ReleasedPersists(w: World, s: PassState, u: Uid)
    requires Inv(w) && Released(w, s, u)
    ensures Inv(Persist(s.world, u, s.obj)) && Stable(w, Persist(s.world, u, s.obj))
  {
    CarriedIsStable(w, s, u);
    CarriedIsInv(w, s.world, u);
    hide Inv, Served, Carried, KeepsServed, Clean;
    DeviceRemoved(s.world, u);
    StableChain(w, s.world, WithoutDevice(s.world, u), u);
  }

  /** A pass with any failures keeps the invariant and everybody's service. */
  lemma PassSafe(w: World, u: Uid, faults: set<Effect>)
    requires Inv(w)
    ensures Inv(Reconcile(w, u, faults)) && Stable(w, Reconcile(w, u, faults))
  {
    if u in w.devices && GetDevice !in faults {
      PassEnds(w, u, faults);
      var (s, action) := RunPipeline(PassState(w, w.devices[u].WithReady(Unknown)), u, faults);
      hide Inv, Stage, CutShort, FinalizerAdded, Released, RunPipeline, Persist;
      if FinalPatch in faults {
        EndedIsUnderway(w, s, u, action);
        CarriedIsStable(w, s, u);
      } else if action == Continue {
        CompletedPersists(w, s, u);
      } else if Released(w, s, u) {
        ReleasedPersists(w, s, u);
      } else {
        UnreadyPersists(w, s, u);
      }
    }
  }

  lemma EndedIsUnderway(w: World, s: PassState, u: Uid, action: Action)
    requires Ended(w, s, u, action)
    ensures Underway(w, s, u)
  {
    hide Underway;
  }

  /* ---- All events ---- */

  lemma CreateSafe(w: World, u: Uid, name: Name, spec: Spec)
    requires Inv(w)
    ensures Inv(Apply(w, Create(u, name, spec))) && Stable(w, Apply(w, Create(u, name, spec)))
  {
    if u !in w.devices && name !in NamesTaken(w) {
      var d := Device(name, 1, spec, false, false, NoStatus);
      forall v | v in w.devices
        ensures w.devices[v].name != name
      {
        assert w.devices[v].name in NamesTaken(w);
      }
      hide Inv, Served, ConvergedStatus;
      UnheldKeepsSettled(w, u, d);
      DeviceReplaced(w, u, d);
    }
  }

  lemma MayChange(w: World, u: Uid, d: Device)
    requires Inv(w) && u in w.devices
    requires var e := w.devices[u];
      && d.name == e.name && d.finalizer == e.finalizer && d.status == e.status && d.generation >= e.generation
      && (d.generation == e.generation ==> d.spec == e.spec)
      && (d.deleting == e.deleting || (d.deleting && d.finalizer))
    ensures MayReplace(w, u, d) && SaneDevice(w.devices[u])
  {
    assert SaneDevice(w.devices[u]);
  }

  lemma EditSafe(w: World, u: Uid, spec: Spec)
    requires Inv(w)
    ensures Inv(Apply(w, Edit(u, spec))) && Stable(w, Apply(w, Edit(u, spec)))
  {
    hide Inv, Served, ConvergedStatus, MayReplace, Reconcile;
    if u in w.devices && w.devices[u].spec != spec {
      var d := w.devices[u].(spec := spec, generation := w.devices[u].generation + 1);
      MayChange(w, u, d);
      if d.finalizer {
        NotSettledWith(w, u, d);
      } else {
        UnheldKeepsSettled(w, u, d);
      }
      DeviceReplaced(w, u, d);
    }
  }

  lemma DeleteSafe(w: World, u: Uid)
    requires Inv(w)
    ensures Inv(Apply(w, Delete(u))) && Stable(w, Apply(w, Delete(u)))
  {
    hide Inv, Served, ConvergedStatus, MayReplace, Reconcile;
    if u in w.devices && !w.devices[u].deleting {
      if w.devices[u].finalizer {
        var d := w.devices[u].(deleting := true);
        MayChange(w, u, d);
        NotSettledWith(w, u, d);
        DeviceReplaced(w, u, d);
      } else {
        DeviceRemoved(w, u);
      }
    }
  }

  lemma EventSafe(w: World, e: Event)
    requires Inv(w)
    ensures Inv(Apply(w, e)) && Stable(w, Apply(w, e))
  {
    hide Inv, Served, Reconcile;
    match e
    case Create(u, name, spec) => CreateSafe(w, u, name, spec);
    case Edit(u, spec) => EditSafe(w, u, spec);
    case Delete(u) => DeleteSafe(w, u);
    case JobStarts(n) => if n in w.jobs && w.jobs[n].state.Waiting? { JobStarted(w, n); }
    case JobSucceeds(n) => if n in w.jobs && w.jobs[n].state.Running? { JobSucceeded(w, n); }
    case JobFails(n) => if n in w.jobs && !w.jobs[n].state.Complete? { JobFailed(w, n); }
    case JobVanishes(n) => JobsDropped(w, {n});
    case Pass(u, faults) => PassSafe(w, u, faults);
  }

  lemma {:induction false} RunSafe(w: World, events: seq<Event>)
    requires Inv(w)
    ensures Inv(RunEvents(w, events))
  {
    hide Inv, Apply;
    if events != [] {
      RunSafe(w, events[..|events| - 1]);
      EventSafe(RunEvents(w, events[..|events| - 1]), events[|events| - 1]);
    }
  }

  lemma ReachableIsSafe(w: World)
    requires Reachable(w)
    ensures Inv(w)
  {
    hide Inv;
    var annotation, events :| w == RunEvents(Initial(annotation), events);
    InitialInv(annotation);
    RunSafe(Initial(annotation), events);
  }
}
