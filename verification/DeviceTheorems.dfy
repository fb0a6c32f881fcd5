/** The guarantees of the MeasurementDevice controller in every reachable state. */
module DeviceTheorems {
  import opened Options
  import opened Conditions
  import opened Steps
  import opened SnmpMerge
  import opened DeviceFiles
  import opened DeviceProtocol
  import opened DeviceInvariant
  import opened DevicePass
  import opened DeviceRuns

  /* ---- A ready device stays in the merged configuration ---- */

  /** The configuration has the current auth of d and the module generated from its current walks. */
  predicate HasEntries(c: Content, d: Device) {
    && c.Config?
    && d.name in c.auths && c.auths[d.name] == Auth(d.spec.auth)
    && d.name in c.modules && c.modules[d.name] == Metrics(d.spec.walks)
  }

  predicate EntriesInMerged(w: World, u: Uid) {
    u in w.devices && SnmpMergedFile in w.files && HasEntries(w.files[SnmpMergedFile], w.devices[u])
  }

  lemma ServedHasEntries(w: World, u: Uid)
    requires Served(w, u)
    ensures EntriesInMerged(w, u)
  {
    var part := w.files[SnmpFile(u)];
    var name := w.devices[u].name;
    assert part.auths[name] == Auth(w.devices[u].spec.auth);
    assert part.modules[name] == Metrics(w.devices[u].spec.walks);
    assert name in part.auths && name in part.modules;
  }

  /** Throughout the run u stays stored, unedited and not under deletion. */
  ghost predicate UndisturbedRun(w: World, events: seq<Event>, u: Uid) {
    forall k :: 0 <= k <= |events| ==> Undisturbed(w, RunEvents(w, events[..k]), u)
  }

  lemma {:induction false} ServiceOutlastsRun(w: World, events: seq<Event>, u: Uid)
    requires Inv(w) && Served(w, u) && UndisturbedRun(w, events, u)
    ensures Served(RunEvents(w, events), u)
  {
    hide Inv, Served, Apply;
    if events != [] {
      var last := |events| - 1;
      var before := RunEvents(w, events[..last]);
      forall k | 0 <= k <= last
        ensures Undisturbed(w, RunEvents(w, events[..last][..k]), u)
      {
        assert events[..last][..k] == events[..k];
      }
      ServiceOutlastsRun(w, events[..last], u);
      RunSafe(w, events[..last]);
      EventSafe(before, events[last]);
      assert events[..|events|] == events;
      assert Undisturbed(w, before, u) && Undisturbed(w, RunEvents(w, events[..|events|]), u);
    }
  }

  /** Once Ready at its current generation, a device keeps its auth and module in the merged file
      until its own specification changes or it is deleted: whatever other devices, jobs, failures
      and its own later passes do. */
  lemma ReadyStaysMerged(w: World, events: seq<Event>, u: Uid)
    requires Reachable(w) && u in w.devices && ReadyNow(w.devices[u]) && !w.devices[u].deleting
    requires UndisturbedRun(w, events, u)
    ensures EntriesInMerged(RunEvents(w, events), u)
  {
    ReachableIsSafe(w);
    assert Served(w, u);
    hide Inv, Served, EntriesInMerged;
    ServiceOutlastsRun(w, events, u);
    ServedHasEntries(RunEvents(w, events), u);
  }

  /** Ready at the current generation means converged, in every reachable state. */
  lemma ReadyMeansConverged(w: World, u: Uid)
    requires Reachable(w) && u in w.devices && ReadyNow(w.devices[u]) && !w.devices[u].deleting
    ensures w.devices[u].status == ConvergedStatus(w.devices[u])
    ensures SnmpFile(u) in w.files && w.devices[u].status.configHash == Some(Sha256(w.files[SnmpFile(u)]))
    ensures GeneratorFile(u) in w.files && w.files[GeneratorFile(u)] == DesiredGenerator(w.devices[u])
    ensures EntriesInMerged(w, u)
  {
    ReachableIsSafe(w);
    assert Served(w, u);
    ServedHasEntries(w, u);
    hide Inv, DesiredGenerator, Generated, Includes, EntriesInMerged;
  }

  /* ---- No orphans, safe deletion ---- */

  /** Jobs and device files always belong to a stored device whose finalizer is persisted. */
  lemma NoOrphans(w: World)
    requires Reachable(w)
    ensures forall n :: n in w.jobs ==> Held(w, w.jobs[n].owner) && w.devices[w.jobs[n].owner].name == n
    ensures forall u :: GeneratorFile(u) in w.files || SnmpFile(u) in w.files ==> Held(w, u)
  {
    ReachableIsSafe(w);
    forall n | n in w.jobs
      ensures Held(w, w.jobs[n].owner) && w.devices[w.jobs[n].owner].name == n
    {
      JobsOfInv(w, n);
    }
    forall u | GeneratorFile(u) in w.files || SnmpFile(u) in w.files
      ensures Held(w, u)
    {
      assert GeneratorFile(u) in w.files ==> FileOwned(w, GeneratorFile(u));
      assert SnmpFile(u) in w.files ==> FileOwned(w, SnmpFile(u));
    }
  }

  /** When a pass releases a device, after any history of failed deletions, the device owns no job
      and no file, the merged file is the merge of what remains, and the exporter carries its hash. */
  lemma ReleaseIsClean(w: World, u: Uid, faults: set<Effect>)
    requires Reachable(w) && u in w.devices && u !in Reconcile(w, u, faults).devices
    ensures w.devices[u].deleting && Clean(Reconcile(w, u, faults), u)
  {
    ReachableIsSafe(w);
    PassEnds(w, u, faults);
    var (s, action) := RunPipeline(PassState(w, w.devices[u].WithReady(Unknown)), u, faults);
    hide RunPipeline, Inv, Clean, Stage;
    EndedIsUnderway(w, s, u, action);
    CarriedIsInv(w, s.world, u);
    hide Carried;
    CompletedStaysAlive(w, s, u);
    if Released(w, s, u) {
      CleanWithout(s.world, u);
    }
  }

  lemma CompletedStaysAlive(w: World, s: PassState, u: Uid)
    requires Underway(w, s, u)
    ensures Completed(w, s, u) ==> !s.obj.deleting
  {
    hide Underway, MergedCurrent, Applied, Hashed, JobDone, Desires;
  }

  lemma CleanWithout(w: World, u: Uid)
    requires Clean(w, u)
    ensures Clean(WithoutDevice(w, u), u)
  {
    hide MergeOf;
  }

  /* ---- Ready after a pass ---- */

  /** A stored pass shows Ready=True exactly when all its steps continued; then the merged file is
      the merge of the volume and the exporter carries its hash. */
  lemma ReadyAfterPass(w: World, u: Uid, faults: set<Effect>)
    requires Reachable(w) && u in w.devices && GetDevice !in faults && FinalPatch !in faults
    requires u in Reconcile(w, u, faults).devices
    ensures var next := Reconcile(w, u, faults);
            var (s, action) := RunPipeline(PassState(w, w.devices[u].WithReady(Unknown)), u, faults);
      && (next.devices[u].status.ready.status == True <==> action == Continue)
      && (action == Continue ==> ReadyNow(next.devices[u]) && MergedCurrent(next) && Exported(next))
  {
    ReachableIsSafe(w);
    PassEnds(w, u, faults);
    var (s, action) := RunPipeline(PassState(w, w.devices[u].WithReady(Unknown)), u, faults);
    hide RunPipeline, Inv;
    if action == Continue {
      CompletedFacts(w, s, u);
      hide Stage, MergedCurrent, Exported, ReadyNow;
      PersistedMerge(s.world, u, s.obj);
    } else {
      hide Carried, Clean;
    }
  }

  lemma CompletedFacts(w: World, s: PassState, u: Uid)
    requires Completed(w, s, u)
    ensures ReadyNow(s.obj) && MergedCurrent(s.world) && Exported(s.world) && s.obj.finalizer && !s.obj.deleting
    ensures s.obj.status.ready.status == True
  {
    hide Underway, MergedCurrent, DesiredGenerator;
  }

  lemma PersistedMerge(w: World, u: Uid, obj: Device)
    requires MergedCurrent(w) && Exported(w)
    ensures MergedCurrent(Persist(w, u, obj)) && Exported(Persist(w, u, obj))
  {
    hide MergeOf;
  }

  /* ---- Self-healing: a settled state does not remember its history ---- */

  /** The same devices are held, under the same names and specifications. */
  ghost predicate SameHeld(a: World, b: World) {
    forall u :: (Held(a, u) <==> Held(b, u)) &&
      (Held(a, u) ==> a.devices[u].name == b.devices[u].name && a.devices[u].spec == b.devices[u].spec)
  }

  lemma SettledFile(a: World, b: World, p: Path)
    requires Inv(a) && Inv(b) && Settled(a) && Settled(b) && SameHeld(a, b)
    requires !p.SnmpMergedFile? && p in a.files
    ensures p in b.files && a.files[p] == b.files[p]
  {
    assert FileOwned(a, p);
    var u := p.uid;
    assert Held(a, u) && Held(b, u);
    assert Served(a, u) && Served(b, u);
    assert DesiredGenerator(a.devices[u]) == DesiredGenerator(b.devices[u]);
    hide DesiredGenerator, Generated, Includes, Inv;
  }

  lemma SettledIsExported(w: World)
    requires Inv(w) && Settled(w) && SnmpMergedFile in w.files
    ensures w.annotation == Some(Sha256(w.files[SnmpMergedFile]))
  {
  }

  ghost predicate SameDeviceFiles(a: World, b: World) {
    forall p: Path :: !p.SnmpMergedFile? ==>
      (p in a.files <==> p in b.files) && (p in a.files ==> a.files[p] == b.files[p])
  }

  lemma SettledFilesAgree(a: World, b: World)
    requires Inv(a) && Inv(b) && Settled(a) && Settled(b) && SameHeld(a, b) && SameHeld(b, a)
    ensures SameDeviceFiles(a, b)
  {
    hide Inv, Settled, SameHeld;
    forall p: Path | !p.SnmpMergedFile?
      ensures (p in a.files <==> p in b.files) && (p in a.files ==> a.files[p] == b.files[p])
    {
      if p in a.files {
        SettledFile(a, b, p);
      }
      if p in b.files {
        SettledFile(b, a, p);
      }
    }
  }

  lemma SameMerge(a: World, b: World)
    requires SameDeviceFiles(a, b)
    ensures MergeOf(a.files) == MergeOf(b.files)
  {
    hide MergeOf;
    MergeDependsOnSnmpFiles(a.files, b.files);
  }

  lemma SameFiles(a: World, b: World)
    requires SameDeviceFiles(a, b) && SnmpMergedFile in a.files && SnmpMergedFile in b.files
    requires a.files[SnmpMergedFile] == b.files[SnmpMergedFile]
    ensures a.files == b.files
  {
    forall p: Path
      ensures (p in a.files <==> p in b.files) && (p in a.files ==> a.files[p] == b.files[p])
    {
      if p.SnmpMergedFile? {
        assert p == SnmpMergedFile;
      }
    }
  }

  /** Whatever failures, retries and orders led to them, two settled states with the same devices
      have the same generator files, SNMP files, merged file and exporter annotation. */
  lemma SettledIsCanonical(a: World, b: World, u: Uid)
    requires Reachable(a) && Reachable(b) && Settled(a) && Settled(b)
    requires SameHeld(a, b) && SameHeld(b, a) && Held(a, u)
    ensures a.files == b.files && a.annotation == b.annotation
  {
    ReachableIsSafe(a);
    ReachableIsSafe(b);
    assert Held(b, u);
    hide Reachable, SameHeld, Inv, MergeOf, Settled, SameDeviceFiles, Includes, IsConfigOf, Held;
    SettledPart(a, u);
    SettledPart(b, u);
    SettledFilesAgree(a, b);
    SameMerge(a, b);
    SettledMergeIsCurrent(a);
    SettledMergeIsCurrent(b);
    SettledIsExported(a);
    SettledIsExported(b);
    SameFiles(a, b);
  }
}
