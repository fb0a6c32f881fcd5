/** What every reachable cluster state satisfies, and that each elementary effect keeps it. */
module DeviceInvariant {
  import opened Options
  import opened Conditions
  import opened SnmpMerge
  import opened DeviceFiles
  import opened DeviceProtocol

  ghost predicate NamesUnique(w: World) {
    forall u, v :: u in w.devices && v in w.devices && w.devices[u].name == w.devices[v].name ==> u == v
  }

  predicate SaneDevice(d: Device) {
    (d.deleting ==> d.finalizer) && d.status.ready.generation <= d.generation
  }

  ghost predicate DevicesSane(w: World) {
    forall u :: u in w.devices ==> SaneDevice(w.devices[u])
  }

  /** u is stored and its finalizer is persisted. */
  predicate Held(w: World, u: Uid) {
    u in w.devices && w.devices[u].finalizer
  }

  /** A job belongs to a held device, bears its name and is not from the future. */
  predicate JobOwned(w: World, n: Name)
    requires n in w.jobs
  {
    var job := w.jobs[n];
    && Held(w, job.owner) && w.devices[job.owner].name == n
    && job.generation <= w.devices[job.owner].generation
    && (job.state.Running? ==> IsConfigOf(n, job.state.input))
  }

  ghost predicate JobsOwned(w: World) {
    forall n :: n in w.jobs ==> JobOwned(w, n)
  }

  /** No orphans: a device's files exist only while its finalizer holds it, and concern only it. */
  predicate FileOwned(w: World, p: Path)
    requires p in w.files
  {
    p.SnmpMergedFile? || (Held(w, p.uid) && IsConfigOf(w.devices[p.uid].name, w.files[p]))
  }

  ghost predicate FilesOwned(w: World) {
    forall p :: p in w.files ==> FileOwned(w, p)
  }

  ghost predicate HeldName(w: World, k: Name) {
    exists u :: Held(w, u) && w.devices[u].name == k
  }

  /** The merged file names held devices only. */
  ghost predicate MergedOwned(w: World) {
    SnmpMergedFile in w.files ==>
      && w.files[SnmpMergedFile].Config?
      && (forall k :: k in w.files[SnmpMergedFile].auths ==> HeldName(w, k))
      && (forall k :: k in w.files[SnmpMergedFile].modules ==> HeldName(w, k))
  }

  /** A job of the device's current generation works on the current specification. */
  predicate JobCurrent(w: World, n: Name)
    requires n in w.jobs && w.jobs[n].owner in w.devices
  {
    var job := w.jobs[n];
    var d := w.devices[job.owner];
    job.generation == d.generation && !d.deleting ==>
      && GeneratorFile(job.owner) in w.files && w.files[GeneratorFile(job.owner)] == DesiredGenerator(d)
      && (job.state.Running? ==> job.state.input == DesiredGenerator(d))
      && (job.state.Complete? ==> HasOutput(w, job.owner))
  }

  /** The device's SNMP file is the generator's output for its current specification. */
  predicate HasOutput(w: World, u: Uid) {
    u in w.devices && SnmpFile(u) in w.files && w.files[SnmpFile(u)] == Generated(DesiredGenerator(w.devices[u]))
  }

  ghost predicate JobsCurrent(w: World) {
    forall n :: n in w.jobs && w.jobs[n].owner in w.devices ==> JobCurrent(w, n)
  }

  /** The exporter's merged file carries the current auth and module of u, and nothing is under
      way that could change that. */
  predicate Served(w: World, u: Uid) {
    && Held(w, u) && !w.devices[u].deleting
    && GeneratorFile(u) in w.files && w.files[GeneratorFile(u)] == DesiredGenerator(w.devices[u])
    && HasOutput(w, u)
    && SnmpMergedFile in w.files && Includes(w.files[SnmpMergedFile], w.files[SnmpFile(u)])
    && (w.devices[u].name in w.jobs ==> w.jobs[w.devices[u].name].generation == w.devices[u].generation)
  }

  /** Ready at the current generation. */
  predicate ReadyNow(d: Device) {
    d.status.ready == Condition(True, d.generation)
  }

  /** The status a completed pass leaves. */
  function ConvergedStatus(d: Device): Status {
    var now := Condition(True, d.generation);
    Status(now, now, now, Some(Sha256(Generated(DesiredGenerator(d)))))
  }

  ghost predicate ReadyServed(w: World) {
    forall u :: u in w.devices && ReadyNow(w.devices[u]) && !w.devices[u].deleting ==>
      Served(w, u) && w.devices[u].status == ConvergedStatus(w.devices[u])
  }

  /** Every held device is Ready at its current generation and none is being deleted. */
  ghost predicate Settled(w: World) {
    forall u :: Held(w, u) ==> !w.devices[u].deleting && ReadyNow(w.devices[u])
  }

  predicate Exported(w: World) {
    SnmpMergedFile in w.files && w.annotation == Some(Sha256(w.files[SnmpMergedFile]))
  }

  ghost predicate SettledExported(w: World) {
    Settled(w) && SnmpMergedFile in w.files ==> Exported(w)
  }

  ghost predicate Inv(w: World) {
    && NamesUnique(w) && DevicesSane(w) && JobsOwned(w) && FilesOwned(w) && MergedOwned(w)
    && JobsCurrent(w) && ReadyServed(w) && SettledExported(w)
  }

  /** Whoever was served stays served. */
  ghost predicate KeepsServed(w: World, next: World) {
    forall u :: Served(w, u) ==> Served(next, u)
  }

  lemma InitialInv(annotation: Option<Digest>)
    ensures Inv(Initial(annotation))
  {
  }

  lemma OwnedJobsAreNamed(w: World, u: Uid)
    requires Inv(w) && u in w.devices
    ensures OwnedJobs(w.jobs, u) <= {w.devices[u].name}
  {
    forall n | n in OwnedJobs(w.jobs, u)
      ensures n == w.devices[u].name
    {
      assert JobOwned(w, n);
    }
  }

  /* ---- Elementary effects on jobs and files ---- */

  lemma DevicesKept(w: World, next: World)
    requires Inv(w) && next.devices == w.devices
    requires JobsOwned(next) && FilesOwned(next) && MergedOwned(next) && JobsCurrent(next)
    requires KeepsServed(w, next) && SettledExported(next)
    ensures Inv(next)
  {
    hide Served;
  }

  lemma MergedUntouched(w: World, next: World)
    requires Inv(w) && next.devices == w.devices && next.annotation == w.annotation
    requires SnmpMergedFile in next.files <==> SnmpMergedFile in w.files
    requires SnmpMergedFile in w.files ==> next.files[SnmpMergedFile] == w.files[SnmpMergedFile]
    ensures MergedOwned(next) && SettledExported(next)
  {
    HeldKept(w, next);
  }

  lemma HeldKept(w: World, next: World)
    requires next.devices == w.devices
    ensures forall u :: Held(w, u) <==> Held(next, u)
    ensures forall k :: HeldName(w, k) <==> HeldName(next, k)
    ensures Settled(w) <==> Settled(next)
  {
    assert forall k :: HeldName(w, k) ==> HeldName(next, k);
  }

  lemma JobsDropped(w: World, gone: set<Name>)
    requires Inv(w)
    ensures var next := w.(jobs := w.jobs - gone); Inv(next) && KeepsServed(w, next)
  {
    var next := w.(jobs := w.jobs - gone);
    HeldKept(w, next);
    MergedUntouched(w, next);
    hide MergedOwned, SettledExported, HeldName, Settled;
    forall n | n in next.jobs
      ensures JobOwned(next, n) && JobCurrent(next, n)
    {
      assert JobOwned(w, n) && JobCurrent(w, n);
    }
    forall p | p in next.files
      ensures FileOwned(next, p)
    {
      assert FileOwned(w, p);
    }
    DevicesKept(w, next);
  }

  /** A change of files other than the merged one keeps the invariant if it keeps its three parts. */
  lemma FilesChanged(w: World, next: World)
    requires Inv(w) && next == w.(files := next.files)
    requires SnmpMergedFile in next.files <==> SnmpMergedFile in w.files
    requires SnmpMergedFile in w.files ==> next.files[SnmpMergedFile] == w.files[SnmpMergedFile]
    requires forall p :: p in next.files && !(p in w.files && w.files[p] == next.files[p]) ==> FileOwned(next, p)
    requires forall n :: n in w.jobs ==> JobOwned(w, n) && JobCurrent(next, n)
    requires KeepsServed(w, next)
    ensures Inv(next)
  {
    hide IsConfigOf, DesiredGenerator, Generated, Includes, Served, JobCurrent;
    HeldKept(w, next);
    MergedUntouched(w, next);
    hide MergedOwned, SettledExported, HeldName, Settled;
    forall n | n in next.jobs
      ensures JobOwned(next, n)
    {
      assert JobOwned(w, n);
    }
    forall q | q in next.files
      ensures FileOwned(next, q)
    {
      if q in w.files && w.files[q] == next.files[q] {
        assert FileOwned(w, q);
      }
    }
    DevicesKept(w, next);
  }

  lemma JobsOfInv(w: World, n: Name)
    requires Inv(w) && n in w.jobs
    ensures JobOwned(w, n) && JobCurrent(w, n)
  {
    assert JobOwned(w, n);
  }

  /** Removing a file of a device under deletion that has no job left. */
  lemma FileDropped(w: World, u: Uid, p: Path)
    requires Inv(w) && Held(w, u) && w.devices[u].deleting && OwnedJobs(w.jobs, u) == {}
    requires p == GeneratorFile(u) || p == SnmpFile(u)
    ensures var next := w.(files := w.files - {p}); Inv(next) && KeepsServed(w, next)
  {
    hide Inv, IsConfigOf, DesiredGenerator, Generated, Includes;
    var next := w.(files := w.files - {p});
    forall n | n in w.jobs
      ensures JobOwned(w, n) && JobCurrent(next, n)
    {
      assert n !in OwnedJobs(w.jobs, u);
      JobsOfInv(w, n);
    }
    forall v | Served(w, v)
      ensures Served(next, v)
    {
      assert v != u;
    }
    FilesChanged(w, next);
  }

  function NamesOf(w: World): map<Uid, Name> {
    map u | u in w.devices :: w.devices[u].name
  }

  lemma ConfigsPerName(w: World)
    requires Inv(w)
    ensures OneConfigPerName(w.files, NamesOf(w))
  {
    forall u | SnmpFile(u) in w.files
      ensures u in NamesOf(w) && IsConfigOf(NamesOf(w)[u], w.files[SnmpFile(u)])
    {
      assert FileOwned(w, SnmpFile(u));
    }
  }

  /** The merge of a reachable volume always succeeds; it has every device file's entries,
      and only names of held devices. */
  lemma MergeInReachableState(w: World)
    requires Inv(w)
    ensures MergeOf(w.files).Some? && MergeOf(w.files).value.Config?
    ensures forall u :: SnmpFile(u) in w.files ==> Includes(MergeOf(w.files).value, w.files[SnmpFile(u)])
    ensures forall k :: k in MergeOf(w.files).value.auths || k in MergeOf(w.files).value.modules ==>
              exists u :: Held(w, u) && SnmpFile(u) in w.files && w.devices[u].name == k
  {
    ConfigsPerName(w);
    MergeContents(w.files, NamesOf(w));
    forall k | k in Named(w.files, NamesOf(w))
      ensures exists u :: Held(w, u) && SnmpFile(u) in w.files && w.devices[u].name == k
    {
      var u :| u in NamesOf(w) && SnmpFile(u) in w.files && NamesOf(w)[u] == k;
      assert FileOwned(w, SnmpFile(u));
    }
  }

  /** A held device of a settled state has its entries in the merged file. */
  lemma SettledPart(w: World, u: Uid)
    requires Inv(w) && Settled(w) && Held(w, u)
    ensures SnmpFile(u) in w.files && IsConfigOf(w.devices[u].name, w.files[SnmpFile(u)])
    ensures SnmpMergedFile in w.files && Includes(w.files[SnmpMergedFile], w.files[SnmpFile(u)])
  {
    hide IsConfigOf, Includes, DesiredGenerator, Generated;
    assert Served(w, u);
    assert FileOwned(w, SnmpFile(u));
  }

  ghost predicate SameNames(c: Content, w: World) {
    && c.Config?
    && (forall k :: k in c.auths ==> HeldName(w, k))
    && (forall k :: k in c.modules ==> HeldName(w, k))
  }

  ghost predicate IncludesHeld(c: Content, w: World) {
    forall u :: Held(w, u) ==>
      SnmpFile(u) in w.files && IsConfigOf(w.devices[u].name, w.files[SnmpFile(u)]) && Includes(c, w.files[SnmpFile(u)])
  }

  lemma HeldEntriesAgree(w: World, a: Content, b: Content, k: Name)
    requires IncludesHeld(a, w) && IncludesHeld(b, w) && HeldName(w, k)
    ensures k in a.auths && k in b.auths && a.auths[k] == b.auths[k]
    ensures k in a.modules && k in b.modules && a.modules[k] == b.modules[k]
  {
    var u :| Held(w, u) && w.devices[u].name == k;
  }

  /** Two configurations over held names that both include every held device's part are equal. */
  lemma SettledConfigsEqual(w: World, a: Content, b: Content)
    requires SameNames(a, w) && SameNames(b, w) && IncludesHeld(a, w) && IncludesHeld(b, w)
    ensures a == b
  {
    hide IncludesHeld, HeldName;
    forall k | HeldName(w, k)
      ensures k in a.auths && k in b.auths && a.auths[k] == b.auths[k]
      ensures k in a.modules && k in b.modules && a.modules[k] == b.modules[k]
    {
      HeldEntriesAgree(w, a, b, k);
    }
    assert a.auths == b.auths && a.modules == b.modules;
  }

  lemma NamesAreHeld(w: World)
    requires Inv(w)
    ensures SnmpMergedFile in w.files ==> SameNames(w.files[SnmpMergedFile], w)
    ensures MergeOf(w.files).Some? && SameNames(MergeOf(w.files).value, w)
  {
    MergeInReachableState(w);
    hide MergeOf;
  }

  lemma MergeIncludesPart(w: World, u: Uid)
    requires Inv(w) && SnmpFile(u) in w.files
    ensures MergeOf(w.files).Some? && Includes(MergeOf(w.files).value, w.files[SnmpFile(u)])
  {
    MergeInReachableState(w);
  }

  lemma SettledIncludes(w: World)
    requires Inv(w) && Settled(w) && SnmpMergedFile in w.files && MergeOf(w.files).Some?
    ensures IncludesHeld(w.files[SnmpMergedFile], w)
    ensures IncludesHeld(MergeOf(w.files).value, w)
  {
    hide Inv, MergeOf, Includes, IsConfigOf, Settled;
    forall u | Held(w, u)
      ensures SnmpFile(u) in w.files && IsConfigOf(w.devices[u].name, w.files[SnmpFile(u)])
      ensures Includes(w.files[SnmpMergedFile], w.files[SnmpFile(u)])
      ensures Includes(MergeOf(w.files).value, w.files[SnmpFile(u)])
    {
      SettledPart(w, u);
      MergeIncludesPart(w, u);
    }
  }

  /** In a settled state the merged file is already the merge of the volume. */
  lemma SettledMergeIsCurrent(w: World)
    requires Inv(w) && Settled(w) && SnmpMergedFile in w.files
    ensures MergeOf(w.files) == Some(w.files[SnmpMergedFile])
  {
    NamesAreHeld(w);
    SettledIncludes(w);
    hide Inv, MergeOf, SameNames, Settled, IncludesHeld;
    SettledConfigsEqual(w, w.files[SnmpMergedFile], MergeOf(w.files).value);
  }

  lemma MergedReplacedKeepsServed(w: World, merged: Content)
    requires forall u :: SnmpFile(u) in w.files ==> Includes(merged, w.files[SnmpFile(u)])
    ensures KeepsServed(w, w.(files := w.files[SnmpMergedFile := merged]))
  {
    hide IsConfigOf, DesiredGenerator, Generated, Includes;
  }

  lemma MergedReplacedKeepsJobs(w: World, merged: Content)
    requires JobsOwned(w) && JobsCurrent(w)
    ensures var next := w.(files := w.files[SnmpMergedFile := merged]); JobsOwned(next) && JobsCurrent(next)
  {
    hide DesiredGenerator, Generated;
    var next := w.(files := w.files[SnmpMergedFile := merged]);
    forall n | n in next.jobs
      ensures JobOwned(next, n) && JobCurrent(next, n)
    {
      assert JobOwned(w, n) && JobCurrent(w, n);
    }
  }

  lemma MergedReplacedKeepsFiles(w: World, merged: Content)
    requires FilesOwned(w)
    ensures FilesOwned(w.(files := w.files[SnmpMergedFile := merged]))
  {
    hide IsConfigOf;
    var next := w.(files := w.files[SnmpMergedFile := merged]);
    forall q | q in next.files
      ensures FileOwned(next, q)
    {
      if q != SnmpMergedFile {
        assert FileOwned(w, q);
      }
    }
  }

  lemma MergedFileReplaced(w: World, merged: Content)
    requires Inv(w) && SameNames(merged, w)
    requires forall u :: SnmpFile(u) in w.files ==> Includes(merged, w.files[SnmpFile(u)])
    requires Settled(w) ==> SnmpMergedFile in w.files && w.files[SnmpMergedFile] == merged
    ensures var next := w.(files := w.files[SnmpMergedFile := merged]); Inv(next) && KeepsServed(w, next)
  {
    hide Includes, Served, HeldName, Settled, FilesOwned, JobsOwned, JobsCurrent, ConvergedStatus;
    var next := w.(files := w.files[SnmpMergedFile := merged]);
    MergedReplacedKeepsServed(w, merged);
    HeldKept(w, next);
    MergedReplacedKeepsJobs(w, merged);
    MergedReplacedKeepsFiles(w, merged);
    if Settled(w) {
      assert next == w;
    }
    DevicesKept(w, next);
  }

  lemma MergedWritten(w: World, u: Uid)
    requires Inv(w) && Held(w, u)
    ensures MergeOf(w.files).Some?
    ensures var next := w.(files := w.files[SnmpMergedFile := MergeOf(w.files).value]);
            Inv(next) && KeepsServed(w, next)
  {
    MergeInReachableState(w);
    NamesAreHeld(w);
    if Settled(w) {
      SettledPart(w, u);
      hide Inv;
      SettledMergeIsCurrent(w);
    }
    hide Inv, MergeOf, Includes, Settled, SameNames, Held;
    MergedFileReplaced(w, MergeOf(w.files).value);
  }

  lemma Annotated(w: World)
    requires Inv(w) && SnmpMergedFile in w.files
    ensures var next := w.(annotation := Some(Sha256(w.files[SnmpMergedFile]))); Inv(next) && KeepsServed(w, next)
  {
    var next := w.(annotation := Some(Sha256(w.files[SnmpMergedFile])));
    HeldKept(w, next);
    forall n | n in next.jobs
      ensures JobOwned(next, n) && JobCurrent(next, n)
    {
      assert JobOwned(w, n) && JobCurrent(w, n);
    }
    forall q | q in next.files
      ensures FileOwned(next, q)
    {
      assert FileOwned(w, q);
    }
    DevicesKept(w, next);
  }

  lemma DesiredIsConfig(d: Device)
    ensures IsConfigOf(d.name, DesiredGenerator(d))
  {
  }

  lemma GeneratorWrittenKeepsJob(w: World, u: Uid, n: Name)
    requires Inv(w) && u in w.devices && n in w.jobs
    ensures JobOwned(w, n)
    ensures JobCurrent(w.(files := w.files[GeneratorFile(u) := DesiredGenerator(w.devices[u])]), n)
  {
    JobsOfInv(w, n);
    hide Inv, IsConfigOf, DesiredGenerator, Generated, Includes;
  }

  lemma GeneratorWrittenKeepsServed(w: World, u: Uid)
    requires u in w.devices
    ensures KeepsServed(w, w.(files := w.files[GeneratorFile(u) := DesiredGenerator(w.devices[u])]))
  {
    hide IsConfigOf, DesiredGenerator, Generated, Includes;
  }

  lemma GeneratorWritten(w: World, u: Uid)
    requires Inv(w) && Held(w, u) && !w.devices[u].deleting
    ensures var next := w.(files := w.files[GeneratorFile(u) := DesiredGenerator(w.devices[u])]);
            Inv(next) && KeepsServed(w, next)
  {
    DesiredIsConfig(w.devices[u]);
    GeneratorWrittenKeepsServed(w, u);
    hide Inv, IsConfigOf, DesiredGenerator, KeepsServed, JobCurrent, JobOwned;
    var next := w.(files := w.files[GeneratorFile(u) := DesiredGenerator(w.devices[u])]);
    forall n | n in w.jobs
      ensures JobOwned(w, n) && JobCurrent(next, n)
    {
      GeneratorWrittenKeepsJob(w, u, n);
    }
    FilesChanged(w, next);
  }

  lemma JobAddedKeepsServed(w: World, u: Uid)
    requires NamesUnique(w) && u in w.devices
    ensures var d := w.devices[u]; KeepsServed(w, w.(jobs := w.jobs[d.name := Job(u, d.generation, Waiting)]))
  {
    hide IsConfigOf, DesiredGenerator, Generated, Includes;
  }

  lemma JobAdded(w: World, u: Uid)
    requires Inv(w) && Held(w, u) && !w.devices[u].deleting && w.devices[u].name !in w.jobs
    requires GeneratorFile(u) in w.files && w.files[GeneratorFile(u)] == DesiredGenerator(w.devices[u])
    ensures var d := w.devices[u];
            var next := w.(jobs := w.jobs[d.name := Job(u, d.generation, Waiting)]);
            Inv(next) && KeepsServed(w, next)
  {
    var d := w.devices[u];
    var next := w.(jobs := w.jobs[d.name := Job(u, d.generation, Waiting)]);
    JobAddedKeepsServed(w, u);
    HeldKept(w, next);
    MergedUntouched(w, next);
    hide MergedOwned, SettledExported, HeldName, Settled, Served, IsConfigOf, DesiredGenerator;
    forall n | n in next.jobs
      ensures JobOwned(next, n) && JobCurrent(next, n)
    {
      if n != d.name {
        JobsOfInv(w, n);
      }
    }
    forall q | q in next.files
      ensures FileOwned(next, q)
    {
      assert FileOwned(w, q);
    }
    DevicesKept(w, next);
  }

  lemma JobChangeKeepsServed(w: World, n: Name, job: Job)
    requires n in w.jobs && job.generation == w.jobs[n].generation
    ensures KeepsServed(w, w.(jobs := w.jobs[n := job]))
  {
    hide IsConfigOf, Includes, DesiredGenerator, Generated;
  }

  /** A job moves on without touching a file. */
  lemma JobAdvanced(w: World, n: Name, job: Job)
    requires Inv(w) && n in w.jobs
    requires job.owner == w.jobs[n].owner && job.generation == w.jobs[n].generation
    requires var next := w.(jobs := w.jobs[n := job]); JobOwned(next, n) && JobCurrent(next, n)
    ensures var next := w.(jobs := w.jobs[n := job]); Inv(next) && KeepsServed(w, next)
  {
    var next := w.(jobs := w.jobs[n := job]);
    HeldKept(w, next);
    MergedUntouched(w, next);
    forall m | m in next.jobs
      ensures JobOwned(next, m) && JobCurrent(next, m)
    {
      JobsOfInv(w, m);
    }
    hide MergedOwned, SettledExported, HeldName, Settled, IsConfigOf, Includes;
    hide DesiredGenerator, Generated, JobCurrent, JobOwned;
    assert JobsOwned(next) && JobsCurrent(next);
    JobChangeKeepsServed(w, n, job);
    hide Served;
    forall q | q in next.files
      ensures FileOwned(next, q)
    {
      assert FileOwned(w, q);
    }
    DevicesKept(w, next);
  }

  ghost function WithOutput(w: World, n: Name): World
    requires n in w.jobs && w.jobs[n].state.Running?
  {
    w.(files := w.files[SnmpFile(w.jobs[n].owner) := Generated(w.jobs[n].state.input)])
  }

  lemma OutputWrittenKeepsJob(w: World, n: Name, m: Name)
    requires Inv(w) && n in w.jobs && w.jobs[n].state.Running? && m in w.jobs
    ensures JobOwned(w, m) && JobCurrent(WithOutput(w, n), m)
  {
    JobsOfInv(w, n);
    JobsOfInv(w, m);
    hide Inv, IsConfigOf, DesiredGenerator, Generated, Includes;
    var u := w.jobs[n].owner;
    assert w.jobs[m].owner == u ==> m == n;
  }

  lemma OutputWrittenKeepsOneServed(w: World, n: Name, v: Uid)
    requires n in w.jobs && JobOwned(w, n) && JobCurrent(w, n) && w.jobs[n].state.Running?
    requires Served(w, v)
    ensures Served(WithOutput(w, n), v)
  {
    hide IsConfigOf, DesiredGenerator, Generated, Includes;
    var next := WithOutput(w, n);
    if v == w.jobs[n].owner {
      assert w.devices[v].name == n;
      assert w.jobs[n].state.input == DesiredGenerator(w.devices[v]);
      assert next.files[SnmpFile(v)] == w.files[SnmpFile(v)];
    }
  }

  lemma OutputWrittenKeepsServed(w: World, n: Name)
    requires Inv(w) && n in w.jobs && w.jobs[n].state.Running?
    ensures KeepsServed(w, WithOutput(w, n))
  {
    JobsOfInv(w, n);
    hide Inv, JobOwned, JobCurrent, Served, WithOutput;
    forall v | Served(w, v)
      ensures Served(WithOutput(w, n), v)
    {
      OutputWrittenKeepsOneServed(w, n, v);
    }
  }

  /** A running generator writes its output. */
  lemma OutputWritten(w: World, n: Name)
    requires Inv(w) && n in w.jobs && w.jobs[n].state.Running?
    ensures Inv(WithOutput(w, n)) && KeepsServed(w, WithOutput(w, n))
  {
    JobsOfInv(w, n);
    GeneratedIsConfig(n, w.jobs[n].state.input);
    OutputWrittenKeepsServed(w, n);
    hide Inv, IsConfigOf, Generated, KeepsServed, JobCurrent;
    forall m | m in w.jobs
      ensures JobOwned(w, m) && JobCurrent(WithOutput(w, n), m)
    {
      OutputWrittenKeepsJob(w, n, m);
    }
    FilesChanged(w, WithOutput(w, n));
  }

  lemma GeneratedIsConfig(name: Name, c: Content)
    requires IsConfigOf(name, c)
    ensures IsConfigOf(name, Generated(c))
  {
    assert Generated(c).modules.Keys == c.modules.Keys;
  }

  lemma JobStarted(w: World, n: Name)
    requires Inv(w) && n in w.jobs && w.jobs[n].state.Waiting?
    ensures Inv(Apply(w, JobStarts(n))) && KeepsServed(w, Apply(w, JobStarts(n)))
  {
    JobsOfInv(w, n);
    var job := StartedJob(w, n);
    if job.state.Running? {
      assert FileOwned(w, GeneratorFile(job.owner));
    }
    hide Inv, IsConfigOf;
    JobAdvanced(w, n, job);
  }

  lemma JobSucceeded(w: World, n: Name)
    requires Inv(w) && n in w.jobs && w.jobs[n].state.Running?
    ensures Inv(Apply(w, JobSucceeds(n))) && KeepsServed(w, Apply(w, JobSucceeds(n)))
  {
    JobsOfInv(w, n);
    OutputWritten(w, n);
    hide Inv, IsConfigOf, DesiredGenerator, Generated;
    var written := WithOutput(w, n);
    JobsOfInv(written, n);
    JobAdvanced(written, n, w.jobs[n].(state := Complete));
  }

  lemma JobFailed(w: World, n: Name)
    requires Inv(w) && n in w.jobs && !w.jobs[n].state.Complete?
    ensures Inv(Apply(w, JobFails(n))) && KeepsServed(w, Apply(w, JobFails(n)))
  {
    JobsOfInv(w, n);
    hide Inv, IsConfigOf, DesiredGenerator, Generated;
    JobAdvanced(w, n, w.jobs[n].(state := Failed));
  }
}
