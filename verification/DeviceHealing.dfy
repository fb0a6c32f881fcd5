/** The whole cluster converges, and what it converges to does not depend on what failed before. */
module DeviceHealing {
  import opened DeviceFiles
  import opened DeviceProtocol
  import opened DeviceInvariant
  import opened DevicePass
  import opened DeviceRuns
  import opened DeviceConvergence
  import DeviceTheorems

  lemma PassKeepsObject(w: World, v: Uid, faults: set<Effect>, u: Uid)
    requires Inv(w) && Active(w, u)
    ensures u in Reconcile(w, v, faults).devices && SameObject(Reconcile(w, v, faults).devices[u], w.devices[u])
    ensures Reconcile(w, v, faults).devices.Keys <= w.devices.Keys
  {
    hide Inv, RunPipeline;
    if v in w.devices && GetDevice !in faults {
      var s := PassShape(w, v, faults);
    }
  }

  /** A calm event leaves name, specification and generation of u alone. */
  lemma CalmKeepsObject(w: World, e: Event, u: Uid)
    requires Inv(w) && Active(w, u) && Calm(w, e, u)
    ensures u in Apply(w, e).devices && SameObject(Apply(w, e).devices[u], w.devices[u])
    ensures e.Create? || Apply(w, e).devices.Keys <= w.devices.Keys
  {
    hide Inv, Reconcile, Generated, StartedJob;
    if e.Pass? {
      PassKeepsObject(w, e.uid, e.faults, u);
    }
  }

  /* ---- What becomes of each device ---- */

  lemma {:induction false} CalmRunKeepsObject(w: World, events: seq<Event>, u: Uid)
    requires Inv(w) && Active(w, u) && CalmRun(w, events, u)
    ensures Active(RunEvents(w, events), u) && SameObject(RunEvents(w, events).devices[u], w.devices[u])
  {
    hide Inv, Apply, Calm;
    if events != [] {
      var init := events[..|events| - 1];
      CalmRunKeepsObject(w, init, u);
      RunSafe(w, init);
      CalmKeepsObject(RunEvents(w, init), events[|events| - 1], u);
    }
  }

  /** u is under deletion or gone. */
  predicate Leaving(w: World, u: Uid) {
    u in w.devices ==> w.devices[u].deleting
  }

  lemma PassKeepsLeaving(w: World, v: Uid, faults: set<Effect>, u: Uid)
    requires Inv(w) && Leaving(w, u)
    ensures Leaving(Reconcile(w, v, faults), u)
    ensures u !in w.devices ==> u !in Reconcile(w, v, faults).devices
  {
    hide Inv, RunPipeline;
    if v in w.devices && GetDevice !in faults {
      var s := PassShape(w, v, faults);
    }
  }

  /** Who is leaving does not come back. */
  lemma EventKeepsLeaving(w: World, e: Event, u: Uid)
    requires Inv(w) && Leaving(w, u) && !e.Create?
    ensures Leaving(Apply(w, e), u)
    ensures u !in w.devices ==> u !in Apply(w, e).devices
  {
    hide Inv, Reconcile, Generated, StartedJob;
    if e.Pass? {
      PassKeepsLeaving(w, e.uid, e.faults, u);
    }
  }

  lemma CleanPassReleases(w: World, u: Uid)
    requires Inv(w) && Leaving(w, u)
    ensures u !in Apply(w, Pass(u, {})).devices
  {
    hide Inv, Reconcile;
    if u in w.devices {
      DeletionCompletes(w, u);
    } else {
      EventKeepsLeaving(w, Pass(u, {}), u);
    }
  }

  /** A device under deletion stays so, and its first failure-free pass releases it. */
  lemma {:induction false} LeavingRun(w: World, events: seq<Event>, u: Uid)
    requires Inv(w) && Leaving(w, u) && forall e :: e in events ==> !e.Create?
    ensures Leaving(RunEvents(w, events), u)
    ensures u !in w.devices || Pass(u, {}) in events ==> u !in RunEvents(w, events).devices
  {
    hide Inv, Apply, Leaving;
    if events != [] {
      var init, last := events[..|events| - 1], events[|events| - 1];
      var before := RunEvents(w, init);
      LeavingRun(w, init, u);
      RunSafe(w, init);
      EventKeepsLeaving(before, last, u);
      if last == Pass(u, {}) {
        CleanPassReleases(before, u);
      }
    }
  }

  lemma FailedDeviceIsHeld(w: World, u: Uid)
    requires Inv(w) && Active(w, u) && JobFailedNow(w, u)
    ensures Held(w, u)
  {
    JobsOfInv(w, w.devices[u].name);
    hide Inv;
  }

  lemma DeviceEnds(w: World, events: seq<Event>, u: Uid)
    requires Reachable(w) && Active(w, u) && CalmRun(w, events, u) && Advances(w, events, u) >= 6
    ensures var end := RunEvents(w, events);
      && Active(end, u) && Held(end, u) && (ReadyNow(end.devices[u]) <==> !JobFailedNow(w, u))
  {
    DeviceConverges(w, events, u);
    ReachableIsSafe(w);
    hide Inv, Reachable, CalmRun, Advances, RunEvents, ReadyNow;
    if JobFailedNow(w, u) {
      StuckRun(w, events, u);
      FailedDeviceIsHeld(RunEvents(w, events), u);
    }
  }

  /* ---- The cluster ---- */

  /** Nobody creates a device; the active ones are left in peace and get six times what they wait for;
      the ones under deletion get a pass without failures. */
  ghost predicate HealingRun(w: World, events: seq<Event>) {
    && (forall e :: e in events ==> !e.Create?)
    && (forall u :: Active(w, u) ==> CalmRun(w, events, u) && Advances(w, events, u) >= 6)
    && (forall u :: u in w.devices && w.devices[u].deleting ==> Pass(u, {}) in events)
  }

  ghost predicate NoJobFailed(w: World) {
    forall u :: Active(w, u) ==> !JobFailedNow(w, u)
  }

  /** The active devices of w, and no others, are stored in end, as they were and held. */
  ghost predicate OnlyActiveHeld(w: World, end: World) {
    && (forall u :: u in end.devices <==> Active(w, u))
    && (forall u :: Active(w, u) ==> Active(end, u) && Held(end, u) && SameObject(end.devices[u], w.devices[u]))
  }

  lemma HealingRunEnds(w: World, events: seq<Event>, u: Uid)
    requires Reachable(w) && HealingRun(w, events)
    ensures u in RunEvents(w, events).devices <==> Active(w, u)
    ensures Active(w, u) ==>
      var end := RunEvents(w, events);
      && Active(end, u) && Held(end, u) && SameObject(end.devices[u], w.devices[u])
      && (ReadyNow(end.devices[u]) <==> !JobFailedNow(w, u))
  {
    hide Inv, Reachable, RunEvents, CalmRun, Advances, ReadyNow, JobFailedNow;
    ReachableIsSafe(w);
    if Active(w, u) {
      DeviceEnds(w, events, u);
      CalmRunKeepsObject(w, events, u);
    } else {
      LeavingRun(w, events, u);
    }
  }

  /** From any reachable state, whatever failed before, half-done deletions included: such a run leaves
      exactly the active devices, all of them held, and the cluster settles if and only if no active
      device's job of its present generation had failed at the start. */
  lemma ClusterConverges(w: World, events: seq<Event>)
    requires Reachable(w) && HealingRun(w, events)
    ensures OnlyActiveHeld(w, RunEvents(w, events))
    ensures Settled(RunEvents(w, events)) <==> NoJobFailed(w)
  {
    hide Inv, Reachable, RunEvents, HealingRun, ReadyNow, JobFailedNow;
    var end := RunEvents(w, events);
    forall u
      ensures u in end.devices <==> Active(w, u)
      ensures Active(w, u) ==>
        && Active(end, u) && Held(end, u) && SameObject(end.devices[u], w.devices[u])
        && (ReadyNow(end.devices[u]) <==> !JobFailedNow(w, u))
    {
      HealingRunEnds(w, events, u);
    }
    SettledExactly(w, end);
  }

  lemma SettledExactly(w: World, end: World)
    requires OnlyActiveHeld(w, end)
    requires forall u :: Active(w, u) ==> (ReadyNow(end.devices[u]) <==> !JobFailedNow(w, u))
    ensures Settled(end) <==> NoJobFailed(w)
  {
    hide JobFailedNow, ReadyNow;
    if Settled(end) {
      forall u | Active(w, u)
        ensures !JobFailedNow(w, u)
      {
        assert Held(end, u);
      }
    }
  }

  lemma {:induction false} RunsConcatenate(w: World, first: seq<Event>, rest: seq<Event>)
    ensures RunEvents(RunEvents(w, first), rest) == RunEvents(w, first + rest)
  {
    hide Apply;
    if rest == [] {
      assert first + rest == first;
    } else {
      var last := |rest| - 1;
      RunsConcatenate(w, first, rest[..last]);
      assert (first + rest)[..|first + rest| - 1] == first + rest[..last];
    }
  }

  lemma ReachableStays(w: World, events: seq<Event>)
    requires Reachable(w)
    ensures Reachable(RunEvents(w, events))
  {
    var annotation, first :| w == RunEvents(Initial(annotation), first);
    RunsConcatenate(Initial(annotation), first, events);
  }

  /** v holds exactly the active devices of w, under the same names and specifications. */
  ghost predicate HoldsTheActive(w: World, v: World) {
    forall u :: (Held(v, u) <==> Active(w, u)) &&
      (Active(w, u) ==> v.devices[u].name == w.devices[u].name && v.devices[u].spec == w.devices[u].spec)
  }

  lemma SameHeldDevices(w: World, end: World, v: World)
    requires OnlyActiveHeld(w, end) && HoldsTheActive(w, v)
    ensures DeviceTheorems.SameHeld(end, v) && DeviceTheorems.SameHeld(v, end)
  {
  }

  /** Self-healing of the cluster: such a run ends with the very files and the very exporter annotation
      of every settled cluster that holds the same active devices, one in which nothing ever failed and
      nothing was ever deleted included. */
  lemma ClusterHeals(w: World, events: seq<Event>, v: World, u: Uid)
    requires Reachable(w) && HealingRun(w, events) && NoJobFailed(w) && Active(w, u)
    requires Reachable(v) && Settled(v) && HoldsTheActive(w, v)
    ensures RunEvents(w, events).files == v.files && RunEvents(w, events).annotation == v.annotation
  {
    hide Reachable, RunEvents, HealingRun, NoJobFailed, Settled, Active, HoldsTheActive, DeviceTheorems.SameHeld;
    var end := RunEvents(w, events);
    ClusterConverges(w, events);
    ReachableStays(w, events);
    SameHeldDevices(w, end, v);
    HealedIsHeld(w, end, u);
    DeviceTheorems.SettledIsCanonical(end, v, u);
  }

  lemma HealedIsHeld(w: World, end: World, u: Uid)
    requires OnlyActiveHeld(w, end) && Active(w, u)
    ensures Held(end, u)
  {
  }
}
