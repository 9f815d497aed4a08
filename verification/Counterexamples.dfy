/** Runs that show the hypotheses of the run theorems are needed. Each is a concrete initial
    object and environment, traced cycle by cycle. */
module Counterexamples {
  import opened Text
  import opened Names
  import opened ServicePorts
  import opened Config
  import opened Builder
  import opened Status
  import opened StatusCompare
  import opened PauseResume
  import opened Api
  import opened Cycle
  import opened CycleFacts
  import opened BuildFacts
  import opened Reconciler
  import opened Effects
  import opened Runs
  import opened Readiness
  import opened FastPathSoundness
  import opened NothingDropped
  import opened SuspendRuns
  import opened ObjectIdentity
  import opened Outcomes
  import opened Restarts
  import opened Quiescence
  import Apply
  import Health

  // ----- an application of one component -----

  function Sized(replicas: int): RuntimeConfig {
    RuntimeConfig(
      Some(replicas), Some(Image("runtime", "1")), [PortSpec("http", 80, "TCP", None, 0)], false,
      Some(Storage(true, true, "data", "/data", None)), [], [], map[], None, None)
  }

  function Demo(kind: string, replicas: int, suspend: bool): Spec {
    Spec([Component("a", "apps/v1", kind, Parsed(Sized(replicas)))], Some(suspend))
  }

  /** As its user creates it, with the controller's finalizer already in place. */
  function Created(spec: Spec): App {
    App("app", "default", 1, 1, false, [FINALIZER], "change-1", "https://hook", spec, EMPTY_STATUS)
  }

  function Initially(spec: Spec): World {
    World(Some(Created(spec)), 0, 0, [], None, [], [], map[])
  }

  const HEALTHY := Health.StatefulSetView(1, 1, Some(3), 3, 3, 3, None)

  /** Edits before the given calls, failing calls, and calls whose StatefulSet applies are refused. */
  function Scenario(edits: map<nat, seq<Edit>>, faults: set<nat>, refused: set<nat>): Environment {
    (k: nat) => Oracle(
      if k in edits then edits[k] else [], k in faults, 0, [], (p: string) => false,
      (id: Identity) => None, (id: Identity) => None,
      (id: Identity) => Apply.Script(
        if k in refused && id.kind == StatefulSet then Apply.CreateError(Error(ApplyAnswer, "quota", false))
        else Apply.WasCreated,
        (n: nat) => Apply.Fine),
      (n: string) => Health.Found(HEALTHY, true, ""), [])
  }

  lemma DemoInitialize(kind: string, replicas: int, suspend: bool)
    ensures Initialize(Demo(kind, replicas, suspend)) == (map["a" := Fresh("a")], None)
  {
    var cs := Demo(kind, replicas, suspend).components;
    assert InitFrom(cs, 1, map["a" := Fresh("a")]) == (map["a" := Fresh("a")], None);
  }

  lemma DemoName()
    ensures DeriveResourceName("a") == "a"
  {
    ResourceNameFixedPoints("a");
  }

  lemma DemoBuilds(app: App, kind: string, replicas: int, suspend: bool)
    requires app.namespace == "default" && app.spec == Demo(kind, replicas, suspend)
    ensures Builds(app.spec, app)
  {
    hide DeriveResourceName;
    DemoInitialize(kind, replicas, suspend);
    DemoName();
    var c := app.spec.components[0];
    assert |HeadlessName("a")| > 0;
    assert Identities(c, c.properties.config) == [Identity(StatefulSet, "a"), Identity(Service, HeadlessName("a"))];
    assert Buildable("default", c);
  }

  /** What builds has names. */
  lemma DesiredNameable(app: App, ans: Oracle, o: Obj)
    requires Builds(app.spec, app) && o in DesiredObjects(app.spec, app, ans)
    ensures Nameable(o)
  {
    hide BuildFrom, PauseFrom, Initialize, Identities, DesiredObjects;
    DistinctKeysIffCompatible(app.spec, app, ans);
    var j :| 0 <= j < |app.spec.components| && Owned(o, app, j);
    assert Buildable(app.namespace, app.spec.components[j]);
  }

  /** Every object of the demo application can be applied, unless StatefulSets are refused. */
  lemma DemoApplies(app: App, kind: string, replicas: int, suspend: bool, edits: map<nat, seq<Edit>>, faults: set<nat>,
                    refused: set<nat>, k: nat)
    requires app.namespace == "default" && app.spec == Demo(kind, replicas, suspend)
    ensures var ans := Scenario(edits, faults, refused)(k);
            forall o :: o in DesiredObjects(app.spec, app, ans) ==>
              (Applies(o, ans) <==> !(k in refused && o.kind == StatefulSet))
  {
    hide DesiredObjects, Initialize, Builds;
    DemoBuilds(app, kind, replicas, suspend);
    var ans := Scenario(edits, faults, refused)(k);
    forall o | o in DesiredObjects(app.spec, app, ans) ensures Nameable(o) {
      DesiredNameable(app, ans, o);
    }
  }

  lemma DemoHealthy(app: App, replicas: int, suspend: bool, edits: map<nat, seq<Edit>>, faults: set<nat>,
                    refused: set<nat>, k: nat)
    requires app.spec == Demo("StatefulSet", replicas, suspend)
    ensures AllHealthy(app.spec, app, Scenario(edits, faults, refused)(k))
  {
    DemoInitialize("StatefulSet", replicas, suspend);
    assert app.spec.components[0].name == "a";
    assert Health.CheckStatefulSet(HEALTHY) == Health.Available;
  }

  lemma DemoSteady(app: App, kind: string, replicas: int, suspend: bool)
    requires app.spec == Demo(kind, replicas, suspend) && !app.deleting && app.finalizers == [FINALIZER]
    requires app.status.phase != Unset && app.status.phase != Pending
    ensures Steady(app)
  {
    DemoInitialize(kind, replicas, suspend);
  }

  /** The first cycle of every scenario stores the initial phase. */
  function StartedApp(spec: Spec): App {
    Created(spec).(rv := 2, status := StartedStatus(EMPTY_STATUS))
  }

  lemma FirstCycle(env: Environment, spec: Spec)
    requires Undisturbed(env, 0) && Undisturbed(env, 1) && Initialize(spec).1.None? && spec.components != []
    ensures IsInitial(Initially(spec))
    ensures var (w1, out) := Reconcile(env, Initially(spec), WATCHED);
            out == Requeue && w1.store == Some(StartedApp(spec)) && w1.tick == 2 && w1.cluster == map[]
  {
    hide Initialize, Act, UpdateStatusIfNeeded, ClaimFrom, Finalize, SetCondition;
    var app := Created(spec);
    var w := Initially(spec);
    assert Get(env, w) == (w.(tick := 1), Got(app));
    var started := app.(status := StartedStatus(app.status));
    var (w1, r) := UpdateStatus(env, w.(tick := 1), started, Started);
    assert r == Accepted(StartedApp(spec));
    assert HandleFinalizer(env, w.(tick := 1), app) == (w.(tick := 1), Continue(app));
  }

  // ----- a status stamped with a generation it was not computed from -----

  /** An edit between the cycle's read and its status write: the write meets a conflict, is
      repeated on the edited object and carries that object's generation. */
  lemma ConflictingWriteBack(env: Environment, w: World, app: App, edited: App, r: Result, cause: Cause)
    requires w.store == Some(app) && !env(w.tick).fault && ApplyEdits(env(w.tick).edits, w.store) == Some(edited)
    requires edited.rv != app.rv && Undisturbed(env, w.tick + 1) && Undisturbed(env, w.tick + 2) && !Suppressed(app, r)
    ensures var (w', e) := UpdateStatusIfNeeded(env, w, app, r.status, app.status, cause);
            var stored := Changed(edited, Stamp(edited, r.status));
            && e.None? && w'.store == Some(stored) && w'.last == Some(Write(edited, stored, cause))
            && w'.tick == w.tick + 3 && w'.cluster == w.cluster
  {
    hide SameStatus;
    var stamped := Stamp(app, r.status);
    assert Stamp(app, stamped.status) == stamped && Stamp(edited, stamped.status) == Stamp(edited, r.status);
    var (w1, c) := UpdateStatus(env, w, stamped, cause);
    assert c == Conflict;
    var (w2, g) := Get(env, w1);
    assert g == Got(edited);
    var again := Stamp(edited, r.status);
    assert UpdateStatus(env, w2, again, cause).1 == Accepted(Changed(edited, again));
    assert StatusFrom(env, w, stamped, stamped.status, cause, 0)
           == StatusFrom(env, w2, again, stamped.status, cause, 1);
  }

  const BEFORE := Demo("StatefulSet", 3, false)
  const AFTER := Demo("StatefulSet", 5, false)

  const STALE := Scenario(map[3 := [Put(AFTER, "change-1", "https://hook", [FINALIZER])]], {}, {})

  /** The object as the user's edit leaves it in the middle of the second cycle. */
  const EDITED := StartedApp(BEFORE).(rv := 3, generation := 2, spec := AFTER)

  lemma DemoReady(app: App, replicas: int, edits: map<nat, seq<Edit>>, k: nat)
    requires app.namespace == "default" && app.spec == Demo("StatefulSet", replicas, false)
             && app.changeID == "change-1"
    ensures var r := Process(app.spec, app, Scenario(edits, {}, {})(k));
            !r.panicked && r.status.phase == Running && r.status.lastChangeID == "change-1"
  {
    hide Process, Initialize, DesiredObjects, AllHealthy, Builds, Applies, Scenario;
    var ans := Scenario(edits, {}, {})(k);
    DemoInitialize("StatefulSet", replicas, false);
    DemoBuilds(app, "StatefulSet", replicas, false);
    DemoApplies(app, "StatefulSet", replicas, false, edits, {}, {}, k);
    DemoHealthy(app, replicas, false, edits, {}, {}, k);
    NeverPanics(app, ans);
    RunningIff(app.spec, app, ans);
    RunningReady(app, ans);
    ProcessFacts(app.spec, app, ans);
  }

  lemma RunningReady(app: App, ans: Oracle)
    requires Initialize(app.spec).1.None? && !Process(app.spec, app, ans).panicked
    requires Builds(app.spec, app) && AllApply(DesiredObjects(app.spec, app, ans), ans)
             && AllHealthy(app.spec, app, ans)
    ensures var r := Process(app.spec, app, ans); r.ready && r.error.None?
  {
    hide BuildFrom, PauseFrom, ApplyAll, CheckAll, MarkAll, SliceOf, Initialize, FinalPhase, AllBuild, AllHealthy,
         Applies;
    BuildAllFacts(app, Initialize(app.spec).0, ans.now);
    CheckedReady(app.spec, app, ans);
  }

  /** The second cycle works on BEFORE and stores Running with AFTER's generation. */
  lemma StaleSecondCycle(w: World)
    requires w.store == Some(StartedApp(BEFORE)) && w.tick == 2
    ensures var w' := Reconcile(STALE, w, WATCHED).0;
            && w'.store.Some? && w'.last.Some? && w'.tick == 6
            && w'.last.value.before == EDITED && w'.last.value.cause.Processed?
            && w'.last.value.cause.app == StartedApp(BEFORE)
            && w'.store.value.spec == AFTER && w'.store.value.finalizers == [FINALIZER] && !w'.store.value.deleting
            && FastPath(w'.store.value)
  {
    hide Reconcile, Process, Initialize, SetCondition, Emissions, Deployed, Suppressed, UpdateStatusIfNeeded;
    var app := StartedApp(BEFORE);
    DemoSteady(app, "StatefulSet", 3, false);
    SteadyRead(STALE, w, app);
    var w1 := AfterRead(w, app);
    var ans := STALE(3);
    DemoReady(app, 3, map[3 := [Put(AFTER, "change-1", "https://hook", [FINALIZER])]], 3);
    var r := Process(app.spec, app, ans);
    RunningIsNew(app, r);
    var w2 := w1.(events := w1.events + Emissions(app, r.events), cluster := Deployed(w1.cluster, r.applied));
    StaleEdit();
    ConflictingWriteBack(STALE, w2, app, EDITED, r, Processed(app.spec, app, ans));
    var u := UpdateStatusIfNeeded(STALE, w2, app, r.status, app.status, Processed(app.spec, app, ans));
    assert Act(STALE, w1, app.spec, app.status, app).0 == u.0;
  }

  lemma StaleEdit()
    ensures ApplyEdits(STALE(3).edits, Some(StartedApp(BEFORE))) == Some(EDITED)
  {
    hide SetCondition;
    var e := Put(AFTER, "change-1", "https://hook", [FINALIZER]);
    assert STALE(3).edits == [e];
    assert BEFORE.components[0].properties.config.replicas != AFTER.components[0].properties.config.replicas;
    assert ApplyEdit(e, StartedApp(BEFORE)) == Some(EDITED);
    assert [e][1..] == [];
  }

  lemma RunningIsNew(app: App, r: Result)
    requires app.status.phase != Running && r.status.phase == Running
    ensures !Suppressed(app, r)
  {
  }

  /** The fast path can skip a specification that was never processed: three replicas were
      applied, five are asked for, and the third call does nothing and asks for nothing. */
  lemma StaleStampSkipsSpecification()
    ensures IsInitial(Initially(BEFORE)) && BEFORE != AFTER
    ensures var w := Run(STALE, Initially(BEFORE), 2);
            && w.store.Some? && w.store.value.spec == AFTER && FastPath(w.store.value)
            && w.last.Some? && w.last.value.cause.Processed? && w.last.value.cause.app.spec == BEFORE
            && !Honest(w.last.value)
            && Reconcile(STALE, w, WATCHED) == (w.(tick := w.tick + 1), Done)
  {
    hide Reconcile, Initialize, SetCondition;
    DemoInitialize("StatefulSet", 3, false);
    FirstCycle(STALE, BEFORE);
    assert Run(STALE, Initially(BEFORE), 0) == Initially(BEFORE);
    assert Run(STALE, Initially(BEFORE), 1) == Reconcile(STALE, Initially(BEFORE), WATCHED).0;
    StaleSecondCycle(Run(STALE, Initially(BEFORE), 1));
    var w := Run(STALE, Initially(BEFORE), 2);
    var app := w.store.value;
    DemoSteady(app, "StatefulSet", 5, false);
    SteadyRead(STALE, w, app);
    assert BEFORE.components[0].properties.config.replicas != AFTER.components[0].properties.config.replicas;
  }

  // ----- what a cycle of the demo application deploys -----

  lemma CleanApplies(first: Spec, app: App, ans: Oracle)
    requires Builds(first, app) && AllApply(DesiredObjects(first, app, ans), ans)
    ensures Process(first, app, ans).applied == DesiredObjects(first, app, ans)
  {
    hide BuildFrom, PauseFrom, ApplyFrom, CheckAll, MarkAll, SliceOf, Initialize, ReasonFor, Render, SetCondition,
         AllBuild, Applies, FinalPhase;
    var b := BuildAll(app, Initialize(first).0, ans.now);
    BuildAllFacts(app, Initialize(first).0, ans.now);
    ApplyAllClean(DesiredObjects(first, app, ans), b.statuses, ans);
  }

  lemma {:induction false} DeployedNone(cluster: map<string, int>, applied: seq<Obj>)
    requires forall o :: o in applied ==> !IsWorkload(o)
    ensures Deployed(cluster, applied) == cluster
  {
    if applied != [] {
      DeployedNone(cluster, applied[..|applied| - 1]);
    }
  }

  lemma {:induction false} DeployedAll(cluster: map<string, int>, applied: seq<Obj>, n: string, v: int)
    requires forall o :: o in applied && IsWorkload(o) ==> o.name == n && o.body.replicas == v
    ensures (exists o :: o in applied && IsWorkload(o)) ==>
              n in Deployed(cluster, applied) && Deployed(cluster, applied)[n] == v
  {
    if applied != [] {
      var front, last := applied[..|applied| - 1], applied[|applied| - 1];
      assert applied == front + [last];
      DeployedAll(cluster, front, n, v);
    }
  }

  lemma DemoHasWorkload(app: App, kind: string, replicas: int, suspend: bool, ans: Oracle)
    requires app.namespace == "default" && app.spec == Demo(kind, replicas, suspend)
    ensures var objs := DesiredObjects(app.spec, app, ans);
            && (exists o :: o in objs && IsWorkload(o))
            && forall o :: o in objs && IsWorkload(o) ==> o.name == "a" && o.instance == "a"
  {
    hide DeriveResourceName, BuildFrom, PauseFrom, Initialize, IsWorkload, AllBuild;
    DemoBuilds(app, kind, replicas, suspend);
    DemoInitialize(kind, replicas, suspend);
    DistinctKeysIffCompatible(app.spec, app, ans);
    var b := BuildAll(app, Initialize(app.spec).0, ans.now);
    BuildAllFacts(app, Initialize(app.spec).0, ans.now);
    BuildAllWorkloads(app, Initialize(app.spec).0, ans.now);
    PauseKeepsObjects(b.objects, 0, WantsSuspend(app.spec), app.status.suspendedReplicas);
    var objs := DesiredObjects(app.spec, app, ans);
    var ws := Workloads(b.objects);
    assert ws[0] in ws && WorkloadOf(ws[0], app.spec.components[0]);
    WorkloadsMembers(b.objects, ws[0]);
    var k :| 0 <= k < |b.objects| && b.objects[k] == ws[0];
    assert objs[k] in objs && IsWorkload(objs[k]);
    forall o | o in objs && IsWorkload(o) ensures o.name == "a" && o.instance == "a" {
      var j :| 0 <= j < |app.spec.components| && Owned(o, app, j);
      DemoWorkloadNamed(o, app.spec.components[0], replicas);
    }
  }

  lemma DemoWorkloadNamed(o: Obj, c: Component, replicas: int)
    requires c.name == "a" && c.properties.Parsed? && c.properties.config == Sized(replicas)
    requires KeyOf(o) in Identities(c, c.properties.config) && IsWorkload(o)
    ensures o.name == "a"
  {
    hide DeriveResourceName, HeadlessName;
    DemoName();
  }

  /** A cycle that applies everything while not suspended deploys the recorded or specified count. */
  lemma DemoDeploys(app: App, replicas: int, ans: Oracle, cluster: map<string, int>)
    requires app.namespace == "default" && app.spec == Demo("StatefulSet", replicas, false)
    requires AllApply(DesiredObjects(app.spec, app, ans), ans)
    requires "a" in app.status.suspendedReplicas ==> app.status.suspendedReplicas["a"] == replicas
    ensures var d := Deployed(cluster, Process(app.spec, app, ans).applied); "a" in d && d["a"] == replicas
  {
    hide Process, DesiredObjects, Initialize, Builds, Applies, Specifies;
    DemoBuilds(app, "StatefulSet", replicas, false);
    DemoInitialize("StatefulSet", replicas, false);
    DemoHasWorkload(app, "StatefulSet", replicas, false, ans);
    ResumingCycle(app.spec, app, ans);
    CleanApplies(app.spec, app, ans);
    var objs := DesiredObjects(app.spec, app, ans);
    forall o | o in objs && IsWorkload(o) ensures o.body.replicas == replicas {
      DemoSpecifies(app.spec, replicas, false);
    }
    DeployedAll(cluster, objs, "a", replicas);
  }

  lemma DemoSpecifies(spec: Spec, replicas: int, suspend: bool)
    requires spec == Demo("StatefulSet", replicas, suspend)
    ensures forall n, v :: Specifies(spec, n, v) ==> v == replicas
  {
  }

  // ----- suspended in name only: an apply error -----

  const SUSPEND := Put(Demo("StatefulSet", 3, true), "change-1", "https://hook", [FINALIZER])

  const REFUSING := Scenario(map[4 := [SUSPEND]], {}, {5})

  /** The third cycle is to suspend, but the StatefulSet cannot be applied. */
  lemma RefusedSuspension(app: App, cluster: map<string, int>)
    requires app.namespace == "default" && app.spec == Demo("StatefulSet", 3, true)
    ensures var r := Process(app.spec, app, REFUSING(5));
            !r.panicked && r.status.phase == Suspended && Deployed(cluster, r.applied) == cluster
  {
    hide DesiredObjects, Initialize, Builds, Applies, BuildAll, Paused, ApplyFrom, Checked, MarkAll, SliceOf,
         FinalPhase, SetCondition;
    var ans := REFUSING(5);
    DemoBuilds(app, "StatefulSet", 3, true);
    DemoInitialize("StatefulSet", 3, true);
    SuspendingCycle(app.spec, app, ans);
    DemoApplies(app, "StatefulSet", 3, true, map[4 := [SUSPEND]], {}, {5}, 5);
    var r := Process(app.spec, app, ans);
    forall o | o in r.applied ensures !IsWorkload(o) {
      AppliedOf(app.spec, app, ans, o);
      assert AppliedFrom(o, DesiredObjects(app.spec, app, ans), 0, ans);
    }
    DeployedNone(cluster, r.applied);
  }

  /** A cycle that reads a steady object, works on it and stores its status undisturbed. */
  lemma WorkedCycle(env: Environment, w: World, app: App)
    requires ApplyEdits(env(w.tick).edits, w.store) == Some(app) && !env(w.tick).fault && Undisturbed(env, w.tick + 1)
    requires Steady(app) && !SkipsSuspended(app) && !FastPath(app)
    requires Process(app.spec, app, env(w.tick + 1)).status.phase != app.status.phase
             || app.status.observedGeneration != app.generation
    ensures var w' := Reconcile(env, w, WATCHED).0;
            var r := Process(app.spec, app, env(w.tick + 1));
            && w'.store == Some(Changed(app, Stamp(app, r.status))) && w'.tick == w.tick + 2
            && w'.cluster == Deployed(w.cluster, r.applied)
            && |w'.writes| == |w.writes| + 1
            && w'.last == Some(Write(app, w'.store.value, Processed(app.spec, app, env(w.tick + 1))))
  {
    hide Reconcile, Process, Act, Initialize, ApplyEdits;
    SteadyRead(env, w, app);
    CalmAct(env, AfterRead(w, app), app);
    PhaseIsCompared(app, Process(app.spec, app, env(w.tick + 1)));
  }

  lemma PhaseIsCompared(app: App, r: Result)
    requires app.status.phase != r.status.phase || app.status.observedGeneration != app.generation
    ensures !Suppressed(app, r)
  {
  }

  lemma PutOnce(env: Environment, t: nat, e: Edit, a: App, b: App)
    requires env(t).edits == [e] && ApplyEdit(e, a) == Some(b)
    ensures ApplyEdits(env(t).edits, Some(a)) == Some(b)
  {
    assert [e][1..] == [];
  }

  lemma NothingPut(env: Environment, t: nat, a: App)
    requires env(t).edits == []
    ensures ApplyEdits(env(t).edits, Some(a)) == Some(a)
  {
  }

  /** The status of an application that suspends says so, and every later call skips it, although
      its three replicas are still deployed: the apply error was reported once and forgotten. */
  lemma SuspendedInNameOnly()
    ensures IsInitial(Initially(BEFORE))
    ensures var w := Run(REFUSING, Initially(BEFORE), 3);
            && w.store.Some? && w.store.value.status.phase == Suspended && WantsSuspend(w.store.value.spec)
            && "a" in w.cluster && w.cluster["a"] == 3
            && Reconcile(REFUSING, w, WATCHED) == (w.(tick := w.tick + 1), Done)
  {
    hide Reconcile, Initialize, SetCondition, Process, Deployed;
    var w0 := Initially(BEFORE);
    DemoInitialize("StatefulSet", 3, false);
    FirstCycle(REFUSING, BEFORE);
    assert Run(REFUSING, w0, 0) == w0;
    var w1 := Run(REFUSING, w0, 1);
    assert w1 == Reconcile(REFUSING, w0, WATCHED).0;
    var app := StartedApp(BEFORE);
    RefusingSecond(w1);
    var w2 := Run(REFUSING, w0, 2);
    assert w2 == Reconcile(REFUSING, w1, WATCHED).0;
    RefusingThird(w2, w2.store.value);
    var w3 := Run(REFUSING, w0, 3);
    assert w3 == Reconcile(REFUSING, w2, WATCHED).0;
    DemoSteady(w3.store.value, "StatefulSet", 3, true);
    NothingPut(REFUSING, 6, w3.store.value);
    SteadyRead(REFUSING, w3, w3.store.value);
  }

  lemma RefusingSecond(w: World)
    requires w.store == Some(StartedApp(BEFORE)) && w.tick == 2
    ensures var w' := Reconcile(REFUSING, w, WATCHED).0;
            && w'.tick == 4 && "a" in w'.cluster && w'.cluster["a"] == 3
            && w'.store.Some? && var app := w'.store.value;
            && app == StartedApp(BEFORE).(rv := 3, status := app.status)
            && app.status.phase == Running && app.status.observedGeneration == 1
  {
    hide Reconcile, Initialize, SetCondition, Process, Deployed, Applies, DesiredObjects;
    var app := StartedApp(BEFORE);
    var edits := map[4 := [SUSPEND]];
    DemoSteady(app, "StatefulSet", 3, false);
    DemoApplies(app, "StatefulSet", 3, false, edits, {}, {5}, 3);
    DemoHealthy(app, 3, false, edits, {}, {5}, 3);
    DemoBuilds(app, "StatefulSet", 3, false);
    NeverPanics(app, REFUSING(3));
    RunningIff(app.spec, app, REFUSING(3));
    DemoDeploys(app, 3, REFUSING(3), w.cluster);
    NothingPut(REFUSING, 2, app);
    WorkedCycle(REFUSING, w, app);
  }

  lemma RefusingThird(w: World, app: App)
    requires w.store == Some(app) && w.tick == 4 && app == StartedApp(BEFORE).(rv := 3, status := app.status)
    requires app.status.phase == Running && app.status.observedGeneration == 1
    ensures var w' := Reconcile(REFUSING, w, WATCHED).0;
            && w'.tick == 6 && w'.cluster == w.cluster
            && w'.store.Some? && var stored := w'.store.value;
            && stored.spec == Demo("StatefulSet", 3, true) && stored.status.phase == Suspended
            && !stored.deleting && stored.finalizers == [FINALIZER]
  {
    hide Reconcile, Initialize, SetCondition, Process, Deployed;
    var edited := app.(rv := 4, generation := 2, spec := Demo("StatefulSet", 3, true));
    assert BEFORE != Demo("StatefulSet", 3, true) by { assert BEFORE.suspend != Demo("StatefulSet", 3, true).suspend; }
    PutOnce(REFUSING, 4, SUSPEND, app, edited);
    DemoSteady(edited, "StatefulSet", 3, true);
    RefusedSuspension(edited, w.cluster);
    WorkedCycle(REFUSING, w, edited);
  }

  // ----- suspended in name only: a lost status write -----

  const ASLEEP := Demo("StatefulSet", 3, true)

  const RESUME := Put(BEFORE, "change-1", "https://hook", [FINALIZER])

  /** Resumed before call 4, the status write of that cycle (call 5) fails, suspended again before call 6. */
  const LOSING := Scenario(map[4 := [RESUME], 6 := [SUSPEND]], {5}, {})

  lemma LosingSecond(w: World)
    requires w.store == Some(StartedApp(ASLEEP)) && w.tick == 2
    ensures var w' := Reconcile(LOSING, w, WATCHED).0;
            && w'.tick == 4
            && w'.store.Some? && var app := w'.store.value;
            && app == StartedApp(ASLEEP).(rv := 3, status := app.status)
            && app.status.phase == Suspended && app.status.observedGeneration == 1
            && "a" in app.status.suspendedReplicas && app.status.suspendedReplicas["a"] == 3
  {
    hide Reconcile, Initialize, SetCondition, Process, Deployed, Applies, DesiredObjects, Specifies;
    var app := StartedApp(ASLEEP);
    DemoSteady(app, "StatefulSet", 3, true);
    DemoBuilds(app, "StatefulSet", 3, true);
    DemoInitialize("StatefulSet", 3, true);
    SuspendingCycle(app.spec, app, LOSING(3));
    assert app.spec.components[0].name == "a";
    assert "a" in ComponentNames(app.spec.components);
    DemoSpecifies(app.spec, 3, true);
    NothingPut(LOSING, 2, app);
    WorkedCycle(LOSING, w, app);
  }

  /** The resuming cycle deploys the recorded count, and its status is lost. */
  lemma LosingThird(w: World, app: App)
    requires w.store == Some(app) && w.tick == 4 && app == StartedApp(ASLEEP).(rv := 3, status := app.status)
    requires app.status.phase == Suspended && app.status.observedGeneration == 1
    requires "a" in app.status.suspendedReplicas && app.status.suspendedReplicas["a"] == 3
    ensures var w' := Reconcile(LOSING, w, WATCHED).0;
            && w'.tick == 6 && "a" in w'.cluster && w'.cluster["a"] == 3
            && w'.store == Some(app.(rv := 4, generation := 2, spec := BEFORE))
  {
    hide Reconcile, Initialize, SetCondition, Process, Deployed, Emissions, UpdateStatusIfNeeded, Applies,
         DesiredObjects, Suppressed;
    var edited := app.(rv := 4, generation := 2, spec := BEFORE);
    assert ASLEEP != BEFORE by { assert ASLEEP.suspend != BEFORE.suspend; }
    PutOnce(LOSING, 4, RESUME, app, edited);
    DemoSteady(edited, "StatefulSet", 3, false);
    SteadyRead(LOSING, w, edited);
    var w1, ans := AfterRead(w, edited), LOSING(5);
    DemoApplies(edited, "StatefulSet", 3, false, map[4 := [RESUME], 6 := [SUSPEND]], {5}, {}, 5);
    DemoDeploys(edited, 3, ans, w.cluster);
    DemoInitialize("StatefulSet", 3, false);
    NeverPanics(edited, ans);
    var r := Process(edited.spec, edited, ans);
    AwakeIsNew(edited, ans);
    var w2 := w1.(events := w1.events + Emissions(edited, r.events), cluster := Deployed(w1.cluster, r.applied));
    RefusedWriteBack(LOSING, w2, edited, r, Processed(edited.spec, edited, ans));
    var u := UpdateStatusIfNeeded(LOSING, w2, edited, r.status, edited.status, Processed(edited.spec, edited, ans));
    assert Act(LOSING, w1, edited.spec, edited.status, edited).0 == u.0;
  }

  lemma AwakeIsNew(app: App, ans: Oracle)
    requires Initialize(app.spec).1.None? && app.status.phase == Suspended && !WantsSuspend(app.spec)
    ensures !Suppressed(app, Process(app.spec, app, ans))
  {
    hide Process, Initialize;
    NeverPanics(app, ans);
    CarriedOver(app.spec, app, ans);
    PhaseIsCompared(app, Process(app.spec, app, ans));
  }

  lemma RefusedWriteBack(env: Environment, w: World, app: App, r: Result, cause: Cause)
    requires w.store == Some(app) && env(w.tick).fault && env(w.tick).edits == [] && !Suppressed(app, r)
    ensures var w' := UpdateStatusIfNeeded(env, w, app, r.status, app.status, cause).0;
            w'.store == Some(app) && w'.tick == w.tick + 1 && w'.cluster == w.cluster
  {
    hide SameStatus;
    var stamped := Stamp(app, r.status);
    assert UpdateStatus(env, w, stamped, cause).1.Refused?;
  }

  /** One lost status write while resuming, then suspended again: the phase still says Suspended
      from the first time, so the application is skipped with its three replicas running. */
  lemma LostResumeLeavesReplicas()
    ensures IsInitial(Initially(ASLEEP))
    ensures var w := Run(LOSING, Initially(ASLEEP), 3);
            && "a" in w.cluster && w.cluster["a"] == 3 && w.store.Some?
            && var (w', out) := Reconcile(LOSING, w, WATCHED);
               && out == Done && w'.cluster == w.cluster
               && w'.store.Some? && w'.store.value.status.phase == Suspended && WantsSuspend(w'.store.value.spec)
  {
    hide Reconcile, Initialize, SetCondition, Process, Deployed;
    var w0 := Initially(ASLEEP);
    DemoInitialize("StatefulSet", 3, true);
    FirstCycle(LOSING, ASLEEP);
    assert Run(LOSING, w0, 0) == w0;
    var w1 := Run(LOSING, w0, 1);
    assert w1 == Reconcile(LOSING, w0, WATCHED).0;
    LosingSecond(w1);
    var w2 := Run(LOSING, w0, 2);
    assert w2 == Reconcile(LOSING, w1, WATCHED).0;
    LosingThird(w2, w2.store.value);
    var w3 := Run(LOSING, w0, 3);
    assert w3 == Reconcile(LOSING, w2, WATCHED).0;
    var app := w3.store.value;
    var edited := app.(rv := 5, generation := 3, spec := ASLEEP);
    assert ASLEEP != BEFORE by { assert ASLEEP.suspend != BEFORE.suspend; }
    PutOnce(LOSING, 6, SUSPEND, app, edited);
    DemoSteady(edited, "StatefulSet", 3, true);
    SteadyRead(LOSING, w3, edited);
  }

  // ----- stuck: component 0 names no kind -----

  const NAMELESS := Demo("", 3, false)

  const QUIET := Scenario(map[], {}, {})

  lemma NamelessProcess(app: App)
    requires app.namespace == "default" && app.spec == NAMELESS
    ensures var r := Process(app.spec, app, QUIET(3));
            !r.panicked && r.error.None? && !r.requeue && !r.buildFailed && r.status.phase != Running
            && r.status.phase != Suspended
  {
    hide Process, Initialize, DesiredObjects, Builds, Applies;
    var ans := QUIET(3);
    DemoInitialize("", 3, false);
    DemoBuilds(app, "", 3, false);
    DemoApplies(app, "", 3, false, map[], {}, {}, 3);
    NeverPanics(app, ans);
    NamelessCalm(app, ans);
    CalmProcess(app.spec, app, ans);
  }

  lemma NamelessCalm(app: App, ans: Oracle)
    requires app.spec == NAMELESS && Builds(app.spec, app) && AllApply(DesiredObjects(app.spec, app, ans), ans)
    requires Initialize(app.spec) == (map["a" := Fresh("a")], None)
    ensures var r := Process(app.spec, app, ans); r.error.None? && !r.requeue && !r.buildFailed
  {
    hide Initialize, BuildFrom, PauseFrom, ApplyAll, CheckAll, MarkAll, SliceOf, FinalPhase, AllBuild, Applies,
         DesiredObjects, Builds, BuildAll;
    BuildsNotStopped(app, ans);
    CleanEntries(app.spec, app, ans);
    var a := ApplyAll(DesiredObjects(app.spec, app, ans), BuildAll(app, Initialize(app.spec).0, ans.now).statuses, ans);
    CheckAllReady(app, a.statuses, ans);
    CheckAllErrors(app, a.statuses, ans);
    assert app.spec.components[0].name == "a";
    forall n | n in a.statuses
      ensures CheckOne(app, n, a.statuses[n], ans).error.None? && !CheckOne(app, n, a.statuses[n], ans).requeue
    {
      assert n == "a";
    }
    PausedIsDesired(app, ans);
  }

  lemma BuildsNotStopped(app: App, ans: Oracle)
    requires Builds(app.spec, app)
    ensures !Stopped(BuildAll(app, Initialize(app.spec).0, ans.now))
  {
    hide Initialize;
    BuildAllFacts(app, Initialize(app.spec).0, ans.now);
  }

  lemma PausedIsDesired(app: App, ans: Oracle)
    ensures Paused(app, BuildAll(app, Initialize(app.spec).0, ans.now)).0 == DesiredObjects(app.spec, app, ans)
  {
    hide Initialize, BuildAll, Paused;
  }

  /** A specification the API accepts, with an empty kind: the second call ends without error and
      without asking to be called again, and the application is neither running nor suspended. */
  lemma StuckWithoutKind()
    ensures IsInitial(Initially(NAMELESS))
    ensures var (w, out) := Reconcile(QUIET, Run(QUIET, Initially(NAMELESS), 1), WATCHED);
            && out == Done && w.store.Some? && !w.store.value.deleting
            && w.store.value.status.phase != Running && w.store.value.status.phase != Suspended
  {
    hide Reconcile, Initialize, SetCondition, Process, Act;
    var w0 := Initially(NAMELESS);
    DemoInitialize("", 3, false);
    FirstCycle(QUIET, NAMELESS);
    assert Run(QUIET, w0, 0) == w0;
    var w1 := Run(QUIET, w0, 1);
    assert w1 == Reconcile(QUIET, w0, WATCHED).0;
    var app := StartedApp(NAMELESS);
    DemoSteady(app, "", 3, false);
    NothingPut(QUIET, 2, app);
    SteadyRead(QUIET, w1, app);
    NamelessProcess(app);
    CalmAct(QUIET, AfterRead(w1, app), app);
    NamelessOutcome(AfterRead(w1, app), app);
  }

  lemma NamelessOutcome(w: World, app: App)
    requires w.store == Some(app) && w.tick == 3 && app == StartedApp(NAMELESS)
    requires var r := Process(app.spec, app, QUIET(3)); !r.panicked && r.error.None? && !r.requeue && !r.buildFailed
    ensures var (w', out) := Act(QUIET, w, app.spec, app.status, app);
            out == Done && w'.store.Some?
            && w'.store.value.status.phase == Process(app.spec, app, QUIET(3)).status.phase
  {
    hide Process, Initialize, SetCondition, Emissions, Deployed, UpdateStatusIfNeeded, SameStatus;
    var r := Process(app.spec, app, QUIET(3));
    var w1 := w.(events := w.events + Emissions(app, r.events), cluster := Deployed(w.cluster, r.applied));
    CalmWriteBack(QUIET, w1, app, r, Processed(app.spec, app, QUIET(3)));
    CalmWriteSucceeds(QUIET, w1, app, r, Processed(app.spec, app, QUIET(3)));
    if Suppressed(app, r) {
      SamePhase(Stamp(app, r.status).status, app.status);
    }
    var u := UpdateStatusIfNeeded(QUIET, w1, app, r.status, app.status, Processed(app.spec, app, QUIET(3)));
    assert Act(QUIET, w, app.spec, app.status, app) == (u.0, Conclude(r.error, r.requeue, u.1));
  }

  lemma CalmWriteSucceeds(env: Environment, w: World, app: App, r: Result, cause: Cause)
    requires Undisturbed(env, w.tick) && w.store == Some(app)
    ensures UpdateStatusIfNeeded(env, w, app, r.status, app.status, cause).1.None?
  {
    hide SameStatus;
    var stamped := Stamp(app, r.status);
    assert UpdateStatus(env, w, stamped, cause).1.Accepted?;
  }

  // ----- a second cycle that writes: another visiting order -----

  const PAIR := Spec([Component("a", "apps/v1", "StatefulSet", Parsed(Sized(3))),
                      Component("b", "apps/v1", "StatefulSet", Parsed(Sized(3)))], Some(false))

  /** Both lookups fail, each with its own text. */
  const BROKEN := QUIET(0).(probes := (n: string) => Health.Broken(n))

  /** The second cycle visits a first, the third visits b first; nothing else ever changes. */
  const TWISTED: Environment := (k: nat) => BROKEN.(order := if k < 5 then ["a", "b"] else ["b", "a"])

  lemma PairInitialize()
    ensures Initialize(PAIR) == (map["a" := Fresh("a"), "b" := Fresh("b")], None)
  {
    var cs := PAIR.components;
    assert InitFrom(cs, 2, map["a" := Fresh("a"), "b" := Fresh("b")])
           == (map["a" := Fresh("a"), "b" := Fresh("b")], None);
    assert InitFrom(cs, 1, map["a" := Fresh("a")]) == InitFrom(cs, 2, map["a" := Fresh("a"), "b" := Fresh("b")]);
  }

  lemma PairShowsChecks(app: App, k: nat)
    requires app.namespace == "default" && app.spec == PAIR
    ensures ShowsChecks(app, TWISTED(k))
  {
    hide DeriveResourceName, DesiredObjects, Initialize;
    PairInitialize();
    DemoName();
    ResourceNameFixedPoints("b");
    var c, d := PAIR.components[0], PAIR.components[1];
    assert |HeadlessName("a")| > 0 && |HeadlessName("b")| > 0;
    assert Identities(c, c.properties.config) == [Identity(StatefulSet, "a"), Identity(Service, HeadlessName("a"))];
    assert Identities(d, d.properties.config) == [Identity(StatefulSet, "b"), Identity(Service, HeadlessName("b"))];
    assert Buildable("default", c) && Buildable("default", d);
    assert Builds(app.spec, app);
    forall o | o in DesiredObjects(app.spec, app, TWISTED(k)) ensures Applies(o, TWISTED(k)) {
      DesiredNameable(app, TWISTED(k), o);
    }
  }

  /** The component visited first is the one whose failure is reported. */
  lemma PairReports(app: App, k: nat)
    requires app.namespace == "default" && app.spec == PAIR
    ensures CoreOf(app, TWISTED(k)).error == Some(Error(HealthLookup, if k < 5 then "a" else "b", false))
  {
    hide CoreOf, ShowsChecks;
    var ans, n := TWISTED(k), if k < 5 then "a" else "b";
    PairInitialize();
    PairShowsChecks(app, k);
    assert PAIR.components[0].name == "a" && PAIR.components[1].name == "b";
    assert Initialize(app.spec).0.Keys - {n} == {if k < 5 then "b" else "a"};
    OnlyOne(if k < 5 then "b" else "a");
    assert FirstVisit(app, n) == ans.order;
    AnyFailureReported(app, ans, n);
    assert ans.(order := FirstVisit(app, n)) == ans;
  }

  lemma OnlyOne(n: string)
    ensures InOrder({n}) == [n]
  {
    assert {n} - {n} == {};
    assert InOrder({}) == [];
  }

  /** Nobody interferes and every answer stays the same; only the visiting order changes, and the
      third cycle writes the status again. */
  lemma OrderMakesItWrite()
    ensures IsInitial(Initially(PAIR))
    ensures var w, w' := Run(TWISTED, Initially(PAIR), 2), Run(TWISTED, Initially(PAIR), 3);
            && Calm(TWISTED, w.tick) && w.store.Some? && w'.store.Some? && w.store.value.spec == w'.store.value.spec
            && w'.writes != w.writes
  {
    hide Reconcile, Initialize, SetCondition, Process, Agree, Suppressed, CoreOf, ShowsChecks, ReasonFor, Render;
    var w0 := Initially(PAIR);
    PairInitialize();
    FirstCycle(TWISTED, PAIR);
    assert Run(TWISTED, w0, 0) == w0;
    var w1, app := Run(TWISTED, w0, 1), StartedApp(PAIR);
    assert w1 == Reconcile(TWISTED, w0, WATCHED).0;
    StartedSteady();
    TwistedCalm(2);
    CalmAt(TWISTED, 2, 3);
    PairShowsChecks(app, 3);
    PairReports(app, 3);
    PairReports(app, 5);
    ErrorConditions(app, TWISTED(3));
    NothingPut(TWISTED, 2, app);
    WorkedCycle(TWISTED, w1, app);
    var w := Run(TWISTED, w0, 2);
    assert w == Reconcile(TWISTED, w1, WATCHED).0;
    PairThird(w);
    assert Run(TWISTED, w0, 3) == Reconcile(TWISTED, w, WATCHED).0;
  }

  lemma StartedSteady()
    ensures Steady(StartedApp(PAIR)) && StatusOK(StartedApp(PAIR).status)
  {
    PairInitialize();
    StartedOK(PAIR);
  }

  lemma TwistedCalm(t: nat)
    ensures Calm(TWISTED, t)
  {
  }

  lemma PairThird(w: World)
    requires w.tick == 4
             && w.store == Some(Changed(StartedApp(PAIR),
                                        Stamp(StartedApp(PAIR), Process(PAIR, StartedApp(PAIR), TWISTED(3)).status)))
    ensures Calm(TWISTED, w.tick)
    ensures var w' := Reconcile(TWISTED, w, WATCHED).0;
            w'.writes != w.writes && w'.store.Some? && w'.store.value.spec == w.store.value.spec
  {
    hide Reconcile, Initialize, SetCondition, Process, Agree, Suppressed, CoreOf, ShowsChecks, ReasonFor, Render,
         StatusOK;
    var app, ans, ans' := StartedApp(PAIR), TWISTED(3), TWISTED(5);
    StartedSteady();
    TwistedCalm(3);
    TwistedCalm(4);
    CalmAt(TWISTED, 3, 4);
    CalmAt(TWISTED, 3, 5);
    CalmLater(TWISTED, 3, 5);
    PairShowsChecks(app, 3);
    PairReports(app, 3);
    PairReports(app, 5);
    ErrorConditions(app, ans);
    PhaseIsCompared(app, Process(app.spec, app, ans));
    NextSteady(app, ans);
    var next := Next(app, Process(app.spec, app, ans));
    assert w.store == Some(next);
    if Suppressed(next, Process(next.spec, next, ans')) {
      SuppressedSameError(app, ans, ans');
    }
    UndisturbedCycle(TWISTED, w, next);
    CalmAct(TWISTED, AfterRead(w, next), next);
    NothingPut(TWISTED, 4, next);
    SteadyRead(TWISTED, w, next);
  }

  // ----- a hash that is never recorded -----

  function Filed(files: map<string, string>): Spec {
    Spec([Component("a", "apps/v1", "StatefulSet", Parsed(Sized(3).(configFiles := files)))], Some(false))
  }

  const OLD_FILES := map["app.yml" := "one"]
  const NEW_FILES := map["app.yml" := "two"]

  /** The files change in the middle of the second cycle, and the change carries no id. */
  const UNANNOUNCED := map[3 := [Put(Filed(NEW_FILES), "", "https://hook", [FINALIZER])]]

  const DROPPING := Scenario(UNANNOUNCED, {}, {})

  const REFILED := StartedApp(Filed(OLD_FILES)).(rv := 3, generation := 2, spec := Filed(NEW_FILES), changeID := "")

  lemma FiledInitialize(files: map<string, string>)
    ensures Initialize(Filed(files)) == (map["a" := Fresh("a")], None)
  {
    var cs := Filed(files).components;
    assert InitFrom(cs, 1, map["a" := Fresh("a")]) == (map["a" := Fresh("a")], None);
  }

  lemma FiledBuilds(app: App, files: map<string, string>)
    requires app.namespace == "default" && app.spec == Filed(files)
    ensures Builds(app.spec, app)
  {
    hide DeriveResourceName;
    FiledInitialize(files);
    DemoName();
    var c := app.spec.components[0];
    assert |HeadlessName("a")| > 0 && |ConfigMapName("a")| > 0;
    assert forall x :: x in Identities(c, c.properties.config) ==> x.name != "";
    assert Buildable("default", c);
  }

  const READY_ENTRY := CompStatus("a", "StatefulSet", "apps/v1", "a", "default", true, ReadyAndHealthy)

  /** In every cycle that nothing refuses the application is found running, with the same entry. */
  lemma FiledRuns(app: App, files: map<string, string>, edits: map<nat, seq<Edit>>, refused: set<nat>, k: nat)
    requires app.namespace == "default" && app.spec == Filed(files) && k !in refused
    ensures var ans := Scenario(edits, {}, refused)(k);
            var r := Process(app.spec, app, ans);
            && !r.panicked && r.status.phase == Running && r.status.components == SliceOf(map["a" := READY_ENTRY])
            && r.status.lastChangeID == (if app.changeID != "" then app.changeID else app.status.lastChangeID)
            && r.applied == DesiredObjects(app.spec, app, ans)
  {
    hide Process, Initialize, DesiredObjects, Builds, BuildAll, ApplyAll, CheckAll, SliceOf;
    var ans := Scenario(edits, {}, refused)(k);
    FiledInitialize(files);
    FiledBuilds(app, files);
    forall o | o in DesiredObjects(app.spec, app, ans) ensures Applies(o, ans) {
      DesiredNameable(app, ans, o);
    }
    assert Health.CheckStatefulSet(HEALTHY) == Health.Available;
    assert app.spec.components[0].name == "a";
    NeverPanics(app, ans);
    RunningIff(app.spec, app, ans);
    RunningReady(app, ans);
    ProcessFacts(app.spec, app, ans);
    CleanApplies(app.spec, app, ans);
    CleanEntries(app.spec, app, ans);
    CleanComponents(app.spec, app, ans);
    var a := ApplyAll(DesiredObjects(app.spec, app, ans), BuildAll(app, Initialize(app.spec).0, ans.now).statuses, ans);
    CheckAllEntries(app, a.statuses, ans);
    assert CheckOne(app, "a", a.statuses["a"], ans).entry == READY_ENTRY;
    assert CheckAll(app, a.statuses, ans).statuses == map["a" := READY_ENTRY];
  }

  lemma RunningConditions(app: App, ans: Oracle)
    requires !Process(app.spec, app, ans).panicked && Process(app.spec, app, ans).status.phase == Running
    ensures Process(app.spec, app, ans).status.conditions
            == SetCondition(app.status.conditions, Condition(Ready, true, ComponentsReady, None))
  {
    hide BuildAll, ApplyAll, Checked, MarkAll, SliceOf, Paused, Initialize, ReasonFor, Render, SetCondition;
  }

  /** Running twice over the same entries compares equal, whatever was built. */
  lemma RunningAgain(app: App, ans: Oracle, app': App, ans': Oracle)
    requires StatusOK(app.status)
    requires var r, r' := Process(app.spec, app, ans), Process(app'.spec, app', ans');
             && !r.panicked && !r'.panicked && r.status.phase == Running && r'.status.phase == Running
             && r'.status.components == r.status.components && DistinctKeys(ComponentPairs(r.status.components))
             && app'.status == r.status.(observedGeneration := app'.generation)
             && r'.status.lastChangeID == app'.status.lastChangeID
    ensures Suppressed(app', Process(app'.spec, app', ans'))
  {
    hide Process, SetCondition, Matches, ConditionPairs, ComponentPairs, StatusOK;
    RunningConditions(app, ans);
    RunningConditions(app', ans');
    SetTwice(app.status.conditions, Condition(Ready, true, ComponentsReady, None));
    ProcessOKFor(app, ans);
    SelfSame(app'.status);
  }

  /** The object after the second cycle: Running, with the new files and the old hash. */
  lemma DroppingSecond(w: World)
    requires w.store == Some(StartedApp(Filed(OLD_FILES))) && w.tick == 2
    ensures var w', r := Reconcile(DROPPING, w, WATCHED).0,
                         Process(Filed(OLD_FILES), StartedApp(Filed(OLD_FILES)), DROPPING(3));
            && w'.store == Some(Changed(REFILED, Stamp(REFILED, r.status))) && w'.tick == 6 && r.status.phase == Running
            && w'.last.Some? && w'.last.value.before == REFILED
            && w'.last.value.cause == Processed(Filed(OLD_FILES), StartedApp(Filed(OLD_FILES)), DROPPING(3))
  {
    hide Reconcile, Process, Initialize, SetCondition, Emissions, Deployed, Suppressed, UpdateStatusIfNeeded;
    var app, ans := StartedApp(Filed(OLD_FILES)), DROPPING(3);
    FiledInitialize(OLD_FILES);
    NothingPut(DROPPING, 2, app);
    SteadyRead(DROPPING, w, app);
    var w1 := AfterRead(w, app);
    FiledRuns(app, OLD_FILES, UNANNOUNCED, {}, 3);
    var r := Process(app.spec, app, ans);
    PhaseIsCompared(app, r);
    OtherFiles();
    PutOnce(DROPPING, 3, Put(Filed(NEW_FILES), "", "https://hook", [FINALIZER]), app, REFILED);
    ConflictingWriteBack(DROPPING, WorkedWorld(w1, app, r), app, REFILED, r, Processed(app.spec, app, ans));
    var u := UpdateStatusIfNeeded(DROPPING, WorkedWorld(w1, app, r), app, r.status, app.status,
                                  Processed(app.spec, app, ans));
    assert Act(DROPPING, w1, app.spec, app.status, app).0 == u.0;
  }

  lemma OtherFiles()
    ensures OLD_FILES != NEW_FILES && Filed(OLD_FILES) != Filed(NEW_FILES)
  {
    assert OLD_FILES["app.yml"] != NEW_FILES["app.yml"];
    assert Filed(OLD_FILES).components[0].properties.config.configFiles == OLD_FILES;
    assert Filed(NEW_FILES).components[0].properties.config.configFiles == NEW_FILES;
  }

  /** A cycle records the files it has, and leaves the record alone when it has none. */
  lemma FilesRecorded(app: App, files: map<string, string>, ans: Oracle)
    requires app.namespace == "default" && app.spec == Filed(files)
    ensures HashOf(Process(app.spec, app, ans).status.annotations, app.spec.components[0])
         == if files != map[] then Some(ConfigHash(files)) else HashOf(app.status.annotations, app.spec.components[0])
  {
    hide Process, Initialize, DeriveResourceName, WritesFrom, Buildable, HashOf;
    var cs := app.spec.components;
    FiledInitialize(files);
    FiledBuilds(app, files);
    NeverPanics(app, ans);
    CarriedOver(app.spec, app, ans);
    FirstBuildable(app);
    assert cs[0].name in ComponentNames(cs);
    HashesUpTo("default", cs, 0, 0, ComponentNames(cs), app.status.annotations);
  }

  /** The hash on record is that of the old files. */
  lemma OldHash(k: nat)
    ensures Differs(Process(Filed(OLD_FILES), StartedApp(Filed(OLD_FILES)), DROPPING(k)).status.annotations,
                    Filed(NEW_FILES).components[0])
  {
    hide Process, HashOf, Initialize;
    var app := StartedApp(Filed(OLD_FILES));
    FilesRecorded(app, OLD_FILES, DROPPING(k));
    OtherFiles();
    SameNameHash(Process(app.spec, app, DROPPING(k)).status.annotations, app.spec.components[0],
                 Filed(NEW_FILES).components[0]);
  }

  lemma FirstBuildable(app: App)
    requires Builds(app.spec, app) && app.spec.components != []
    ensures Buildable(app.namespace, app.spec.components[0])
  {
  }

  lemma SameNameHash(a: map<string, ConfigHash>, c: Component, d: Component)
    requires c.name == d.name
    ensures HashOf(a, c) == HashOf(a, d)
  {
  }

  /** After a status stamped with a newer generation, the new files' hash is computed in every
      cycle and stored in none, since nothing compared has changed: the third cycle works on the
      new files, stamps a restart, writes nothing and leaves the object exactly as it found it,
      so that every undisturbed cycle after it does the same. */
  lemma HashNeverRecorded()
    ensures IsInitial(Initially(Filed(OLD_FILES)))
    ensures var w, w' := Run(DROPPING, Initially(Filed(OLD_FILES)), 2), Run(DROPPING, Initially(Filed(OLD_FILES)), 3);
            && w.store.Some? && w.store.value.spec == Filed(NEW_FILES) && w.last.Some? && w.last.value.cause.Processed?
            && !Honest(w.last.value)
            && PathOf(DROPPING, w) == Worked(AfterRead(w, w.store.value), Filed(NEW_FILES), w.store.value)
            && Differs(w.store.value.status.annotations, Filed(NEW_FILES).components[0])
            && w'.writes == w.writes && w'.store == w.store
  {
    hide Reconcile, Initialize, SetCondition, Process, Differs, Suppressed;
    var w0 := Initially(Filed(OLD_FILES));
    FiledInitialize(OLD_FILES);
    FiledInitialize(NEW_FILES);
    FirstCycle(DROPPING, Filed(OLD_FILES));
    assert Run(DROPPING, w0, 0) == w0;
    var w1 := Run(DROPPING, w0, 1);
    assert w1 == Reconcile(DROPPING, w0, WATCHED).0;
    DroppingSecond(w1);
    var w := Run(DROPPING, w0, 2);
    assert w == Reconcile(DROPPING, w1, WATCHED).0;
    OldHash(3);
    DroppingThird(w);
    assert Run(DROPPING, w0, 3) == Reconcile(DROPPING, w, WATCHED).0;
  }

  lemma DroppingThird(w: World)
    requires w.tick == 6
    requires w.store == Some(Changed(REFILED,
                                     Stamp(REFILED, Process(Filed(OLD_FILES), StartedApp(Filed(OLD_FILES)),
                                                            DROPPING(3)).status)))
    ensures var app := w.store.value;
            && PathOf(DROPPING, w) == Worked(AfterRead(w, app), app.spec, app)
            && Reconcile(DROPPING, w, WATCHED).0.writes == w.writes
            && Reconcile(DROPPING, w, WATCHED).0.store == w.store
  {
    hide Reconcile, Initialize, SetCondition, Process, SliceOf, StatusOK;
    var started, app := StartedApp(Filed(OLD_FILES)), w.store.value;
    FiledInitialize(OLD_FILES);
    FiledInitialize(NEW_FILES);
    FiledRuns(started, OLD_FILES, UNANNOUNCED, {}, 3);
    FiledRuns(app, NEW_FILES, UNANNOUNCED, {}, 7);
    StartedOK(Filed(OLD_FILES));
    SliceDistinct(map["a" := READY_ENTRY]);
    RunningAgain(started, DROPPING(3), app, DROPPING(7));
    UndisturbedCycle(DROPPING, w, app);
    NothingPut(DROPPING, 6, app);
    SteadyPath(DROPPING, w, app);
  }

  lemma StartedOK(spec: Spec)
    ensures StatusOK(StartedApp(spec).status)
  {
    WithConditionOK(EMPTY_STATUS, Creating, false, Processing, None);
  }

  lemma SteadyPath(env: Environment, w: World, app: App)
    requires ApplyEdits(env(w.tick).edits, w.store) == Some(app) && !env(w.tick).fault
    requires Steady(app) && !SkipsSuspended(app) && !FastPath(app)
    ensures PathOf(env, w) == Worked(AfterRead(w, app), app.spec, app)
  {
    hide Initialize, ClaimFrom, Finalize, ApplyEdits;
    assert Get(env, w) == (AfterRead(w, app), Got(app));
  }
}
