/** A run in which a changed replica record is not stored: components come and go between the read
    and the finalizer write of one cycle, and the next cycle looks the same. */
module LostRecord {
  import opened Text
  import opened Config
  import opened Names
  import opened Builder
  import opened Status
  import opened StatusCompare
  import opened PauseResume
  import opened Api
  import opened Cycle
  import opened CycleFacts
  import opened BuildFacts
  import opened Reconciler
  import opened Effects
  import opened Runs
  import opened Readiness
  import opened FastPathSoundness
  import opened NothingDropped
  import opened SuspendRuns
  import opened ObjectIdentity
  import opened Outcomes
  import opened Quiescence
  import opened Counterexamples
  import opened StoredExactly
  import opened RecordKept
  import Apply
  import Health

  // ----- the environment -----

  /** Suspended, with components a and b. */
  const ASLEEP_PAIR := PAIR.(suspend := Some(true))

  /** Only component a. */
  const SINGLE := Demo("StatefulSet", 3, false)

  function Edited(spec: Spec, finalizers: seq<string>): Edit {
    Put(spec, "change-1", "https://hook", finalizers)
  }

  /** Resumed without the finalizer before call 4; b leaves before the finalizer write and is back
      before the status write. */
  const COMING_AND_GOING := map[4 := [Edited(PAIR, [])], 5 := [Edited(SINGLE, [])], 8 := [Edited(PAIR, [FINALIZER])]]

  const QUOTA := Error(ApplyAnswer, "quota", false)

  /** The StatefulSet of component a is refused in every cycle. */
  const SHRINKING: Environment := (k: nat) => Oracle(
    if k in COMING_AND_GOING then COMING_AND_GOING[k] else [], false, 0, [], (p: string) => false,
    (id: Identity) => None, (id: Identity) => None,
    (id: Identity) => Apply.Script(
      if id == Identity(StatefulSet, "a") then Apply.CreateError(QUOTA) else Apply.WasCreated,
      (n: nat) => Apply.Fine),
    (n: string) => Health.Found(HEALTHY, true, ""), [])

  // ----- what a cycle makes of one refused object -----

  /** The object is applied, or it is the StatefulSet of component a and refused. */
  ghost predicate OrRefused(o: Obj, ans: Oracle) {
    && !Stops(o, ans) && Nameable(o)
    && if KeyOf(o) == Identity(StatefulSet, "a")
       then o.instance == "a" && ans.applies(KeyOf(o)).create == Apply.CreateError(QUOTA)
       else Applies(o, ans)
  }

  ghost predicate OnlyRefusal(objs: seq<Obj>, ans: Oracle) {
    forall o :: o in objs ==> OrRefused(o, ans)
  }

  lemma ShrinkingAnswers(o: Obj, k: nat)
    requires Nameable(o) && (KeyOf(o) == Identity(StatefulSet, "a") ==> o.instance == "a")
    ensures OrRefused(o, SHRINKING(k))
  {
    var ans := SHRINKING(k);
    assert ans.lookupFault(KeyOf(o)).None? && ans.ownerFault(KeyOf(o)).None?;
  }

  predicate HasRefused(objs: seq<Obj>, i: nat) {
    exists k :: i <= k < |objs| && KeyOf(objs[k]) == Identity(StatefulSet, "a")
  }

  /** Component a's entry shows the refusal, unless it shows an error already. */
  function Shown(m: Statuses): Statuses
    requires "a" in m
  {
    if Marked(m["a"].message) then m else m["a" := m["a"].(health := false, message := ApplyError("a", QUOTA))]
  }

  lemma RefusedStep(o: Obj, a: Applying, ans: Oracle)
    requires !a.stopped && OrRefused(o, ans) && "a" in a.statuses
    ensures var r := ApplyStep(o, a, ans);
            && !r.stopped
            && (if KeyOf(o) == Identity(StatefulSet, "a")
                then r.firstError == FirstOf(a.firstError, QUOTA) && r.statuses == Shown(a.statuses)
                else r.firstError == a.firstError && r.statuses == a.statuses)
  {
  }

  /** The first refusal is reported, and component a's entry shows it. */
  lemma {:induction false} RefusedLoop(objs: seq<Obj>, i: nat, a: Applying, ans: Oracle)
    requires i <= |objs| && !a.stopped && OnlyRefusal(objs, ans) && "a" in a.statuses
    requires a.firstError.None? ==> !Marked(a.statuses["a"].message)
    requires a.firstError.Some? ==> a.firstError == Some(QUOTA) && a.statuses["a"].message == ApplyError("a", QUOTA)
    ensures var r := ApplyFrom(objs, i, a, ans);
            && !r.stopped
            && (a.firstError.Some? || !HasRefused(objs, i) ==> r.statuses == a.statuses && r.firstError == a.firstError)
            && (a.firstError.None? && HasRefused(objs, i) ==>
                  && r.firstError == Some(QUOTA)
                  && r.statuses == a.statuses["a" := a.statuses["a"].(health := false,
                                                                      message := ApplyError("a", QUOTA))])
    decreases |objs| - i
  {
    hide ApplyStep, OrRefused;
    if i < |objs| {
      RefusedStep(objs[i], a, ans);
      RefusedLoop(objs, i + 1, ApplyStep(objs[i], a, ans), ans);
      assert HasRefused(objs, i) <==> KeyOf(objs[i]) == Identity(StatefulSet, "a") || HasRefused(objs, i + 1);
    }
  }

  /** The entries such a cycle stores: those of a and b, both with the one error. */
  const REFUSED_ENTRIES := map[
    "a" := Fresh("a").(message := ApplyError("a", QUOTA)), "b" := Fresh("b").(message := OverallReconcileError(QUOTA))]

  /** Both names were read; the specification worked on has a and perhaps b. */
  predicate OneOrTwo(app: App) {
    app.namespace == "default" && (app.spec == PAIR || app.spec == SINGLE)
  }

  lemma PairBuilds(app: App)
    requires OneOrTwo(app)
    ensures Builds(PAIR, app)
  {
    hide DeriveResourceName;
    PairInitialize();
    DemoName();
    ResourceNameFixedPoints("b");
    var c, d := PAIR.components[0], PAIR.components[1];
    assert |HeadlessName("a")| > 0 && |HeadlessName("b")| > 0;
    assert Identities(c, c.properties.config) == [Identity(StatefulSet, "a"), Identity(Service, HeadlessName("a"))];
    assert Identities(d, d.properties.config) == [Identity(StatefulSet, "b"), Identity(Service, HeadlessName("b"))];
    assert Buildable("default", c) && Buildable("default", d);
  }

  lemma PairRefusal(app: App, k: nat)
    requires OneOrTwo(app)
    ensures OnlyRefusal(DesiredObjects(PAIR, app, SHRINKING(k)), SHRINKING(k))
    ensures HasRefused(DesiredObjects(PAIR, app, SHRINKING(k)), 0)
  {
    hide DeriveResourceName, DesiredObjects, Initialize, Builds, HasOwner, OrRefused;
    var ans := SHRINKING(k);
    var objs := DesiredObjects(PAIR, app, ans);
    PairBuilds(app);
    DistinctKeysIffCompatible(PAIR, app, ans);
    forall o | o in objs
      ensures OrRefused(o, ans)
    {
      PairObject(app, o);
      ShrinkingAnswers(o, k);
    }
    PairHasRefused(app, k);
  }

  lemma PairObject(app: App, o: Obj)
    requires OneOrTwo(app) && HasOwner(o, app)
    ensures Nameable(o) && (KeyOf(o) == Identity(StatefulSet, "a") ==> o.instance == "a")
  {
    hide DeriveResourceName;
    DemoName();
    ResourceNameFixedPoints("b");
    assert |HeadlessName("a")| > 0 && |HeadlessName("b")| > 0;
    var j :| 0 <= j < |app.spec.components| && Owned(o, app, j);
  }

  lemma PairHasRefused(app: App, k: nat)
    requires OneOrTwo(app)
    ensures HasRefused(DesiredObjects(PAIR, app, SHRINKING(k)), 0)
  {
    hide DeriveResourceName, BuildFrom, PauseFrom, Initialize, AllBuild;
    var ans := SHRINKING(k);
    PairBuilds(app);
    DemoName();
    var b := BuildAll(app, Initialize(PAIR).0, ans.now);
    InitializeFacts(PAIR);
    BuildAllFacts(app, Initialize(PAIR).0, ans.now);
    BuildAllWorkloads(app, Initialize(PAIR).0, ans.now);
    PauseKeepsObjects(b.objects, 0, WantsSuspend(app.spec), app.status.suspendedReplicas);
    var ws := Workloads(b.objects);
    assert ws[0] in ws && WorkloadOf(ws[0], app.spec.components[0]);
    WorkloadsMembers(b.objects, ws[0]);
    var i :| 0 <= i < |b.objects| && b.objects[i] == ws[0];
    assert KeyOf(DesiredObjects(PAIR, app, ans)[i]) == Identity(StatefulSet, "a");
  }

  /** The status such a cycle computes. */
  lemma RefusedStatus(app: App, k: nat)
    requires OneOrTwo(app)
    ensures var r := Process(PAIR, app, SHRINKING(k));
            && !r.panicked && r.status.phase == Phase.Failed && r.status.components == SliceOf(REFUSED_ENTRIES)
            && r.status.lastChangeID == app.status.lastChangeID
            && r.status.conditions
               == SetCondition(app.status.conditions, Condition(Ready, false, ReasonFor(Render(QUOTA)), Some(QUOTA)))
            && r.status.suspendedReplicas == app.status.suspendedReplicas - ComponentNames(app.spec.components)
  {
    hide BuildFrom, PauseFrom, ApplyAll, Initialize, AllBuild, MarkAll, OnlyRefusal, HasRefused, ComponentNames,
         Process,
         OneOrTwo, SetCondition, SliceOf, ReasonFor, Render;
    var ans := SHRINKING(k);
    PairBuilds(app);
    PairInitialize();
    var statuses := Initialize(PAIR).0;
    BuildAllFacts(app, statuses, ans.now);
    BuildAllEntries(app, statuses, ans.now);
    PairRefusal(app, k);
    var objs := DesiredObjects(PAIR, app, ans);
    RefusedEntries(objs, BuildAll(app, statuses, ans.now).statuses, ans);
    Resumes(app);
    FailedApply(PAIR, app, ans, QUOTA);
    CarriedOver(PAIR, app, ans);
  }

  lemma Resumes(app: App)
    requires OneOrTwo(app)
    ensures !WantsSuspend(app.spec)
  {
  }

  /** The status of a cycle that builds, resumes, and meets an error while applying. */
  lemma FailedApply(first: Spec, app: App, ans: Oracle, e: Error)
    requires Builds(first, app) && !WantsSuspend(app.spec)
    requires var statuses := BuildAll(app, Initialize(first).0, ans.now).statuses;
             ApplyAll(DesiredObjects(first, app, ans), statuses, ans).firstError == Some(e)
    ensures var r := Process(first, app, ans);
            var statuses := BuildAll(app, Initialize(first).0, ans.now).statuses;
            var a := ApplyAll(DesiredObjects(first, app, ans), statuses, ans);
            && !r.panicked && r.status.phase == Phase.Failed && r.status.components == SliceOf(MarkAll(a.statuses, e))
            && r.status.lastChangeID == app.status.lastChangeID
            && r.status.conditions
               == SetCondition(app.status.conditions, Condition(Ready, false, ReasonFor(Render(e)), Some(e)))
  {
    hide BuildFrom, PauseFrom, ApplyAll, Initialize, SetCondition, SliceOf, AllBuild, ReasonFor, Render, MarkAll;
    BuildAllFacts(app, Initialize(first).0, ans.now);
  }

  lemma RefusedEntries(objs: seq<Obj>, statuses: Statuses, ans: Oracle)
    requires OnlyRefusal(objs, ans) && HasRefused(objs, 0) && statuses.Keys == {"a", "b"}
    requires forall n :: n in statuses ==>
               statuses[n] == Fresh(n) || statuses[n] == Fresh(n).(message := BuiltSuccessfully)
    ensures var a := ApplyAll(objs, statuses, ans);
            a.firstError == Some(QUOTA) && MarkAll(a.statuses, QUOTA) == REFUSED_ENTRIES
  {
    hide ApplyFrom, OnlyRefusal, MarkApplied;
    var start := Applying(map[], statuses, [], [], None, false);
    RefusedLoop(objs, 0, start, ans);
    var r := ApplyFrom(objs, 0, start, ans);
    MarkedEntries(r.statuses, objs, r.results);
  }

  lemma MarkedEntries(m: Statuses, objs: seq<Obj>, results: map<Identity, Apply.ApplyResult>)
    requires m.Keys == {"a", "b"} && m["a"] == Fresh("a").(message := ApplyError("a", QUOTA))
    requires m["b"] == Fresh("b") || m["b"] == Fresh("b").(message := BuiltSuccessfully)
    ensures MarkAll(MarkApplied(m, objs, results), QUOTA) == REFUSED_ENTRIES
  {
    hide ApplyFailedFor, TextMarked;
    var n := MarkApplied(m, objs, results);
    assert n["a"] == m["a"] && n["b"].message in {Initializing, BuiltSuccessfully, AppliedAwaitingHealth};
    assert MarkAll(n, QUOTA)["b"] == Fresh("b").(message := OverallReconcileError(QUOTA));
  }

  // ----- the run -----

  lemma AsleepInitialize()
    ensures Initialize(ASLEEP_PAIR) == Initialize(PAIR) && Initialize(PAIR).1.None?
  {
    PairInitialize();
  }

  lemma AsleepBuilds(app: App)
    requires app.namespace == "default" && app.spec == ASLEEP_PAIR
    ensures Builds(app.spec, app)
  {
    hide Initialize;
    AsleepInitialize();
    PairBuilds(app.(spec := PAIR));
  }

  /** The second cycle suspends and records both counts. */
  lemma SuspendBoth(w: World)
    requires w.store == Some(StartedApp(ASLEEP_PAIR)) && w.tick == 2
    ensures var w' := Reconcile(SHRINKING, w, WATCHED).0;
            && w'.tick == 4 && w'.store.Some? && var app := w'.store.value;
            && app == StartedApp(ASLEEP_PAIR).(rv := 3, status := app.status)
            && app.status.phase == Suspended && "b" in app.status.suspendedReplicas
  {
    hide Reconcile, Initialize, SetCondition, Process, Deployed, DesiredObjects, Specifies, Builds;
    var app := StartedApp(ASLEEP_PAIR);
    AsleepInitialize();
    AsleepBuilds(app);
    SuspendingCycle(app.spec, app, SHRINKING(3));
    assert ASLEEP_PAIR.components[1].name == "b";
    assert "b" in ComponentNames(app.spec.components);
    NothingPut(SHRINKING, 2, app);
    WorkedCycle(SHRINKING, w, app);
  }

  lemma DifferentSpecs()
    ensures ASLEEP_PAIR != PAIR && PAIR != SINGLE && SINGLE.components != []
  {
    assert ASLEEP_PAIR.suspend != PAIR.suspend;
    assert |PAIR.components| != |SINGLE.components|;
  }

  /** The third cycle claims the object while b comes and goes. */
  lemma ClaimWhileGone(w: World, app: App) returns (w4: World)
    requires w.store == Some(app) && w.tick == 4 && !app.deleting && app.spec == ASLEEP_PAIR
    requires app.changeID == "change-1" && app.webhookURL == "https://hook" && app.status.phase == Suspended
    ensures var claimed := app.(rv := app.rv + 3, generation := app.generation + 2, spec := SINGLE,
                                finalizers := [FINALIZER]);
            var read := app.(rv := app.rv + 1, generation := app.generation + 1, spec := PAIR, finalizers := []);
            && w4.store == Some(claimed) && w4.tick == 8
            && Reconcile(SHRINKING, w, WATCHED) == Act(SHRINKING, w4, PAIR, read.status, claimed)
  {
    hide Initialize, Act, UpdateStatusIfNeeded, StartFrom, Finalize;
    AsleepInitialize();
    DifferentSpecs();
    var read := app.(rv := app.rv + 1, generation := app.generation + 1, spec := PAIR, finalizers := []);
    var single := read.(rv := app.rv + 2, generation := app.generation + 2, spec := SINGLE);
    var claimed := single.(rv := app.rv + 3, finalizers := [FINALIZER]);
    PutOnce(SHRINKING, 4, Edited(PAIR, []), app, read);
    var w1 := AfterRead(w, read);
    assert Get(SHRINKING, w) == (w1, Got(read));
    PutOnce(SHRINKING, 5, Edited(SINGLE, []), read, single);
    var w2 := Update(SHRINKING, w1, WithFinalizer(read), Claimed).0;
    assert Update(SHRINKING, w1, WithFinalizer(read), Claimed).1 == Conflict && w2.store == Some(single)
           && w2.tick == 6;
    NothingPut(SHRINKING, 6, single);
    var w3 := AfterRead(w2, single);
    assert Get(SHRINKING, w2) == (w3, Got(single));
    NothingPut(SHRINKING, 7, single);
    w4 := Update(SHRINKING, w3, WithFinalizer(single), Claimed).0;
    assert Update(SHRINKING, w3, WithFinalizer(single), Claimed).1 == Accepted(claimed);
    assert ClaimFrom(SHRINKING, w3, WithFinalizer(single), 1) == (w4, claimed, None);
    assert ClaimFrom(SHRINKING, w1, WithFinalizer(read), 0) == (w4, claimed, None);
    assert HandleFinalizer(SHRINKING, w1, read) == (w4, Continue(claimed));
  }

  /** The object on which steps 4 to 8 of the third cycle are run, and the one its status lands on. */
  function WithoutB(app: App): App {
    app.(rv := app.rv + 3, generation := app.generation + 2, spec := SINGLE, finalizers := [FINALIZER])
  }

  function WithBAgain(app: App): App {
    app.(rv := app.rv + 4, generation := app.generation + 3, spec := PAIR, finalizers := [FINALIZER])
  }

  lemma BackAgain(app: App)
    requires app.changeID == "change-1" && app.webhookURL == "https://hook" && !app.deleting
    ensures ApplyEdits(SHRINKING(8).edits, Some(WithoutB(app))) == Some(WithBAgain(app))
  {
    DifferentSpecs();
    PutOnce(SHRINKING, 8, Edited(PAIR, [FINALIZER]), WithoutB(app), WithBAgain(app));
  }

  /** Its status is computed without b and stored over the object with b. */
  lemma StoredOverPair(w: World, app: App)
    requires w.store == Some(app) && w.tick == 4 && !app.deleting && app.spec == ASLEEP_PAIR
             && app.namespace == "default"
    requires app.changeID == "change-1" && app.webhookURL == "https://hook" && app.status.phase == Suspended
    ensures var w', r := Reconcile(SHRINKING, w, WATCHED).0, Process(PAIR, WithoutB(app), SHRINKING(8));
            && w'.tick == 11 && w'.store == Some(Changed(WithBAgain(app), Stamp(WithBAgain(app), r.status)))
            && w'.last == Some(Write(WithBAgain(app), w'.store.value, Processed(PAIR, WithoutB(app), SHRINKING(8))))
  {
    hide Reconcile, Process, Initialize, SetCondition, Emissions, Deployed, Suppressed, UpdateStatusIfNeeded, SliceOf,
         ReasonFor, Render, ComponentNames;
    var w4 := ClaimWhileGone(w, app);
    var single, ans := WithoutB(app), SHRINKING(8);
    RefusedStatus(single, 8);
    var r := Process(PAIR, single, ans);
    PhaseIsCompared(single, r);
    BackAgain(app);
    var worked := WorkedWorld(w4, single, r);
    ConflictingWriteBack(SHRINKING, worked, single, WithBAgain(app), r, Processed(PAIR, single, ans));
    var u := UpdateStatusIfNeeded(SHRINKING, worked, single, r.status, single.status, Processed(PAIR, single, ans));
    assert Act(SHRINKING, w4, PAIR, single.status, single).0 == u.0;
  }

  /** The same failure twice, over the same entries, compares equal. */
  lemma RefusedTwice(single: App, app: App)
    requires OneOrTwo(single) && OneOrTwo(app) && StatusOK(single.status)
    requires app.status == Process(PAIR, single, SHRINKING(8)).status.(observedGeneration := app.generation)
    ensures Suppressed(app, Process(PAIR, app, SHRINKING(12)))
  {
    hide Process, SetCondition, Matches, ConditionPairs, ComponentPairs, SliceOf, ReasonFor, Render, OneOrTwo;
    RefusedStatus(single, 8);
    RefusedStatus(app, 12);
    var c := Condition(Ready, false, ReasonFor(Render(QUOTA)), Some(QUOTA));
    SetTwice(single.status.conditions, c);
    SetConditionSets(single.status.conditions, c);
    SliceDistinct(REFUSED_ENTRIES);
    SelfSame(app.status);
  }

  lemma FourthCycle(w: World, app: App, single: App)
    requires w.store == Some(app) && w.tick == 11 && app.spec == PAIR && !app.deleting && app.finalizers == [FINALIZER]
    requires OneOrTwo(single) && OneOrTwo(app) && StatusOK(single.status)
    requires app.status == Process(PAIR, single, SHRINKING(8)).status.(observedGeneration := app.generation)
    ensures var p, w' := PathOf(SHRINKING, w), Reconcile(SHRINKING, w, WATCHED).0;
            && p == Worked(AfterRead(w, app), PAIR, app) && Storing(SHRINKING, w, p) && w'.store == w.store
  {
    hide Reconcile, Process, Initialize, PathOf, Suppressed, SetCondition, UpdateStatusIfNeeded;
    RefusedTwice(single, app);
    RefusedStatus(single, 8);
    RefusedStatus(app, 12);
    AsleepInitialize();
    NothingPut(SHRINKING, 11, app);
    UndisturbedCycle(SHRINKING, w, app);
    SteadyPath(SHRINKING, w, app);
    SuppressedWrites(SHRINKING, PathOf(SHRINKING, w));
  }

  lemma SuppressedWrites(env: Environment, p: Path)
    requires p.Worked? && Suppressed(p.app, Process(p.first, p.app, env(p.w1.tick)))
    ensures WriteError(env, p).None?
  {
    hide Process, SameStatus;
  }

  /** The state after the third cycle, whose component list shrank between its read and its
      finalizer write: b is still on record. */
  lemma AfterThird() returns (app: App)
    ensures IsInitial(Initially(ASLEEP_PAIR))
    ensures var w := Run(SHRINKING, Initially(ASLEEP_PAIR), 3);
            && w.tick == 11 && w.last.Some? && w.last.value.cause == Processed(PAIR, WithoutB(app), SHRINKING(8))
            && w.store == Some(Changed(WithBAgain(app),
                                       Stamp(WithBAgain(app), Process(PAIR, WithoutB(app), SHRINKING(8)).status)))
            && app.namespace == "default" && !app.deleting && StatusOK(app.status)
            && "b" in app.status.suspendedReplicas
  {
    hide Reconcile, Initialize, SetCondition, Process, StatusOK;
    var w0 := Initially(ASLEEP_PAIR);
    AsleepInitialize();
    FirstCycle(SHRINKING, ASLEEP_PAIR);
    assert Run(SHRINKING, w0, 0) == w0;
    RunNext(SHRINKING, w0, 0);
    RunNext(SHRINKING, w0, 1);
    RunNext(SHRINKING, w0, 2);
    hide Run;
    SuspendBoth(Run(SHRINKING, w0, 1));
    app := Run(SHRINKING, w0, 2).store.value;
    StoredOverPair(Run(SHRINKING, w0, 2), app);
    SuspendedOK(w0);
  }

  /** The fourth cycle works on both components, forgets both records, meets the error of the
      third again, and stores nothing: the record of b stays. */
  lemma RecordNotStored()
    ensures IsInitial(Initially(ASLEEP_PAIR))
    ensures var w, w' := Run(SHRINKING, Initially(ASLEEP_PAIR), 3), Run(SHRINKING, Initially(ASLEEP_PAIR), 4);
            var p := PathOf(SHRINKING, w);
            && Storing(SHRINKING, w, p) && p.app.spec == PAIR && !LastListKept(w)
            && w'.store == w.store && w.store.Some? && "b" in w.store.value.status.suspendedReplicas
            && "b" !in Process(p.first, p.app, SHRINKING(p.w1.tick)).status.suspendedReplicas
  {
    hide Reconcile, Initialize, SetCondition, Process, PathOf, Storing, ComponentNames, SliceOf, ReasonFor, Render, Run,
         Initially, IsInitial, StatusOK, ListKept;
    var app := AfterThird();
    var w := Run(SHRINKING, Initially(ASLEEP_PAIR), 3);
    RunNext(SHRINKING, Initially(ASLEEP_PAIR), 3);
    RefusedStatus(WithoutB(app), 8);
    OnlyA();
    FourthCycle(w, w.store.value, WithoutB(app));
    RefusedStatus(w.store.value, 12);
    ListShrank(WithoutB(app));
  }

  lemma SuspendedOK(w0: World)
    requires IsInitial(w0)
    ensures var s := Run(SHRINKING, w0, 2).store; s.Some? ==> StatusOK(s.value.status)
  {
    hide Run;
    ReadyExactlyWhenRunning(SHRINKING, w0, 2);
  }

  lemma OnlyA()
    ensures ComponentNames(SINGLE.components) == {"a"} && ComponentNames(PAIR.components) == {"a", "b"}
  {
    assert SINGLE.components[0].name == "a" && PAIR.components[0].name == "a" && PAIR.components[1].name == "b";
  }

  lemma ListShrank(single: App)
    requires single.spec == SINGLE
    ensures !ListKept(PAIR, single)
  {
    hide ComponentNames;
    PairInitialize();
    OnlyA();
    assert "b" in Initialize(PAIR).0;
  }
}
