/** Two runs in which a restart that the data asks for is not stamped: files that go and come
    back, and files recorded by a cycle whose StatefulSet was refused. */
module LostRestarts {
  import opened Text
  import opened Config
  import opened Names
  import opened Builder
  import opened Status
  import opened PauseResume
  import opened Api
  import opened Cycle
  import opened CycleFacts
  import opened BuildFacts
  import opened Reconciler
  import opened Effects
  import opened Runs
  import opened Readiness
  import opened FastPathSoundness
  import opened NothingDropped
  import opened SuspendRuns
  import opened ObjectIdentity
  import opened Outcomes
  import opened Restarts
  import opened Quiescence
  import opened Counterexamples

  // ----- one cycle over the application with files -----

  /** The application with files, before a cycle that has to work on it. */
  predicate Due(app: App, files: map<string, string>) {
    && app.namespace == "default" && app.spec == Filed(files) && !app.deleting && app.finalizers == [FINALIZER]
    && app.status.phase != Unset && app.status.phase != Pending
    && (app.status.phase != Running || app.status.observedGeneration != app.generation)
  }

  lemma DueSteady(app: App, files: map<string, string>)
    requires Due(app, files)
    ensures Steady(app) && !SkipsSuspended(app) && !FastPath(app) && DistinctResources(app.spec)
  {
    FiledInitialize(files);
  }

  /** The cycle worked on app with these answers and stored its status. */
  ghost predicate WorkedAndStored(env: Environment, w: World, app: App) {
    && TraceOf(env, w) == Acted(app.spec, app, env(w.tick + 1))
    && var r, w' := Process(app.spec, app, env(w.tick + 1)), Reconcile(env, w, WATCHED).0;
       && w'.store == Some(Changed(app, Stamp(app, r.status))) && w'.tick == w.tick + 2
       && w'.last == Some(Write(app, w'.store.value, Processed(app.spec, app, env(w.tick + 1))))
  }

  /** The cycle that begins here works on these files and stores its status. */
  ghost predicate LandsWith(env: Environment, w: World, files: map<string, string>) {
    var t := TraceOf(env, w);
    t.Acted? && t.app.spec == Filed(files) && WorkedAndStored(env, w, t.app)
  }

  /** The hash record of an application of one component named a. */
  predicate OnFile(app: App, files: map<string, string>) {
    HashOf(app.status.annotations, Filed(files).components[0]) == Some(ConfigHash(files))
  }

  /** No workload the cycle applies carries a restart stamp, and there is one. */
  ghost predicate AppliesWithoutStamp(app: App, ans: Oracle) {
    var applied := Process(app.spec, app, ans).applied;
    && (exists o :: o in applied && IsWorkload(o))
    && forall o :: o in applied && IsWorkload(o) ==> o.body.restartedAt.None?
  }

  /** Whatever is desired, no workload is applied, although one is stamped for restart. */
  ghost predicate StampsInVain(app: App, ans: Oracle) {
    && (exists o :: o in DesiredObjects(app.spec, app, ans) && IsWorkload(o) && o.body.restartedAt.Some?)
    && forall o :: o in Process(app.spec, app, ans).applied ==> !IsWorkload(o)
  }

  lemma FiledWorkload(app: App, files: map<string, string>, ans: Oracle) returns (o: Obj)
    requires app.namespace == "default" && app.spec == Filed(files)
    ensures o in DesiredObjects(app.spec, app, ans) && IsWorkload(o)
    ensures forall p :: p in DesiredObjects(app.spec, app, ans) && IsWorkload(p) ==>
              p.instance == app.spec.components[0].name
  {
    hide DeriveResourceName, BuildFrom, PauseFrom, Initialize, IsWorkload, AllBuild;
    FiledBuilds(app, files);
    FiledInitialize(files);
    DistinctKeysIffCompatible(app.spec, app, ans);
    var b := BuildAll(app, Initialize(app.spec).0, ans.now);
    BuildAllFacts(app, Initialize(app.spec).0, ans.now);
    BuildAllWorkloads(app, Initialize(app.spec).0, ans.now);
    PauseKeepsObjects(b.objects, 0, WantsSuspend(app.spec), app.status.suspendedReplicas);
    var ws := Workloads(b.objects);
    assert ws[0] in ws && WorkloadOf(ws[0], app.spec.components[0]);
    WorkloadsMembers(b.objects, ws[0]);
    var k :| 0 <= k < |b.objects| && b.objects[k] == ws[0];
    o := DesiredObjects(app.spec, app, ans)[k];
    forall p | p in DesiredObjects(app.spec, app, ans) ensures p.instance == app.spec.components[0].name {
      var j :| 0 <= j < |app.spec.components| && Owned(p, app, j);
    }
  }

  /** Files that are on record stamp nothing. */
  lemma FiledStamps(app: App, files: map<string, string>, edits: map<nat, seq<Edit>>, refused: set<nat>, k: nat)
    requires app.namespace == "default" && app.spec == Filed(files) && k !in refused && OnFile(app, files)
    ensures AppliesWithoutStamp(app, Scenario(edits, {}, refused)(k))
  {
    hide Process, Initialize, DesiredObjects, HashOf, Differs, Builds, Scenario, OnFile;
    var ans := Scenario(edits, {}, refused)(k);
    FiledRuns(app, files, edits, refused, k);
    FiledInitialize(files);
    FiledBuilds(app, files);
    var o := FiledWorkload(app, files, ans);
    OnFileIsSame(app, files);
    OneResource(app, files);
    forall p | p in DesiredObjects(app.spec, app, ans) && IsWorkload(p) ensures p.body.restartedAt.None? {
      RestartIff(app.spec, app, ans, 0, p);
    }
  }

  lemma OneResource(app: App, files: map<string, string>)
    requires app.spec == Filed(files)
    ensures DistinctResources(app.spec)
  {
  }

  lemma DueLands(env: Environment, w: World, app: App, files: map<string, string>)
    requires Due(app, files) && Undisturbed(env, w.tick + 1) && !env(w.tick).fault
    requires ApplyEdits(env(w.tick).edits, w.store) == Some(app)
    requires var phase := Process(app.spec, app, env(w.tick + 1)).status.phase;
             phase != app.status.phase || app.status.observedGeneration != app.generation
    ensures var w', st := Reconcile(env, w, WATCHED).0, Process(app.spec, app, env(w.tick + 1)).status;
            && LandsWith(env, w, files) && TraceOf(env, w) == Acted(app.spec, app, env(w.tick + 1))
            && w'.tick == w.tick + 2
            && w'.store == Some(app.(rv := app.rv + 1, status := st.(observedGeneration := app.generation)))
  {
    hide Reconcile, Process, Initialize, Deployed, ApplyEdits, PathOf, Filed;
    DueSteady(app, files);
    WorkedCycle(env, w, app);
    SteadyPath(env, w, app);
  }

  /** An undisturbed cycle in which nothing is refused ends in Running and records its files. */
  lemma FiledCycle(edits: map<nat, seq<Edit>>, refused: set<nat>, w: World, app: App, files: map<string, string>)
    requires Due(app, files) && w.tick + 1 !in edits && w.tick + 1 !in refused
    requires ApplyEdits(Scenario(edits, {}, refused)(w.tick).edits, w.store) == Some(app)
    ensures var env := Scenario(edits, {}, refused);
            var w' := Reconcile(env, w, WATCHED).0;
            && LandsWith(env, w, files) && TraceOf(env, w) == Acted(app.spec, app, env(w.tick + 1))
            && w'.tick == w.tick + 2
            && w'.store.Some? && w'.store.value == app.(rv := app.rv + 1, status := w'.store.value.status)
            && w'.store.value.status.phase == Running && w'.store.value.status.observedGeneration == app.generation
            && HashOf(w'.store.value.status.annotations, app.spec.components[0])
               == (if files != map[] then Some(ConfigHash(files))
                   else HashOf(app.status.annotations, app.spec.components[0]))
  {
    hide Reconcile, Process, DesiredObjects, HashOf, ApplyEdits, TraceOf, LandsWith, SliceOf, Filed;
    var env := Scenario(edits, {}, refused);
    FiledRuns(app, files, edits, refused, w.tick + 1);
    DueLands(env, w, app, files);
    FilesRecorded(app, files, env(w.tick + 1));
  }

  lemma OnFileIsSame(app: App, files: map<string, string>)
    requires app.spec == Filed(files) && OnFile(app, files)
    ensures !Differs(app.status.annotations, app.spec.components[0])
  {
    hide ConfigMapName;
  }

  // ----- files, no files, the same files -----

  function WithFiles(files: map<string, string>): Edit {
    Put(Filed(files), "change-1", "https://hook", [FINALIZER])
  }

  const SWITCHED := map[4 := [WithFiles(map[])], 6 := [WithFiles(OLD_FILES)]]

  const SWITCHING := Scenario(SWITCHED, {}, {})

  lemma EditFiles(edits: map<nat, seq<Edit>>, refused: set<nat>, t: nat, app: App, before: map<string, string>,
                  files: map<string, string>)
    requires t in edits && edits[t] == [WithFiles(files)]
    requires app.spec == Filed(before) && app.changeID == "change-1" && app.webhookURL == "https://hook"
    requires app.finalizers == [FINALIZER] && !app.deleting && before != files
    ensures ApplyEdits(Scenario(edits, {}, refused)(t).edits, Some(app))
         == Some(app.(rv := app.rv + 1, generation := app.generation + 1, spec := Filed(files)))
  {
    assert Filed(before) != Filed(files) by {
      assert Filed(before).components[0].properties.config.configFiles == before;
      assert Filed(files).components[0].properties.config.configFiles == files;
    }
    PutOnce(Scenario(edits, {}, refused), t, WithFiles(files), app,
            app.(rv := app.rv + 1, generation := app.generation + 1, spec := Filed(files)));
  }

  lemma SameRecordName(a: map<string, ConfigHash>, files: map<string, string>, other: map<string, string>)
    ensures HashOf(a, Filed(files).components[0]) == HashOf(a, Filed(other).components[0])
  {
    SameNameHash(a, Filed(files).components[0], Filed(other).components[0]);
  }

  /** The application with files, between two cycles. */
  predicate Between(app: App, files: map<string, string>) {
    && app.namespace == "default" && app.spec == Filed(files) && !app.deleting && app.finalizers == [FINALIZER]
    && app.changeID == "change-1" && app.webhookURL == "https://hook"
    && app.status.phase != Unset && app.status.phase != Pending
    && app.status.observedGeneration <= app.generation
  }

  /** The first two cycles: the initial phase, then Running with the old files on record. */
  lemma FirstFiles(edits: map<nat, seq<Edit>>, refused: set<nat>)
    requires forall k :: k in edits || k in refused ==> 3 < k
    ensures var w0, env := Initially(Filed(OLD_FILES)), Scenario(edits, {}, refused);
            var w2 := Run(env, w0, 2);
            && IsInitial(w0) && LandsWith(env, Run(env, w0, 1), OLD_FILES)
            && w2.tick == 4 && w2.store.Some? && Between(w2.store.value, OLD_FILES) && OnFile(w2.store.value, OLD_FILES)
  {
    hide Reconcile, Initialize, SetCondition, LandsWith, HashOf, TraceOf;
    var w0, env := Initially(Filed(OLD_FILES)), Scenario(edits, {}, refused);
    FiledInitialize(OLD_FILES);
    FirstCycle(env, Filed(OLD_FILES));
    SomeFiles();
    assert Run(env, w0, 0) == w0;
    RunNext(env, w0, 0);
    RunNext(env, w0, 1);
    hide Run;
    var app := StartedApp(Filed(OLD_FILES));
    NothingPut(env, 2, app);
    FiledCycle(edits, refused, Run(env, w0, 1), app, OLD_FILES);
  }

  /** A cycle that begins with new files. */
  lemma EditedCycle(edits: map<nat, seq<Edit>>, refused: set<nat>, w: World, before: map<string, string>,
                    files: map<string, string>)
    requires w.store.Some? && Between(w.store.value, before) && before != files
    requires w.tick in edits && edits[w.tick] == [WithFiles(files)] && w.tick + 1 !in edits && w.tick + 1 !in refused
    ensures var env, app := Scenario(edits, {}, refused), w.store.value;
            var w' := Reconcile(env, w, WATCHED).0;
            && LandsWith(env, w, files) && w'.tick == w.tick + 2
            && w'.store.Some? && Between(w'.store.value, files) && w'.store.value.status.phase == Running
            && HashOf(w'.store.value.status.annotations, Filed(files).components[0])
               == (if files != map[] then Some(ConfigHash(files))
                   else HashOf(app.status.annotations, Filed(files).components[0]))
            && (OnFile(app, files) ==> AppliesWithoutStamp(TraceOf(env, w).app, TraceOf(env, w).answers))
  {
    hide Reconcile, LandsWith, AppliesWithoutStamp, HashOf, TraceOf, Filed;
    var app := w.store.value;
    EditFiles(edits, refused, w.tick, app, before, files);
    var edited := app.(rv := app.rv + 1, generation := app.generation + 1, spec := Filed(files));
    FiledCycle(edits, refused, w, edited, files);
    if OnFile(app, files) {
      FiledStamps(edited, files, edits, refused, w.tick + 1);
    }
  }

  /** A component loses its files and gets the same ones back. Each of the three cycles stores its
      status, and the third, whose data differs from the second's, stamps no restart. */
  lemma FilesComeBack()
    ensures OLD_FILES != map[] && IsInitial(Initially(Filed(OLD_FILES)))
    ensures var w1, w2, w3 := Run(SWITCHING, Initially(Filed(OLD_FILES)), 1),
                              Run(SWITCHING, Initially(Filed(OLD_FILES)), 2),
                              Run(SWITCHING, Initially(Filed(OLD_FILES)), 3);
            && LandsWith(SWITCHING, w1, OLD_FILES) && LandsWith(SWITCHING, w2, map[])
            && LandsWith(SWITCHING, w3, OLD_FILES)
            && AppliesWithoutStamp(TraceOf(SWITCHING, w3).app, TraceOf(SWITCHING, w3).answers)
            && var s := Run(SWITCHING, Initially(Filed(OLD_FILES)), 4).store; s.Some? && s.value.status.phase == Running
  {
    hide Run, Reconcile, LandsWith, AppliesWithoutStamp, HashOf, TraceOf, Between, Filed, Initially, IsInitial;
    var w0 := Initially(Filed(OLD_FILES));
    SomeFiles();
    FirstFiles(SWITCHED, {});
    var a, b := Run(SWITCHING, w0, 2), Run(SWITCHING, w0, 3);
    RunNext(SWITCHING, w0, 2);
    RunNext(SWITCHING, w0, 3);
    EditedCycle(SWITCHED, {}, a, OLD_FILES, map[]);
    SameRecordName(a.store.value.status.annotations, OLD_FILES, map[]);
    SameRecordName(b.store.value.status.annotations, OLD_FILES, map[]);
    EditedCycle(SWITCHED, {}, b, map[], OLD_FILES);
  }

  lemma SomeFiles()
    ensures OLD_FILES != map[] && NEW_FILES != map[]
  {
    assert "app.yml" in OLD_FILES && "app.yml" in NEW_FILES;
  }

  // ----- new files, refused -----

  const CHANGED := map[4 := [WithFiles(NEW_FILES)]]

  /** The files change before the third cycle, whose StatefulSet is refused. */
  const REFUSING_FILES := Scenario(CHANGED, {}, {5})

  lemma RefusedStamps(app: App, files: map<string, string>)
    requires app.namespace == "default" && app.spec == Filed(files) && files != map[]
    requires HashOf(app.status.annotations, app.spec.components[0]) != Some(ConfigHash(files))
    ensures StampsInVain(app, REFUSING_FILES(5)) && Process(app.spec, app, REFUSING_FILES(5)).status.phase != Running
  {
    hide Process, Initialize, DesiredObjects, HashOf, Builds, AppliedFrom;
    var ans := REFUSING_FILES(5);
    FiledInitialize(files);
    FiledBuilds(app, files);
    OneResource(app, files);
    NeverPanics(app, ans);
    RunningIff(app.spec, app, ans);
    var o := FiledWorkload(app, files, ans);
    RestartIff(app.spec, app, ans, 0, o);
    assert !Applies(o, ans);
    forall p | p in Process(app.spec, app, ans).applied ensures !IsWorkload(p) {
      AppliedOf(app.spec, app, ans, p);
      AppliedMeans(p, DesiredObjects(app.spec, app, ans), ans);
    }
  }

  lemma AppliedMeans(o: Obj, objs: seq<Obj>, ans: Oracle)
    requires AppliedFrom(o, objs, 0, ans)
    ensures Applies(o, ans)
  {
  }

  /** The refused cycle stores its status all the same, with the new hash. */
  lemma RefusedCycle(w: World)
    requires w.tick == 4 && w.store.Some? && Between(w.store.value, OLD_FILES) && OnFile(w.store.value, OLD_FILES)
    ensures var w', t := Reconcile(REFUSING_FILES, w, WATCHED).0, TraceOf(REFUSING_FILES, w);
            && LandsWith(REFUSING_FILES, w, NEW_FILES) && w'.tick == 6
            && w'.store.Some? && Between(w'.store.value, NEW_FILES) && w'.store.value.status.phase != Running
            && OnFile(w'.store.value, NEW_FILES) && StampsInVain(t.app, t.answers)
  {
    hide Reconcile, Process, Initialize, HashOf, TraceOf, LandsWith, Filed, StampsInVain;
    var app := w.store.value;
    OtherFiles();
    SomeFiles();
    EditFiles(CHANGED, {5}, 4, app, OLD_FILES, NEW_FILES);
    var edited := app.(rv := app.rv + 1, generation := app.generation + 1, spec := Filed(NEW_FILES));
    SameRecordName(app.status.annotations, OLD_FILES, NEW_FILES);
    RefusedStamps(edited, NEW_FILES);
    FiledInitialize(NEW_FILES);
    NeverPanics(edited, REFUSING_FILES(5));
    ProcessFacts(edited.spec, edited, REFUSING_FILES(5));
    FilesRecorded(edited, NEW_FILES, REFUSING_FILES(5));
    DueLands(REFUSING_FILES, w, edited, NEW_FILES);
  }

  /** The third cycle stamps the new files' restart on a StatefulSet that is refused, and records
      them; the fourth applies the StatefulSet with the new files and without a stamp, and ends in
      Running: no cycle has restarted the pods for them. */
  lemma RefusedFilesNeverRestart()
    ensures OLD_FILES != NEW_FILES && IsInitial(Initially(Filed(OLD_FILES)))
    ensures var w1, w2, w3 := Run(REFUSING_FILES, Initially(Filed(OLD_FILES)), 1),
                              Run(REFUSING_FILES, Initially(Filed(OLD_FILES)), 2),
                              Run(REFUSING_FILES, Initially(Filed(OLD_FILES)), 3);
            && LandsWith(REFUSING_FILES, w1, OLD_FILES) && LandsWith(REFUSING_FILES, w2, NEW_FILES)
            && LandsWith(REFUSING_FILES, w3, NEW_FILES)
            && StampsInVain(TraceOf(REFUSING_FILES, w2).app, TraceOf(REFUSING_FILES, w2).answers)
            && AppliesWithoutStamp(TraceOf(REFUSING_FILES, w3).app, TraceOf(REFUSING_FILES, w3).answers)
            && var s := Run(REFUSING_FILES, Initially(Filed(OLD_FILES)), 4).store;
               s.Some? && s.value.status.phase == Running
  {
    hide Run, Reconcile, LandsWith, AppliesWithoutStamp, StampsInVain, HashOf, TraceOf, Filed, Initially, IsInitial;
    var w0 := Initially(Filed(OLD_FILES));
    OtherFiles();
    FirstFiles(CHANGED, {5});
    RunNext(REFUSING_FILES, w0, 2);
    RunNext(REFUSING_FILES, w0, 3);
    RefusedCycle(Run(REFUSING_FILES, w0, 2));
    var w3 := Run(REFUSING_FILES, w0, 3);
    NothingPut(REFUSING_FILES, 6, w3.store.value);
    FiledCycle(CHANGED, {5}, w3, w3.store.value, NEW_FILES);
    FiledStamps(w3.store.value, NEW_FILES, CHANGED, {5}, 7);
  }
}
