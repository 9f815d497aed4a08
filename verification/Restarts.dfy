/** When a configuration change restarts the pods: the hash record is what landed cycles wrote,
    and a restart is stamped exactly when the data differs from it. */
module Restarts {
  import opened Text
  import opened Config
  import opened Names
  import opened Builder
  import opened Status
  import opened PauseResume
  import opened Api
  import opened Cycle
  import opened CycleFacts
  import opened BuildFacts
  import opened Reconciler
  import opened Effects
  import opened Runs
  import opened Readiness
  import opened FastPathSoundness
  import opened NothingDropped
  import opened Outcomes
  import opened ObjectIdentity

  // ----- one cycle -----

  ghost predicate DistinctResources(spec: Spec) {
    forall j, k :: 0 <= j < k < |spec.components| ==>
      DeriveResourceName(spec.components[j].name) != DeriveResourceName(spec.components[k].name)
  }

  /** The hash recorded under a component's ConfigMap name, if any. */
  function HashOf(annotations: map<string, ConfigHash>, c: Component): Option<ConfigHash> {
    if ConfigMapName(c.name) in annotations then Some(annotations[ConfigMapName(c.name)]) else None
  }

  /** A component's data is to be written and is not what is on record. */
  predicate Differs(annotations: map<string, ConfigHash>, c: Component) {
    && c.properties.Parsed? && c.properties.config.configFiles != map[]
    && HashOf(annotations, c) != Some(ConfigHash(c.properties.config.configFiles))
  }

  lemma RecordsOnlyItsOwn(annotations: map<string, ConfigHash>, c: Component, d: Component)
    requires DeriveResourceName(c.name) != DeriveResourceName(d.name)
    ensures HashOf(Recorded(annotations, c), d) == HashOf(annotations, d)
  {
    SuffixInjective(DeriveResourceName(c.name), DeriveResourceName(d.name), "-config");
  }

  lemma {:induction false} StampInBuild(app: App, i: nat, b: Building, now: Time, k: nat)
    requires i <= |app.spec.components| && k < |app.spec.components| && !Stopped(b) && "" !in b.statuses
    requires Accounts(b.objects, app.spec.components, i) && DistinctResources(app.spec)
    requires !Stopped(BuildFrom(app, i, b, now))
    ensures var ws := Workloads(BuildFrom(app, i, b, now).objects);
            && |ws| == |app.spec.components|
            && Workloads(b.objects) <= ws
            && (i <= k ==>
                  && ws[k].body.Workload?
                  && ws[k].body.restartedAt
                     == if Differs(b.annotations, app.spec.components[k]) then Some(now) else None)
    decreases |app.spec.components| - i
  {
    hide BuildStep, Buildable, Recorded, ObjectsOf, Identities, IsWorkload, HashOf, ConfigMapName, Workloads;
    var cs := app.spec.components;
    if i < |cs| {
      var b' := BuildStep(app.namespace, cs[i], b, now);
      BuildStepFacts(app.namespace, cs[i], b, now);
      StepStamp(app, i, b, now);
      StampInBuild(app, i + 1, b', now, k);
      if i < k {
        RecordsOnlyItsOwn(b.annotations, cs[i], cs[k]);
      }
    }
  }

  lemma StepStamp(app: App, i: nat, b: Building, now: Time)
    requires i < |app.spec.components| && !Stopped(b) && "" !in b.statuses
             && Accounts(b.objects, app.spec.components, i)
    ensures var c, b' := app.spec.components[i], BuildStep(app.namespace, app.spec.components[i], b, now);
            !Stopped(b') ==>
              && Accounts(b'.objects, app.spec.components, i + 1)
              && Workloads(b'.objects)[..i] == Workloads(b.objects)
              && Workloads(b'.objects)[i].body.Workload?
              && Workloads(b'.objects)[i].body.restartedAt == if Differs(b.annotations, c) then Some(now) else None
  {
    hide BuildStep, Recorded, ObjectsOf, Identities, DeriveResourceName;
    var c := app.spec.components[i];
    var b' := BuildStep(app.namespace, c, b, now);
    BuildStepFacts(app.namespace, c, b, now);
    if !Stopped(b') {
      OwnWorkload(app.namespace, c, b.annotations, now);
      WorkloadsConcatenation(b.objects, ObjectsOf(app.namespace, c, c.properties.config, b.annotations, now));
    }
  }

  /** The workload of component k, as it is to be applied, carries a restart stamp exactly when
      its data differs from the record the cycle started with. */
  lemma RestartIff(first: Spec, app: App, ans: Oracle, k: nat, o: Obj)
    requires Initialize(first).1.None? && Builds(first, app) && DistinctResources(app.spec) && k < |app.spec.components|
    requires o in DesiredObjects(first, app, ans) && IsWorkload(o) && o.instance == app.spec.components[k].name
    ensures o.body.restartedAt == if Differs(app.status.annotations, app.spec.components[k]) then Some(ans.now)
                                  else None
  {
    hide BuildFrom, PauseFrom, Initialize, AllBuild, Differs, DeriveResourceName;
    var statuses := Initialize(first).0;
    InitializeFacts(first);
    var b := BuildAll(app, statuses, ans.now);
    BuildAllFacts(app, statuses, ans.now);
    BuildAllWorkloads(app, statuses, ans.now);
    StampInBuild(app, 0, Building(app.status.annotations, [], statuses, [], None, false), ans.now, k);
    PausedWorkload(b.objects, app.spec, WantsSuspend(app.spec), app.status.suspendedReplicas, k, o);
  }

  lemma PausedWorkload(objs: seq<Obj>, spec: Spec, suspended: bool, record: Record, k: nat, o: Obj)
    requires Accounts(objs, spec.components, |spec.components|) && DistinctResources(spec) && k < |spec.components|
    requires o in PauseFrom(objs, 0, suspended, record).0 && IsWorkload(o) && o.instance == spec.components[k].name
    ensures o.body.restartedAt == Workloads(objs)[k].body.restartedAt
  {
    hide PauseFrom, DeriveResourceName;
    PauseKeepsObjects(objs, 0, suspended, record);
    var r := PauseFrom(objs, 0, suspended, record).0;
    var i :| 0 <= i < |r| && r[i] == o;
    assert IsWorkload(objs[i]) && o.body.restartedAt == objs[i].body.restartedAt;
    WorkloadsMembers(objs, objs[i]);
    var ws := Workloads(objs);
    var p :| 0 <= p < |ws| && ws[p] == objs[i];
    assert WorkloadOf(ws[p], spec.components[p]);
    assert DeriveResourceName(spec.components[p].name) == DeriveResourceName(spec.components[k].name);
  }

  lemma OwnedConfig(o: Obj, app: App, k: nat)
    requires k < |app.spec.components| && Owned(o, app, k) && o.kind == ConfigMap
    ensures var c := app.spec.components[k];
            && c.properties.Parsed? && c.properties.config.configFiles != map[] && o.instance == c.name
            && o.name == ConfigMapName(c.name) && o.body == Files(c.properties.config.configFiles)
  {
    hide ConfigMapName, HeadlessName, DeriveResourceName, DeriveServiceAccountName;
  }

  lemma OwnerOf(first: Spec, app: App, ans: Oracle, o: Obj) returns (k: nat)
    requires Builds(first, app) && o in DesiredObjects(first, app, ans)
    ensures k < |app.spec.components| && Owned(o, app, k)
  {
    hide DesiredObjects, Builds, Owned;
    DistinctKeysIffCompatible(first, app, ans);
    k :| 0 <= k < |app.spec.components| && Owned(o, app, k);
  }

  /** The hash a cycle records under a ConfigMap's name is that of the data in the very ConfigMap
      it applies, which is the component's own. */
  lemma AppliedFilesAreRecorded(first: Spec, app: App, ans: Oracle, o: Obj)
    requires Initialize(first).1.None? && Builds(first, app) && DistinctResources(app.spec)
    requires o in DesiredObjects(first, app, ans) && o.kind == ConfigMap
    ensures var r := Process(first, app, ans);
            && !r.panicked && o.body.Files? && o.name in r.status.annotations
            && r.status.annotations[o.name] == ConfigHash(o.body.data)
            && exists k :: 0 <= k < |app.spec.components| && app.spec.components[k].name == o.instance
                           && app.spec.components[k].properties.Parsed?
                           && o.body.data == app.spec.components[k].properties.config.configFiles
  {
    hide Process, Initialize, DesiredObjects, ConfigMapName, WritesFrom, Buildable, Builds, Owned;
    var cs := app.spec.components;
    var k := OwnerOf(first, app, ans, o);
    OwnedConfig(o, app, k);
    BuildsWithoutPanic(first, app, ans);
    CarriedOver(first, app, ans);
    AllBuildables(first, app);
    assert forall j :: 0 <= j < |cs| ==> cs[j].name in ComponentNames(cs);
    HashesUpTo(app.namespace, cs, 0, k, ComponentNames(cs), app.status.annotations);
  }

  lemma AllBuildables(first: Spec, app: App)
    requires Builds(first, app)
    ensures forall k :: 0 <= k < |app.spec.components| ==> Buildable(app.namespace, app.spec.components[k])
  {
  }

  // ----- whole runs -----

  /** The hashes of all cycles that stored a status, in their order. */
  ghost function LandedHashes(env: Environment, w: World, n: nat): map<string, ConfigHash> {
    if n == 0 then map[]
    else
      var w0, w1 := Run(env, w, n - 1), Run(env, w, n);
      if !Quiet(w0, w1) && w1.last.Some? && w1.last.value.cause.Processed?
      then LandedHashes(env, w, n - 1) + Hashes(w1.last.value.cause.app.namespace, w1.last.value.cause.app.spec)
      else LandedHashes(env, w, n - 1)
  }

  lemma WrittenHashes(wr: Write)
    requires WriteGood(wr) && IsStatusWrite(wr.cause)
    ensures wr.after.status.annotations == wr.before.status.annotations +
            if wr.cause.Processed? then Hashes(wr.cause.app.namespace, wr.cause.app.spec) else map[]
  {
    hide Process, Initialize, SetCondition, SliceOf, Hashes;
    if wr.cause.Processed? {
      CarriedOver(wr.cause.first, wr.cause.app, wr.cause.answers);
    }
  }

  /** The stored hash record is exactly what the landed cycles wrote. */
  lemma {:induction false} RecordIsLanded(env: Environment, w: World, n: nat)
    requires IsInitial(w)
    ensures var s := Run(env, w, n).store; s.Some? ==> s.value.status.annotations == LandedHashes(env, w, n)
  {
    hide Reconcile, Hashes, WriteGood;
    if n > 0 {
      RecordIsLanded(env, w, n - 1);
      var w0, w1 := Run(env, w, n - 1), Run(env, w, n);
      CycleStores(env, w0);
      if !Quiet(w0, w1) {
        WrittenHashes(w1.last.value);
      }
    }
  }

  lemma {:induction false} HashesUpTo(namespace: string, cs: seq<Component>, i: nat, k: nat, known: set<string>,
                                      a: map<string, ConfigHash>)
    requires i <= |cs| && k < |cs|
    requires forall j :: i <= j < |cs| ==> cs[j].name in known && Buildable(namespace, cs[j])
    requires forall j, l :: 0 <= j < l < |cs| ==> DeriveResourceName(cs[j].name) != DeriveResourceName(cs[l].name)
    ensures var r := a + WritesFrom(namespace, cs, i, known);
            HashOf(r, cs[k]) == if i <= k && cs[k].properties.Parsed? && cs[k].properties.config.configFiles != map[]
                                then Some(ConfigHash(cs[k].properties.config.configFiles)) else HashOf(a, cs[k])
    decreases |cs| - i
  {
    hide Identities, DeriveResourceName, Verified;
    if i < |cs| {
      var own := Recorded(map[], cs[i]);
      HashesUpTo(namespace, cs, i + 1, k, known, a + own);
      assert a + own + WritesFrom(namespace, cs, i + 1, known) == a + WritesFrom(namespace, cs, i, known);
      if i != k {
        SuffixInjective(DeriveResourceName(cs[i].name), DeriveResourceName(cs[k].name), "-config");
      }
    }
  }

  /** Cycle n worked on app and its status was stored. */
  ghost predicate CycleLanded(env: Environment, w: World, n: nat, first: Spec, app: App, ans: Oracle) {
    var last := Run(env, w, n + 1).last;
    !Quiet(Run(env, w, n), Run(env, w, n + 1)) && last.Some? && last.value.cause == Processed(first, app, ans)
  }

  lemma BuildableParsed(namespace: string, c: Component)
    requires Buildable(namespace, c)
    ensures c.properties.Parsed?
  {
  }

  lemma LandedNext(env: Environment, w: World, n: nat, first: Spec, app: App, ans: Oracle)
    requires CycleLanded(env, w, n, first, app, ans)
    ensures LandedHashes(env, w, n + 1) == LandedHashes(env, w, n) + Hashes(app.namespace, app.spec)
  {
    hide Run, Quiet, Hashes;
  }

  /** Cycle n worked on app, built all of it and could store its status: it landed, or was
      suppressed over a status that was honest. */
  ghost predicate KeptRecord(env: Environment, w: World, n: nat, first: Spec, app: App, ans: Oracle) {
    var p := PathOf(env, Run(env, w, n));
    && p.Worked? && TraceFor(env, p) == Acted(first, app, ans) && Builds(first, app)
    && (CycleLanded(env, w, n, first, app, ans) || (WriteError(env, p).None? && LastHonest(Run(env, w, n))))
  }

  lemma BuildsWithoutPanic(first: Spec, app: App, ans: Oracle)
    requires Builds(first, app)
    ensures !Process(first, app, ans).panicked
  {
    hide BuildFrom, Paused, ApplyAll, Checked, MarkAll, SliceOf, Initialize, FinalPhase, SetCondition, AllBuild;
    BuildAllFacts(app, Initialize(first).0, ans.now);
  }

  lemma LandedRecord(env: Environment, w: World, n: nat, first: Spec, app: App, ans: Oracle)
    requires CycleLanded(env, w, n, first, app, ans)
    ensures var s := Run(env, w, n + 1).store;
            s.Some? && s.value.status.annotations == Process(first, app, ans).status.annotations
  {
    hide Run, Reconcile, Process, GoodWrites;
    RunNext(env, w, n);
    CycleStores(env, Run(env, w, n));
    LandedStatus(Run(env, w, n), Run(env, w, n + 1), first, app, ans);
  }

  /** After such a cycle the record holds the component's data, or, if it has none, what it held before. */
  lemma RecordAfter(env: Environment, w: World, n: nat, first: Spec, app: App, ans: Oracle, k: nat)
    requires IsInitial(w) && KeptRecord(env, w, n, first, app, ans) && DistinctResources(app.spec)
             && k < |app.spec.components|
    ensures var c := app.spec.components[k];
            && c.properties.Parsed?
            && var s := Run(env, w, n + 1).store;
               s.Some? ==> HashOf(s.value.status.annotations, c) ==
                             if c.properties.config.configFiles != map[]
                             then Some(ConfigHash(c.properties.config.configFiles))
                             else HashOf(app.status.annotations, c)
  {
    hide Run, Reconcile, Process, PathOf, Initialize, LastHonest, CycleLanded, WriteError, HashOf, WritesFrom,
         Buildable, DeriveResourceName;
    var cs := app.spec.components;
    BuildsWithoutPanic(first, app, ans);
    AcceptedFirst(env, Run(env, w, n));
    CarriedOver(first, app, ans);
    if CycleLanded(env, w, n, first, app, ans) {
      LandedRecord(env, w, n, first, app, ans);
    } else {
      NoChangeDropped(env, w, n);
    }
    assert forall j :: 0 <= j < |cs| ==> cs[j].name in ComponentNames(cs);
    BuildableParsed(app.namespace, cs[k]);
    HashesUpTo(app.namespace, cs, 0, k, ComponentNames(cs), app.status.annotations);
  }

  /** A component that is restarted or not, from one working cycle to the next: after a cycle that
      built everything and could store its status - also when an equal status was suppressed - and
      any cycles that stored none, a component is restarted if and only if its data differs from
      that cycle's, or, if it had none there, from the record that cycle began with. */
  lemma RestartsOnChange(env: Environment, w: World, n: nat, m: nat, first: Spec, app: App, ans: Oracle, first': Spec,
                         app': App, ans': Oracle,
                         j: nat, k: nat, o: Obj)
    requires IsInitial(w) && n < m && KeptRecord(env, w, n, first, app, ans) && NothingStored(env, w, n + 1, m)
    requires DistinctResources(app.spec) && j < |app.spec.components| && app.spec.components[j].properties.Parsed?
    requires TraceOf(env, Run(env, w, m)) == Acted(first', app', ans') && Builds(first', app')
    requires DistinctResources(app'.spec) && k < |app'.spec.components| && app'.spec.components[k].properties.Parsed?
    requires app.spec.components[j].name == app'.spec.components[k].name
    requires o in DesiredObjects(first', app', ans') && IsWorkload(o) && o.instance == app'.spec.components[k].name
    ensures var before, now := app.spec.components[j].properties.config.configFiles,
                               app'.spec.components[k].properties.config.configFiles;
            o.body.restartedAt.Some? <==>
              now != map[] && if before != map[] then now != before
                              else HashOf(app.status.annotations, app'.spec.components[k]) != Some(ConfigHash(now))
  {
    hide Run, Reconcile, PathOf, Process, KeptRecord, NothingStored, Initialize, DesiredObjects, IsWorkload,
         DeriveResourceName, Builds, DistinctResources;
    RecordAfter(env, w, n, first, app, ans, j);
    QuietStretch(env, w, n + 1, m);
    ActedOnStored(env, Run(env, w, m));
    AcceptedFirst(env, Run(env, w, m));
    RestartIff(first', app', ans', k, o);
  }

  /** Before anything has landed, exactly the components with data are restarted. */
  lemma RestartsAtFirst(env: Environment, w: World, n: nat, first: Spec, app: App, ans: Oracle, k: nat, o: Obj)
    requires IsInitial(w) && LandedHashes(env, w, n) == map[] && StoreEvolved(Run(env, w, n).store, Some(app))
    requires Initialize(first).1.None? && Builds(first, app) && DistinctResources(app.spec) && k < |app.spec.components|
    requires o in DesiredObjects(first, app, ans) && IsWorkload(o) && o.instance == app.spec.components[k].name
    ensures o.body.restartedAt.Some? <==> app.spec.components[k].properties.config.configFiles != map[]
  {
    hide Run, Initialize, DesiredObjects, IsWorkload, LandedHashes, DeriveResourceName;
    RecordIsLanded(env, w, n);
    RestartIff(first, app, ans, k, o);
  }

  /** A build records the data of every component it reaches, whatever happens after it. */
  lemma {:induction false} ReachedIsRecorded(namespace: string, cs: seq<Component>, i: nat, k: nat, known: set<string>,
                                             a: map<string, ConfigHash>)
    requires i <= k < |cs| && cs[k].properties.Parsed? && Verified(cs[k].properties.config)
             && cs[k].properties.config.configFiles != map[]
    requires forall j :: i <= j < k ==> Buildable(namespace, cs[j])
    requires forall j :: i <= j < |cs| ==> cs[j].name in known
    requires forall j, l :: 0 <= j < l < |cs| ==> DeriveResourceName(cs[j].name) != DeriveResourceName(cs[l].name)
    ensures HashOf(a + WritesFrom(namespace, cs, i, known), cs[k])
            == Some(ConfigHash(cs[k].properties.config.configFiles))
    decreases |cs| - i
  {
    hide Identities, DeriveResourceName, Buildable, Verified;
    var own, rest := Recorded(map[], cs[i]), if Buildable(namespace, cs[i]) then WritesFrom(namespace, cs, i + 1, known)
                                             else map[];
    assert WritesFrom(namespace, cs, i, known) == own + rest;
    assert a + own + rest == a + (own + rest);
    if i < k {
      ReachedIsRecorded(namespace, cs, i + 1, k, known, a + own);
    } else if Buildable(namespace, cs[i]) {
      LaterLeavesAlone(namespace, cs, i + 1, k, known, a + own);
    }
  }

  lemma {:induction false} LaterLeavesAlone(namespace: string, cs: seq<Component>, i: nat, k: nat, known: set<string>,
                                            a: map<string, ConfigHash>)
    requires k < i <= |cs|
    requires forall j, l :: 0 <= j < l < |cs| ==> DeriveResourceName(cs[j].name) != DeriveResourceName(cs[l].name)
    ensures HashOf(a + WritesFrom(namespace, cs, i, known), cs[k]) == HashOf(a, cs[k])
    decreases |cs| - i
  {
    hide Identities, DeriveResourceName, Buildable, Verified;
    if i < |cs| && cs[i].name in known {
      var own, rest := Recorded(map[], cs[i]),
                       if Buildable(namespace, cs[i]) then WritesFrom(namespace, cs, i + 1, known) else map[];
      assert WritesFrom(namespace, cs, i, known) == own + rest;
      assert a + own + rest == a + (own + rest);
      SuffixInjective(DeriveResourceName(cs[i].name), DeriveResourceName(cs[k].name), "-config");
      LaterLeavesAlone(namespace, cs, i + 1, k, known, a + own);
    }
  }

  /** A restart can be lost: a landed cycle that reached component j recorded its data, even if a
      later component did not build or nothing was applied; a later cycle that then succeeds with
      the same data stamps no restart. */
  lemma RestartLost(env: Environment, w: World, n: nat, m: nat, first: Spec, app: App, ans: Oracle, first': Spec,
                    app': App, ans': Oracle,
                    j: nat, k: nat, o: Obj)
    requires IsInitial(w) && n < m && CycleLanded(env, w, n, first, app, ans) && NothingStored(env, w, n + 1, m)
    requires DistinctResources(app.spec) && j < |app.spec.components|
    requires forall i :: 0 <= i < j ==> Buildable(app.namespace, app.spec.components[i])
    requires var c := app.spec.components[j];
             c.properties.Parsed? && Verified(c.properties.config) && c.properties.config.configFiles != map[]
    requires TraceOf(env, Run(env, w, m)) == Acted(first', app', ans') && Builds(first', app')
    requires DistinctResources(app'.spec) && k < |app'.spec.components|
             && app'.spec.components[k] == app.spec.components[j]
    requires o in DesiredObjects(first', app', ans') && IsWorkload(o) && o.instance == app'.spec.components[k].name
    ensures o.body.restartedAt.None?
  {
    hide Run, Reconcile, PathOf, Process, NothingStored, Initialize, DesiredObjects, IsWorkload, LandedHashes,
         DeriveResourceName, CycleLanded,
         Buildable, HashOf, WritesFrom, Builds;
    var cs := app.spec.components;
    RecordIsLanded(env, w, n + 1);
    LandedNext(env, w, n, first, app, ans);
    assert forall i :: 0 <= i < |cs| ==> cs[i].name in ComponentNames(cs);
    ReachedIsRecorded(app.namespace, cs, 0, j, ComponentNames(cs), LandedHashes(env, w, n));
    QuietStretch(env, w, n + 1, m);
    ActedOnStored(env, Run(env, w, m));
    AcceptedFirst(env, Run(env, w, m));
    RestartIff(first', app', ans', k, o);
  }
}
