/** The comparison that suppresses status writes ignores the replica record and the config
    hashes, and yet no change to them is dropped: a change comes with a phase or generation
    change that is compared. */
module NothingDropped {
  import opened Text
  import opened Config
  import opened Builder
  import opened Status
  import opened StatusCompare
  import opened PauseResume
  import opened Api
  import opened Cycle
  import opened CycleFacts
  import opened BuildFacts
  import opened Reconciler
  import opened Effects
  import opened Runs
  import opened Readiness
  import opened FastPathSoundness

  // ----- processing a specification twice records nothing new -----

  function ComponentNames(cs: seq<Component>): set<string> {
    set k | 0 <= k < |cs| :: cs[k].name
  }

  lemma InstancesAreComponents(objs: seq<Obj>, cs: seq<Component>)
    requires Accounts(objs, cs, |cs|)
    ensures Instances(objs) == ComponentNames(cs)
  {
    hide IsWorkload;
    var ws := Workloads(objs);
    forall o | o in objs && IsWorkload(o) ensures o.instance in ComponentNames(cs) {
      WorkloadsMembers(objs, o);
      var j :| 0 <= j < |ws| && ws[j] == o;
      assert WorkloadOf(ws[j], cs[j]);
    }
    forall j | 0 <= j < |cs| ensures cs[j].name in Instances(objs) {
      assert WorkloadOf(ws[j], cs[j]);
      WorkloadsMembers(objs, ws[j]);
    }
  }

  /** Resuming forgets the current workloads and nothing else. */
  lemma {:induction false} ResumedRecord(objs: seq<Obj>, i: nat, record: Record)
    requires i <= |objs|
    ensures PauseFrom(objs, i, false, record).1 == record - Instances(objs[i..])
    decreases |objs| - i
  {
    if i < |objs| {
      var objs' := objs[i := PauseObject(objs[i], false, record)];
      ResumedRecord(objs', i + 1, PauseRecord(objs[i], false, record));
      assert objs'[i + 1..] == objs[i + 1..];
      assert objs[i..] == [objs[i]] + objs[i + 1..];
      assert Instances(objs[i..])
             == Instances(objs[i + 1..]) + (if IsWorkload(objs[i]) then {objs[i].instance} else {});
    } else {
      assert objs[i..] == [];
    }
  }

  /** Without a panic, what a build records depends on the specification alone. */
  lemma {:induction false} WritesWhateverKnown(namespace: string, cs: seq<Component>, i: nat, known: set<string>)
    requires i <= |cs|
    requires forall k :: i <= k < |cs| && (forall j :: i <= j < k ==> Buildable(namespace, cs[j])) ==>
               cs[k].name in known
    ensures WritesFrom(namespace, cs, i, known) == WritesFrom(namespace, cs, i, ComponentNames(cs))
    decreases |cs| - i
  {
    hide Buildable, Recorded;
    if i < |cs| {
      assert cs[i].name in ComponentNames(cs);
      assert cs[i].name in known;
      if Buildable(namespace, cs[i]) {
        WritesWhateverKnown(namespace, cs, i + 1, known);
      }
    }
  }

  lemma {:induction false} KnownUnlessPanicked(app: App, i: nat, b: Building, now: Time, k: nat)
    requires i <= k < |app.spec.components| && !Stopped(b)
    requires forall j :: i <= j < k ==> Buildable(app.namespace, app.spec.components[j])
    requires !BuildFrom(app, i, b, now).panicked
    ensures app.spec.components[k].name in b.statuses
    decreases |app.spec.components| - i
  {
    hide BuildStep, Buildable, Recorded, ObjectsOf, Identities;
    var b' := BuildStep(app.namespace, app.spec.components[i], b, now);
    BuildStepFacts(app.namespace, app.spec.components[i], b, now);
    if Stopped(b') {
      assert BuildFrom(app, i + 1, b', now) == b';
    } else if i < k {
      KnownUnlessPanicked(app, i + 1, b', now, k);
    }
  }

  /** The hashes a specification records. */
  function Hashes(namespace: string, spec: Spec): map<string, ConfigHash> {
    WritesFrom(namespace, spec.components, 0, ComponentNames(spec.components))
  }

  /** The final phase leaves record, hashes and change mark alone, and Suspended where it is. */
  lemma FinalPhaseKeeps(st: AppStatus, error: Option<Error>, allReady: bool)
    ensures var r := FinalPhase(st, error, allReady);
            && r.suspendedReplicas == st.suspendedReplicas && r.annotations == st.annotations
            && r.lastChangeID == st.lastChangeID
            && (r.phase == Suspended <==> st.phase == Suspended)
  {
    hide SetCondition, ReasonFor, Render;
  }

  /** What a cycle makes of the hashes and of the replica record. */
  lemma CarriedOver(first: Spec, app: App, ans: Oracle)
    requires !Process(first, app, ans).panicked && Initialize(first).1.None?
    ensures var r := Process(first, app, ans);
            && r.status.annotations == app.status.annotations + Hashes(app.namespace, app.spec)
            && (!Builds(first, app) ==>
                  r.status.suspendedReplicas == app.status.suspendedReplicas && r.status.phase == Phase.Failed)
            && (Builds(first, app) && WantsSuspend(app.spec) <==> r.status.phase == Suspended)
            && (Builds(first, app) && !WantsSuspend(app.spec) ==>
                  r.status.suspendedReplicas == app.status.suspendedReplicas - ComponentNames(app.spec.components))
  {
    hide BuildFrom, PauseFrom, ApplyAll, Checked, MarkAll, SliceOf, Initialize, FinalPhase, SetCondition, AllBuild,
         ComponentNames, Hashes;
    var statuses := Initialize(first).0;
    InitializeFacts(first);
    var b := BuildAll(app, statuses, ans.now);
    BuildAllFacts(app, statuses, ans.now);
    BuildAllWorkloads(app, statuses, ans.now);
    forall st: AppStatus, e, r { FinalPhaseKeeps(st, e, r); }
    HashesRecorded(app, statuses, ans.now);
    if !Stopped(b) {
      InstancesAreComponents(b.objects, app.spec.components);
      ResumedRecord(b.objects, 0, app.status.suspendedReplicas);
      assert b.objects[0..] == b.objects;
    }
  }

  lemma HashesRecorded(app: App, statuses: Statuses, now: Time)
    requires !BuildAll(app, statuses, now).panicked
    ensures BuildAll(app, statuses, now).annotations == app.status.annotations + Hashes(app.namespace, app.spec)
  {
    hide BuildFrom, Buildable;
    var cs := app.spec.components;
    BuildAllFacts(app, statuses, now);
    var start := Building(app.status.annotations, [], statuses, [], None, false);
    forall k | 0 <= k < |cs| && (forall j :: 0 <= j < k ==> Buildable(app.namespace, cs[j]))
      ensures cs[k].name in statuses.Keys
    {
      KnownUnlessPanicked(app, 0, start, now, k);
    }
    WritesWhateverKnown(app.namespace, cs, 0, statuses.Keys);
  }

  // ----- suppressed writes -----

  /** The last status was computed from the generation it carries. */
  ghost predicate LastHonest(w: World) {
    w.last.Some? && IsStatusWrite(w.last.value.cause) && !w.last.value.cause.Started? ==> Honest(w.last.value)
  }

  ghost predicate Suppressed(app: App, r: Result) {
    SameStatus(Stamp(app, r.status).status, app.status)
  }

  /** Two condition lists that compare equal carry the same Ready condition. */
  lemma SameReady(cs: seq<Condition>, c: Condition, ds: seq<Condition>, d: Condition)
    requires DistinctTypes(cs) && DistinctTypes(ds) && c.kind == d.kind
    requires Matches(ConditionPairs(SetCondition(cs, c)), ConditionPairs(SetCondition(ds, d)))
    ensures c == d
  {
    SetConditionSets(cs, c);
    SetConditionSets(ds, d);
    var l1, l2 := ConditionPairs(SetCondition(cs, c)), ConditionPairs(SetCondition(ds, d));
    var i :| 0 <= i < |l1| && SetCondition(cs, c)[i] == c;
    var j :| 0 <= j < |l2| && SetCondition(ds, d)[j] == d;
    LastOfDistinct(l1);
    assert l1[i].0 == l2[j].0;
    assert LastOf(l1)[l1[i].0] == l1[i].1 && LastOf(l1)[l2[j].0] == l2[j].1;
  }

  /** The one condition a cycle sets. */
  lemma ProcessCondition(first: Spec, app: App, ans: Oracle) returns (c: Condition)
    requires !Process(first, app, ans).panicked
    ensures Process(first, app, ans).status.conditions == SetCondition(app.status.conditions, c)
    ensures c.kind == Ready && c.reason != InitializationFailed
  {
    hide BuildAll, Paused, ApplyAll, Checked, MarkAll, SliceOf, Initialize, Render, SetCondition;
    var b := BuildAll(app, Initialize(first).0, ans.now);
    if b.error.Some? {
      c := Condition(Ready, false, ProcessingFailed, b.error);
    } else {
      var (objs, record) := Paused(app, b);
      var k := Checked(app, ApplyAll(objs, b.statuses, ans), ans);
      var phase := ResumedPhase(app.status, app.spec);
      c := if phase == Suspended then Condition(Ready, false, IntentionallySuspended, None)
           else if k.firstError.Some? then Condition(Ready, false, ReasonFor(Render(k.firstError.value)), k.firstError)
           else if k.allReady then Condition(Ready, true, ComponentsReady, None)
           else Condition(Ready, false, if phase == Running || phase == Degraded then ComponentsDegraded
                                        else if phase == Creating then ComponentsCreating
                                             else ComponentsApplying, None);
    }
  }

  lemma BuildsWithin(first: Spec, first': Spec, app: App, app': App)
    requires app.spec == app'.spec && app.namespace == app'.namespace
    requires Builds(first, app)
    requires forall k :: (0 <= k < |app.spec.components|
                          && forall j :: 0 <= j < k ==> Buildable(app.namespace, app.spec.components[j])) ==>
               app.spec.components[k].name in Initialize(first').0
    ensures Builds(first', app')
  {
  }

  lemma SameBuilds(first: Spec, first': Spec, app: App, app': App, ans: Oracle, ans': Oracle)
    requires app.spec == app'.spec && app.namespace == app'.namespace
    requires !Process(first, app, ans).panicked && !Process(first', app', ans').panicked
    ensures Builds(first, app) <==> Builds(first', app')
  {
    NotPanickedKnown(first, app, ans);
    NotPanickedKnown(first', app', ans');
    if Builds(first, app) {
      BuildsWithin(first, first', app, app');
    } else if Builds(first', app') {
      BuildsWithin(first', first, app', app);
    }
  }

  lemma NotPanickedKnown(first: Spec, app: App, ans: Oracle)
    requires !Process(first, app, ans).panicked
    ensures forall k :: (0 <= k < |app.spec.components|
                         && forall j :: 0 <= j < k ==> Buildable(app.namespace, app.spec.components[j])) ==>
              app.spec.components[k].name in Initialize(first).0
  {
    hide BuildFrom, Buildable, Paused, ApplyAll, Checked, FinalPhase, MarkAll, SliceOf, Initialize, SetCondition;
    var cs := app.spec.components;
    var start := Building(app.status.annotations, [], Initialize(first).0, [], None, false);
    forall k | 0 <= k < |cs| && (forall j :: 0 <= j < k ==> Buildable(app.namespace, cs[j]))
      ensures cs[k].name in Initialize(first).0
    {
      KnownUnlessPanicked(app, 0, start, ans.now, k);
    }
  }

  /** The same specification twice: what the first pass carried over, the second leaves alone,
      unless it takes the application into suspension. */
  lemma CarriedOverTwice(first: Spec, app: App, ans: Oracle, first': Spec, app': App, ans': Oracle)
    requires app.spec == app'.spec && app.namespace == app'.namespace
    requires Initialize(first).1.None? && Initialize(first').1.None?
    requires !Process(first, app, ans).panicked && !Process(first', app', ans').panicked
    requires var r := Process(first, app, ans).status;
             app'.status.annotations == r.annotations && app'.status.suspendedReplicas == r.suspendedReplicas
    requires Process(first', app', ans').status.phase != Suspended
    ensures var r' := Process(first', app', ans').status;
            r'.annotations == app'.status.annotations && r'.suspendedReplicas == app'.status.suspendedReplicas
  {
    hide Process, Initialize, Hashes, Builds;
    CarriedOver(first, app, ans);
    CarriedOver(first', app', ans');
    SameBuilds(first, first', app, app', ans, ans');
    var h := Hashes(app.namespace, app.spec);
    assert app.status.annotations + h + h == app.status.annotations + h;
  }

  // ----- over whole runs -----

  /** The first status ever written is the initial phase, and generations start at one. */
  ghost predicate Begun(w: World) {
    && (w.last.Some? && w.last.value.cause.Started? ==> w.last.value.after.status == StartedStatus(EMPTY_STATUS))
    && (w.store.Some? ==> w.store.value.generation >= 1)
  }

  lemma BegunCycle(env: Environment, w: World)
    requires Inv(w) && Begun(w)
    ensures Begun(Reconcile(env, w, WATCHED).0)
  {
    hide Reconcile, Process, SetCondition;
    CycleStores(env, w);
    var w' := Reconcile(env, w, WATCHED).0;
    if Stored(w, w') && w.last.Some? {
      LastWriteStands(w);
    }
  }

  lemma {:induction false} BegunRun(env: Environment, w: World, n: nat)
    requires IsInitial(w)
    ensures Begun(Run(env, w, n))
  {
    hide Reconcile, Inv;
    if n > 0 {
      InvRun(env, w, n - 1);
      BegunRun(env, w, n - 1);
      BegunCycle(env, Run(env, w, n - 1));
    }
  }

  /** When the status carries the object's generation and was written honestly, it was computed
      from the specification the object has. */
  lemma HonestSource(w: World, app: App)
    requires Inv(w) && LastHonest(w) && StoreEvolved(w.store, Some(app))
    requires w.last.Some? && !w.last.value.cause.Started? && app.status.observedGeneration == app.generation
    ensures w.last.value.cause.app.spec == app.spec && w.last.value.cause.app.namespace == app.namespace
    ensures app.status == w.last.value.after.status
  {
    hide Process;
    WrittenStatus(w.last.value);
  }

  /** A specification that could not be initialized left a condition no later cycle repeats. */
  lemma RejectedNotRepeated(first: Spec, app: App, ans: Oracle, before: AppStatus, e: Error)
    requires !Process(first, app, ans).panicked && DistinctTypes(app.status.conditions)
             && DistinctTypes(before.conditions)
    requires app.status.conditions
             == WithCondition(before, Phase.Failed, false, InitializationFailed, Some(e)).conditions
    ensures !Suppressed(app, Process(first, app, ans))
  {
    hide Process;
    var c := ProcessCondition(first, app, ans);
    var d := Condition(Ready, false, InitializationFailed, Some(e));
    if Matches(ConditionPairs(SetCondition(app.status.conditions, c)),
               ConditionPairs(SetCondition(before.conditions, d))) {
      SameReady(app.status.conditions, c, before.conditions, d);
    }
  }

  /** A cycle whose status write is suppressed has changed neither the replica record nor the
      hashes, provided the stored status was computed from the generation it carries. */
  lemma SuppressedChangesNothing(w: World, first: Spec, app: App, ans: Oracle)
    requires Inv(w) && Begun(w) && AlwaysOK(w) && LastHonest(w)
    requires StoreEvolved(w.store, Some(app)) && Acting(first, app)
    requires var r := Process(first, app, ans); !r.panicked && Suppressed(app, r)
    ensures var r := Process(first, app, ans).status;
            r.suspendedReplicas == app.status.suspendedReplicas && r.annotations == app.status.annotations
  {
    hide Process, Initialize, SetCondition, Builds, Hashes, SliceOf, Matches, ConditionPairs, ComponentPairs, StatusOK;
    CarriedOver(first, app, ans);
    assert w.last.Some?;
    HonestLastStarted(w, app);
    HonestSource(w, app);
    match w.last.value.cause {
      case Emptied(a) => EmptyCarriesNothing(first, app, ans);
      case Rejected(a) =>
        StatusDistinct(w);
        RejectedNotRepeated(first, app, ans, a.status, Initialize(a.spec).1.value);
        assert false;
      case Processed(first0, a, ans0) => CarriedOverTwice(first0, a, ans0, first, app, ans);
    }
  }

  lemma StatusDistinct(w: World)
    requires AlwaysOK(w) && w.last.Some? && w.store.Some?
    ensures DistinctTypes(w.last.value.before.status.conditions) && DistinctTypes(w.store.value.status.conditions)
  {
  }

  lemma HonestLastStarted(w: World, app: App)
    requires Begun(w) && Inv(w) && w.last.Some? && StoreEvolved(w.store, Some(app))
             && app.status.observedGeneration == app.generation
    ensures !w.last.value.cause.Started?
  {
    hide Process, SetCondition;
  }

  lemma EmptyCarriesNothing(first: Spec, app: App, ans: Oracle)
    requires Initialize(first).1.None? && !Process(first, app, ans).panicked && app.spec.components == []
    requires Process(first, app, ans).status.phase != Suspended
    ensures var r := Process(first, app, ans).status;
            r.suspendedReplicas == app.status.suspendedReplicas && r.annotations == app.status.annotations
  {
    hide Process, Initialize;
    CarriedOver(first, app, ans);
    assert Builds(first, app);
    assert ComponentNames(app.spec.components) == {};
  }
}
