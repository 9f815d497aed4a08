/** No change to the replica record is ever dropped, whatever generation the stored status
    carries, as long as no cycle lost components between its read and its finalizer write. */
module RecordKept {
  import opened Text
  import opened Config
  import opened Builder
  import opened Status
  import opened StatusCompare
  import opened StatusOrder
  import opened PauseResume
  import opened Api
  import opened Cycle
  import opened CycleFacts
  import opened BuildFacts
  import opened Reconciler
  import opened Effects
  import opened Runs
  import opened Readiness
  import opened FastPathSoundness
  import opened NothingDropped
  import opened Outcomes
  import opened ObjectIdentity
  import opened StoredExactly
  import Apply

  // ----- the entries of a cycle -----

  /** Every cycle stores one entry for each component it has read. */
  lemma ProcessNames(first: Spec, app: App, ans: Oracle, n: string)
    requires !Process(first, app, ans).panicked
    ensures Listed(Process(first, app, ans).status.components, n) <==> n in Initialize(first).0
  {
    hide BuildAll, Paused, ApplyAll, CheckAll, MarkAll, Initialize, FinalPhase, SetCondition, KeyedByName, Canonical;
    InitializeFacts(first);
    var b := BuildAll(app, Initialize(first).0, ans.now);
    BuildAllFacts(app, Initialize(first).0, ans.now);
    if b.error.Some? {
      MarkKeepsNames(b.statuses, b.error.value);
      SliceNames(MarkAll(b.statuses, b.error.value), n);
    } else {
      var a := ApplyAll(Paused(app, b).0, b.statuses, ans);
      ApplyKeepsNames(Paused(app, b).0, b.statuses, ans);
      if a.firstError.Some? {
        MarkKeepsNames(a.statuses, a.firstError.value);
      } else {
        CheckAllKeepsNames(app, a.statuses, ans);
      }
      SliceNames(Checked(app, a, ans).statuses, n);
    }
  }

  lemma SliceNames(m: Statuses, n: string)
    requires KeyedByName(m)
    ensures Listed(SliceOf(m), n) <==> n in m
  {
    hide Canonical;
    CanonicalMembers(m);
    if n in m {
      assert m[n] in Canonical(m);
    }
  }

  /** Some entry reports a failed apply. */
  ghost predicate ShowsApplyError(cs: seq<CompStatus>) {
    exists s :: s in cs && s.message.ApplyError?
  }

  ghost predicate HasApplyError(m: Statuses) {
    exists n :: n in m && m[n].message.ApplyError?
  }

  lemma SliceShows(m: Statuses)
    requires KeyedByName(m)
    ensures ShowsApplyError(SliceOf(m)) <==> HasApplyError(m)
  {
    hide Canonical;
    CanonicalMembers(m);
    if HasApplyError(m) {
      var n :| n in m && m[n].message.ApplyError?;
      assert m[n] in Canonical(m);
    }
  }

  lemma MarkShows(m: Statuses, e: Error)
    ensures HasApplyError(MarkAll(m, e)) <==> HasApplyError(m)
  {
    if HasApplyError(m) {
      var n :| n in m && m[n].message.ApplyError?;
      assert MarkAll(m, e)[n] == m[n];
    }
    if HasApplyError(MarkAll(m, e)) {
      var n :| n in m && MarkAll(m, e)[n].message.ApplyError?;
      assert MarkAll(m, e)[n] == m[n];
    }
  }

  // ----- a build that failed -----

  lemma {:induction false} BuildShowsNoApplyError(app: App, i: nat, b: Building, now: Time)
    requires i <= |app.spec.components| && !HasApplyError(b.statuses)
    requires b.error.Some? ==>
               b.error.value.origin in {BuilderError, UnmarshalError, UnnamedObject} && !b.error.value.conflict
    ensures var r := BuildFrom(app, i, b, now);
            && !HasApplyError(r.statuses)
            && (r.error.Some? ==>
                  r.error.value.origin in {BuilderError, UnmarshalError, UnnamedObject} && !r.error.value.conflict)
    decreases |app.spec.components| - i
  {
    hide ObjectsOf, Recorded, Verified;
    if i < |app.spec.components| && !Stopped(b) {
      BuildShowsNoApplyError(app, i + 1, BuildStep(app.namespace, app.spec.components[i], b, now), now);
    }
  }

  /** Its status shows its own kind of error, and no entry reports an apply. */
  lemma FailedBuild(first: Spec, app: App, ans: Oracle) returns (e: Error)
    requires !Process(first, app, ans).panicked && !Builds(first, app)
    ensures var st := Process(first, app, ans).status;
            && st.conditions == SetCondition(app.status.conditions, Condition(Ready, false, ProcessingFailed, Some(e)))
            && e.origin in {BuilderError, UnmarshalError, UnnamedObject} && !e.conflict
            && !ShowsApplyError(st.components)
  {
    hide BuildFrom, Paused, ApplyAll, Checked, MarkAll, Initialize, SetCondition, SliceOf, KeyedByName, AllBuild;
    var statuses := Initialize(first).0;
    InitializeFacts(first);
    BuildAllFacts(app, statuses, ans.now);
    var b := BuildAll(app, statuses, ans.now);
    BuildShowsNoApplyError(app, 0, Building(app.status.annotations, [], statuses, [], None, false), ans.now);
    e := b.error.value;
    MarkKeepsNames(b.statuses, e);
    MarkShows(b.statuses, e);
    SliceShows(MarkAll(b.statuses, e));
  }

  // ----- a build that succeeded -----

  /** Either the first error comes from a lookup, an owner reference or a conflict, or some entry reports it. */
  ghost predicate ErrorTold(a: Applying) {
    a.firstError.Some? ==>
      a.firstError.value.origin in {ServiceLookup, OwnerReference} || a.firstError.value.conflict
      || HasApplyError(a.statuses)
  }

  predicate OnlyApplyErrors(m: Statuses) {
    forall n :: n in m && Marked(m[n].message) ==> m[n].message.ApplyError?
  }

  lemma StepTells(o: Obj, a: Applying, ans: Oracle)
    requires o.instance in a.statuses && o.instance != "" && OnlyApplyErrors(a.statuses) && ErrorTold(a)
    ensures var r := ApplyStep(o, a, ans);
            OnlyApplyErrors(r.statuses) && ErrorTold(r) && r.statuses.Keys == a.statuses.Keys
  {
    var r := ApplyStep(o, a, ans);
    if HasApplyError(a.statuses) {
      var n :| n in a.statuses && a.statuses[n].message.ApplyError?;
      assert r.statuses[n] == a.statuses[n];
    }
    if r.statuses != a.statuses {
      assert r.statuses[o.instance].message.ApplyError?;
    }
  }

  lemma {:induction false} ApplyTells(objs: seq<Obj>, i: nat, a: Applying, ans: Oracle)
    requires i <= |objs| && OnlyApplyErrors(a.statuses) && ErrorTold(a)
    requires forall o :: o in objs ==> o.instance in a.statuses && o.instance != ""
    ensures ErrorTold(ApplyFrom(objs, i, a, ans))
    decreases |objs| - i
  {
    hide ApplyStep, ErrorTold, OnlyApplyErrors;
    if i < |objs| && !a.stopped {
      StepTells(objs[i], a, ans);
      ApplyTells(objs, i + 1, ApplyStep(objs[i], a, ans), ans);
    }
  }

  lemma MarkAppliedShows(m: Statuses, objs: seq<Obj>, results: map<Identity, Apply.ApplyResult>)
    requires HasApplyError(m)
    ensures HasApplyError(MarkApplied(m, objs, results))
  {
    var n :| n in m && m[n].message.ApplyError?;
    assert MarkApplied(m, objs, results)[n] == m[n];
  }

  lemma ApplyAllTells(objs: seq<Obj>, statuses: Statuses, ans: Oracle)
    requires OnlyApplyErrors(statuses) && forall o :: o in objs ==> o.instance in statuses && o.instance != ""
    ensures ErrorTold(ApplyAll(objs, statuses, ans))
  {
    hide ApplyFrom, MarkApplied, HasApplyError, OnlyApplyErrors;
    var start := Applying(map[], statuses, [], [], None, false);
    if objs != [] {
      ApplyTells(objs, 0, start, ans);
      var a := ApplyFrom(objs, 0, start, ans);
      if HasApplyError(a.statuses) {
        MarkAppliedShows(a.statuses, objs, a.results);
      }
    }
  }

  lemma CheckErrorOrigin(app: App, name: string, prior: CompStatus, ans: Oracle)
    ensures var e := CheckOne(app, name, prior, ans).error; e.Some? ==> e.value.origin in {SpecMissing, HealthLookup}
  {
  }

  lemma CheckAllOrigin(app: App, statuses: Statuses, ans: Oracle)
    ensures var e := CheckAll(app, statuses, ans).firstError; e.Some? ==> e.value.origin in {SpecMissing, HealthLookup}
  {
    hide CheckAll, CheckOne;
    CheckAllErrors(app, statuses, ans);
    if CheckAll(app, statuses, ans).firstError.Some? {
      var n :| n in statuses && CheckOne(app, n, statuses[n], ans).error == CheckAll(app, statuses, ans).firstError;
      CheckErrorOrigin(app, n, statuses[n], ans);
    }
  }

  lemma BuiltEntries(first: Spec, app: App, ans: Oracle)
    requires Builds(first, app)
    ensures var m := BuildAll(app, Initialize(first).0, ans.now).statuses;
            && OnlyApplyErrors(m) && KeyedByName(m)
            && forall o :: o in DesiredObjects(first, app, ans) ==> o.instance in m && o.instance != ""
  {
    hide BuildFrom, PauseFrom, Initialize, DesiredObjects, Identities, AllBuild, KeyedByName, PairwiseCompatible,
         AllBuildable, AllIdentities, DistinctObjectKeys;
    var statuses := Initialize(first).0;
    InitializeFacts(first);
    BuildAllFacts(app, statuses, ans.now);
    BuildAllEntries(app, statuses, ans.now);
    DistinctKeysIffCompatible(first, app, ans);
    forall o | o in DesiredObjects(first, app, ans) ensures o.instance in statuses {
      var j :| 0 <= j < |app.spec.components| && Owned(o, app, j);
      ComponentKnown(first, app, j);
    }
  }

  /** A cycle that builds and ends in Failed shows an error no build shows, or an entry that
      reports a failed apply. */
  lemma FailedAfterBuild(first: Spec, app: App, ans: Oracle) returns (c: Condition)
    requires Builds(first, app) && Process(first, app, ans).status.phase == Phase.Failed
    ensures var st := Process(first, app, ans).status;
            && st.conditions == SetCondition(app.status.conditions, c) && c.kind == Ready && c.detail.Some?
            && (c.detail.value.origin in {BuilderError, UnmarshalError, UnnamedObject} && !c.detail.value.conflict ==>
                  ShowsApplyError(st.components))
  {
    hide BuildFrom, Paused, ApplyAll, CheckAll, MarkAll, Initialize, SetCondition, SliceOf, KeyedByName, HasApplyError,
         ShowsApplyError, AllBuild,
         ReasonFor, Render, OnlyApplyErrors;
    BuildAllFacts(app, Initialize(first).0, ans.now);
    BuiltEntries(first, app, ans);
    var b := BuildAll(app, Initialize(first).0, ans.now);
    var objs := Paused(app, b).0;
    assert objs == DesiredObjects(first, app, ans);
    var a := ApplyAll(objs, b.statuses, ans);
    ApplyAllTells(objs, b.statuses, ans);
    ApplyKeepsNames(objs, b.statuses, ans);
    CheckAllOrigin(app, a.statuses, ans);
    var k := Checked(app, a, ans);
    c := Condition(Ready, false, ReasonFor(Render(k.firstError.value)), k.firstError);
    if a.firstError.Some? && HasApplyError(a.statuses) {
      MarkShows(a.statuses, a.firstError.value);
      MarkKeepsNames(a.statuses, a.firstError.value);
      SliceShows(k.statuses);
    }
  }

  /** Such a status never looks like that of a failed build. */
  lemma FailuresDiffer(first: Spec, app: App, ans: Oracle, first0: Spec, app0: App, ans0: Oracle)
    requires !Process(first0, app0, ans0).panicked && !Builds(first0, app0) && Builds(first, app)
    requires DistinctTypes(app.status.conditions) && DistinctTypes(app0.status.conditions)
    requires var r0 := Process(first0, app0, ans0).status;
             app.status.conditions == r0.conditions && app.status.components == r0.components
    requires Process(first, app, ans).status.phase == Phase.Failed
    ensures !LooksSame(app, Process(first, app, ans))
  {
    hide Process, SetCondition, Builds;
    var e := FailedBuild(first0, app0, ans0);
    var c := FailedAfterBuild(first, app, ans);
    var d := Condition(Ready, false, ProcessingFailed, Some(e));
    SetConditionSets(app.status.conditions, c);
    SetConditionSets(app0.status.conditions, d);
  }

  // ----- over whole runs -----

  /** The finalizer write after which the cycle went on lost no component it had read. */
  ghost predicate ListKept(first: Spec, app: App) {
    forall n :: n in Initialize(first).0 ==> n in ComponentNames(app.spec.components)
  }

  ghost predicate LastListKept(w: World) {
    w.last.Some? && w.last.value.cause.Processed? ==> ListKept(w.last.value.cause.first, w.last.value.cause.app)
  }

  /** The last status was stored by a cycle that did not suspend and forgot its own workloads:
      a cycle that looks the same has nothing left to forget. */
  lemma NothingToForget(first: Spec, app: App, ans: Oracle, first0: Spec, app0: App, ans0: Oracle)
    requires !Process(first0, app0, ans0).panicked && !Process(first, app, ans).panicked
    requires Builds(first, app) && ListKept(first0, app0)
    requires app.status.components == Process(first0, app0, ans0).status.components
    requires app.status.suspendedReplicas == app0.status.suspendedReplicas - ComponentNames(app0.spec.components)
    requires LooksSame(app, Process(first, app, ans))
    ensures app.status.suspendedReplicas.Keys !! ComponentNames(app.spec.components)
  {
    hide Process, Initialize;
    forall k | 0 <= k < |app.spec.components| ensures app.spec.components[k].name !in app.status.suspendedReplicas {
      var n := app.spec.components[k].name;
      ComponentKnown(first, app, k);
      ProcessNames(first, app, ans, n);
      ProcessNames(first0, app0, ans0, n);
    }
  }

  /** A cycle that computes a new record never looks like the stored status. */
  lemma RecordChangeShows(w: World, first: Spec, app: App, ans: Oracle)
    requires Inv(w) && Begun(w) && AlwaysOK(w) && LastListKept(w)
    requires StoreEvolved(w.store, Some(app)) && Acting(first, app)
    requires var r := Process(first, app, ans); !r.panicked && LooksSame(app, r)
    ensures Process(first, app, ans).status.suspendedReplicas == app.status.suspendedReplicas
  {
    hide Process, Initialize, SetCondition, Builds, Hashes, SliceOf, StatusOK, LooksSame, ListKept, ComponentNames;
    var r := Process(first, app, ans);
    CarriedOver(first, app, ans);
    assert w.last.Some? && app.status == w.last.value.after.status;
    LookedAt(app, r);
    HonestLastStarted(w, app);
    StatusDistinct(w);
    match w.last.value.cause {
      case Emptied(a) => EmptyLooksDifferent(first, app, ans);
      case Rejected(a) => RejectedLooksDifferent(first, app, ans, a.status, Initialize(a.spec).1.value);
      case Processed(first0, app0, ans0) =>
        CarriedOver(first0, app0, ans0);
        if Builds(first, app) && !Builds(first0, app0) {
          FailuresDiffer(first, app, ans, first0, app0, ans0);
        }
        if Builds(first, app) && Builds(first0, app0) {
          NothingToForget(first, app, ans, first0, app0, ans0);
          RemovesNothing(app.status.suspendedReplicas, ComponentNames(app.spec.components));
        }
    }
  }

  lemma LookedAt(app: App, r: Result)
    requires LooksSame(app, r)
    ensures app.status.observedGeneration == app.generation && r.status.phase == app.status.phase
  {
  }

  lemma EmptyLooksDifferent(first: Spec, app: App, ans: Oracle)
    requires Initialize(first).1.None? && first.components != [] && !Process(first, app, ans).panicked
    requires app.status.components == []
    ensures !LooksSame(app, Process(first, app, ans))
  {
    hide Process, Initialize;
    InitializeFacts(first);
    ProcessNames(first, app, ans, first.components[0].name);
  }

  lemma RejectedLooksDifferent(first: Spec, app: App, ans: Oracle, before: AppStatus, e: Error)
    requires !Process(first, app, ans).panicked && DistinctTypes(app.status.conditions)
             && DistinctTypes(before.conditions)
    requires app.status.conditions
             == WithCondition(before, Phase.Failed, false, InitializationFailed, Some(e)).conditions
    ensures !LooksSame(app, Process(first, app, ans))
  {
    hide Process, SetCondition;
    var c := ProcessCondition(first, app, ans);
    var d := Condition(Ready, false, InitializationFailed, Some(e));
    SetConditionSets(app.status.conditions, c);
    SetConditionSets(before.conditions, d);
  }

  /** In every run: a call that can store its status leaves the replica record it has computed
      stored, even over a status stamped with a generation it was not computed from. */
  lemma RecordNeverDropped(env: Environment, w: World, n: nat, p: Path)
    requires IsInitial(w) && Storing(env, Run(env, w, n), p) && LastListKept(Run(env, w, n))
    ensures var r, s := Process(p.first, p.app, env(p.w1.tick)), Run(env, w, n + 1).store;
            s.Some? ==> s.value.status.suspendedReplicas == r.status.suspendedReplicas
  {
    hide Run, Reconcile, Act, Process, PathOf, Initialize, Inv, AlwaysOK, Begun, LooksSame, WriteError, LastListKept;
    var w0 := Run(env, w, n);
    InvRun(env, w, n);
    BegunRun(env, w, n);
    ReadyExactlyWhenRunning(env, w, n);
    PathTaken(env, w0);
    StoredOrSuppressed(env, w, n, p);
    if LooksSame(p.app, Process(p.first, p.app, env(p.w1.tick))) {
      RecordChangeShows(w0, p.first, p.app, env(p.w1.tick));
    }
  }
}
