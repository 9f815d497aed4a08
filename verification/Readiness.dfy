/** What the phase Running and the condition Ready mean, in every status that is ever stored. */
module Readiness {
  import opened Text
  import opened Config
  import opened Builder
  import opened Status
  import opened StatusCompare
  import opened StatusOrder
  import opened PauseResume
  import opened Api
  import opened Cycle
  import opened CycleFacts
  import opened BuildFacts
  import opened Reconciler
  import opened Effects
  import opened Runs
  import Health

  // ----- Ready and Running go together -----

  ghost predicate StatusOK(st: AppStatus) {
    DistinctTypes(st.conditions) && (ReadyTrue(st.conditions) <==> st.phase == Running)
  }

  lemma WithConditionOK(st: AppStatus, phase: Phase, isTrue: bool, reason: Reason, detail: Option<Error>)
    requires DistinctTypes(st.conditions) && (isTrue <==> phase == Running)
    ensures StatusOK(WithCondition(st, phase, isTrue, reason, detail))
  {
    SetReady(st.conditions, isTrue, reason, detail);
  }

  lemma FinalPhaseOK(st: AppStatus, error: Option<Error>, allReady: bool)
    requires DistinctTypes(st.conditions)
    ensures StatusOK(FinalPhase(st, error, allReady))
  {
    hide ReasonFor, Render;
    WithConditionOK(st, FinalPhase(st, error, allReady).phase, FinalPhase(st, error, allReady).phase == Running,
                    if st.phase == Suspended then IntentionallySuspended
                    else if error.Some? then ReasonFor(Render(error.value))
                    else if allReady then ComponentsReady
                    else if st.phase == Running || st.phase == Degraded then ComponentsDegraded
                    else if st.phase == Creating then ComponentsCreating else ComponentsApplying,
                    if st.phase == Suspended then None else error);
  }

  lemma ProcessOK(first: Spec, app: App, ans: Oracle)
    requires DistinctTypes(app.status.conditions) && !Process(first, app, ans).panicked
    ensures StatusOK(Process(first, app, ans).status)
  {
    hide BuildAll, Paused, ApplyAll, Checked, MarkAll, SliceOf, FinalPhase, Initialize;
    var b := BuildAll(app, Initialize(first).0, ans.now);
    var built := app.status.(annotations := b.annotations);
    if b.error.Some? {
      WithConditionOK(built, Phase.Failed, false, ProcessingFailed, b.error);
    } else {
      var (objs, record) := Paused(app, b);
      var c := Checked(app, ApplyAll(objs, b.statuses, ans), ans);
      FinalPhaseOK(built.(suspendedReplicas := record, phase := ResumedPhase(app.status, app.spec)), c.firstError,
                   c.allReady);
    }
  }

  /** Every good write keeps the two together. */
  lemma WriteKeepsStatusOK(wr: Write)
    requires WriteGood(wr) && StatusOK(wr.before.status)
    ensures StatusOK(wr.after.status)
  {
    hide Process;
    match wr.cause {
      case Claimed =>
      case Released(_) =>
      case Started => WithConditionOK(wr.before.status, Creating, false, Processing, None);
      case Emptied(app) => WithConditionOK(app.status.(components := []), Running, true, NoComponentsDefined, None);
      case Rejected(app) =>
        WithConditionOK(app.status, Phase.Failed, false, InitializationFailed, Initialize(app.spec).1);
      case Processed(first, app, ans) => ProcessOK(first, app, ans);
    }
  }

  ghost predicate AlwaysOK(w: World) {
    && (w.store.Some? ==> StatusOK(w.store.value.status))
    && (w.last.Some? ==> StatusOK(w.last.value.before.status) && StatusOK(w.last.value.after.status))
  }

  /** A cycle stores at most one status, and a good one. */
  lemma CycleStores(env: Environment, w: World)
    ensures var w' := Reconcile(env, w, WATCHED).0; Quiet(w, w') || Stored(w, w')
  {
    hide Reconcile, Quiet, Stored, GoodWrites, Process;
    CycleShape(env, w);
  }

  lemma EmptyStatusOK()
    ensures StatusOK(EMPTY_STATUS)
  {
  }

  /** In every stored status of every run the Ready condition is True exactly when the phase is Running. */
  lemma {:induction false} ReadyExactlyWhenRunning(env: Environment, w: World, n: nat)
    requires IsInitial(w)
    ensures AlwaysOK(Run(env, w, n))
  {
    hide Reconcile, Process, WriteGood, StatusOK;
    if n == 0 {
      EmptyStatusOK();
    } else {
      var w1 := Run(env, w, n - 1);
      ReadyExactlyWhenRunning(env, w, n - 1);
      CycleStores(env, w1);
      var w' := Reconcile(env, w1, WATCHED).0;
      if Stored(w1, w') {
        WriteKeepsStatusOK(w'.last.value);
      }
    }
  }

  // ----- which phases follow which -----

  /** The phases before the application was first found ready, failing or suspended. */
  predicate Early(p: Phase) {
    p == Unset || p == Pending || p == Creating
  }

  /** Degraded only follows readiness, Creating only its own beginning, and Updating neither. */
  predicate MayFollow(before: Phase, after: Phase) {
    && (after == Creating ==> Early(before))
    && (after == Degraded ==> before == Running || before == Degraded)
    && (after == Updating ==> before != Running && before != Degraded && before != Creating)
    && after != Unset && after != Pending && after != Deleting
  }

  lemma ProcessFollows(first: Spec, app: App, ans: Oracle)
    requires !Process(first, app, ans).panicked
    ensures MayFollow(app.status.phase, Process(first, app, ans).status.phase)
  {
    hide BuildAll, Paused, ApplyAll, Checked, MarkAll, SliceOf, Initialize, ReasonFor, Render, SetCondition;
  }

  lemma WriteFollows(wr: Write)
    requires WriteGood(wr) && IsStatusWrite(wr.cause)
    ensures MayFollow(wr.before.status.phase, wr.after.status.phase)
  {
    hide Process, Initialize, SetCondition, SliceOf;
    if wr.cause.Processed? {
      ProcessFollows(wr.cause.first, wr.cause.app, wr.cause.answers);
    }
  }

  /** In every run each stored phase may follow the one stored before it. */
  lemma PhasesFollow(env: Environment, w: World)
    ensures var w' := Reconcile(env, w, WATCHED).0;
            w'.store.Some? ==> w.store.Some? && (w'.store.value.status.phase == w.store.value.status.phase
                                                 || MayFollow(w.store.value.status.phase, w'.store.value.status.phase))
  {
    hide Reconcile, Process, WriteGood, MayFollow;
    CycleStores(env, w);
    var w' := Reconcile(env, w, WATCHED).0;
    if !Quiet(w, w') {
      WriteFollows(w'.last.value);
    }
  }

  /** Once an application has left its beginning it never goes back to Creating. */
  lemma {:induction false} NeverCreatingAgain(env: Environment, w: World, n: nat, m: nat)
    requires n <= m
    requires Run(env, w, n).store.Some? && !Early(Run(env, w, n).store.value.status.phase)
    ensures var s := Run(env, w, m).store; s.Some? ==> !Early(s.value.status.phase)
  {
    hide Reconcile;
    if n < m {
      NeverCreatingAgain(env, w, n, m - 1);
      PhasesFollow(env, Run(env, w, m - 1));
    }
  }

  // ----- what a cycle must have seen to end in Running -----

  /** The specification built, against the status entries of the specification first read. */
  ghost predicate Builds(first: Spec, app: App) {
    AllBuild(app.namespace, app.spec.components, 0, Initialize(first).0.Keys)
  }

  /** The objects a cycle applies, after suspending or resuming. */
  ghost function DesiredObjects(first: Spec, app: App, ans: Oracle): seq<Obj> {
    Paused(app, BuildAll(app, Initialize(first).0, ans.now)).0
  }

  ghost predicate AllApply(objs: seq<Obj>, ans: Oracle) {
    forall k :: 0 <= k < |objs| ==> Applies(objs[k], ans)
  }

  /** The lookup of a component, by component 0's kind and version and the raw name, was healthy. */
  predicate ProbedHealthy(app: App, name: string, ans: Oracle)
    requires app.spec.components != []
  {
    var head := app.spec.components[0];
    && head.kind != "" && head.apiVersion != ""
    && Health.CheckHealth(head.apiVersion, head.kind, ans.probes(name)) == Health.Healthy
  }

  ghost predicate AllHealthy(first: Spec, app: App, ans: Oracle) {
    app.spec.components != [] ==>
      forall n :: n in Initialize(first).0 ==> HasComponent(app.spec, n) && ProbedHealthy(app, n, ans)
  }

  lemma {:induction false} BuildFromEntries(app: App, i: nat, b: Building, now: Time, n: string)
    requires i <= |app.spec.components| && !Stopped(b) && n in b.statuses
    ensures var r := BuildFrom(app, i, b, now);
            !Stopped(r) ==>
              && n in r.statuses
              && r.statuses[n] == if exists k :: i <= k < |app.spec.components| && app.spec.components[k].name == n
                                  then b.statuses[n].(message := BuiltSuccessfully) else b.statuses[n]
    decreases |app.spec.components| - i
  {
    hide BuildStep, Buildable, Recorded, ObjectsOf, Identities;
    var cs := app.spec.components;
    if i < |cs| {
      var b' := BuildStep(app.namespace, cs[i], b, now);
      BuildStepFacts(app.namespace, cs[i], b, now);
      if Stopped(b') {
        assert BuildFrom(app, i + 1, b', now) == b';
      } else {
        BuildFromEntries(app, i + 1, b', now, n);
      }
    }
  }

  /** The status entries after a clean build. */
  lemma BuildAllEntries(app: App, statuses: Statuses, now: Time)
    ensures var r := BuildAll(app, statuses, now);
            && r.statuses.Keys == statuses.Keys
            && (!Stopped(r) ==> forall n :: n in statuses ==>
                  r.statuses[n] == if HasComponent(app.spec, n) then statuses[n].(message := BuiltSuccessfully)
                                   else statuses[n])
  {
    hide BuildStep, Buildable, Recorded, ObjectsOf, Identities, BuildFrom;
    BuildAllFacts(app, statuses, now);
    var r := BuildAll(app, statuses, now);
    var start := Building(app.status.annotations, [], statuses, [], None, false);
    if !Stopped(r) {
      forall n | n in statuses
        ensures r.statuses[n] == if HasComponent(app.spec, n) then statuses[n].(message := BuiltSuccessfully)
                                 else statuses[n]
      {
        BuildFromEntries(app, 0, start, now, n);
      }
    }
  }

  /** After clean builds and applies no entry carries an error. */
  lemma CleanEntries(first: Spec, app: App, ans: Oracle)
    requires Builds(first, app) && AllApply(DesiredObjects(first, app, ans), ans)
    ensures var b := BuildAll(app, Initialize(first).0, ans.now);
            var a := ApplyAll(DesiredObjects(first, app, ans), b.statuses, ans);
            && a.firstError.None? && a.statuses.Keys == Initialize(first).0.Keys
            && forall n :: n in a.statuses ==>
                 n != "" && a.statuses[n].name == n
                 && a.statuses[n].message in {Initializing, BuiltSuccessfully, AppliedAwaitingHealth}
  {
    hide BuildFrom, ApplyFrom, MarkApplied, InitFrom, Paused, Applies, ApplyAll, BuildAll, AllBuild;
    var statuses := Initialize(first).0;
    var b := BuildAll(app, statuses, ans.now);
    InitializeFacts(first);
    BuildAllFacts(app, statuses, ans.now);
    BuildAllEntries(app, statuses, ans.now);
    ApplyAllClean(DesiredObjects(first, app, ans), b.statuses, ans);
  }

  lemma CheckedReady(first: Spec, app: App, ans: Oracle)
    requires Builds(first, app) && AllApply(DesiredObjects(first, app, ans), ans)
    ensures var b := BuildAll(app, Initialize(first).0, ans.now);
            var c := Checked(app, ApplyAll(DesiredObjects(first, app, ans), b.statuses, ans), ans);
            && (c.allReady && c.firstError.None? <==> AllHealthy(first, app, ans))
            && (c.allReady ==> !c.requeue && c.firstError.None?)
  {
    hide Initialize, Paused, Applies, CheckOne, CheckAll, ApplyAll, BuildAll, ProbedHealthy, Builds, DesiredObjects;
    var b := BuildAll(app, Initialize(first).0, ans.now);
    CleanEntries(first, app, ans);
    var a := ApplyAll(DesiredObjects(first, app, ans), b.statuses, ans);
    CheckAllReady(app, a.statuses, ans);
    CheckAllErrors(app, a.statuses, ans);
    forall n | n in a.statuses
      ensures CheckOne(app, n, a.statuses[n], ans).ready <==>
                app.spec.components == [] || (HasComponent(app.spec, n) && ProbedHealthy(app, n, ans))
      ensures CheckOne(app, n, a.statuses[n], ans).ready ==>
                CheckOne(app, n, a.statuses[n], ans).error.None? && !CheckOne(app, n, a.statuses[n], ans).requeue
    {
      UnmarkedCheck(app, n, a.statuses[n], ans);
    }
  }

  /** Such an entry is found ready iff its lookup is healthy. */
  lemma UnmarkedCheck(app: App, n: string, prior: CompStatus, ans: Oracle)
    requires n != "" && prior.message in {Initializing, BuiltSuccessfully, AppliedAwaitingHealth}
    ensures var one := CheckOne(app, n, prior, ans);
            && (one.ready <==> app.spec.components == [] || (HasComponent(app.spec, n) && ProbedHealthy(app, n, ans)))
            && (one.ready ==> one.error.None? && !one.requeue)
  {
  }

  /** A cycle ends in Running exactly when the specification is not suspended, builds, applies
      and is found healthy. */
  lemma RunningIff(first: Spec, app: App, ans: Oracle)
    requires !Process(first, app, ans).panicked
    ensures Process(first, app, ans).status.phase == Running <==>
            && Builds(first, app) && !WantsSuspend(app.spec)
            && AllApply(DesiredObjects(first, app, ans), ans) && AllHealthy(first, app, ans)
  {
    hide BuildAll, Paused, ApplyAll, CheckAll, MarkAll, SliceOf, ReasonFor, Render, Initialize, SetCondition, Applies,
         AllHealthy, AllBuild;
    var b := BuildAll(app, Initialize(first).0, ans.now);
    BuildAllFacts(app, Initialize(first).0, ans.now);
    if b.error.None? {
      ApplyAllClean(DesiredObjects(first, app, ans), b.statuses, ans);
      if AllApply(DesiredObjects(first, app, ans), ans) {
        CheckedReady(first, app, ans);
      }
    }
  }

  /** An entry that stands for a healthy workload: marked so, and looked up under component 0's
      kind and version and the raw component name; a StatefulSet was rolled out. */
  ghost predicate EntryHealthy(app: App, s: CompStatus, ans: Oracle)
    requires app.spec.components != []
  {
    var head := app.spec.components[0];
    && s.health && s.message == ReadyAndHealthy
    && s.kind == head.kind && s.apiVersion == head.apiVersion && s.namespace == app.namespace
    && s.resourceName == s.name
    && HasComponent(app.spec, s.name) && ProbedHealthy(app, s.name, ans)
    && (head.apiVersion == "apps/v1" && head.kind == "StatefulSet" ==>
          ans.probes(s.name).Found? && Health.RolledOut(ans.probes(s.name).sts))
  }

  predicate Listed(cs: seq<CompStatus>, name: string) {
    exists s :: s in cs && s.name == name
  }

  lemma HealthyEntry(app: App, n: string, prior: CompStatus, ans: Oracle)
    requires app.spec.components != [] && prior.name == n
    ensures var one := CheckOne(app, n, prior, ans);
            one.entry.name == n && (one.ready ==> EntryHealthy(app, one.entry, ans))
  {
  }

  /** The entries of a cycle that builds and applies: those of the health check, in canonical order. */
  lemma CleanComponents(first: Spec, app: App, ans: Oracle)
    requires Builds(first, app) && AllApply(DesiredObjects(first, app, ans), ans)
    ensures var b := BuildAll(app, Initialize(first).0, ans.now);
            var a := ApplyAll(DesiredObjects(first, app, ans), b.statuses, ans);
            && a.firstError.None? && a.statuses.Keys == Initialize(first).0.Keys && KeyedByName(a.statuses)
            && Process(first, app, ans).status.components == SliceOf(CheckAll(app, a.statuses, ans).statuses)
  {
    hide BuildFrom, ApplyFrom, CheckFrom, InitFrom, Paused, Applies, CheckAll, FinalPhase, AllBuild, BuildAll, ApplyAll,
         SliceOf;
    var b := BuildAll(app, Initialize(first).0, ans.now);
    InitializeFacts(first);
    BuildAllFacts(app, Initialize(first).0, ans.now);
    ApplyAllClean(DesiredObjects(first, app, ans), b.statuses, ans);
  }

  /** The component list of a status that says Running: one entry per component, all healthy. */
  lemma RunningComponents(first: Spec, app: App, ans: Oracle)
    requires Initialize(first).1.None? && !Process(first, app, ans).panicked
    requires Process(first, app, ans).status.phase == Running && app.spec.components != []
    ensures var cs := Process(first, app, ans).status.components;
            && (forall s :: s in cs ==> EntryHealthy(app, s, ans))
            && forall k :: 0 <= k < |app.spec.components| ==> Listed(cs, app.spec.components[k].name)
  {
    hide Process, BuildAll, ApplyAll, CheckFrom, InitFrom, Paused, Applies, CheckOne, CheckAll, DesiredObjects,
         AllHealthy, Buildable, Builds, EntryHealthy;
    RunningIff(first, app, ans);
    CleanComponents(first, app, ans);
    CheckedReady(first, app, ans);
    var b := BuildAll(app, Initialize(first).0, ans.now);
    var a := ApplyAll(DesiredObjects(first, app, ans), b.statuses, ans);
    CheckAllReady(app, a.statuses, ans);
    CheckAllEntries(app, a.statuses, ans);
    var final := CheckAll(app, a.statuses, ans).statuses;
    forall n | n in a.statuses ensures final[n].name == n && EntryHealthy(app, final[n], ans) {
      HealthyEntry(app, n, a.statuses[n], ans);
    }
    CanonicalMembers(final);
    var cs := Process(first, app, ans).status.components;
    assert cs == Canonical(final);
    forall k | 0 <= k < |app.spec.components| ensures Listed(cs, app.spec.components[k].name) {
      ComponentKnown(first, app, k);
      assert final[app.spec.components[k].name] in cs;
    }
  }

  lemma ComponentKnown(first: Spec, app: App, k: nat)
    requires Builds(first, app) && k < |app.spec.components|
    ensures app.spec.components[k].name in Initialize(first).0
  {
  }

  /** When the component list is emptied between the first read and the finalizer write, the
      cycle finds nothing to check and stores Running over entries that are not healthy. */
  lemma EmptiedUnderway(first: Spec, app: App, ans: Oracle)
    requires Initialize(first).1.None? && first.components != []
    requires app.spec.components == [] && !WantsSuspend(app.spec)
    ensures var r := Process(first, app, ans);
            && !r.panicked && r.status.phase == Running
            && r.status.components != [] && forall s :: s in r.status.components ==> !s.health
  {
    hide Process, BuildAll, ApplyAll, CheckAll, InitFrom, AllHealthy, DesiredObjects, Builds, SetCondition;
    InitializeFacts(first);
    NothingToBuild(first, app, ans);
    NothingToCheck(first, app, ans);
    RunningIff(first, app, ans);
    CleanComponents(first, app, ans);
    var statuses := Initialize(first).0;
    CanonicalMembers(statuses);
    var n := first.components[0].name;
    assert statuses[n] in Canonical(statuses);
  }

  lemma NothingToBuild(first: Spec, app: App, ans: Oracle)
    requires app.spec.components == []
    ensures !Process(first, app, ans).panicked && Builds(first, app) && DesiredObjects(first, app, ans) == []
    ensures ApplyAll([], BuildAll(app, Initialize(first).0, ans.now).statuses, ans).statuses == Initialize(first).0
  {
    hide Initialize, ApplyFrom, MarkApplied, Checked, FinalPhase, SliceOf, MarkAll, SetCondition, BuildStep;
    EmptyBuild(app, Initialize(first).0, ans.now);
  }

  lemma NothingToCheck(first: Spec, app: App, ans: Oracle)
    requires app.spec.components == []
    ensures AllHealthy(first, app, ans) && CheckAll(app, Initialize(first).0, ans).statuses == Initialize(first).0
  {
    hide Initialize, CheckAll;
    CheckAllEntries(app, Initialize(first).0, ans);
    assert CheckAll(app, Initialize(first).0, ans).statuses == Initialize(first).0;
  }

  lemma EmptyBuild(app: App, statuses: Statuses, now: Time)
    requires app.spec.components == []
    ensures BuildAll(app, statuses, now) == Building(app.status.annotations, [], statuses, [], None, false)
  {
  }

  // ----- over whole runs -----

  /** What justified a stored status that says Running: an application without components, or a
      cycle in which everything built, applied and was found healthy. */
  ghost predicate Justified(wr: Write) {
    match wr.cause
    case Emptied(app) => app.spec.components == [] && wr.after.status.components == []
    case Processed(first, app, ans) =>
      && Builds(first, app) && !WantsSuspend(app.spec)
      && AllApply(DesiredObjects(first, app, ans), ans) && AllHealthy(first, app, ans)
      && (if app.spec.components == [] then
            wr.after.status.components != [] && forall s :: s in wr.after.status.components ==> !s.health
          else
            && (forall s :: s in wr.after.status.components ==> EntryHealthy(app, s, ans))
            && forall k :: 0 <= k < |app.spec.components| ==>
                 Listed(wr.after.status.components, app.spec.components[k].name))
    case _ => false
  }

  lemma WriteJustified(wr: Write)
    requires WriteGood(wr) && IsStatusWrite(wr.cause) && wr.after.status.phase == Running
    ensures Justified(wr)
  {
    hide Process, Builds, AllApply, DesiredObjects, AllHealthy, EntryHealthy, Initialize;
    match wr.cause {
      case Processed(first, app, ans) =>
        RunningIff(first, app, ans);
        if app.spec.components == [] {
          EmptiedUnderway(first, app, ans);
        } else {
          RunningComponents(first, app, ans);
          var cs := Process(first, app, ans).status.components;
          assert wr.after.status.components == cs;
          assert forall s :: s in cs ==> EntryHealthy(app, s, ans);
        }
      case _ =>
    }
  }

  /** The write stored a status that says Running. */
  predicate StoresRunning(wr: Write) {
    IsStatusWrite(wr.cause) && wr.after.status.phase == Running
  }

  /** Every status a run has stored that says Running was justified when it was written. */
  lemma RunningJustified(env: Environment, w: World, n: nat)
    requires IsInitial(w)
    ensures var w' := Run(env, w, n);
            && (forall i :: 0 <= i < |w'.writes| && StoresRunning(w'.writes[i]) ==>
                  Justified(w'.writes[i]))
            && (w'.store.Some? && w'.store.value.status.phase == Running ==>
                  w'.last.Some? && w'.last.value.after.status == w'.store.value.status && Justified(w'.last.value))
  {
    hide WriteGood, Run, Justified;
    InvRun(env, w, n);
    var w' := Run(env, w, n);
    forall i | 0 <= i < |w'.writes| && StoresRunning(w'.writes[i])
      ensures Justified(w'.writes[i])
    {
      WriteJustified(w'.writes[i]);
    }
    if w'.store.Some? && w'.store.value.status.phase == Running {
      WriteJustified(w'.last.value);
    }
  }
}
