/** A second look changes nothing: with the same object and the same answers, the cycle after a
    stored status stores none. */
module Quiescence {
  import opened Text
  import opened Names
  import opened Config
  import opened Builder
  import opened Status
  import opened StatusCompare
  import opened StatusOrder
  import opened PauseResume
  import opened Api
  import opened Cycle
  import opened CycleFacts
  import opened BuildFacts
  import opened Reconciler
  import opened Effects
  import opened Runs
  import opened Readiness
  import opened FastPathSoundness
  import opened NothingDropped
  import opened Outcomes
  import Apply
  import Health

  // ----- the same objects up to what they contain -----

  ghost predicate SameHead(o: Obj, p: Obj) {
    o.kind == p.kind && o.name == p.name && o.namespace == p.namespace && o.instance == p.instance
  }

  ghost predicate SameHeads(objs: seq<Obj>, objs': seq<Obj>) {
    |objs| == |objs'| && forall k :: 0 <= k < |objs| ==> SameHead(objs[k], objs'[k])
  }

  ghost predicate SameBuilding(b: Building, b': Building) {
    b.statuses == b'.statuses && b.error == b'.error && b.panicked == b'.panicked && SameHeads(b.objects, b'.objects)
  }

  lemma {:induction false} SameUnnameable(objs: seq<Obj>, objs': seq<Obj>, k: nat)
    requires k <= |objs| && SameHeads(objs, objs')
    ensures FirstUnnameable(objs, k) == FirstUnnameable(objs', k)
    decreases |objs| - k
  {
    if k < |objs| {
      SameUnnameable(objs, objs', k + 1);
    }
  }

  lemma SameObjects(namespace: string, c: Component, a: map<string, ConfigHash>, a': map<string, ConfigHash>, now: Time,
                    now': Time)
    requires c.properties.Parsed? && Verified(c.properties.config)
    ensures SameHeads(ObjectsOf(namespace, c, c.properties.config, a, now),
                      ObjectsOf(namespace, c, c.properties.config, a', now'))
  {
    hide ObjectsOf, Identities;
    ObjectsHaveIdentities(namespace, c, c.properties.config, a, now);
    ObjectsHaveIdentities(namespace, c, c.properties.config, a', now');
    var l, r := ObjectsOf(namespace, c, c.properties.config, a, now),
                ObjectsOf(namespace, c, c.properties.config, a', now');
    forall k | 0 <= k < |l| ensures SameHead(l[k], r[k]) {
      assert KeyOf(l[k]) == KeyOf(r[k]);
    }
  }

  lemma SameBuildStep(namespace: string, c: Component, b: Building, b': Building, now: Time, now': Time)
    requires SameBuilding(b, b')
    ensures SameBuilding(BuildStep(namespace, c, b, now), BuildStep(namespace, c, b', now'))
  {
    hide ObjectsOf, Recorded, Verified;
    if c.properties.Parsed? && Verified(c.properties.config) {
      SameObjects(namespace, c, b.annotations, b'.annotations, now, now');
      SameUnnameable(ObjectsOf(namespace, c, c.properties.config, b.annotations, now),
                     ObjectsOf(namespace, c, c.properties.config, b'.annotations, now'), 0);
    }
  }

  lemma {:induction false} SameBuildFrom(app: App, app': App, i: nat, b: Building, b': Building, now: Time, now': Time)
    requires i <= |app.spec.components| && app.spec == app'.spec && app.namespace == app'.namespace
             && SameBuilding(b, b')
    ensures SameBuilding(BuildFrom(app, i, b, now), BuildFrom(app', i, b', now'))
    decreases |app.spec.components| - i
  {
    hide BuildStep;
    if i < |app.spec.components| && !Stopped(b) {
      SameBuildStep(app.namespace, app.spec.components[i], b, b', now, now');
      SameBuildFrom(app, app', i + 1, BuildStep(app.namespace, app.spec.components[i], b, now),
                    BuildStep(app.namespace, app.spec.components[i], b', now'), now, now');
    }
  }

  // ----- the same answers -----

  /** The same apply, lookup and health answers; the time and the visiting order are free. */
  ghost predicate Agree(ans: Oracle, ans': Oracle) {
    && (forall k :: ans.lookupFault(k) == ans'.lookupFault(k))
    && (forall k :: ans.ownerFault(k) == ans'.ownerFault(k))
    && (forall k :: ans.applies(k) == ans'.applies(k))
    && forall n :: ans.probes(n) == ans'.probes(n)
  }

  ghost predicate SameApplying(a: Applying, a': Applying) {
    a.results == a'.results && a.statuses == a'.statuses && a.firstError == a'.firstError && a.stopped == a'.stopped
  }

  lemma SameApplyStep(o: Obj, o': Obj, a: Applying, a': Applying, ans: Oracle, ans': Oracle)
    requires SameHead(o, o') && SameApplying(a, a') && Agree(ans, ans')
    ensures SameApplying(ApplyStep(o, a, ans), ApplyStep(o', a', ans'))
  {
    hide WithApplyError;
    assert KeyOf(o) == KeyOf(o');
    assert Apply.ApplyObject(o, ans.applies(KeyOf(o))) == Apply.ApplyObject(o', ans'.applies(KeyOf(o')));
    SameApplyError(a.statuses, o, o');
  }

  lemma SameApplyError(statuses: Statuses, o: Obj, o': Obj)
    requires SameHead(o, o')
    ensures forall e :: WithApplyError(statuses, o, e) == WithApplyError(statuses, o', e)
  {
  }

  lemma {:induction false} SameApplyFrom(objs: seq<Obj>, objs': seq<Obj>, i: nat, a: Applying, a': Applying,
                                         ans: Oracle, ans': Oracle)
    requires i <= |objs| && SameHeads(objs, objs') && SameApplying(a, a') && Agree(ans, ans')
    ensures SameApplying(ApplyFrom(objs, i, a, ans), ApplyFrom(objs', i, a', ans'))
    decreases |objs| - i
  {
    hide ApplyStep, Agree;
    if i < |objs| && !a.stopped {
      SameApplyStep(objs[i], objs'[i], a, a', ans, ans');
      SameApplyFrom(objs, objs', i + 1, ApplyStep(objs[i], a, ans), ApplyStep(objs'[i], a', ans'), ans, ans');
    }
  }

  lemma SameMarkApplied(statuses: Statuses, objs: seq<Obj>, objs': seq<Obj>, results: map<Identity, Apply.ApplyResult>)
    requires SameHeads(objs, objs')
    ensures MarkApplied(statuses, objs, results) == MarkApplied(statuses, objs', results)
  {
    hide ApplyFailedFor;
    forall n ensures ApplyFailedFor(objs, results, n) == ApplyFailedFor(objs', results, n) {
      SameFailed(objs, objs', results, n);
    }
  }

  lemma SameFailed(objs: seq<Obj>, objs': seq<Obj>, results: map<Identity, Apply.ApplyResult>, n: string)
    requires SameHeads(objs, objs')
    ensures ApplyFailedFor(objs, results, n) == ApplyFailedFor(objs', results, n)
  {
    assert forall k :: 0 <= k < |objs| ==> KeyOf(objs[k]) == KeyOf(objs'[k]) && objs[k].instance == objs'[k].instance;
  }

  lemma SameApplyAll(objs: seq<Obj>, objs': seq<Obj>, statuses: Statuses, ans: Oracle, ans': Oracle)
    requires SameHeads(objs, objs') && Agree(ans, ans')
    ensures SameApplying(ApplyAll(objs, statuses, ans), ApplyAll(objs', statuses, ans'))
  {
    hide MarkApplied, ApplyFrom, Agree, SameHead;
    var start := Applying(map[], statuses, [], [], None, false);
    SameApplyFrom(objs, objs', 0, start, start, ans, ans');
    var a := ApplyFrom(objs, 0, start, ans);
    SameMarkApplied(a.statuses, objs, objs', a.results);
  }

  // ----- which failed health check is reported -----

  /** All failing lookups of the application's components give the same answer. */
  ghost predicate OneFailure(app: App, ans: Oracle) {
    forall m, n ::
      HasComponent(app.spec, m) && HasComponent(app.spec, n) && ans.probes(m).Broken? && ans.probes(n).Broken? ==>
        ans.probes(m) == ans.probes(n)
  }

  lemma SameCheckOne(app: App, app': App, n: string, prior: CompStatus, ans: Oracle, ans': Oracle)
    requires app.spec == app'.spec && app.namespace == app'.namespace && Agree(ans, ans') && HasComponent(app.spec, n)
    ensures CheckOne(app, n, prior, ans) == CheckOne(app', n, prior, ans')
    ensures var e := CheckOne(app, n, prior, ans).error;
            e.Some? ==>
              Identified(app.spec) && ans.probes(n).Broken?
              && e.value == Error(HealthLookup, ans.probes(n).text, false)
  {
    assert ans.probes(n) == ans'.probes(n);
  }

  /** The visiting order decides at most which failure is reported. */
  lemma SameCheckAll(app: App, app': App, statuses: Statuses, ans: Oracle, ans': Oracle)
    requires app.spec == app'.spec && app.namespace == app'.namespace && Agree(ans, ans')
    requires forall n :: n in statuses ==> HasComponent(app.spec, n)
    ensures var c, c' := CheckAll(app, statuses, ans), CheckAll(app', statuses, ans');
            && c.statuses == c'.statuses && c.allReady == c'.allReady && c.requeue == c'.requeue
            && (c.firstError.Some? <==> c'.firstError.Some?)
            && (ans == ans' || !Identified(app.spec) || OneFailure(app, ans) ==> c == c')
  {
    hide CheckAll, CheckOne, Agree, HasComponent, Identified;
    forall n | n in statuses
      ensures CheckOne(app, n, statuses[n], ans) == CheckOne(app', n, statuses[n], ans')
      ensures var e := CheckOne(app, n, statuses[n], ans).error;
              e.Some? ==>
                Identified(app.spec) && ans.probes(n).Broken?
                && e.value == Error(HealthLookup, ans.probes(n).text, false)
    {
      SameCheckOne(app, app', n, statuses[n], ans, ans');
    }
    CheckAllEntries(app, statuses, ans);
    CheckAllEntries(app', statuses, ans');
    CheckAllReady(app, statuses, ans);
    CheckAllReady(app', statuses, ans');
    CheckAllErrors(app, statuses, ans);
    CheckAllErrors(app', statuses, ans');
    CheckAllSame(app, app', statuses, ans);
  }

  // ----- the part of a cycle that does not depend on the status -----

  datatype Core = Core(failed: bool, error: Option<Error>, ready: bool, components: seq<CompStatus>)

  ghost function CoreOf(app: App, ans: Oracle): Core {
    var b := BuildAll(app, Initialize(app.spec).0, ans.now);
    if b.error.Some? then Core(true, b.error, false, SliceOf(MarkAll(b.statuses, b.error.value)))
    else
      var c := Checked(app, ApplyAll(Paused(app, b).0, b.statuses, ans), ans);
      Core(false, c.firstError, c.allReady, SliceOf(c.statuses))
  }

  lemma SamePaused(objs: seq<Obj>, objs': seq<Obj>, suspended: bool, record: Record, record': Record)
    requires SameHeads(objs, objs')
    ensures SameHeads(PauseFrom(objs, 0, suspended, record).0, PauseFrom(objs', 0, suspended, record').0)
  {
    hide PauseFrom, IsWorkload;
    PauseKeepsObjects(objs, 0, suspended, record);
    PauseKeepsObjects(objs', 0, suspended, record');
  }

  /** The cycle gets to its health checks, and an error they meet is shown: nothing suspends,
      fails to build or to apply, and component 0 can be looked up. */
  ghost predicate ShowsChecks(app: App, ans: Oracle) {
    && !WantsSuspend(app.spec) && Builds(app.spec, app) && AllApply(DesiredObjects(app.spec, app, ans), ans)
    && Identified(app.spec)
  }

  lemma SameCore(app: App, app': App, ans: Oracle, ans': Oracle)
    requires Initialize(app.spec).1.None? && app.spec == app'.spec && app.namespace == app'.namespace
             && Agree(ans, ans')
    ensures var c, c' := CoreOf(app, ans), CoreOf(app', ans');
            && c.failed == c'.failed && c.ready == c'.ready && c.components == c'.components
            && (c.error.Some? <==> c'.error.Some?)
            && (c.failed || ans == ans' ==> c == c')
            && (!WantsSuspend(app.spec) && (ShowsChecks(app, ans) ==> OneFailure(app, ans)) ==> c == c')
  {
    hide Initialize, BuildFrom, ApplyAll, CheckAll, MarkAll, SliceOf, PauseFrom, Agree, OneFailure, HasComponent,
         SameHead, Identified, Applies, AllBuild;
    var statuses := Initialize(app.spec).0;
    InitializeFacts(app.spec);
    var b, b' := BuildAll(app, statuses, ans.now), BuildAll(app', statuses, ans'.now);
    SameBuildFrom(app, app', 0, Building(app.status.annotations, [], statuses, [], None, false),
                  Building(app'.status.annotations, [], statuses, [], None, false), ans.now, ans'.now);
    BuildAllFacts(app, statuses, ans.now);
    if b.error.None? {
      SamePaused(b.objects, b'.objects, WantsSuspend(app.spec), app.status.suspendedReplicas,
                 app'.status.suspendedReplicas);
      var objs, objs' := Paused(app, b).0, Paused(app', b').0;
      SameApplyAll(objs, objs', b.statuses, ans, ans');
      ApplyAllClean(objs, b.statuses, ans);
      var a := ApplyAll(objs, b.statuses, ans);
      if a.firstError.None? {
        NeverStopped(app, ans);
        SameCheckAll(app, app', a.statuses, ans, ans');
      }
    }
  }

  lemma NeverStopped(app: App, ans: Oracle)
    requires Initialize(app.spec).1.None? && BuildAll(app, Initialize(app.spec).0, ans.now).error.None?
    ensures Builds(app.spec, app)
  {
    hide BuildFrom, AllBuild, Initialize;
    InitializeFacts(app.spec);
    BuildAllFacts(app, Initialize(app.spec).0, ans.now);
  }

  /** Phase, condition and change mark, from the status so far and the rest of the cycle. */
  ghost function Judged(app: App, core: Core): AppStatus {
    if core.failed then WithCondition(app.status, Phase.Failed, false, ProcessingFailed, core.error)
    else
      Marking(FinalPhase(app.status.(phase := ResumedPhase(app.status, app.spec)), core.error, core.ready), app,
              core.ready && core.error.None?)
  }

  lemma ProcessIsJudged(app: App, ans: Oracle)
    requires !Process(app.spec, app, ans).panicked
    ensures var st, core := Process(app.spec, app, ans).status, CoreOf(app, ans);
            && st.phase == Judged(app, core).phase && st.conditions == Judged(app, core).conditions
            && st.lastChangeID == Judged(app, core).lastChangeID && st.components == core.components
  {
    hide BuildAll, ApplyAll, Checked, MarkAll, SliceOf, Paused, Initialize, FinalPhase, SetCondition;
    var b := BuildAll(app, Initialize(app.spec).0, ans.now);
    if b.error.None? {
      var (objs, record) := Paused(app, b);
      var c := Checked(app, ApplyAll(objs, b.statuses, ans), ans);
      var phase := ResumedPhase(app.status, app.spec);
      FinalPhaseLocal(app.status.(annotations := b.annotations, suspendedReplicas := record, phase := phase),
                      app.status.(phase := phase), c.firstError, c.allReady);
    }
  }

  lemma FinalPhaseLocal(st: AppStatus, st': AppStatus, error: Option<Error>, allReady: bool)
    requires st.phase == st'.phase && st.conditions == st'.conditions && st.lastChangeID == st'.lastChangeID
    ensures var r, r' := FinalPhase(st, error, allReady), FinalPhase(st', error, allReady);
            r.phase == r'.phase && r.conditions == r'.conditions && r.lastChangeID == r'.lastChangeID
            && r.lastChangeID == st.lastChangeID
  {
    hide ReasonFor, Render, SetCondition;
  }

  lemma NeverPanics(app: App, ans: Oracle)
    requires Initialize(app.spec).1.None?
    ensures !Process(app.spec, app, ans).panicked
  {
    hide BuildFrom, ApplyAll, Checked, MarkAll, SliceOf, Paused, Initialize, FinalPhase, SetCondition;
    InitializeFacts(app.spec);
    BuildAllFacts(app, Initialize(app.spec).0, ans.now);
  }

  lemma {:induction false} SetTwice(cs: seq<Condition>, c: Condition)
    ensures SetCondition(SetCondition(cs, c), c) == SetCondition(cs, c)
  {
    if cs != [] && cs[0].kind != c.kind {
      SetTwice(cs[1..], c);
      assert SetCondition(cs, c)[1..] == SetCondition(cs[1..], c);
    }
  }

  /** One round of the phase decision reaches a fixed point. */
  lemma JudgedTwice(app: App, app': App, core: Core)
    requires app.spec == app'.spec && app.changeID == app'.changeID
    requires var st := Judged(app, core);
             app'.status.phase == st.phase && app'.status.conditions == st.conditions
             && app'.status.lastChangeID == st.lastChangeID
    ensures var st, st' := Judged(app, core), Judged(app', core);
            st'.phase == st.phase && st'.conditions == st.conditions && st'.lastChangeID == st.lastChangeID
  {
    hide FinalPhase, SetCondition;
    if core.failed {
      SetTwice(app.status.conditions, Condition(Ready, false, ProcessingFailed, core.error));
    } else {
      var phase, phase' := ResumedPhase(app.status, app.spec), ResumedPhase(app'.status, app'.spec);
      FinalPhaseKeeps(app.status.(phase := phase), core.error, core.ready);
      FinalPhaseTwice(app.status.(phase := phase), app'.status.(phase := phase'), core.error, core.ready);
      FinalPhaseKeeps(app'.status.(phase := phase'), core.error, core.ready);
    }
  }

  lemma FinalPhaseTwice(st: AppStatus, st': AppStatus, error: Option<Error>, ready: bool)
    requires var r := FinalPhase(st, error, ready); st'.phase == r.phase && st'.conditions == r.conditions
    ensures var r, r' := FinalPhase(st, error, ready), FinalPhase(st', error, ready);
            r'.phase == r.phase && r'.conditions == r.conditions
  {
    hide ReasonFor, Render, SetCondition;
    SetTwice(st.conditions,
             if st.phase == Suspended then Condition(Ready, false, IntentionallySuspended, None)
             else if error.Some? then Condition(Ready, false, ReasonFor(Render(error.value)), error)
             else if ready then Condition(Ready, true, ComponentsReady, None)
             else Condition(Ready, false, if st.phase == Running || st.phase == Degraded then ComponentsDegraded
                                          else if st.phase == Creating then ComponentsCreating
                                               else ComponentsApplying, None));
  }

  /** While suspended the error makes no difference. */
  lemma JudgedAlike(app: App, core: Core, core': Core)
    requires core.failed == core'.failed && core.ready == core'.ready && (core.error.Some? <==> core'.error.Some?)
    requires core == core' || (!core.failed && WantsSuspend(app.spec))
    ensures var st, st' := Judged(app, core), Judged(app, core');
            st'.phase == st.phase && st'.conditions == st.conditions && st'.lastChangeID == st.lastChangeID
  {
    hide ReasonFor, Render, SetCondition;
  }

  /** Two passes over the same object with the same answers: after the first one's status has
      been stored, the second one's compares equal to it, unless another failed check is reported. */
  lemma SecondPassSame(app: App, app': App, ans: Oracle, ans': Oracle, generation: nat)
    requires Initialize(app.spec).1.None? && StatusOK(app.status)
    requires app.spec == app'.spec && app.namespace == app'.namespace && app.changeID == app'.changeID
             && app'.generation == generation
    requires Agree(ans, ans') && (ShowsChecks(app, ans) ==> OneFailure(app, ans))
    requires app'.status == Process(app.spec, app, ans).status.(observedGeneration := generation)
    ensures !Process(app'.spec, app', ans').panicked
    ensures Suppressed(app', Process(app'.spec, app', ans'))
  {
    hide Process, CoreOf, Judged, Initialize, Agree, OneFailure, ShowsChecks, StatusOK, Matches, ConditionPairs,
         ComponentPairs;
    NeverPanics(app, ans);
    NeverPanics(app', ans');
    SameCore(app, app', ans, ans');
    ProcessIsJudged(app, ans);
    ProcessIsJudged(app', ans');
    JudgedTwice(app, app', CoreOf(app, ans));
    JudgedAlike(app', CoreOf(app, ans), CoreOf(app', ans'));
    CoreComponents(app, ans);
    ProcessOKFor(app, ans);
    SelfSame(app'.status);
  }

  lemma ProcessOKFor(app: App, ans: Oracle)
    requires StatusOK(app.status) && !Process(app.spec, app, ans).panicked
    ensures DistinctTypes(Process(app.spec, app, ans).status.conditions)
  {
    hide Process;
    ProcessOK(app.spec, app, ans);
  }

  lemma SelfSame(st: AppStatus)
    requires DistinctTypes(st.conditions) && DistinctKeys(ComponentPairs(st.components))
    ensures Matches(ConditionPairs(st.conditions), ConditionPairs(st.conditions))
    ensures Matches(ComponentPairs(st.components), ComponentPairs(st.components))
  {
    SameStatusReflexive(st);
  }

  lemma CoreComponents(app: App, ans: Oracle)
    ensures DistinctKeys(ComponentPairs(CoreOf(app, ans).components))
  {
    hide BuildAll, ApplyAll, Checked, MarkAll, Paused, Initialize, ComponentPairs, DistinctKeys;
    forall m: Statuses { SliceDistinct(m); }
  }

  lemma SliceDistinct(m: Statuses)
    ensures DistinctKeys(ComponentPairs(SliceOf(m)))
  {
    if Keyed(m) {
      CanonicalMembers(m);
    }
  }

  lemma SameSuppressed(app: App, ans: Oracle, ans': Oracle)
    requires Initialize(app.spec).1.None? && Agree(ans, ans') && (ShowsChecks(app, ans) ==> OneFailure(app, ans))
    requires Suppressed(app, Process(app.spec, app, ans))
    ensures Suppressed(app, Process(app.spec, app, ans'))
  {
    hide Process, CoreOf, Judged, Initialize, Agree, OneFailure, ShowsChecks, Matches, ConditionPairs, ComponentPairs;
    NeverPanics(app, ans);
    NeverPanics(app, ans');
    SameCore(app, app, ans, ans');
    ProcessIsJudged(app, ans);
    ProcessIsJudged(app, ans');
    JudgedAlike(app, CoreOf(app, ans), CoreOf(app, ans'));
  }

  // ----- two cycles against the server -----

  /** From tick t on nobody else acts, no call fails, and the answers stay the same. */
  ghost predicate Calm(env: Environment, t: nat) {
    forall k :: t <= k ==> env(k).edits == [] && !env(k).fault && Agree(env(t), env(k))
  }

  /** An object in the middle of its life: claimed, accepted, and past its initial phase. */
  predicate Steady(app: App) {
    && !app.deleting && FINALIZER in app.finalizers && Initialize(app.spec).1.None? && app.spec.components != []
    && app.status.phase != Unset && app.status.phase != Pending
  }

  lemma CalmLater(env: Environment, t: nat, u: nat)
    requires Calm(env, t) && t <= u
    ensures Calm(env, u) && Agree(env(t), env(u))
  {
    forall k | u <= k ensures env(k).edits == [] && !env(k).fault && Agree(env(u), env(k)) {
      assert Agree(env(t), env(u)) && Agree(env(t), env(k));
    }
  }

  lemma CalmAt(env: Environment, t: nat, u: nat)
    requires Calm(env, t) && t <= u
    ensures Undisturbed(env, u) && forall store :: ApplyEdits(env(u).edits, store) == store
  {
  }

  /** Nobody acts just before call t, and it does not fail. */
  predicate Undisturbed(env: Environment, t: nat) {
    env(t).edits == [] && !env(t).fault
  }

  /** The world after the first read of a cycle. */
  function AfterRead(w: World, app: App): World {
    w.(store := Some(app), tick := w.tick + 1)
  }

  /** However it was edited before the first read, a steady object goes straight to steps 3 to 8. */
  lemma SteadyRead(env: Environment, w: World, app: App)
    requires ApplyEdits(env(w.tick).edits, w.store) == Some(app) && !env(w.tick).fault && Steady(app)
    ensures Reconcile(env, w, WATCHED) ==
            if SkipsSuspended(app) || FastPath(app) then (AfterRead(w, app), Done)
            else Act(env, AfterRead(w, app), app.spec, app.status, app)
  {
    hide Initialize, Act, UpdateStatusIfNeeded, StartFrom, ClaimFrom, Finalize, ApplyEdits;
    assert Get(env, w) == (AfterRead(w, app), Got(app));
  }

  /** What an undisturbed cycle stores. */
  ghost function Next(app: App, r: Result): App {
    if Suppressed(app, r) then app else Changed(app, Stamp(app, r.status))
  }

  lemma CalmWriteBack(env: Environment, w: World, app: App, r: Result, cause: Cause)
    requires Undisturbed(env, w.tick) && w.store == Some(app)
    ensures var w' := UpdateStatusIfNeeded(env, w, app, r.status, app.status, cause).0;
            && w'.store == Some(Next(app, r)) && w.tick <= w'.tick <= w.tick + 1 && w'.cluster == w.cluster
            && (Suppressed(app, r) ==> w'.writes == w.writes && w'.tick == w.tick)
            && (!Suppressed(app, r) ==>
                  |w'.writes| == |w.writes| + 1 && w'.last == Some(Write(app, Next(app, r), cause))
                  && w'.tick == w.tick + 1)
  {
    hide SameStatus;
    assert ApplyEdits(env(w.tick).edits, w.store) == w.store;
    var stamped := Stamp(app, r.status);
    assert Stamp(app, stamped.status) == stamped;
    assert UpdateStatus(env, w, stamped, cause).1 == Accepted(Changed(app, app.(status := stamped.status)));
  }

  lemma CalmAct(env: Environment, w: World, app: App)
    requires Undisturbed(env, w.tick) && w.store == Some(app) && Steady(app)
    ensures var w' := Act(env, w, app.spec, app.status, app).0;
            var r := Process(app.spec, app, env(w.tick));
            && w'.store == Some(Next(app, r)) && w.tick <= w'.tick <= w.tick + 1
            && w'.cluster == Deployed(w.cluster, r.applied)
            && (Suppressed(app, r) ==> w'.writes == w.writes && w'.tick == w.tick)
            && (!Suppressed(app, r) ==>
                  |w'.writes| == |w.writes| + 1 && w'.tick == w.tick + 1
                  && w'.last == Some(Write(app, Next(app, r), Processed(app.spec, app, env(w.tick)))))
  {
    hide Process, Initialize, UpdateStatusIfNeeded, Emissions, Deployed, Next, Agree, Suppressed;
    NeverPanics(app, env(w.tick));
    var r := Process(app.spec, app, env(w.tick));
    var w1 := w.(events := w.events + Emissions(app, r.events), cluster := Deployed(w.cluster, r.applied));
    var cause := Processed(app.spec, app, env(w.tick));
    CalmWriteBack(env, w1, app, r, cause);
    var u := UpdateStatusIfNeeded(env, w1, app, r.status, app.status, cause);
    assert Act(env, w, app.spec, app.status, app).0 == u.0;
  }

  lemma NextSteady(app: App, ans: Oracle)
    requires Steady(app)
    ensures var next := Next(app, Process(app.spec, app, ans));
            && Steady(next) && next.spec == app.spec && next.namespace == app.namespace && next.changeID == app.changeID
            && next.generation == app.generation
            && (next.status == app.status
                || next.status == Process(app.spec, app, ans).status.(observedGeneration := next.generation))
  {
    hide Process, Initialize, Suppressed;
    NeverPanics(app, ans);
    ProcessFacts(app.spec, app, ans);
  }

  lemma NextSuppressed(app: App, ans: Oracle, ans': Oracle)
    requires Steady(app) && StatusOK(app.status) && Agree(ans, ans') && (ShowsChecks(app, ans) ==> OneFailure(app, ans))
    ensures var next := Next(app, Process(app.spec, app, ans)); Suppressed(next, Process(next.spec, next, ans'))
  {
    hide Process, Initialize, Agree, OneFailure, ShowsChecks, StatusOK;
    NextSteady(app, ans);
    var next := Next(app, Process(app.spec, app, ans));
    if Suppressed(app, Process(app.spec, app, ans)) {
      SameSuppressed(app, ans, ans');
    } else {
      SecondPassSame(app, next, ans, ans', next.generation);
    }
  }

  // ----- another failure reported -----

  /** A shown error is the condition, whatever the status was before. */
  lemma JudgedError(app: App, core: Core)
    requires !core.failed && core.error.Some? && !WantsSuspend(app.spec)
    ensures var st := Judged(app, core);
            st.phase == Phase.Failed
            && st.conditions == SetCondition(app.status.conditions,
                                             Condition(Ready, false, ReasonFor(Render(core.error.value)), core.error))
  {
    hide ReasonFor, Render, SetCondition;
  }

  /** What a shown error makes of the conditions of a cycle. */
  lemma ErrorConditions(app: App, ans: Oracle)
    requires Initialize(app.spec).1.None? && ShowsChecks(app, ans) && CoreOf(app, ans).error.Some?
    ensures var r, e := Process(app.spec, app, ans), CoreOf(app, ans).error;
            && !r.panicked && r.status.phase == Phase.Failed
            && r.status.conditions
               == SetCondition(app.status.conditions, Condition(Ready, false, ReasonFor(Render(e.value)), e))
  {
    hide Process, CoreOf, Judged, Initialize, ReasonFor, Render, SetCondition, Builds, AllApply;
    NeverPanics(app, ans);
    ProcessIsJudged(app, ans);
    CoreNotFailed(app, ans);
    JudgedError(app, CoreOf(app, ans));
  }

  lemma CoreNotFailed(app: App, ans: Oracle)
    requires Initialize(app.spec).1.None? && Builds(app.spec, app)
    ensures !CoreOf(app, ans).failed
  {
    hide BuildFrom, ApplyAll, Checked, MarkAll, SliceOf, Paused, Initialize, AllBuild;
    BuildAllFacts(app, Initialize(app.spec).0, ans.now);
  }

  /** Whether checks are shown depends neither on the status nor on the order of visits. */
  lemma SameShown(app: App, app': App, ans: Oracle, ans': Oracle)
    requires Initialize(app.spec).1.None? && app.spec == app'.spec && app.namespace == app'.namespace
             && Agree(ans, ans')
    ensures ShowsChecks(app, ans) == ShowsChecks(app', ans')
  {
    hide Initialize, BuildFrom, ApplyAll, PauseFrom, Agree, Applies, SameHead, AllBuild;
    var statuses := Initialize(app.spec).0;
    var b, b' := BuildAll(app, statuses, ans.now), BuildAll(app', statuses, ans'.now);
    SameBuildFrom(app, app', 0, Building(app.status.annotations, [], statuses, [], None, false),
                  Building(app'.status.annotations, [], statuses, [], None, false), ans.now, ans'.now);
    BuildAllFacts(app, statuses, ans.now);
    BuildAllFacts(app', statuses, ans'.now);
    SamePaused(b.objects, b'.objects, WantsSuspend(app.spec), app.status.suspendedReplicas,
               app'.status.suspendedReplicas);
    var objs, objs' := Paused(app, b).0, Paused(app', b').0;
    SameApplyAll(objs, objs', statuses, ans, ans');
    ApplyAllClean(objs, statuses, ans);
    ApplyAllClean(objs', statuses, ans');
  }

  /** If the second pass is suppressed, it reported the error the first one had reported. */
  lemma SuppressedSameError(app: App, ans: Oracle, ans': Oracle)
    requires Steady(app) && StatusOK(app.status) && ShowsChecks(app, ans) && Agree(ans, ans')
             && CoreOf(app, ans).error.Some?
    requires var next := Next(app, Process(app.spec, app, ans)); Suppressed(next, Process(next.spec, next, ans'))
    ensures CoreOf(app, ans').error == CoreOf(app, ans).error
  {
    hide Process, CoreOf, Judged, Initialize, Agree, ShowsChecks, ReasonFor, Render, SetCondition, Matches,
         ConditionPairs, ComponentPairs;
    var next := Next(app, Process(app.spec, app, ans));
    NextSteady(app, ans);
    SameShown(app, next, ans, ans');
    SameCore(app, app, ans, ans');
    SameCore(app, next, ans', ans') by { AgreeSelf(ans'); }
    ErrorConditions(app, ans);
    ErrorConditions(next, ans');
    var e, e' := CoreOf(app, ans).error, CoreOf(app, ans').error;
    var c, c' := Condition(Ready, false, ReasonFor(Render(e.value)), e),
                 Condition(Ready, false, ReasonFor(Render(e'.value)), e');
    var cs := app.status.conditions;
    SetReady(cs, false, ReasonFor(Render(e.value)), e);
    if Suppressed(app, Process(app.spec, app, ans)) {
      SetReady(cs, false, ReasonFor(Render(e'.value)), e');
      SameThroughThird(SetCondition(cs, c'), cs, SetCondition(cs, c));
      SameReady(cs, c', cs, c);
    } else {
      SameReady(SetCondition(cs, c), c', cs, c);
    }
  }

  lemma AgreeSelf(ans: Oracle)
    ensures Agree(ans, ans)
  {
  }

  lemma SameThroughThird(a: seq<Condition>, b: seq<Condition>, c: seq<Condition>)
    requires DistinctTypes(a) && DistinctTypes(b) && DistinctTypes(c)
    requires Matches(ConditionPairs(a), ConditionPairs(b)) && Matches(ConditionPairs(c), ConditionPairs(b))
    ensures Matches(ConditionPairs(a), ConditionPairs(c))
  {
    hide Matches;
    MatchesEquivalence(ConditionPairs(a), ConditionPairs(b), ConditionPairs(c));
    MatchesEquivalence(ConditionPairs(c), ConditionPairs(b), ConditionPairs(a));
  }

  /** The order that visits one component first. */
  function FirstVisit(app: App, n: string): seq<string> {
    [n] + InOrder(Initialize(app.spec).0.Keys - {n})
  }

  /** Visited first, a component whose check fails is the one reported. */
  lemma FirstVisited(app: App, statuses: Statuses, ans: Oracle, n: string)
    requires n in statuses && CheckOne(app, n, statuses[n], ans).error.Some?
    requires ans.order == [n] + InOrder(statuses.Keys - {n})
    ensures CheckAll(app, statuses, ans).firstError == CheckOne(app, n, statuses[n], ans).error
  {
    var order, rest := ans.order, InOrder(statuses.Keys - {n});
    assert order[0] == n && forall k :: 0 < k < |order| ==> order[k] == rest[k - 1];
    assert forall k :: k in statuses ==> k == n || k in rest;
    assert VisitingOrder(order, statuses.Keys);
    hide CheckOne;
    var start := Checking(statuses, true, false, None);
    var c := CheckStep(app, n, start, ans);
    assert c.firstError == CheckOne(app, n, statuses[n], ans).error;
    assert CheckFrom(app, order, 0, start, ans) == CheckFrom(app, order, 1, c, ans);
    CheckFromError(app, order, 1, c, ans);
  }

  /** Any failing check can be the one reported. */
  lemma AnyFailureReported(app: App, ans: Oracle, n: string)
    requires Initialize(app.spec).1.None? && ShowsChecks(app, ans) && app.spec.components != []
    requires HasComponent(app.spec, n) && ans.probes(n).Broken?
    ensures CoreOf(app, ans.(order := FirstVisit(app, n))).error == Some(Error(HealthLookup, ans.probes(n).text, false))
  {
    hide Initialize, BuildFrom, ApplyFrom, CheckAll, MarkApplied, MarkAll, SliceOf, PauseFrom, Applies, AllBuild,
         InOrder, Builds, BuildAll, ApplyAll;
    var ans' := ans.(order := FirstVisit(app, n));
    InitializeFacts(app.spec);
    BuildsClean(app, ans');
    assert AllApply(DesiredObjects(app.spec, app, ans'),
                    ans') by { SameApplies(DesiredObjects(app.spec, app, ans), ans, ans'); }
    CleanEntries(app.spec, app, ans');
    var a := ApplyAll(DesiredObjects(app.spec, app, ans'), BuildAll(app, Initialize(app.spec).0, ans'.now).statuses,
                      ans');
    BrokenFails(app, n, a.statuses[n], ans');
    FirstVisited(app, a.statuses, ans', n);
  }

  lemma BuildsClean(app: App, ans: Oracle)
    requires Builds(app.spec, app)
    ensures BuildAll(app, Initialize(app.spec).0, ans.now).error.None?
  {
    hide BuildFrom, AllBuild, Initialize;
    BuildAllFacts(app, Initialize(app.spec).0, ans.now);
  }

  lemma SameApplies(objs: seq<Obj>, ans: Oracle, ans': Oracle)
    requires ans' == ans.(order := ans'.order)
    ensures AllApply(objs, ans) == AllApply(objs, ans')
  {
    assert forall o :: Applies(o, ans) == Applies(o, ans');
  }

  lemma BrokenFails(app: App, n: string, prior: CompStatus, ans: Oracle)
    requires app.spec.components != [] && Identified(app.spec) && HasComponent(app.spec, n) && ans.probes(n).Broken?
    requires n != "" && prior.message in {Initializing, BuiltSuccessfully, AppliedAwaitingHealth}
    ensures CheckOne(app, n, prior, ans).error == Some(Error(HealthLookup, ans.probes(n).text, false))
  {
  }

  // ----- the theorem -----

  /** The same environment with another map iteration order from call t on. */
  function Reordered(env: Environment, t: nat, order: seq<string>): Environment {
    (k: nat) => if k < t then env(k) else env(k).(order := order)
  }

  lemma ReorderedCalm(env: Environment, t: nat, u: nat, order: seq<string>)
    requires Calm(env, t) && t + 1 <= u
    ensures var env' := Reordered(env, u, order);
            && Undisturbed(env', u) && Undisturbed(env', u + 1) && Agree(env(t + 1), env'(u + 1))
            && env'(u + 1).order == order
  {
    CalmLater(env, t, t + 1);
    CalmLater(env, t + 1, u + 1);
  }

  /** An undisturbed cycle over a steady object writes nothing exactly when it is skipped or suppressed. */
  lemma UndisturbedCycle(env: Environment, w: World, app: App)
    requires Undisturbed(env, w.tick) && Undisturbed(env, w.tick + 1) && w.store == Some(app) && Steady(app)
    ensures var w' := Reconcile(env, w, WATCHED).0;
            && (w'.writes == w.writes <==>
                SkipsSuspended(app) || FastPath(app) || Suppressed(app, Process(app.spec, app, env(w.tick + 1))))
            && (w'.writes == w.writes ==> w'.store == w.store)
  {
    hide Reconcile, Act, Process, Initialize, Suppressed, SkipsSuspended, FastPath, Steady, ApplyEdits;
    assert ApplyEdits(env(w.tick).edits, w.store) == w.store by { NoEdits(w.store); }
    SteadyRead(env, w, app);
    if !SkipsSuspended(app) && !FastPath(app) {
      CalmAct(env, AfterRead(w, app), app);
    }
  }

  lemma NoEdits(store: Option<App>)
    ensures ApplyEdits([], store) == store
  {
  }

  /** The stored object after the first of two cycles. */
  ghost function AfterFirst(app: App, ans: Oracle): App {
    if SkipsSuspended(app) || FastPath(app) then app else Next(app, Process(app.spec, app, ans))
  }

  lemma FirstOfTwo(env: Environment, w: World, app: App)
    requires Calm(env, w.tick) && w.store == Some(app) && Steady(app)
    ensures var w1 := Reconcile(env, w, WATCHED).0;
            w1.store == Some(AfterFirst(app, env(w.tick + 1))) && w.tick + 1 <= w1.tick
            && Steady(AfterFirst(app, env(w.tick + 1)))
  {
    hide Reconcile, Act, Process, Initialize, Agree, Suppressed, SkipsSuspended, FastPath, Steady, Next, ApplyEdits;
    CalmAt(env, w.tick, w.tick);
    CalmAt(env, w.tick, w.tick + 1);
    SteadyRead(env, w, app);
    if !SkipsSuspended(app) && !FastPath(app) {
      CalmAct(env, AfterRead(w, app), app);
      NextSteady(app, env(w.tick + 1));
    }
  }

  /** Nothing shown can depend on the order: the first cycle is skipped, or it shows no failed
      check, or all failed checks give the same answer. */
  ghost predicate OrderFree(app: App, ans: Oracle) {
    FastPath(app) || (ShowsChecks(app, ans) ==> OneFailure(app, ans))
  }

  lemma OrderFreeQuiet(env: Environment, w: World, app: App, order: seq<string>)
    requires Calm(env, w.tick) && w.store == Some(app) && Steady(app) && StatusOK(app.status)
             && OrderFree(app, env(w.tick + 1))
    ensures var w1 := Reconcile(env, w, WATCHED).0;
            Reconcile(Reordered(env, w1.tick, order), w1, WATCHED).0.writes == w1.writes
  {
    hide Reconcile, Process, Initialize, Agree, Calm, StatusOK, Suppressed, SkipsSuspended, FastPath, Steady, Next,
         OneFailure, ShowsChecks, Reordered;
    FirstOfTwo(env, w, app);
    var ans, w1 := env(w.tick + 1), Reconcile(env, w, WATCHED).0;
    var env' := Reordered(env, w1.tick, order);
    ReorderedCalm(env, w.tick, w1.tick, order);
    UndisturbedCycle(env', w1, AfterFirst(app, ans));
    if !SkipsSuspended(app) && !FastPath(app) {
      NextSuppressed(app, ans, env'(w1.tick + 1));
    }
  }

  lemma OrderBoundWrites(env: Environment, w: World, app: App) returns (order: seq<string>)
    requires Calm(env, w.tick) && w.store == Some(app) && Steady(app) && StatusOK(app.status)
             && !OrderFree(app, env(w.tick + 1))
    ensures var w1 := Reconcile(env, w, WATCHED).0;
            Reconcile(Reordered(env, w1.tick, order), w1, WATCHED).0.writes != w1.writes
  {
    hide Reconcile, Process, Initialize, Agree, Calm, StatusOK, Suppressed, SkipsSuspended, FastPath, Steady, Next,
         OrderFree, Reordered, AfterFirst, CoreOf, HasComponent, FirstVisit;
    FirstOfTwo(env, w, app);
    var ans, w1 := env(w.tick + 1), Reconcile(env, w, WATCHED).0;
    var n := OtherFailure(app, ans);
    order := FirstVisit(app, n);
    var env' := Reordered(env, w1.tick, order);
    ReorderedCalm(env, w.tick, w1.tick, order);
    UndisturbedCycle(env', w1, AfterFirst(app, ans));
    OtherOrderWrites(app, ans, env'(w1.tick + 1), n);
  }

  /** Quiescence: nobody interferes and the answers stay the same. Then the second of two cycles
      writes nothing in whatever order it visits the components, if and only if nothing that the
      first one shows depends on that order. */
  lemma SecondCycleWritesNothing(env: Environment, w: World, app: App)
    requires Calm(env, w.tick) && w.store == Some(app) && Steady(app) && StatusOK(app.status)
    ensures var w1 := Reconcile(env, w, WATCHED).0;
            (forall order :: Reconcile(Reordered(env, w1.tick, order), w1, WATCHED).0.writes == w1.writes)
            <==> OrderFree(app, env(w.tick + 1))
  {
    hide Reconcile, Calm, StatusOK, Steady, OrderFree, Reordered;
    if OrderFree(app, env(w.tick + 1)) {
      forall order { OrderFreeQuiet(env, w, app, order); }
    } else {
      var order := OrderBoundWrites(env, w, app);
    }
  }

  /** A cycle after the first, in whatever order it visits the components. */
  lemma LaterCycle(env: Environment, w: World, app: App, later: World)
    requires Calm(env, w.tick) && Steady(app) && StatusOK(app.status) && OrderFree(app, env(w.tick + 1))
    requires w.tick + 1 <= later.tick && later.store == Some(AfterFirst(app, env(w.tick + 1)))
    requires Steady(AfterFirst(app, env(w.tick + 1)))
    ensures var w' := Reconcile(env, later, WATCHED).0;
            w'.writes == later.writes && w'.store == later.store && later.tick <= w'.tick
  {
    hide Reconcile, Process, Initialize, Agree, Calm, StatusOK, Suppressed, SkipsSuspended, FastPath, Steady, Next,
         OneFailure, ShowsChecks;
    var ans, u := env(w.tick + 1), later.tick;
    CalmAt(env, w.tick, u);
    CalmAt(env, w.tick, u + 1);
    CalmLater(env, w.tick, w.tick + 1);
    CalmLater(env, w.tick + 1, u + 1);
    CalmLater(env, w.tick, u);
    FirstOfTwo(env, later, AfterFirst(app, ans));
    UndisturbedCycle(env, later, AfterFirst(app, ans));
    if !SkipsSuspended(app) && !FastPath(app) {
      NextSuppressed(app, ans, env(u + 1));
    }
  }

  /** In particular, in the order the environment itself chooses. */
  lemma SecondCycleQuiet(env: Environment, w: World, app: App)
    requires Calm(env, w.tick) && w.store == Some(app) && Steady(app) && StatusOK(app.status)
    requires OrderFree(app, env(w.tick + 1))
    ensures var w1 := Reconcile(env, w, WATCHED).0;
            var w2 := Reconcile(env, w1, WATCHED).0;
            w2.writes == w1.writes && w2.store == w1.store
  {
    hide Reconcile, Calm, Agree, Steady, StatusOK, OrderFree, AfterFirst;
    FirstOfTwo(env, w, app);
    LaterCycle(env, w, app, Reconcile(env, w, WATCHED).0);
  }

  /** And so for good: from the first cycle on nothing is written and the object stays as it is,
      however the visiting order changes from cycle to cycle. */
  lemma {:induction false} ForeverQuiet(env: Environment, w: World, app: App, n: nat)
    requires Calm(env, w.tick) && w.store == Some(app) && Steady(app) && StatusOK(app.status)
    requires OrderFree(app, env(w.tick + 1)) && n >= 1
    ensures var a, b := Run(env, w, 1), Run(env, w, n);
            b.writes == a.writes && b.store == a.store && w.tick + 1 <= b.tick
    ensures Run(env, w, n).store == Some(AfterFirst(app, env(w.tick + 1)))
  {
    hide Reconcile, Calm, Agree, Steady, StatusOK, OrderFree, AfterFirst;
    FirstOfTwo(env, w, app);
    assert Run(env, w, 0) == w;
    RunNext(env, w, 0);
    if n > 1 {
      ForeverQuiet(env, w, app, n - 1);
      RunNext(env, w, n - 1);
      LaterCycle(env, w, app, Run(env, w, n - 1));
    }
  }

  /** A failing check that is not the one the first cycle reported. */
  lemma OtherFailure(app: App, ans: Oracle) returns (n: string)
    requires !OrderFree(app, ans)
    ensures HasComponent(app.spec, n) && ans.probes(n).Broken?
    ensures CoreOf(app, ans).error != Some(Error(HealthLookup, ans.probes(n).text, false))
  {
    hide CoreOf, HasComponent, ShowsChecks, FastPath;
    var m, m' :| HasComponent(app.spec, m) && HasComponent(app.spec, m') && ans.probes(m).Broken?
                 && ans.probes(m').Broken?
                 && ans.probes(m) != ans.probes(m');
    n := if CoreOf(app, ans).error == Some(Error(HealthLookup, ans.probes(m).text, false)) then m' else m;
  }

  lemma OtherOrderWrites(app: App, ans: Oracle, ans': Oracle, n: string)
    requires Steady(app) && StatusOK(app.status) && !OrderFree(app, ans)
    requires HasComponent(app.spec, n) && ans.probes(n).Broken?
    requires CoreOf(app, ans).error != Some(Error(HealthLookup, ans.probes(n).text, false))
    requires Agree(ans, ans') && ans'.order == FirstVisit(app, n)
    ensures var next := AfterFirst(app, ans);
            !SkipsSuspended(next) && !FastPath(next) && !Suppressed(next, Process(next.spec, next, ans'))
  {
    hide Process, CoreOf, Initialize, StatusOK, Suppressed, FirstVisit, SetCondition, OneFailure, Builds, AllApply,
         DesiredObjects, Identified;
    SameShown(app, app, ans, ans');
    assert ans.probes(n) == ans'.probes(n);
    assert ans'.(order := FirstVisit(app, n)) == ans';
    AnyFailureReported(app, ans', n);
    SameCore(app, app, ans, ans');
    ErrorConditions(app, ans);
    var r := Process(app.spec, app, ans);
    if Suppressed(app, r) {
      SamePhase(Stamp(app, r.status).status, app.status) by { SuppressedIs(app, r); }
    }
    var next := AfterFirst(app, ans);
    assert next == Next(app, r);
    if Suppressed(next, Process(next.spec, next, ans')) {
      SuppressedSameError(app, ans, ans');
    }
  }

  lemma SuppressedIs(app: App, r: Result)
    requires Suppressed(app, r)
    ensures SameStatus(Stamp(app, r.status).status, app.status)
  {
  }
}
