/** What the result of a Reconcile call says about the stored object: a call that ends without
    error and without asking to be called again leaves nothing unfinished. */
module Outcomes {
  import opened Text
  import opened Config
  import opened Builder
  import opened Status
  import opened StatusCompare
  import opened PauseResume
  import opened Api
  import opened Cycle
  import opened CycleFacts
  import opened BuildFacts
  import opened Reconciler
  import opened Effects
  import opened Runs
  import opened Readiness
  import opened FastPathSoundness
  import opened NothingDropped

  // ----- which way a call goes -----

  /** The object has reached a phase in which nothing is left to do, or is on its way out. */
  predicate Settled(store: Option<App>) {
    store.Some? ==> store.value.deleting || store.value.status.phase == Running || store.value.status.phase == Suspended
  }

  lemma EmptiedPath(env: Environment, w: World, app: App)
    requires w.store == Some(app)
    ensures var (w', e) := UpdateStatusIfNeeded(env, w, app, EmptiedStatus(app.status), app.status, Emptied(app));
            e.None? ==> Settled(w'.store)
  {
    hide SameStatus, SetCondition;
    var desired := EmptiedStatus(app.status);
    var stamped := Stamp(app, desired);
    if SameStatus(stamped.status, app.status) {
      SamePhase(stamped.status, app.status);
    } else {
      assert Stamp(app, stamped.status) == stamped;
      StatusEffect(env, w, app, stamped.status, Emptied(app), 0);
    }
  }

  lemma SamePhase(a: AppStatus, b: AppStatus)
    requires SameStatus(a, b)
    ensures a.phase == b.phase && a.observedGeneration == b.observedGeneration && a.lastChangeID == b.lastChangeID
  {
  }

  /** No error, and the manager does not call again: a delay of zero asks for nothing. */
  predicate EndsQuietly(out: Outcome) {
    out.Done? || (out.RequeueAfter? && out.seconds == 0)
  }

  /** A call that ended before steps 4 to 8: when it is done it has left the object settled, and it
      asks to be called at once exactly when it has stored the initial phase. */
  ghost predicate EndsSettled(w: World, w': World, out: Outcome) {
    && !out.Panic? && !out.RequeueAfter? && (EndsQuietly(out) ==> Settled(w'.store))
    && (out.Requeue? <==> !Quiet(w, w') && w'.last.Some? && w'.last.value.cause.Started?)
  }

  lemma AdvancePath(env: Environment, w0: World, w: World, first: Spec, app: App)
    requires Prepared(w0, w, app) && Initialize(first).1.None? && first.components != []
    ensures var (w', out) := Advance(env, w, first, app.status, app);
            if Acting(first, app) then (w', out) == Act(env, w, first, app.status, app) else EndsSettled(w0, w', out)
  {
    hide Act, StartFrom, Initialize, StartedStatus;
    if app.status.phase == Unset || app.status.phase == Pending {
      StartEffect(env, w, app, 0);
      var (w', e) := StartFrom(env, w, app.(status := StartedStatus(app.status)), 0);
      if e.Some? {
        QuietTransitive(w0, w, w');
      } else {
        assert w'.writes[|w.writes|] == Newest(w');
      }
    }
  }

  /** Writing back the status of a rejected or empty specification starts nothing. */
  lemma WriteBackStartsNothing(env: Environment, w0: World, w: World, app: App, desired: AppStatus, cause: Cause)
    requires Quiet(w0, w) && w.store == Some(app) && IsStatusWrite(cause) && !cause.Started?
    ensures var w' := UpdateStatusIfNeeded(env, w, app, desired, app.status, cause).0;
            Quiet(w0, w') || (w'.last.Some? && w'.last.value.cause == cause)
  {
    hide SameStatus;
    var stamped := Stamp(app, desired);
    if !SameStatus(stamped.status, app.status) {
      assert Stamp(app, stamped.status) == stamped;
      StatusEffect(env, w, app, stamped.status, cause, 0);
      var (w', e) := StatusFrom(env, w, stamped, stamped.status, cause, 0);
      if e.Some? {
        QuietTransitive(w0, w, w');
      }
    }
  }

  lemma HandlePath(env: Environment, w0: World, w: World, app: App)
    requires Quiet(w0, w) && w == w0.(store := w.store, tick := w.tick) && w.store == Some(app)
    ensures var (w', out) := Handle(env, w, app);
            match PathFrom(env, w, app)
            case Ended => EndsSettled(w0, w', out)
            case Worked(w1, first, a) => Acting(first, a) && Prepared(w0, w1, a)
                                         && (w', out) == Act(env, w1, first, a.status, a)
  {
    hide Initialize, UpdateStatusIfNeeded, Advance, Act, Finalize, ClaimFrom, Acting;
    var (statuses, e) := Initialize(app.spec);
    if e.Some? {
      WriteBackStartsNothing(env, w0, w, app, ErrorStatus(app.status, statuses, InitializationFailed, e.value),
                             Rejected(app));
    } else if app.spec.components == [] {
      WriteBackStartsNothing(env, w0, w, app, EmptiedStatus(app.status), Emptied(app));
      EmptiedPath(env, w, app);
      var u := UpdateStatusIfNeeded(env, w, app, EmptiedStatus(app.status), app.status, Emptied(app));
      assert Handle(env, w, app) == (u.0, if u.1.Some? then Errored(u.1.value) else Done);
    } else {
      var (w1, f) := HandleFinalizer(env, w, app);
      if app.deleting {
        FinalizeShape(env, w, app);
        assert Quiet(w, w1) && Settled(w1.store);
      } else {
        if FINALIZER !in app.finalizers {
          ClaimShape(env, w, app);
        }
        FromStart(w0, w, w1);
        if f.Continue? {
          EvolvedTransitive(w0.store, w.store, Some(f.app));
          AdvancePath(env, w0, w1, app.spec, f.app);
          assert Handle(env, w, app) == Advance(env, w1, app.spec, f.app.status, f.app);
        }
      }
    }
  }

  /** A call either ends settled before steps 4 to 8, or it is exactly those steps. */
  lemma PathTaken(env: Environment, w: World)
    ensures var (w', out) := Reconcile(env, w, WATCHED);
            match PathOf(env, w)
            case Ended => EndsSettled(w, w', out)
            case Worked(w1, first, app) =>
              Acting(first, app) && Prepared(w, w1, app) && (w', out) == Act(env, w1, first, app.status, app)
  {
    hide Handle, Act, Acting, PathFrom;
    GetEffect(env, w);
    var (w1, g) := Get(env, w);
    if g.Got? {
      HandlePath(env, w, w1, g.app);
    }
  }

  lemma AcceptedFirst(env: Environment, w: World)
    ensures var p := PathOf(env, w); p.Worked? ==> Initialize(p.first).1.None?
  {
    hide Reconcile, Act, Initialize, PathOf;
    PathTaken(env, w);
  }

  /** Which calls work through the specification of an object that carries the controller's
      finalizer, and that one that does not, although nothing is wrong and nothing is to be
      started, has left everything alone. */
  lemma WorksIff(env: Environment, w: World, app: App)
    requires Get(env, w).1 == Got(app) && "infini.cloud/finalizer" in app.finalizers
    ensures var p, st := PathOf(env, w), app.status;
            var begun := app.spec.components != [] && NamesInOrder(app.spec) && !app.deleting
                         && st.phase != Unset && st.phase != Pending;
            && (p.Worked? <==>
                  && begun && !(app.spec.suspend == Some(true) && st.phase == Suspended)
                  && !(st.phase == Running && st.observedGeneration == app.generation && st.lastChangeID != ""
                       && st.lastChangeID == app.changeID))
            && (p.Worked? ==> p.first == app.spec && p.app == app)
            && (begun && !p.Worked? ==> Reconcile(env, w, WATCHED) == (Get(env, w).0, Done))
  {
    hide Initialize, Act, StartFrom, ClaimFrom, Finalize, UpdateStatusIfNeeded, NamesInOrder;
    InitializeIff(app.spec);
    if app.deleting && app.spec.components != [] && NamesInOrder(app.spec) {
      GetEffect(env, w);
      FinalizeShape(env, Get(env, w).0, app);
    }
  }

  // ----- the end of a full cycle -----

  /** Component 0, whose kind and version every health check uses, names both; or nothing is checked. */
  predicate Identified(spec: Spec) {
    spec.components == [] || (spec.components[0].kind != "" && spec.components[0].apiVersion != "")
  }

  lemma UnmarkedRequeue(app: App, n: string, prior: CompStatus, ans: Oracle)
    requires n != "" && prior.message in {Initializing, BuiltSuccessfully, AppliedAwaitingHealth}
    ensures var one := CheckOne(app, n, prior, ans);
            && (one.error.None? && !one.requeue && !one.ready ==> !Identified(app.spec))
            && (one.ready ==> Identified(app.spec))
  {
  }

  /** Without error and without requeue, the checks found everything ready exactly when
      component 0 is identified. */
  lemma CalmChecks(first: Spec, app: App, ans: Oracle)
    requires Builds(first, app) && AllApply(DesiredObjects(first, app, ans), ans) && Initialize(first).1.None?
             && first.components != []
    ensures var b := BuildAll(app, Initialize(first).0, ans.now);
            var c := Checked(app, ApplyAll(DesiredObjects(first, app, ans), b.statuses, ans), ans);
            c.firstError.None? && !c.requeue ==> (c.allReady <==> Identified(app.spec))
  {
    hide Paused, Applies, CheckOne, CheckAll, ApplyAll, BuildAll, Builds, Identified, Initialize, DesiredObjects;
    var b := BuildAll(app, Initialize(first).0, ans.now);
    InitializeFacts(first);
    CleanEntries(first, app, ans);
    var a := ApplyAll(DesiredObjects(first, app, ans), b.statuses, ans);
    CheckAllReady(app, a.statuses, ans);
    CheckAllErrors(app, a.statuses, ans);
    assert first.components[0].name in a.statuses;
    forall n | n in a.statuses
      ensures var one := CheckOne(app, n, a.statuses[n], ans);
              (one.error.None? && !one.requeue && !one.ready ==> !Identified(app.spec))
              && (one.ready ==> Identified(app.spec))
    {
      UnmarkedRequeue(app, n, a.statuses[n], ans);
    }
  }

  lemma CalmProcess(first: Spec, app: App, ans: Oracle)
    requires Initialize(first).1.None? && first.components != []
    requires var r := Process(first, app, ans); !r.panicked && r.error.None? && !r.requeue
    ensures var phase := Process(first, app, ans).status.phase;
            phase == Running || phase == Suspended <==> WantsSuspend(app.spec) || Identified(app.spec)
  {
    hide BuildAll, Paused, ApplyAll, CheckAll, MarkAll, SliceOf, ReasonFor, Render, Initialize, SetCondition, Applies,
         AllBuild, Identified;
    var b := BuildAll(app, Initialize(first).0, ans.now);
    BuildAllFacts(app, Initialize(first).0, ans.now);
    ApplyAllClean(DesiredObjects(first, app, ans), b.statuses, ans);
    if AllApply(DesiredObjects(first, app, ans), ans) {
      CalmChecks(first, app, ans);
    }
  }

  /** What went wrong when a working call stored its status, if anything did. */
  ghost function WriteError(env: Environment, p: Path): Option<Error>
    requires p.Worked?
  {
    var ans := env(p.w1.tick);
    var r := Process(p.first, p.app, ans);
    UpdateStatusIfNeeded(env, WorkedWorld(p.w1, p.app, r), p.app, r.status, p.app.status,
                         Processed(p.first, p.app, ans)).1
  }

  /** A full cycle, seen from its end. */
  lemma ActEnd(env: Environment, p: Path)
    requires p.Worked?
    ensures var (w', out) := Act(env, p.w1, p.first, p.app.status, p.app);
            var r := Process(p.first, p.app, env(p.w1.tick));
            && (r.panicked <==> out.Panic?)
            && (!r.panicked ==>
                  && w' == UpdateStatusIfNeeded(env, WorkedWorld(p.w1, p.app, r), p.app, r.status, p.app.status,
                                                Processed(p.first, p.app, env(p.w1.tick))).0
                  && (r.error.Some? ==> out == Errored(r.error.value))
                  && (r.error.None? && WriteError(env, p).Some? ==> out == Errored(WriteError(env, p).value))
                  && (r.error.None? && WriteError(env, p).None? ==>
                        out == if r.requeue then RequeueAfter(30) else Done))
  {
    hide Process, UpdateStatusIfNeeded, Emissions, Deployed;
    var ans := env(p.w1.tick);
    var r := Process(p.first, p.app, ans);
    BuildFailedErrors(p.first, p.app, ans);
    var u := UpdateStatusIfNeeded(env, WorkedWorld(p.w1, p.app, r), p.app, r.status, p.app.status,
                                  Processed(p.first, p.app, ans));
    assert !r.panicked && r.buildFailed ==>
             Act(env, p.w1, p.first, p.app.status, p.app) == (u.0, Errored(r.error.value));
    assert !r.panicked && !r.buildFailed ==>
             Act(env, p.w1, p.first, p.app.status, p.app) == (u.0, Conclude(r.error, r.requeue, u.1));
  }

  lemma WriteBackEnd(env: Environment, w: World, first: Spec, app: App, ans: Oracle)
    requires StoreEvolved(Some(app), w.store) && Acting(first, app) && !Process(first, app, ans).panicked
    ensures var r := Process(first, app, ans);
            var (w', e) := UpdateStatusIfNeeded(env, w, app, r.status, app.status, Processed(first, app, ans));
            e.None? && w'.store.Some? ==>
              && w'.store.value.status.phase == r.status.phase
              && (Suppressed(app, r) ==> w'.store.value.status == app.status)
              && (!Suppressed(app, r) ==>
                    w'.last.Some? && w'.store.value.status == Stamp(w'.last.value.before, r.status).status)
  {
    hide Process, SameStatus, UpdateStatusIfNeeded, Emissions, Deployed, WriteGood, Acting;
    var r := Process(first, app, ans);
    WriteBackShape(env, w, app, r.status, app.status, Processed(first, app, ans));
    var (w', e) := UpdateStatusIfNeeded(env, w, app, r.status, app.status, Processed(first, app, ans));
    if Suppressed(app, r) {
      SamePhase(Stamp(app, r.status).status, app.status);
    } else if e.None? {
      LandedStatus(w, w', first, app, ans);
    }
  }

  lemma LandedStatus(w: World, w': World, first: Spec, app: App, ans: Oracle)
    requires Landed(w, w') && w'.last.value.cause == Processed(first, app, ans)
    ensures w'.store.Some?
            && w'.store.value.status == Stamp(w'.last.value.before, Process(first, app, ans).status).status
  {
    hide Process;
  }

  lemma BuildFailedErrors(first: Spec, app: App, ans: Oracle)
    ensures var r := Process(first, app, ans); r.buildFailed ==> r.error.Some?
  {
    hide BuildAll, Paused, ApplyAll, CheckAll, MarkAll, SliceOf, ReasonFor, Render, Initialize, SetCondition;
  }

  // ----- the theorems -----

  /** The stored status of a call that worked and could store its status is the computed one,
      whether or not it had to be written. */
  lemma StoredEnd(env: Environment, w: World)
    requires var p := PathOf(env, w);
             p.Worked? && !Process(p.first, p.app, env(p.w1.tick)).panicked && WriteError(env, p).None?
    ensures var p, w' := PathOf(env, w), Reconcile(env, w, WATCHED).0;
            var r := Process(p.first, p.app, env(p.w1.tick));
            w'.store.Some? ==>
              && w'.store.value.status.phase == r.status.phase
              && (Suppressed(p.app, r) ==> w'.store.value.status == p.app.status)
              && (!Suppressed(p.app, r) ==>
                    w'.last.Some? && w'.store.value.status == Stamp(w'.last.value.before, r.status).status)
  {
    hide Reconcile, Act, Process, PathOf, UpdateStatusIfNeeded, Emissions, Deployed, Suppressed, Acting;
    PathTaken(env, w);
    var p := PathOf(env, w);
    ActEnd(env, p);
    WriteBackEnd(env, WorkedWorld(p.w1, p.app, Process(p.first, p.app, env(p.w1.tick))), p.first, p.app,
                 env(p.w1.tick));
  }

  /** No stuck cycle: a call that neither fails nor comes back leaves the object gone, being deleted,
      running or suspended - or it went all the way through a specification whose component 0 lacks
      kind or apiVersion. What comes back does so at once, or after thirty seconds. */
  lemma NoStuckCycle(env: Environment, w: World)
    ensures var p, (w', out) := PathOf(env, w), Reconcile(env, w, WATCHED);
            && (EndsQuietly(out) ==>
                  Settled(w'.store) || (p.Worked? && !Identified(p.app.spec) && p.app.spec.suspend != Some(true)))
            && (!EndsQuietly(out) && !out.Errored? && !out.Panic? ==> out == Requeue || out == RequeueAfter(30))
  {
    hide Reconcile, Act, PathOf, Process, Identified, WriteError;
    PathTaken(env, w);
    if PathOf(env, w).Worked? {
      ActEnd(env, PathOf(env, w));
    }
    if PathOf(env, w).Worked? && EndsQuietly(Reconcile(env, w, WATCHED).1) {
      StuckExactlyWithoutKind(env, w);
    }
  }

  /** What every call returns: it asks to come back at once exactly when it stored the initial
      phase, and after thirty seconds exactly when it worked, met no error, stored its status and
      found something unfinished; its own first error outranks that of the status write. */
  lemma CallResult(env: Environment, w: World)
    ensures var p, (w', out) := PathOf(env, w), Reconcile(env, w, WATCHED);
            && (out.Requeue? <==> !Quiet(w, w') && w'.last.Some? && w'.last.value.cause.Started?)
            && (out.RequeueAfter? ==> p.Worked? && out.seconds == 30)
            && (p.Worked? ==>
                  var r := Process(p.first, p.app, env(p.w1.tick));
                  if r.panicked then out.Panic?
                  else if r.error.Some? then out == Errored(r.error.value)
                  else if WriteError(env, p).Some? then out == Errored(WriteError(env, p).value)
                  else if r.requeue then out == RequeueAfter(30) else out == Done)
  {
    hide Reconcile, Act, PathOf, Process, WriteError, Quiet, Acting, GoodWrites;
    PathTaken(env, w);
    CycleShape(env, w);
    if PathOf(env, w).Worked? {
      ActEnd(env, PathOf(env, w));
    }
  }

  /** A request for another namespace touches nothing; one for the watched namespace reads. */
  lemma OnlyWatchedNamespace(env: Environment, w: World, namespace: string)
    ensures namespace != "default" ==> Reconcile(env, w, namespace) == (w, Done)
    ensures var (w1, g) := Get(env, w);
            g.GetFailed? ==> Reconcile(env, w, "default") == (w1, Errored(g.error))
  {
    hide Handle;
  }

  /** The condition is exact: a call that works through a specification and ends without error
      or requeue leaves Running or Suspended if and only if it suspends or component 0 is identified. */
  lemma StuckExactlyWithoutKind(env: Environment, w: World)
    requires PathOf(env, w).Worked? && EndsQuietly(Reconcile(env, w, WATCHED).1)
    ensures var p, w' := PathOf(env, w), Reconcile(env, w, WATCHED).0;
            w'.store.Some? ==>
              (w'.store.value.status.phase == Running || w'.store.value.status.phase == Suspended <==>
               WantsSuspend(p.app.spec) || Identified(p.app.spec))
  {
    hide Reconcile, Act, Process, PathOf, Initialize, Identified, WriteError, Suppressed;
    PathTaken(env, w);
    var p := PathOf(env, w);
    ActEnd(env, p);
    StoredEnd(env, w);
    CalmProcess(p.first, p.app, env(p.w1.tick));
  }

  /** In a run whose stored status is honest, a call that works through the specification and can
      store its status - whatever errors its applies or checks met - leaves every change to the
      replica record and to the hashes stored, although the comparison that may suppress the write
      looks at neither. */
  lemma NoChangeDropped(env: Environment, w: World, n: nat)
    requires IsInitial(w) && LastHonest(Run(env, w, n))
    requires var p := PathOf(env, Run(env, w, n));
             p.Worked? && !Process(p.first, p.app, env(p.w1.tick)).panicked && WriteError(env, p).None?
    ensures var p, w' := PathOf(env, Run(env, w, n)), Run(env, w, n + 1);
            var r := Process(p.first, p.app, env(p.w1.tick)).status;
            w'.store.Some? ==>
              w'.store.value.status.suspendedReplicas == r.suspendedReplicas
              && w'.store.value.status.annotations == r.annotations
  {
    hide Reconcile, Act, Process, PathOf, Initialize, Inv, AlwaysOK, Begun, LastHonest, Suppressed, WriteError;
    var w0 := Run(env, w, n);
    InvRun(env, w, n);
    BegunRun(env, w, n);
    ReadyExactlyWhenRunning(env, w, n);
    PathTaken(env, w0);
    StoredEnd(env, w0);
    var p := PathOf(env, w0);
    var r := Process(p.first, p.app, env(p.w1.tick));
    if Suppressed(p.app, r) {
      SuppressedChangesNothing(w0, p.first, p.app, env(p.w1.tick));
    }
  }

  /** Conversely, a call whose status could not be stored has stored nothing and says so. */
  lemma LostWriteIsReported(env: Environment, w: World)
    requires var p := PathOf(env, w);
             p.Worked? && !Process(p.first, p.app, env(p.w1.tick)).panicked && WriteError(env, p).Some?
    ensures var (w', out) := Reconcile(env, w, WATCHED); out.Errored? && Quiet(w, w')
  {
    hide Reconcile, Act, Process, PathOf, UpdateStatusIfNeeded, Emissions, Deployed, SameStatus, Acting;
    PathTaken(env, w);
    var p := PathOf(env, w);
    ActEnd(env, p);
    var ans := env(p.w1.tick);
    var r := Process(p.first, p.app, ans);
    var w1 := WorkedWorld(p.w1, p.app, r);
    assert Quiet(p.w1, w1);
    WriteBackShape(env, w1, p.app, r.status, p.app.status, Processed(p.first, p.app, ans));
    QuietTransitive(w, p.w1, w1);
    QuietTransitive(w, w1, Reconcile(env, w, WATCHED).0);
  }
}
