/** The shape of a cycle, and the invariant every run keeps: each write is accounted for by
    what the controller had read and computed, and overwrites nobody's edit. */
module Runs {
  import opened Text
  import opened Config
  import opened Status
  import opened StatusCompare
  import opened Api
  import opened Cycle
  import opened Reconciler
  import opened Effects

  /** The object on which steps 4 to 8 are run. */
  ghost predicate Acting(first: Spec, app: App) {
    && Initialize(first).1.None? && first.components != []
    && app.status.phase != Unset && app.status.phase != Pending
    && !SkipsSuspended(app) && !FastPath(app)
  }

  /** The status a write was meant to store, from what the controller had read. */
  ghost function Wanted(c: Cause, before: App): AppStatus
    requires IsStatusWrite(c)
  {
    match c
    case Started => StartedStatus(before.status)
    case Emptied(app) => Stamp(before, EmptiedStatus(app.status)).status
    case Rejected(app) =>
      var (statuses, e) := Initialize(app.spec);
      if e.Some? then Stamp(before, ErrorStatus(app.status, statuses, InitializationFailed, e.value)).status
      else before.status
    case Processed(first, app, ans) => Stamp(before, Process(first, app, ans).status).status
  }

  /** The step that wrote was entitled to. */
  ghost predicate Entitled(c: Cause, before: App) {
    match c
    case Claimed => true
    case Released(_) => before.deleting
    case Started => before.status.phase == Unset || before.status.phase == Pending
    case Emptied(app) => Evolved(app, before) && Initialize(app.spec).1.None? && app.spec.components == []
    case Rejected(app) => Evolved(app, before) && Initialize(app.spec).1.Some?
    case Processed(first, app, ans) => Evolved(app, before) && Acting(first, app) && !Process(first, app, ans).panicked
  }

  /** A write changes the finalizer list by one name, or the status to the wanted one; nothing
      else of the object it lands on, which is the object the controller had last read. */
  ghost predicate WriteGood(wr: Write) {
    && Entitled(wr.cause, wr.before)
    && match wr.cause
       case Claimed => wr.after == Changed(wr.before, WithFinalizer(wr.before))
       case Released(_) => wr.after == Changed(wr.before, WithoutFinalizer(wr.before))
       case _ => OnlyStatus(wr) && wr.after.status == Wanted(wr.cause, wr.before)
  }

  // ----- which way a cycle goes -----

  /** The cycle ended before steps 4 to 8, or went through them with an object, in a world. */
  datatype Path = Ended | Worked(w1: World, first: Spec, app: App)

  ghost function PathFrom(env: Environment, w: World, app: App): Path {
    if Initialize(app.spec).1.Some? || app.spec.components == [] then Ended
    else
      var (w1, f) := HandleFinalizer(env, w, app);
      if f.Continue? && Acting(app.spec, f.app) then Worked(w1, app.spec, f.app) else Ended
  }

  ghost function PathOf(env: Environment, w: World): Path {
    var (w1, g) := Get(env, w);
    if g.Got? then PathFrom(env, w1, g.app) else Ended
  }

  /** What a working cycle worked on and with which answers. */
  datatype Trace = NoAct | Acted(first: Spec, app: App, answers: Oracle)

  ghost function TraceFor(env: Environment, p: Path): Trace {
    if p.Worked? then Acted(p.first, p.app, env(p.w1.tick)) else NoAct
  }

  ghost function TraceOf(env: Environment, w: World): Trace {
    TraceFor(env, PathOf(env, w))
  }

  // ----- what a cycle leaves -----

  /** No status was stored. */
  ghost predicate Quiet(w: World, w': World) {
    && w'.last == w.last && StoreEvolved(w.store, w'.store)
    && w.writes <= w'.writes && forall i :: |w.writes| <= i < |w'.writes| ==> !IsStatusWrite(w'.writes[i].cause)
  }

  /** One status was stored, as the last thing to reach the store. */
  ghost predicate Landed(w: World, w': World) {
    && w'.last.Some? && var wr := w'.last.value;
    && IsStatusWrite(wr.cause) && WriteGood(wr)
    && StoreEvolved(w.store, Some(wr.before)) && w'.store == Some(wr.after)
    && w.writes <= w'.writes && wr in w'.writes[|w.writes|..]
    && forall i :: |w.writes| <= i < |w'.writes| && IsStatusWrite(w'.writes[i].cause) ==> w'.writes[i] == wr
  }

  /** ... and was computed from an object read in the same cycle. */
  ghost predicate Stored(w: World, w': World) {
    Landed(w, w') && (!w'.last.value.cause.Started? ==> StoreEvolved(w.store, Some(w'.last.value.cause.app)))
  }

  /** Earlier writes stay, new ones are good, and claims listed for a release were deleted meanwhile. */
  ghost predicate GoodWrites(w: World, w': World) {
    && w.writes <= w'.writes && w.cleaned <= w'.cleaned
    && forall i :: |w.writes| <= i < |w'.writes| ==>
         && WriteGood(w'.writes[i])
         && (w'.writes[i].cause.Released? ==> forall p :: p in w'.writes[i].cause.listed ==>
               p in w'.cleaned[|w.cleaned|..])
  }

  ghost predicate Shape(w: World, w': World, t: Trace) {
    && (Quiet(w, w') || Stored(w, w')) && GoodWrites(w, w')
    && match t
       case NoAct =>
         && w'.cluster == w.cluster
         && (w'.events == w.events
             || (Stored(w, w') && w'.events == w.events + Emitted(w'.last.value.after, ProcessingStarted)))
         && (!Quiet(w, w') ==> !w'.last.value.cause.Processed?)
       case Acted(first, app, ans) =>
         var r := Process(first, app, ans);
         && Acting(first, app) && StoreEvolved(w.store, Some(app))
         && w'.cluster == Deployed(w.cluster, r.applied)
         && w'.events == w.events + Emissions(app, r.events)
         && (!Quiet(w, w') ==> w'.last.value.cause == Processed(first, app, ans))
  }

  lemma WriteBackShape(env: Environment, w: World, app: App, desired: AppStatus, original: AppStatus, cause: Cause)
    requires StoreEvolved(Some(app), w.store)
    requires IsStatusWrite(cause) && !cause.Started?
    requires forall before: App :: Evolved(app, before) ==>
               Entitled(cause, before) && Wanted(cause, before) == Stamp(before, desired).status
    ensures var (w', e) := UpdateStatusIfNeeded(env, w, app, desired, original, cause);
            && GoodWrites(w, w') && w'.cluster == w.cluster && w'.events == w.events
            && (e.Some? || SameStatus(Stamp(app, desired).status, original) ==> Quiet(w, w'))
            && (e.None? && !SameStatus(Stamp(app, desired).status, original) ==>
                  Landed(w, w') && w'.last.value.cause == cause)
  {
    hide SameStatus, Entitled, Wanted;
    if !SameStatus(Stamp(app, desired).status, original) {
      var stamped := Stamp(app, desired);
      assert Stamp(app, stamped.status) == stamped;
      StatusEffect(env, w, app, stamped.status, cause, 0);
      var (w', e) := StatusFrom(env, w, stamped, stamped.status, cause, 0);
      if e.None? {
        var wr := Newest(w');
        assert Stamp(wr.before, stamped.status) == Stamp(wr.before, desired);
        assert WriteGood(wr);
      }
    }
  }

  /** What the controller has done before it starts to act on app: at most claimed the finalizer. */
  ghost predicate Prepared(w0: World, w: World, app: App) {
    && Quiet(w0, w) && GoodWrites(w0, w) && w.cluster == w0.cluster && w.events == w0.events
    && StoreEvolved(w0.store, Some(app)) && StoreEvolved(Some(app), w.store)
  }

  lemma GoodWritesTransitive(a: World, b: World, c: World)
    requires GoodWrites(a, b) && GoodWrites(b, c)
    ensures GoodWrites(a, c)
  {
    assert forall i :: 0 <= i < |b.writes| ==> b.writes[i] == c.writes[i];
    var x, y := b.cleaned[|a.cleaned|..], c.cleaned[|b.cleaned|..];
    assert c.cleaned[|a.cleaned|..] == x + y;
  }

  lemma QuietTransitive(a: World, b: World, c: World)
    requires Quiet(a, b) && Quiet(b, c)
    ensures Quiet(a, c)
  {
    EvolvedTransitive(a.store, b.store, c.store);
    assert forall i :: 0 <= i < |b.writes| ==> b.writes[i] == c.writes[i];
  }

  /** A status stored after quiet steps is stored since their start. */
  lemma LandedLater(a: World, b: World, c: World)
    requires Quiet(a, b) && Landed(b, c)
    ensures Landed(a, c)
  {
    EvolvedTransitive(a.store, b.store, Some(c.last.value.before));
    assert forall i :: 0 <= i < |b.writes| ==> b.writes[i] == c.writes[i];
    assert c.writes[|a.writes|..] == c.writes[|a.writes|..|b.writes|] + c.writes[|b.writes|..];
  }

  /** Writing back after the work: seen from the start of the cycle. */
  lemma WriteBackFromStart(env: Environment, w0: World, w: World, w1: World, app: App, desired: AppStatus,
                           original: AppStatus, cause: Cause)
    requires Prepared(w0, w, app) && w1 == w.(events := w1.events, cluster := w1.cluster)
    requires IsStatusWrite(cause) && !cause.Started? && cause.app == app
    requires forall before: App :: Evolved(app, before) ==>
               Entitled(cause, before) && Wanted(cause, before) == Stamp(before, desired).status
    ensures var w' := UpdateStatusIfNeeded(env, w1, app, desired, original, cause).0;
            && (Quiet(w0, w') || (Stored(w0, w') && w'.last.value.cause == cause))
            && GoodWrites(w0, w') && w'.cluster == w1.cluster && w'.events == w1.events
  {
    WriteBackShape(env, w1, app, desired, original, cause);
    var w' := UpdateStatusIfNeeded(env, w1, app, desired, original, cause).0;
    assert GoodWrites(w, w1);
    GoodWritesTransitive(w, w1, w');
    GoodWritesTransitive(w0, w, w');
    assert Quiet(w, w1);
    QuietTransitive(w0, w, w1);
    if Landed(w1, w') && w'.last.value.cause == cause {
      LandedLater(w0, w1, w');
    } else {
      QuietTransitive(w0, w1, w');
    }
  }

  lemma ActShape(env: Environment, w0: World, w: World, first: Spec, original: AppStatus, app: App)
    requires Prepared(w0, w, app) && Acting(first, app)
    ensures Shape(w0, Act(env, w, first, original, app).0, Acted(first, app, env(w.tick)))
  {
    var r := Process(first, app, env(w.tick));
    if !r.panicked {
      var w1 := w.(events := w.events + Emissions(app, r.events), cluster := Deployed(w.cluster, r.applied));
      WriteBackFromStart(env, w0, w, w1, app, r.status, original, Processed(first, app, env(w.tick)));
    }
  }

  lemma AdvanceShape(env: Environment, w0: World, w: World, first: Spec, original: AppStatus, app: App)
    requires Prepared(w0, w, app) && Initialize(first).1.None? && first.components != []
    ensures var w' := Advance(env, w, first, original, app).0;
            && Shape(w0, w', if Acting(first, app) then Acted(first, app, env(w.tick)) else NoAct)
            && (!Quiet(w0, w') ==> w'.last.value.cause.Started? || w'.last.value.cause.Processed?)
  {
    hide Act, StartFrom, Initialize, SetCondition;
    var w' := Advance(env, w, first, original, app).0;
    if app.status.phase == Unset || app.status.phase == Pending {
      StartEffect(env, w, app, 0);
      var (w1, e) := StartFrom(env, w, app.(status := StartedStatus(app.status)), 0);
      if e.None? {
        var wr := Newest(w1);
        assert WriteGood(wr);
        assert Landed(w, w1);
        LandedLater(w0, w, w1);
        assert GoodWrites(w, w1);
        GoodWritesTransitive(w0, w, w1);
      } else {
        QuietTransitive(w0, w, w1);
      }
    } else if !SkipsSuspended(app) && !FastPath(app) {
      ActShape(env, w0, w, first, original, app);
    }
  }

  lemma {:induction false} CleanEffect(w: World, ans: Oracle, i: nat)
    requires i <= |ans.listing|
    ensures var (w', e) := CleanFrom(w, ans, i);
            && w' == w.(cleaned := w'.cleaned) && w.cleaned <= w'.cleaned
            && (e.None? ==> forall k :: i <= k < |ans.listing| ==> ans.listing[k] in w'.cleaned[|w.cleaned|..])
            && (e.None? <==> forall k :: i <= k < |ans.listing| ==> !ans.pvcFault(ans.listing[k]))
    decreases |ans.listing| - i
  {
    if i < |ans.listing| && !ans.pvcFault(ans.listing[i]) {
      var w1 := w.(cleaned := w.cleaned + [ans.listing[i]]);
      CleanEffect(w1, ans, i + 1);
      var w' := CleanFrom(w1, ans, i + 1).0;
      assert w'.cleaned[|w.cleaned|..] == [ans.listing[i]] + w'.cleaned[|w1.cleaned|..];
    }
  }

  /** Finalizing: the finalizer goes only after the listing succeeded and every listed claim
      was deleted or absent; a clean end is a removal or three conflicts. */
  lemma FinalizeShape(env: Environment, w: World, app: App)
    requires app.deleting && StoreEvolved(Some(app), w.store)
    ensures var (w', f) := Finalize(env, w, app);
            && Quiet(w, w') && GoodWrites(w, w') && w'.cluster == w.cluster && w'.events == w.events
            && !f.Continue?
            && (w'.writes != w.writes ==>
                  && f == Deleted && |w'.writes| == |w.writes| + 1
                  && Newest(w').cause == Released(env(w.tick).listing)
                  && !env(w.tick).fault
                  && forall p :: p in env(w.tick).listing ==>
                       !env(w.tick).pvcFault(p) && p in w'.cleaned[|w.cleaned|..])
            && (f == Deleted && w'.writes == w.writes ==>
                  FINALIZER !in app.finalizers || w'.attempts == w.attempts + 3)
  {
    if FINALIZER in app.finalizers {
      var ans := env(w.tick);
      var w1 := Interfere(env, w);
      EditsEvolve(ans.edits, w.store);
      EvolvedTransitive(Some(app), w.store, w1.store);
      if !ans.fault {
        CleanEffect(w1, ans, 0);
        var (w2, e) := CleanFrom(w1, ans, 0);
        if e.None? {
          ReleaseEffect(env, w2, app, ans.listing, 0);
          var (w3, e') := ReleaseFrom(env, w2, WithoutFinalizer(app), ans.listing, 0);
          if e'.None? && Releases(w2, app, w3, ans.listing) {
            var wr := Newest(w3);
            assert w3.writes == w2.writes + [wr];
            assert WriteGood(wr);
            EvolvedTransitive(w.store, w1.store, Some(wr.before));
            EvolvedTransitive(w.store, Some(wr.before), Some(wr.after));
          } else {
            EvolvedTransitive(w.store, w1.store, w3.store);
          }
        }
      }
    }
  }

  lemma ClaimShape(env: Environment, w: World, app: App)
    requires !app.deleting && FINALIZER !in app.finalizers && StoreEvolved(Some(app), w.store)
    ensures var (w', f) := HandleFinalizer(env, w, app);
            && Quiet(w, w') && GoodWrites(w, w') && w'.cluster == w.cluster && w'.events == w.events
            && (f.Continue? ==> StoreEvolved(w.store, Some(f.app)) && StoreEvolved(Some(f.app), w'.store))
            && !f.Deleted?
  {
    ClaimEffect(env, w, app, 0);
    var (w', stored, e) := ClaimFrom(env, w, WithFinalizer(app), 0);
    if e.None? {
      var wr := Newest(w');
      assert w'.writes == w.writes + [wr];
      assert WriteGood(wr);
      EvolvedTransitive(w.store, Some(wr.before), Some(stored));
    }
  }

  /** A status that rejects or empties was computed from the object as first read. */
  predicate FromRead(c: Cause, app: App) {
    c.Emptied? || c.Rejected? ==> c.app == app
  }

  lemma HandleShape(env: Environment, w0: World, w: World, app: App)
    requires Quiet(w0, w) && w == w0.(store := w.store, tick := w.tick) && w.store == Some(app)
    ensures var w' := Handle(env, w, app).0;
            && Shape(w0, w', TraceFor(env, PathFrom(env, w, app)))
            && (!Quiet(w0, w') ==> FromRead(w'.last.value.cause, app))
  {
    hide Initialize, UpdateStatusIfNeeded, Advance, Finalize, ClaimFrom, ErrorStatus, SetCondition, Acting;
    var (statuses, e) := Initialize(app.spec);
    var w' := Handle(env, w, app).0;
    if e.Some? {
      WriteBackShape(env, w, app, ErrorStatus(app.status, statuses, InitializationFailed, e.value), app.status,
                     Rejected(app));
      var u := UpdateStatusIfNeeded(env, w, app, ErrorStatus(app.status, statuses, InitializationFailed, e.value),
                                    app.status, Rejected(app));
      assert w' == u.0;
      FromStart(w0, w, w');
    } else if app.spec.components == [] {
      WriteBackShape(env, w, app, EmptiedStatus(app.status), app.status, Emptied(app));
      var u := UpdateStatusIfNeeded(env, w, app, EmptiedStatus(app.status), app.status, Emptied(app));
      assert w' == u.0;
      FromStart(w0, w, w');
    } else {
      var (w1, f) := HandleFinalizer(env, w, app);
      if app.deleting {
        FinalizeShape(env, w, app);
        FromStart(w0, w, w');
      } else {
        if FINALIZER !in app.finalizers {
          ClaimShape(env, w, app);
        }
        FromStart(w0, w, w1);
        if f.Continue? {
          EvolvedTransitive(w0.store, w.store, Some(f.app));
          AdvanceShape(env, w0, w1, app.spec, app.status, f.app);
        }
      }
    }
  }

  lemma FromStart(w0: World, w: World, w': World)
    requires Quiet(w0, w) && w == w0.(store := w.store, tick := w.tick)
    requires (Quiet(w, w') || Stored(w, w')) && GoodWrites(w, w')
    ensures (Quiet(w, w') ==> Quiet(w0, w')) && (Stored(w, w') ==> Stored(w0, w')) && GoodWrites(w0, w')
  {
    if Quiet(w, w') {
      QuietTransitive(w0, w, w');
    }
    if Stored(w, w') {
      LandedLater(w0, w, w');
    }
  }

  /** Every cycle has the shape of its trace. */
  lemma CycleShape(env: Environment, w: World)
    ensures var w' := Reconcile(env, w, WATCHED).0;
            && Shape(w, w', TraceOf(env, w))
            && (!Quiet(w, w') ==> Get(env, w).1.Got? && FromRead(w'.last.value.cause, Get(env, w).1.app))
  {
    hide Handle, PathFrom;
    GetEffect(env, w);
    var (w1, g) := Get(env, w);
    if g.Got? {
      HandleShape(env, w, w1, g.app);
    }
  }

  // ----- several cycles -----

  lemma RunNext(env: Environment, w: World, n: nat)
    ensures Run(env, w, n + 1) == Reconcile(env, Run(env, w, n), WATCHED).0
  {
    hide Reconcile;
  }

  /** The cycles from n up to m stored no status. */
  ghost predicate NothingStored(env: Environment, w: World, n: nat, m: nat) {
    forall k :: n <= k < m ==> Quiet(Run(env, w, k), Run(env, w, k + 1))
  }

  lemma {:induction false} QuietStretch(env: Environment, w: World, n: nat, m: nat)
    requires n <= m && NothingStored(env, w, n, m)
    ensures Quiet(Run(env, w, n), Run(env, w, m))
  {
    hide Reconcile;
    if n < m {
      QuietStretch(env, w, n, m - 1);
      QuietTransitive(Run(env, w, n), Run(env, w, m - 1), Run(env, w, m));
    }
  }

  /** A cycle works with the status it finds stored. */
  lemma ActedOnStored(env: Environment, w: World)
    ensures var t := TraceOf(env, w);
            t.Acted? ==> w.store.Some? && t.app.status == w.store.value.status
  {
    hide Reconcile, TraceOf, Process, GoodWrites, WriteGood, Acting;
    CycleShape(env, w);
  }

  // ----- the run invariant -----

  /** Every write so far is good, releases followed their cleanup, and the stored status is the
      one last written. */
  ghost predicate Inv(w: World) {
    && (forall i :: 0 <= i < |w.writes| ==>
          && WriteGood(w.writes[i])
          && (w.writes[i].cause.Released? ==> forall p :: p in w.writes[i].cause.listed ==> p in w.cleaned))
    && (w.last.Some? ==>
          && IsStatusWrite(w.last.value.cause) && WriteGood(w.last.value)
          && StoreEvolved(Some(w.last.value.after), w.store))
    && (w.last.None? && w.store.Some? ==> w.store.value.status == EMPTY_STATUS)
  }

  lemma InvCycle(env: Environment, w: World)
    requires Inv(w)
    ensures Inv(Reconcile(env, w, WATCHED).0)
  {
    hide Reconcile, Process, SetCondition, PathOf;
    CycleShape(env, w);
    var w' := Reconcile(env, w, WATCHED).0;
    assert forall i :: 0 <= i < |w.writes| ==> w'.writes[i] == w.writes[i];
    if Quiet(w, w') && w.last.Some? {
      EvolvedTransitive(Some(w.last.value.after), w.store, w'.store);
    }
  }

  lemma {:induction false} InvRun(env: Environment, w: World, n: nat)
    requires IsInitial(w)
    ensures Inv(Run(env, w, n))
  {
    if n > 0 {
      InvRun(env, w, n - 1);
      InvCycle(env, Run(env, w, n - 1));
    }
  }
}
