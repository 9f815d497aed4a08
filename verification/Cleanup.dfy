/** Cleanup before release: the finalizer goes only after every listed claim is gone. */
module Cleanup {
  import opened Text
  import opened Config
  import opened Status
  import opened StatusCompare
  import opened Api
  import opened Cycle
  import opened BuildFacts
  import opened Reconciler
  import opened Effects
  import opened Runs

  /** Removing a name from the finalizer list removes every occurrence and nothing else. */
  lemma {:induction false} WithoutRemoves(fs: seq<string>, f: string)
    ensures forall g :: g in Without(fs, f) <==> g in fs && g != f
    ensures forall g :: multiset(Without(fs, f))[g] == if g == f then 0 else multiset(fs)[g]
  {
    if fs != [] {
      WithoutRemoves(fs[1..], f);
      assert fs == [fs[0]] + fs[1..];
    }
  }

  /** The write lost the controller's finalizer. */
  predicate LosesFinalizer(wr: Write) {
    FINALIZER in wr.before.finalizers && FINALIZER !in wr.after.finalizers
  }

  lemma LosingIsReleasing(wr: Write)
    requires WriteGood(wr)
    ensures LosesFinalizer(wr) <==> wr.cause.Released? && FINALIZER in wr.before.finalizers
  {
    hide Process, Initialize, SetCondition;
    WithoutRemoves(wr.before.finalizers, FINALIZER);
  }

  /** The write took the finalizer off a deleted object, and every claim it lists is among those
      whose deletion was confirmed. */
  predicate CleanedFirst(wr: Write, confirmed: seq<string>) {
    && wr.before.deleting && wr.cause.Released?
    && forall p :: p in wr.cause.listed ==> p in confirmed
  }

  /** In every run the controller takes its finalizer off only an object that is being deleted,
      after every claim listed for it was deleted or found absent - in that very cycle. */
  lemma CleanedBeforeRelease(env: Environment, w: World, n: nat)
    requires IsInitial(w)
    ensures var w0, w1 := Run(env, w, n), Run(env, w, n + 1);
            && (forall i :: 0 <= i < |w1.writes| && LosesFinalizer(w1.writes[i]) ==>
                  CleanedFirst(w1.writes[i], w1.cleaned))
            && |w0.writes| <= |w1.writes| && |w0.cleaned| <= |w1.cleaned|
            && forall i :: |w0.writes| <= i < |w1.writes| && LosesFinalizer(w1.writes[i]) ==>
                 CleanedFirst(w1.writes[i], w1.cleaned[|w0.cleaned|..])
  {
    hide Run, Reconcile, WriteGood, TraceOf, Process, LosesFinalizer, Quiet, Stored;
    RunNext(env, w, n);
    CycleShape(env, Run(env, w, n));
    InvRun(env, w, n + 1);
    var w1 := Run(env, w, n + 1);
    forall i | 0 <= i < |w1.writes| && LosesFinalizer(w1.writes[i])
      ensures w1.writes[i].before.deleting && w1.writes[i].cause.Released?
    {
      LosingIsReleasing(w1.writes[i]);
      ReleasesOnlyDeleted(w1.writes[i]);
    }
  }

  lemma ReleasesOnlyDeleted(wr: Write)
    requires WriteGood(wr) && wr.cause.Released?
    ensures wr.before.deleting
  {
  }

  lemma {:induction false} CleanTold(w: World, ans: Oracle, i: nat, k: nat)
    requires i <= k < |ans.listing| && ans.pvcFault(ans.listing[k])
    requires forall j :: i <= j < k ==> !ans.pvcFault(ans.listing[j])
    ensures CleanFrom(w, ans, i) == (w.(cleaned := w.cleaned + ans.listing[i..k]),
                                     Some(Error(ClaimDeletion, ans.listing[k], false)))
    decreases k - i
  {
    if i < k {
      CleanTold(w.(cleaned := w.cleaned + [ans.listing[i]]), ans, i + 1, k);
      assert [ans.listing[i]] + ans.listing[i + 1..k] == ans.listing[i..k];
      assert w.cleaned + [ans.listing[i]] + ans.listing[i + 1..k]
          == w.cleaned + ([ans.listing[i]] + ans.listing[i + 1..k]);
    } else {
      assert w.cleaned + ans.listing[i..k] == w.cleaned;
    }
  }

  /** A failed listing, or else the first failed deletion, is the error of the cycle; exactly the
      claims listed before it are gone. */
  lemma CleanupErrors(env: Environment, w: World, app: App, k: nat)
    requires app.deleting && "infini.cloud/finalizer" in app.finalizers
    ensures var (w', f) := HandleFinalizer(env, w, app);
            env(w.tick).fault ==> f == FinalizerError(Error(ListFailed, "", false)) && w'.cleaned == w.cleaned
    ensures var (w', f) := HandleFinalizer(env, w, app);
            var ans := env(w.tick);
            !ans.fault && k < |ans.listing| && ans.pvcFault(ans.listing[k])
            && (forall j :: 0 <= j < k ==> !ans.pvcFault(ans.listing[j])) ==>
              && f == FinalizerError(Error(ClaimDeletion, ans.listing[k], false))
              && w'.cleaned == w.cleaned + ans.listing[..k]
  {
    hide CleanFrom, ReleaseFrom;
    var ans := env(w.tick);
    if !ans.fault && k < |ans.listing| && ans.pvcFault(ans.listing[k])
       && forall j :: 0 <= j < k ==> !ans.pvcFault(ans.listing[j]) {
      CleanTold(Interfere(env, w), ans, 0, k);
    }
  }

  /** One finalizing cycle, from the environment's side: if the listing or any deletion fails the
      finalizer stays; a clean end has removed it, found it gone, or met three conflicts. */
  lemma FailureKeepsFinalizer(env: Environment, w: World, app: App)
    requires app.deleting && FINALIZER in app.finalizers && StoreEvolved(Some(app), w.store)
    ensures var (w', f) := Finalize(env, w, app);
            var failed := env(w.tick).fault || exists p :: p in env(w.tick).listing && env(w.tick).pvcFault(p);
            && (failed ==> f.FinalizerError? && w'.writes == w.writes)
            && (f == Deleted ==> !failed && (w'.attempts == w.attempts + 3 || w'.writes != w.writes))
  {
    hide ReleaseFrom, GoodWrites, Quiet;
    FinalizeShape(env, w, app);
    var ans := env(w.tick);
    if !ans.fault {
      CleanEffect(Interfere(env, w), ans, 0);
      FaultListed(ans);
      var (w2, e) := CleanFrom(Interfere(env, w), ans, 0);
      assert e.Some? ==> Finalize(env, w, app) == (w2, FinalizerError(e.value));
    }
  }

  lemma FaultListed(ans: Oracle)
    ensures (exists p :: p in ans.listing && ans.pvcFault(p)) <==>
              !forall k :: 0 <= k < |ans.listing| ==> !ans.pvcFault(ans.listing[k])
  {
    forall p | p in ans.listing ensures exists k :: 0 <= k < |ans.listing| && ans.listing[k] == p {
    }
  }

  // ----- deleted objects that are never released -----

  /** A specification without components, or with an empty or repeated name: a cycle ends with it
      before it comes to the finalizer. */
  ghost predicate Unfinishable(spec: Spec) {
    spec.components == [] || !NamesInOrder(spec)
  }

  ghost predicate NeverMended(env: Environment, t: nat) {
    forall k :: t <= k ==> forall e :: e in env(k).edits && e.Put? ==> Unfinishable(e.spec)
  }

  ghost predicate StaysUnfinishable(store: Option<App>) {
    store.Some? ==> Unfinishable(store.value.spec)
  }

  lemma {:induction false} EditsKeepUnfinishable(edits: seq<Edit>, store: Option<App>)
    requires StaysUnfinishable(store) && forall e :: e in edits && e.Put? ==> Unfinishable(e.spec)
    ensures StaysUnfinishable(ApplyEdits(edits, store))
  {
    hide Unfinishable;
    if store.Some? && edits != [] {
      assert edits[0] in edits;
      EditsKeepUnfinishable(edits[1..], ApplyEdit(edits[0], store.value));
    }
  }

  /** The controller has kept its hands off claims and finalizers. */
  ghost predicate HandsOff(w: World, w': World) {
    && w.tick <= w'.tick && w'.cleaned == w.cleaned && w.writes <= w'.writes
    && (forall i :: |w.writes| <= i < |w'.writes| ==>
          w'.writes[i].after.finalizers == w'.writes[i].before.finalizers)
    && (StaysUnfinishable(w.store) ==> StaysUnfinishable(w'.store))
  }

  lemma HandsOffTransitive(a: World, b: World, c: World)
    requires HandsOff(a, b) && HandsOff(b, c)
    ensures HandsOff(a, c)
  {
    hide StaysUnfinishable;
    assert forall i :: 0 <= i < |b.writes| ==> b.writes[i] == c.writes[i];
  }

  lemma InterfereHandsOff(env: Environment, w: World)
    requires NeverMended(env, w.tick)
    ensures HandsOff(w, Interfere(env, w))
  {
    if StaysUnfinishable(w.store) {
      EditsKeepUnfinishable(env(w.tick).edits, w.store);
    }
  }

  lemma {:induction false} StatusHandsOff(env: Environment, w: World, app: App, desired: AppStatus, cause: Cause,
                                          i: nat)
    requires i <= MAX_WRITES && NeverMended(env, w.tick) && IsStatusWrite(cause)
    ensures HandsOff(w, StatusFrom(env, w, app, desired, cause, i).0)
    decreases MAX_WRITES - i
  {
    hide Interfere, NeverMended, Unfinishable;
    if i < MAX_WRITES {
      InterfereHandsOff(env, w);
      var (w1, r) := UpdateStatus(env, w, app, cause);
      assert HandsOff(w, w1);
      if r.Conflict? {
        MendedLater(env, w.tick, w1.tick);
        InterfereHandsOff(env, w1);
        var (w2, g) := Get(env, w1);
        assert HandsOff(w1, w2);
        HandsOffTransitive(w, w1, w2);
        if g.Got? {
          MendedLater(env, w.tick, w2.tick);
          StatusHandsOff(env, w2, Stamp(g.app, desired), desired, cause, i + 1);
          HandsOffTransitive(w, w2, StatusFrom(env, w2, Stamp(g.app, desired), desired, cause, i + 1).0);
        }
      }
    }
  }

  lemma MendedLater(env: Environment, t: nat, u: nat)
    requires t <= u && NeverMended(env, t)
    ensures NeverMended(env, u)
  {
  }

  lemma UnfinishableCycle(env: Environment, w: World)
    requires NeverMended(env, w.tick) && StaysUnfinishable(w.store)
    ensures HandsOff(w, Reconcile(env, w, WATCHED).0)
  {
    hide Initialize, NeverMended, NamesInOrder, StatusFrom, SameStatus, HandsOff, ErrorStatus, EmptiedStatus,
         Advance, HandleFinalizer;
    InterfereHandsOff(env, w);
    var (w1, g) := Get(env, w);
    if g.Got? {
      HandedOff(w, w1);
      InitializeIff(g.app.spec);
      MendedLater(env, w.tick, w1.tick);
      forall desired: AppStatus, cause: Cause | IsStatusWrite(cause)
        ensures HandsOff(w, UpdateStatusIfNeeded(env, w1, g.app, desired, g.app.status, cause).0)
      {
        UpdateHandsOff(env, w, w1, g.app, desired, cause);
      }
    }
  }

  lemma HandedOff(w: World, w': World)
    requires HandsOff(w, w')
    ensures w.tick <= w'.tick && (StaysUnfinishable(w.store) ==> StaysUnfinishable(w'.store))
  {
  }

  lemma UpdateHandsOff(env: Environment, w: World, w1: World, app: App, desired: AppStatus, cause: Cause)
    requires HandsOff(w, w1) && NeverMended(env, w1.tick) && IsStatusWrite(cause)
    ensures HandsOff(w, UpdateStatusIfNeeded(env, w1, app, desired, app.status, cause).0)
  {
    hide SameStatus, StatusFrom, HandsOff;
    var stamped := Stamp(app, desired);
    if !SameStatus(stamped.status, app.status) {
      StatusHandsOff(env, w1, stamped, stamped.status, cause, 0);
      HandsOffTransitive(w, w1, StatusFrom(env, w1, stamped, stamped.status, cause, 0).0);
    }
  }

  /** An object whose specification is empty or rejected when it is deleted is never released: as
      long as no edit mends the specification, no cycle deletes a claim, and none adds or takes off
      the finalizer. */
  lemma {:induction false} NeverReleased(env: Environment, w: World, n: nat, m: nat)
    requires n <= m && StaysUnfinishable(Run(env, w, n).store) && NeverMended(env, Run(env, w, n).tick)
    ensures HandsOff(Run(env, w, n), Run(env, w, m))
  {
    hide Reconcile, HandsOff, NeverMended, StaysUnfinishable;
    var a := Run(env, w, n);
    if n < m {
      NeverReleased(env, w, n, m - 1);
      var b := Run(env, w, m - 1);
      HandedOff(a, b);
      MendedLater(env, a.tick, b.tick);
      UnfinishableCycle(env, b);
      HandsOffTransitive(a, b, Run(env, w, m));
    } else {
      Unmoved(a);
    }
  }

  lemma Unmoved(w: World)
    ensures HandsOff(w, w)
  {
  }
}
