/** What the retry loops and a whole cycle can do to the stored object: the optimistic lock at
    work. Every later run property rests on CycleShape. */
module Effects {
  import opened Text
  import opened Config
  import opened Status
  import opened StatusCompare
  import opened Api
  import opened Cycle
  import opened Reconciler

  lemma EvolvedTransitive(a: Option<App>, b: Option<App>, c: Option<App>)
    requires StoreEvolved(a, b) && StoreEvolved(b, c)
    ensures StoreEvolved(a, c)
  {
  }

  /** Nothing of the controller's reached the store. */
  ghost predicate NoWrite(w: World, w': World) {
    && w'.writes == w.writes && w'.last == w.last && StoreEvolved(w.store, w'.store)
    && w'.cluster == w.cluster && w'.cleaned == w.cleaned
  }

  /** A write onto the very object that had been read: it changes status, or finalizers, and
      nothing else, and the only other difference is the version. */
  ghost predicate OnlyStatus(wr: Write) {
    wr.after == Changed(wr.before, wr.before.(status := wr.after.status))
  }

  ghost predicate OnlyFinalizers(wr: Write) {
    wr.after == Changed(wr.before, wr.before.(finalizers := wr.after.finalizers))
  }

  /** Exactly one write, onto an object that evolved from base and from what was stored. */
  ghost predicate OneWrite(w: World, w': World, base: App, wr: Write) {
    && w'.writes == w.writes + [wr]
    && Evolved(base, wr.before) && StoreEvolved(w.store, Some(wr.before))
    && w'.cluster == w.cluster && w'.cleaned == w.cleaned
  }

  ghost function Newest(w: World): Write
    requires w.writes != []
  {
    w.writes[|w.writes| - 1]
  }

  lemma GetEffect(env: Environment, w: World)
    ensures var (w1, g) := Get(env, w);
            && NoWrite(w, w1) && w1.attempts == w.attempts && w1.events == w.events
            && (g.Got? ==> w1.store == Some(g.app)) && (g.NotFound? ==> w1.store == None)
  {
    EditsEvolve(env(w.tick).edits, w.store);
  }

  /** Every admitted write finds the object exactly as it was read. */
  lemma AdmitEffect(env: Environment, w: World, app: App, base: App)
    requires app.rv == base.rv && StoreEvolved(Some(base), w.store)
    ensures var (w1, r) := Admit(env, w, app);
            && NoWrite(w, w1) && w1.attempts == w.attempts + 1 && w1.events == w.events
            && (r.Accepted? ==> r.app == base && w1.store == Some(base))
            && (r.Refused? ==> r.error.origin in {RequestFailed, ObjectNotFound})
  {
    EditsEvolve(env(w.tick).edits, w.store);
  }

  lemma UpdateEffect(env: Environment, w: World, base: App, finalizers: seq<string>, cause: Cause)
    requires StoreEvolved(Some(base), w.store)
    ensures var (w1, r) := Update(env, w, base.(finalizers := finalizers), cause);
            && w1.attempts == w.attempts + 1 && w1.events == w.events && w1.last == w.last
            && (r.Accepted? ==>
                  && r.app == Changed(base, base.(finalizers := finalizers))
                  && OneWrite(w, w1, base, Write(base, r.app, cause)) && w1.store == Settle(r.app)
                  && OnlyFinalizers(Write(base, r.app, cause)))
            && (!r.Accepted? ==> NoWrite(w, w1))
            && (r.Refused? ==> r.error.origin in {RequestFailed, ObjectNotFound, Forbidden})
  {
    AdmitEffect(env, w, base.(finalizers := finalizers), base);
  }

  lemma UpdateStatusEffect(env: Environment, w: World, base: App, st: AppStatus, cause: Cause)
    requires StoreEvolved(Some(base), w.store)
    ensures var (w1, r) := UpdateStatus(env, w, base.(status := st), cause);
            && (r.Refused? ==> !r.error.conflict && r.error.origin in {RequestFailed, ObjectNotFound})
            && w1.attempts == w.attempts + 1 && w1.events == w.events
            && (r.Accepted? ==>
                  && r.app == Changed(base, base.(status := st))
                  && OneWrite(w, w1, base, Write(base, r.app, cause)) && w1.store == Some(r.app)
                  && w1.last == Some(Write(base, r.app, cause)) && OnlyStatus(Write(base, r.app, cause)))
            && (!r.Accepted? ==> NoWrite(w, w1))
  {
    AdmitEffect(env, w, base.(status := st), base);
  }

  // ----- the four retry loops -----

  /** A conflict and a successful re-fetch: nothing written, and the fetched object is current. */
  ghost predicate Refetched(w: World, base: App, w2: World, latest: App) {
    && NoWrite(w, w2) && w2.attempts == w.attempts + 1 && w2.events == w.events
    && w2.store == Some(latest) && StoreEvolved(Some(base), Some(latest)) && StoreEvolved(w.store, Some(latest))
  }

  lemma RefetchEffect(env: Environment, w: World, base: App, w1: World)
    requires StoreEvolved(Some(base), w.store)
    requires NoWrite(w, w1) && w1.attempts == w.attempts + 1 && w1.events == w.events
    ensures var (w2, g) := Get(env, w1);
            && (g.Got? ==> Refetched(w, base, w2, g.app))
            && (g.GetFailed? ==> !g.error.conflict && g.error.origin == RequestFailed)
            && NoWrite(w, w2) && w2.attempts == w.attempts + 1 && w2.events == w.events
  {
    GetEffect(env, w1);
    var (w2, _) := Get(env, w1);
    EvolvedTransitive(w.store, w1.store, w2.store);
    EvolvedTransitive(Some(base), w.store, w2.store);
  }

  /** A write after a re-fetch is a write since the start. */
  lemma LaterWrite(w: World, base: App, w2: World, latest: App, w': World, wr: Write)
    requires Refetched(w, base, w2, latest) && OneWrite(w2, w', latest, wr)
    ensures OneWrite(w, w', base, wr)
  {
    EvolvedTransitive(w.store, w2.store, Some(wr.before));
    EvolvedTransitive(Some(base), Some(latest), Some(wr.before));
  }

  lemma LaterNoWrite(w: World, base: App, w2: World, latest: App, w': World)
    requires Refetched(w, base, w2, latest) && NoWrite(w2, w')
    ensures NoWrite(w, w')
  {
    EvolvedTransitive(w.store, w2.store, w'.store);
  }

  /** At most n more attempts, all of them before giving up, and no write if there was an error. */
  ghost predicate Bounded(w: World, w': World, n: nat, error: Option<Error>) {
    && w'.attempts <= w.attempts + n
    && (error.Some? && error.value.origin == GaveUp ==> w'.attempts == w.attempts + n)
    && (error.Some? ==> NoWrite(w, w') && w'.events == w.events)
  }

  ghost predicate Claims(w: World, base: App, w': World, stored: App) {
    && w'.writes != [] && var wr := Newest(w');
    && OneWrite(w, w', base, wr) && wr == Write(wr.before, stored, Claimed)
    && stored == Changed(wr.before, WithFinalizer(wr.before))
    && stored.finalizers == (if "infini.cloud/finalizer" in wr.before.finalizers then wr.before.finalizers
                             else wr.before.finalizers + ["infini.cloud/finalizer"])
    && w'.store == Settle(stored) && w'.last == w.last && w'.events == w.events
  }

  /** Adding the finalizer: at most the remaining attempts, an error has written nothing, and a
      success has added the finalizer to the stored object and changed nothing else. */
  lemma {:induction false} ClaimEffect(env: Environment, w: World, base: App, i: nat)
    requires i <= MAX_WRITES && StoreEvolved(Some(base), w.store)
    ensures var (w', stored, e) := ClaimFrom(env, w, WithFinalizer(base), i);
            Bounded(w, w', MAX_WRITES - i, e) && (e.None? ==> Claims(w, base, w', stored))
    decreases MAX_WRITES - i
  {
    hide Update, Get;
    if i < MAX_WRITES {
      UpdateEffect(env, w, base, WithFinalizer(base).finalizers, Claimed);
      var (w1, r) := Update(env, w, WithFinalizer(base), Claimed);
      if r.Conflict? {
        RefetchEffect(env, w, base, w1);
        var (w2, g) := Get(env, w1);
        if g.Got? {
          ClaimEffect(env, w2, g.app, i + 1);
          var (w', stored, e) := ClaimFrom(env, w2, WithFinalizer(g.app), i + 1);
          if e.None? {
            LaterWrite(w, base, w2, g.app, w', Newest(w'));
          } else {
            LaterNoWrite(w, base, w2, g.app, w');
          }
        }
      } else if r.Accepted? {
        assert Newest(w1) == Write(base, r.app, Claimed);
      }
    }
  }

  ghost predicate Releases(w: World, base: App, w': World, listed: seq<string>) {
    && w'.writes != [] && var wr := Newest(w');
    && OneWrite(w, w', base, wr) && wr.cause == Released(listed)
    && wr.after == Changed(wr.before, WithoutFinalizer(wr.before))
    && w'.store == Settle(wr.after) && w'.last == w.last && w'.events == w.events
  }

  /** Removing it: a clean end is a removal, or three conflicts. */
  lemma {:induction false} ReleaseEffect(env: Environment, w: World, base: App, listed: seq<string>, i: nat)
    requires i <= MAX_WRITES && StoreEvolved(Some(base), w.store)
    ensures var (w', e) := ReleaseFrom(env, w, WithoutFinalizer(base), listed, i);
            && Bounded(w, w', MAX_WRITES - i, e)
            && (e.None? ==> || Releases(w, base, w', listed)
                            || (NoWrite(w, w') && w'.events == w.events
                                && w'.attempts == w.attempts + (MAX_WRITES - i)))
    decreases MAX_WRITES - i
  {
    hide Update, Get, Without;
    if i < MAX_WRITES {
      UpdateEffect(env, w, base, WithoutFinalizer(base).finalizers, Released(listed));
      var (w1, r) := Update(env, w, WithoutFinalizer(base), Released(listed));
      if r.Conflict? {
        RefetchEffect(env, w, base, w1);
        var (w2, g) := Get(env, w1);
        if g.Got? {
          ReleaseEffect(env, w2, g.app, listed, i + 1);
          var (w', e) := ReleaseFrom(env, w2, WithoutFinalizer(g.app), listed, i + 1);
          if e.None? && Releases(w2, g.app, w', listed) {
            LaterWrite(w, base, w2, g.app, w', Newest(w'));
          } else {
            LaterNoWrite(w, base, w2, g.app, w');
          }
        }
      } else if r.Accepted? {
        assert Newest(w1) == Write(base, r.app, Released(listed));
      }
    }
  }

  ghost predicate Starts(w: World, base: App, w': World) {
    && w'.writes != [] && var wr := Newest(w');
    && OneWrite(w, w', base, wr) && wr.cause == Started
    && wr.after == Changed(wr.before, wr.before.(status := StartedStatus(wr.before.status)))
    && w'.store == Some(wr.after) && w'.last == Some(wr)
    && w'.events == w.events + Emitted(wr.after, ProcessingStarted)
  }

  lemma {:induction false} StartEffect(env: Environment, w: World, base: App, i: nat)
    requires i <= MAX_WRITES && StoreEvolved(Some(base), w.store)
    ensures var (w', e) := StartFrom(env, w, base.(status := StartedStatus(base.status)), i);
            Bounded(w, w', MAX_WRITES - i, e) && (e.None? ==> Starts(w, base, w'))
    decreases MAX_WRITES - i
  {
    hide SetCondition, UpdateStatus, Get;
    if i < MAX_WRITES {
      var st := StartedStatus(base.status);
      UpdateStatusEffect(env, w, base, st, Started);
      var (w1, r) := UpdateStatus(env, w, base.(status := st), Started);
      if r.Conflict? {
        RefetchEffect(env, w, base, w1);
        var (w2, g) := Get(env, w1);
        if g.Got? {
          StartEffect(env, w2, g.app, i + 1);
          var (w', e) := StartFrom(env, w2, g.app.(status := StartedStatus(g.app.status)), i + 1);
          if e.None? {
            LaterWrite(w, base, w2, g.app, w', Newest(w'));
          } else {
            LaterNoWrite(w, base, w2, g.app, w');
          }
        }
      } else if r.Accepted? {
        assert Newest(w1) == Write(base, r.app, Started);
      }
    }
  }

  ghost predicate Stores(w: World, base: App, w': World, desired: AppStatus, cause: Cause) {
    && w'.writes != [] && var wr := Newest(w');
    && OneWrite(w, w', base, wr) && wr.cause == cause
    && wr.after == Changed(wr.before, Stamp(wr.before, desired))
    && w'.store == Some(wr.after) && w'.last == Some(wr) && w'.events == w.events
  }

  /** Writing back a status: what lands is the desired status, stamped with the generation of
      the object it lands on, and nothing but the status changes. The error is never a conflict. */
  lemma {:induction false} StatusEffect(env: Environment, w: World, base: App, desired: AppStatus, cause: Cause, i: nat)
    requires i <= MAX_WRITES && StoreEvolved(Some(base), w.store)
    ensures var (w', e) := StatusFrom(env, w, Stamp(base, desired), desired, cause, i);
            && Bounded(w, w', MAX_WRITES - i, e)
            && (e.Some? ==> !e.value.conflict)
            && (e.None? ==> Stores(w, base, w', desired, cause))
    decreases MAX_WRITES - i
  {
    hide UpdateStatus, Get;
    if i < MAX_WRITES {
      var st := Stamp(base, desired).status;
      UpdateStatusEffect(env, w, base, st, cause);
      var (w1, r) := UpdateStatus(env, w, base.(status := st), cause);
      if r.Conflict? {
        RefetchEffect(env, w, base, w1);
        var (w2, g) := Get(env, w1);
        if g.Got? {
          StatusEffect(env, w2, g.app, desired, cause, i + 1);
          var (w', e) := StatusFrom(env, w2, Stamp(g.app, desired), desired, cause, i + 1);
          if e.None? {
            LaterWrite(w, base, w2, g.app, w', Newest(w'));
          } else {
            LaterNoWrite(w, base, w2, g.app, w');
          }
        }
      } else if r.Accepted? {
        assert Newest(w1) == Write(base, r.app, cause);
      }
    }
  }

  /** The loops in numbers: three requests at the most, and exactly three before giving up - or,
      when the finalizer is removed, before ending without a word. */
  lemma ThreeAttempts(env: Environment, w: World, base: App, desired: AppStatus, cause: Cause, listed: seq<string>)
    requires StoreEvolved(Some(base), w.store)
    ensures var (w', _, e) := ClaimFrom(env, w, WithFinalizer(base), 0);
            w'.attempts <= w.attempts + 3 && (e.Some? && e.value.origin == GaveUp ==> w'.attempts == w.attempts + 3)
    ensures var (w', e) := ReleaseFrom(env, w, WithoutFinalizer(base), listed, 0);
            w'.attempts <= w.attempts + 3 && (e.None? && w'.writes == w.writes ==> w'.attempts == w.attempts + 3)
    ensures var (w', e) := StartFrom(env, w, base.(status := StartedStatus(base.status)), 0);
            w'.attempts <= w.attempts + 3 && (e.Some? && e.value.origin == GaveUp ==> w'.attempts == w.attempts + 3)
    ensures var (w', e) := StatusFrom(env, w, Stamp(base, desired), desired, cause, 0);
            w'.attempts <= w.attempts + 3 && (e.Some? && e.value.origin == GaveUp ==> w'.attempts == w.attempts + 3)
  {
    hide ClaimFrom, ReleaseFrom, StartFrom, StatusFrom, StartedStatus;
    ClaimEffect(env, w, base, 0);
    ReleaseEffect(env, w, base, listed, 0);
    StartEffect(env, w, base, 0);
    StatusEffect(env, w, base, desired, cause, 0);
  }
}
