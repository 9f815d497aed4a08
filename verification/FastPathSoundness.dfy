/** When the early return for a stable, running application is right: the persisted status was
    computed from the very generation that is being skipped. */
module FastPathSoundness {
  import opened Text
  import opened Config
  import opened Status
  import opened StatusCompare
  import opened Api
  import opened Cycle
  import opened Reconciler
  import opened Effects
  import opened Runs
  import opened Readiness

  /** The generation a status write was computed from is the one it was stamped with: no
      conflict re-fetch saw a newer one. */
  predicate Honest(wr: Write)
    requires IsStatusWrite(wr.cause) && !wr.cause.Started?
  {
    wr.before.generation == wr.cause.app.generation
  }

  /** The write that marks change c as done: a cycle that read c, with everything ready. */
  ghost predicate Marks(wr: Write, c: string) {
    && c != "" && wr.cause.Processed? && wr.cause.app.changeID == c && wr.after.status.lastChangeID == c
    && var r := Process(wr.cause.first, wr.cause.app, wr.cause.answers); r.ready && r.error.None?
  }

  lemma ProcessFacts(first: Spec, app: App, ans: Oracle)
    requires !Process(first, app, ans).panicked
    ensures var r := Process(first, app, ans);
            && r.status.phase != Unset && r.status.phase != Pending
            && r.status.lastChangeID == if r.ready && r.error.None? && app.changeID != "" then app.changeID
                                        else app.status.lastChangeID
  {
    hide BuildAll, Paused, ApplyAll, Checked, MarkAll, SliceOf, Initialize, ReasonFor, Render, SetCondition;
  }

  lemma WrittenStatus(wr: Write)
    requires WriteGood(wr) && IsStatusWrite(wr.cause)
    ensures wr.after.status.phase != Unset && wr.after.status.phase != Pending
    ensures !wr.cause.Started? ==> wr.after.status.observedGeneration == wr.before.generation
    ensures wr.after.status.lastChangeID == wr.before.status.lastChangeID || Marks(wr, wr.after.status.lastChangeID)
  {
    hide Process, Initialize, SliceOf, SetCondition;
    if wr.cause.Processed? {
      ProcessFacts(wr.cause.first, wr.cause.app, wr.cause.answers);
    }
  }

  /** Some write up to generation g marked c. */
  ghost predicate MarkedBy(writes: seq<Write>, c: string, g: nat) {
    exists k :: 0 <= k < |writes| && Marks(writes[k], c) && writes[k].cause.app.generation <= g
  }

  /** A persisted change id was marked by a write not younger than the last one. */
  ghost predicate Origin(w: World) {
    w.store.Some? && w.store.value.status.lastChangeID != "" ==>
      && w.last.Some? && IsStatusWrite(w.last.value.cause) && !w.last.value.cause.Started?
      && MarkedBy(w.writes, w.store.value.status.lastChangeID, w.last.value.cause.app.generation)
  }

  lemma MarkedByLonger(writes: seq<Write>, longer: seq<Write>, c: string, g: nat, h: nat)
    requires writes <= longer && g <= h && MarkedBy(writes, c, g)
    ensures MarkedBy(longer, c, h)
  {
    var k :| 0 <= k < |writes| && Marks(writes[k], c) && writes[k].cause.app.generation <= g;
    assert longer[k] == writes[k];
  }

  lemma OriginCycle(env: Environment, w: World)
    requires Inv(w) && Origin(w)
    ensures Origin(Reconcile(env, w, WATCHED).0)
  {
    hide Reconcile, Process, WriteGood, Marks, MarkedBy, Entitled;
    CycleShape(env, w);
    var w' := Reconcile(env, w, WATCHED).0;
    if Stored(w, w') {
      var wr := w'.last.value;
      WrittenStatus(wr);
      if w.last.Some? {
        LastWriteStands(w);
      }
      StartedOnlyFirst(wr);
      var c := wr.after.status.lastChangeID;
      if c != "" && c == wr.before.status.lastChangeID {
        MarkedByLonger(w.writes, w'.writes, c, w.last.value.cause.app.generation, wr.cause.app.generation);
      } else if c != "" {
        MarkingWrite(w'.writes, wr);
      }
    } else if Quiet(w, w') && Origin(w) && w'.store.Some? && w'.store.value.status.lastChangeID != "" {
      MarkedByLonger(w.writes, w'.writes, w.store.value.status.lastChangeID, w.last.value.cause.app.generation,
                     w.last.value.cause.app.generation);
    }
  }

  /** The object has not moved back behind what the last write was computed from. */
  lemma LastWriteStands(w: World)
    requires Inv(w) && w.last.Some? && w.store.Some?
    ensures !w.last.value.cause.Started? ==> w.last.value.cause.app.generation <= w.store.value.generation
    ensures w.store.value.status == w.last.value.after.status
    ensures w.store.value.status.phase != Unset && w.store.value.status.phase != Pending
  {
    hide Process;
    WrittenStatus(w.last.value);
  }

  lemma StartedOnlyFirst(wr: Write)
    requires WriteGood(wr) && IsStatusWrite(wr.cause)
    ensures wr.cause.Started? ==> wr.before.status.phase == Unset || wr.before.status.phase == Pending
  {
  }

  lemma MarkingWrite(writes: seq<Write>, wr: Write)
    requires wr in writes && Marks(wr, wr.after.status.lastChangeID)
    ensures wr.cause.Processed? && MarkedBy(writes, wr.after.status.lastChangeID, wr.cause.app.generation)
  {
  }

  lemma {:induction false} OriginRun(env: Environment, w: World, n: nat)
    requires IsInitial(w)
    ensures Origin(Run(env, w, n))
  {
    hide Reconcile, Inv, Origin;
    if n == 0 {
      OriginInitially(w);
    } else {
      InvRun(env, w, n - 1);
      OriginRun(env, w, n - 1);
      OriginCycle(env, Run(env, w, n - 1));
    }
  }

  lemma OriginInitially(w: World)
    requires IsInitial(w)
    ensures Origin(w)
  {
  }

  // ----- the theorems -----

  /** After any run, for any version of the object the next cycle may read: the fast path skips
      a generation that the last write was computed from, exactly when that write was honest;
      then the specification skipped is the one that was built, applied and found healthy. */
  lemma FastPathExact(env: Environment, w: World, n: nat, app: App)
    requires IsInitial(w) && StoreEvolved(Run(env, w, n).store, Some(app)) && FastPath(app)
    ensures var last := Run(env, w, n).last;
            && last.Some? && IsStatusWrite(last.value.cause) && !last.value.cause.Started? && Justified(last.value)
            && last.value.after.status == app.status
            && (Honest(last.value) <==> last.value.cause.app.generation == app.generation)
            && (Honest(last.value) ==> last.value.cause.app.spec == app.spec)
  {
    hide Run, Process, Justified;
    InvRun(env, w, n);
    RunningJustified(env, w, n);
    FastPathLast(Run(env, w, n), app);
  }

  lemma FastPathLast(w: World, app: App)
    requires Inv(w) && StoreEvolved(w.store, Some(app)) && FastPath(app)
    ensures w.last.Some? && w.last.value.after.status == app.status && IsStatusWrite(w.last.value.cause)
            && !w.last.value.cause.Started?
    ensures Honest(w.last.value) <==> w.last.value.cause.app.generation == app.generation
    ensures Honest(w.last.value) ==> w.last.value.cause.app.spec == app.spec
    ensures w.last.value.cause.app.generation <= app.generation
  {
    hide Process;
    WrittenStatus(w.last.value);
  }

  /** Across the run no two generations carry the same change id: among the objects written
      from, and the one now read. */
  ghost predicate OneGenerationPerChange(writes: seq<Write>, app: App) {
    app.changeID != "" ==>
      forall k :: 0 <= k < |writes| && writes[k].cause.Processed? && writes[k].cause.app.changeID == app.changeID ==>
        writes[k].cause.app.generation == app.generation
  }

  /** With a fresh change id for each generation the fast path is right whatever the conflicts. */
  lemma FreshChangesSuffice(env: Environment, w: World, n: nat, app: App)
    requires IsInitial(w) && StoreEvolved(Run(env, w, n).store, Some(app)) && FastPath(app)
    requires OneGenerationPerChange(Run(env, w, n).writes, app)
    ensures var last := Run(env, w, n).last;
            last.Some? && IsStatusWrite(last.value.cause) && !last.value.cause.Started? && Honest(last.value)
            && last.value.cause.app.spec == app.spec && Justified(last.value)
  {
    hide Run, Process, Justified, Marks;
    FastPathExact(env, w, n, app);
    InvRun(env, w, n);
    OriginRun(env, w, n);
    FastPathLast(Run(env, w, n), app);
    MarkerGeneration(Run(env, w, n).writes, app, Run(env, w, n).last.value.cause.app.generation);
  }

  lemma MarkerGeneration(writes: seq<Write>, app: App, g: nat)
    requires app.changeID != "" && MarkedBy(writes, app.changeID, g) && OneGenerationPerChange(writes, app)
    ensures app.generation <= g
  {
  }
}
