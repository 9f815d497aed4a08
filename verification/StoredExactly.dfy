/** Exactly when a change to the config hashes or to the replica record reaches the stored status,
    although the comparison that may suppress the write looks at neither. */
module StoredExactly {
  import opened Text
  import opened Config
  import opened Builder
  import opened Status
  import opened StatusCompare
  import opened StatusOrder
  import opened PauseResume
  import opened Api
  import opened Cycle
  import opened CycleFacts
  import opened BuildFacts
  import opened Reconciler
  import opened Effects
  import opened Runs
  import opened Readiness
  import opened FastPathSoundness
  import opened NothingDropped
  import opened Outcomes
  import opened Quiescence
  import Apply
  import Health

  // ----- the guard of the write -----

  /** Everything the comparison looks at is already stored: the generation, the phase, the change
      mark, the conditions and the component entries, in whatever order. */
  ghost predicate LooksSame(app: App, r: Result) {
    && app.status.observedGeneration == app.generation
    && r.status.phase == app.status.phase && r.status.lastChangeID == app.status.lastChangeID
    && (forall c :: c in r.status.conditions <==> c in app.status.conditions)
    && (forall s :: s in r.status.components <==> s in app.status.components)
  }

  lemma ProcessEntriesDistinct(first: Spec, app: App, ans: Oracle)
    requires !Process(first, app, ans).panicked
    ensures DistinctKeys(ComponentPairs(Process(first, app, ans).status.components))
  {
    hide BuildAll, Paused, ApplyAll, Checked, MarkAll, SliceOf, Initialize, FinalPhase, SetCondition, DistinctKeys,
         ComponentPairs;
    forall m: Statuses { SliceDistinct(m); }
  }

  lemma WrittenEntriesDistinct(wr: Write)
    requires WriteGood(wr) && IsStatusWrite(wr.cause) && !wr.cause.Started?
    ensures DistinctKeys(ComponentPairs(wr.after.status.components))
  {
    hide Process, Initialize, SetCondition, SliceOf, MarkAll;
    match wr.cause {
      case Processed(first, app, ans) => ProcessEntriesDistinct(first, app, ans);
      case Rejected(app) =>
        forall m: Statuses { SliceDistinct(m); }
      case _ =>
    }
  }

  lemma StoredEntriesDistinct(w: World, app: App)
    requires Inv(w) && Begun(w) && StoreEvolved(w.store, Some(app))
    ensures DistinctKeys(ComponentPairs(app.status.components))
  {
    hide WriteGood, SetCondition;
    if w.last.Some? && !w.last.value.cause.Started? {
      WrittenEntriesDistinct(w.last.value);
    }
  }

  /** The write is suppressed exactly when everything compared is already stored. */
  lemma SuppressedIff(w: World, first: Spec, app: App, ans: Oracle)
    requires Inv(w) && Begun(w) && AlwaysOK(w) && StoreEvolved(w.store, Some(app))
    requires !Process(first, app, ans).panicked
    ensures Suppressed(app, Process(first, app, ans)) <==> LooksSame(app, Process(first, app, ans))
  {
    hide Process, Inv, Begun, Matches, ConditionPairs, ComponentPairs, DistinctKeys;
    StoredEntriesDistinct(w, app);
    ProcessEntriesDistinct(first, app, ans);
    ProcessOK(first, app, ans);
    var r := Process(first, app, ans);
    SameConditions(r.status.conditions, app.status.conditions);
    SameEntries(r.status.components, app.status.components);
  }

  // ----- the exact conditions -----

  /** All hashes the specification asks for are on record. */
  predicate UpToDate(annotations: map<string, ConfigHash>, hashes: map<string, ConfigHash>) {
    forall k :: k in hashes ==> k in annotations && annotations[k] == hashes[k]
  }

  /** A call that works through a specification and can store its status. */
  ghost predicate Storing(env: Environment, w: World, p: Path) {
    p == PathOf(env, w) && p.Worked? && !Process(p.first, p.app, env(p.w1.tick)).panicked && WriteError(env, p).None?
  }

  lemma StoredOrSuppressed(env: Environment, w: World, n: nat, p: Path)
    requires IsInitial(w) && Storing(env, Run(env, w, n), p)
    ensures var r, s := Process(p.first, p.app, env(p.w1.tick)), Run(env, w, n + 1).store;
            s.Some? ==>
              && (LooksSame(p.app, r) ==> s.value.status == p.app.status)
              && (!LooksSame(p.app, r) ==>
                    && s.value.status.annotations == r.status.annotations
                    && s.value.status.suspendedReplicas == r.status.suspendedReplicas)
  {
    hide Run, Reconcile, Act, Process, PathOf, Initialize, Inv, AlwaysOK, Begun, Suppressed, LooksSame, WriteError;
    var w0 := Run(env, w, n);
    InvRun(env, w, n);
    BegunRun(env, w, n);
    ReadyExactlyWhenRunning(env, w, n);
    RunNext(env, w, n);
    PathTaken(env, w0);
    StoredEnd(env, w0);
    SuppressedIff(w0, p.first, p.app, env(p.w1.tick));
  }

  /** In every run: what a call computes as hashes is stored if and only if something that is
      compared has changed, or the hashes were on record already. */
  lemma HashesStoredIff(env: Environment, w: World, n: nat, p: Path)
    requires IsInitial(w) && Storing(env, Run(env, w, n), p)
    ensures var r, s := Process(p.first, p.app, env(p.w1.tick)), Run(env, w, n + 1).store;
            s.Some? ==>
              (s.value.status.annotations == r.status.annotations <==>
               !LooksSame(p.app, r) || UpToDate(p.app.status.annotations, Hashes(p.app.namespace, p.app.spec)))
  {
    hide Run, Reconcile, Process, PathOf, Initialize, LooksSame, WriteError, Hashes;
    StoredOrSuppressed(env, w, n, p);
    AcceptedFirst(env, Run(env, w, n));
    CarriedOver(p.first, p.app, env(p.w1.tick));
    OverwritesNothing(p.app.status.annotations, Hashes(p.app.namespace, p.app.spec));
  }

  lemma OverwritesNothing(a: map<string, ConfigHash>, h: map<string, ConfigHash>)
    ensures a + h == a <==> UpToDate(a, h)
  {
    if a + h == a {
      forall k | k in h ensures k in a && a[k] == h[k] {
        assert (a + h)[k] == h[k];
      }
    }
  }

  /** In every run: what a call computes as replica record is stored if and only if something that
      is compared has changed, or it resumed no workload that had a record. */
  lemma RecordStoredIff(env: Environment, w: World, n: nat, p: Path)
    requires IsInitial(w) && Storing(env, Run(env, w, n), p)
    ensures var r, s := Process(p.first, p.app, env(p.w1.tick)), Run(env, w, n + 1).store;
            s.Some? ==>
              (s.value.status.suspendedReplicas == r.status.suspendedReplicas <==>
               || !LooksSame(p.app, r) || !Builds(p.first, p.app)
               || p.app.status.suspendedReplicas.Keys !! ComponentNames(p.app.spec.components))
  {
    hide Run, Reconcile, Act, Process, PathOf, Initialize, WriteError, Builds, ComponentNames;
    StoredOrSuppressed(env, w, n, p);
    AcceptedFirst(env, Run(env, w, n));
    PathTaken(env, Run(env, w, n));
    CarriedOver(p.first, p.app, env(p.w1.tick));
    RemovesNothing(p.app.status.suspendedReplicas, ComponentNames(p.app.spec.components));
  }

  lemma RemovesNothing(record: Record, names: set<string>)
    ensures record - names == record <==> record.Keys !! names
  {
    if record - names == record {
      forall n | n in record ensures n !in names {
        assert n in record - names;
      }
    } else {
      assert record.Keys !! names ==> record - names == record;
    }
  }
}
