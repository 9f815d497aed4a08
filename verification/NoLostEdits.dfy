/** Whatever conflicts and retries there were, what users see of the object is what their own
    edits made of it: the controller never overwrites an edit. */
module NoLostEdits {
  import opened Text
  import opened Config
  import opened Status
  import opened StatusCompare
  import opened Api
  import opened Cycle
  import opened Reconciler
  import opened Effects
  import opened Runs

  /** The finalizers of everybody else, in their order. */
  function Others(fs: seq<string>): seq<string> {
    if fs == [] then []
    else Others(fs[..|fs| - 1]) + if fs[|fs| - 1] == "infini.cloud/finalizer" then [] else [fs[|fs| - 1]]
  }

  lemma {:induction false} OthersOfBoth(a: seq<string>, b: seq<string>)
    ensures Others(a + b) == Others(a) + Others(b)
  {
    if b == [] {
      assert a + b == a;
    } else {
      OthersOfBoth(a, b[..|b| - 1]);
      assert (a + b)[..|a + b| - 1] == a + b[..|b| - 1];
    }
  }

  lemma OthersOfOne(f: string)
    ensures Others([f]) == if f == "infini.cloud/finalizer" then [] else [f]
  {
    assert [f][..0] == [];
  }

  /** Claiming appends the controller's finalizer, and leaves the others as they are. */
  lemma ClaimingAppends(app: App)
    ensures WithFinalizer(app) == if "infini.cloud/finalizer" in app.finalizers then app
                                  else app.(finalizers := app.finalizers + ["infini.cloud/finalizer"])
    ensures Others(WithFinalizer(app).finalizers) == Others(app.finalizers)
  {
    OthersOfBoth(app.finalizers, [FINALIZER]);
    OthersOfOne(FINALIZER);
  }

  /** Releasing takes it out wherever it is, and leaves the others as they are. */
  lemma {:induction false} ReleasingTakesOut(fs: seq<string>)
    ensures "infini.cloud/finalizer" !in Without(fs, FINALIZER)
    ensures Others(Without(fs, FINALIZER)) == Others(fs)
  {
    if fs == [] {
    } else {
      hide Others;
      ReleasingTakesOut(fs[1..]);
      var rest := Without(fs[1..], FINALIZER);
      OthersOfBoth([fs[0]], fs[1..]);
      OthersOfBoth([fs[0]], rest);
      OthersOfOne(fs[0]);
      assert fs == [fs[0]] + fs[1..];
      assert Without(fs, FINALIZER) == if fs[0] == FINALIZER then rest else [fs[0]] + rest;
    }
  }

  /** The part of the object that belongs to its users. */
  datatype View = View(spec: Spec, changeID: string, webhookURL: string, deleting: bool, generation: nat,
                       finalizers: seq<string>)

  function ViewOf(a: App): View {
    View(a.spec, a.changeID, a.webhookURL, a.deleting, a.generation, Others(a.finalizers))
  }

  function ViewEdit(e: Edit, v: View): View {
    match e
    case Put(spec, changeID, webhookURL, finalizers) =>
      View(spec, changeID, webhookURL, v.deleting, v.generation + (if spec == v.spec then 0 else 1), Others(finalizers))
    case Touch => v
    case Delete => if v.deleting then v else v.(deleting := true, generation := v.generation + 1)
  }

  function ViewEdits(edits: seq<Edit>, v: View): View {
    if edits == [] then v else ViewEdits(edits[1..], ViewEdit(edits[0], v))
  }

  /** The edits of ticks t0 to t - 1, applied in their order, by nobody but their authors. */
  function Views(env: Environment, t0: nat, t: nat, v: View): View
    requires t0 <= t
  {
    if t == t0 then v else ViewEdits(env(t - 1).edits, Views(env, t0, t - 1, v))
  }

  lemma {:induction false} EditsInView(edits: seq<Edit>, store: Option<App>)
    ensures var s := ApplyEdits(edits, store);
            s.Some? ==> store.Some? && ViewOf(s.value) == ViewEdits(edits, ViewOf(store.value))
  {
    if store.Some? && edits != [] {
      EditsInView(edits[1..], ApplyEdit(edits[0], store.value));
    }
  }

  /** The stored object, seen by its users, is what their edits made of v. */
  ghost predicate Faithful(env: Environment, t0: nat, v: View, w: World) {
    && t0 <= w.tick
    && (w.store.Some? ==> ViewOf(w.store.value) == Views(env, t0, w.tick, v))
  }

  lemma InterfereFaithful(env: Environment, t0: nat, v: View, w: World)
    requires Faithful(env, t0, v, w)
    ensures Faithful(env, t0, v, Interfere(env, w))
  {
    EditsInView(env(w.tick).edits, w.store);
  }

  lemma UpdateFaithful(env: Environment, t0: nat, v: View, w: World, base: App, finalizers: seq<string>, cause: Cause)
    requires Faithful(env, t0, v, w) && StoreEvolved(Some(base), w.store)
    requires Others(finalizers) == Others(base.finalizers)
    ensures Faithful(env, t0, v, Update(env, w, base.(finalizers := finalizers), cause).0)
  {
    InterfereFaithful(env, t0, v, w);
    AdmitEffect(env, w, base.(finalizers := finalizers), base);
  }

  lemma UpdateStatusFaithful(env: Environment, t0: nat, v: View, w: World, base: App, st: AppStatus, cause: Cause)
    requires Faithful(env, t0, v, w) && StoreEvolved(Some(base), w.store)
    ensures Faithful(env, t0, v, UpdateStatus(env, w, base.(status := st), cause).0)
  {
    InterfereFaithful(env, t0, v, w);
    AdmitEffect(env, w, base.(status := st), base);
  }

  lemma {:induction false} ClaimFaithful(env: Environment, t0: nat, v: View, w: World, base: App, i: nat)
    requires i <= MAX_WRITES && Faithful(env, t0, v, w) && StoreEvolved(Some(base), w.store)
    ensures Faithful(env, t0, v, ClaimFrom(env, w, WithFinalizer(base), i).0)
    decreases MAX_WRITES - i
  {
    hide Update, Get, Faithful;
    if i < MAX_WRITES {
      ClaimingAppends(base);
      UpdateFaithful(env, t0, v, w, base, WithFinalizer(base).finalizers, Claimed);
      UpdateEffect(env, w, base, WithFinalizer(base).finalizers, Claimed);
      var (w1, r) := Update(env, w, WithFinalizer(base), Claimed);
      if r.Conflict? {
        GetFaithful(env, t0, v, w1);
        RefetchEffect(env, w, base, w1);
        var (w2, g) := Get(env, w1);
        if g.Got? {
          ClaimFaithful(env, t0, v, w2, g.app, i + 1);
        }
      }
    }
  }

  lemma GetFaithful(env: Environment, t0: nat, v: View, w: World)
    requires Faithful(env, t0, v, w)
    ensures Faithful(env, t0, v, Get(env, w).0)
  {
    InterfereFaithful(env, t0, v, w);
  }

  lemma {:induction false} ReleaseFaithful(env: Environment, t0: nat, v: View, w: World, base: App, listed: seq<string>,
                                           i: nat)
    requires i <= MAX_WRITES && Faithful(env, t0, v, w) && StoreEvolved(Some(base), w.store)
    ensures Faithful(env, t0, v, ReleaseFrom(env, w, WithoutFinalizer(base), listed, i).0)
    decreases MAX_WRITES - i
  {
    hide Update, Get, Faithful;
    if i < MAX_WRITES {
      ReleasingTakesOut(base.finalizers);
      UpdateFaithful(env, t0, v, w, base, WithoutFinalizer(base).finalizers, Released(listed));
      UpdateEffect(env, w, base, WithoutFinalizer(base).finalizers, Released(listed));
      var (w1, r) := Update(env, w, WithoutFinalizer(base), Released(listed));
      if r.Conflict? {
        GetFaithful(env, t0, v, w1);
        RefetchEffect(env, w, base, w1);
        var (w2, g) := Get(env, w1);
        if g.Got? {
          ReleaseFaithful(env, t0, v, w2, g.app, listed, i + 1);
        }
      }
    }
  }

  lemma {:induction false} StartFaithful(env: Environment, t0: nat, v: View, w: World, base: App, i: nat)
    requires i <= MAX_WRITES && Faithful(env, t0, v, w) && StoreEvolved(Some(base), w.store)
    ensures Faithful(env, t0, v, StartFrom(env, w, base.(status := StartedStatus(base.status)), i).0)
    decreases MAX_WRITES - i
  {
    hide UpdateStatus, Get, StartedStatus;
    if i < MAX_WRITES {
      UpdateStatusFaithful(env, t0, v, w, base, StartedStatus(base.status), Started);
      UpdateStatusEffect(env, w, base, StartedStatus(base.status), Started);
      var (w1, r) := UpdateStatus(env, w, base.(status := StartedStatus(base.status)), Started);
      if r.Conflict? {
        GetFaithful(env, t0, v, w1);
        RefetchEffect(env, w, base, w1);
        var (w2, g) := Get(env, w1);
        if g.Got? {
          StartFaithful(env, t0, v, w2, g.app, i + 1);
        }
      }
    }
  }

  lemma {:induction false} StatusFaithful(env: Environment, t0: nat, v: View, w: World, base: App, desired: AppStatus,
                                          cause: Cause, i: nat)
    requires i <= MAX_WRITES && Faithful(env, t0, v, w) && StoreEvolved(Some(base), w.store)
    ensures Faithful(env, t0, v, StatusFrom(env, w, Stamp(base, desired), desired, cause, i).0)
    decreases MAX_WRITES - i
  {
    hide UpdateStatus, Get, Faithful;
    if i < MAX_WRITES {
      var st := Stamp(base, desired).status;
      UpdateStatusFaithful(env, t0, v, w, base, st, cause);
      UpdateStatusEffect(env, w, base, st, cause);
      var (w1, r) := UpdateStatus(env, w, base.(status := st), cause);
      if r.Conflict? {
        GetFaithful(env, t0, v, w1);
        RefetchEffect(env, w, base, w1);
        var (w2, g) := Get(env, w1);
        if g.Got? {
          StatusFaithful(env, t0, v, w2, g.app, desired, cause, i + 1);
        }
      }
    }
  }

  lemma WriteBackFaithful(env: Environment, t0: nat, v: View, w: World, app: App, desired: AppStatus,
                          original: AppStatus, cause: Cause)
    requires Faithful(env, t0, v, w) && StoreEvolved(Some(app), w.store)
    ensures Faithful(env, t0, v, UpdateStatusIfNeeded(env, w, app, desired, original, cause).0)
  {
    hide Faithful, SameStatus;
    var stamped := Stamp(app, desired);
    assert Stamp(app, stamped.status) == stamped;
    StatusFaithful(env, t0, v, w, app, stamped.status, cause, 0);
  }

  // ----- the cycle -----

  lemma FinalizeFaithful(env: Environment, t0: nat, v: View, w: World, app: App)
    requires Faithful(env, t0, v, w) && StoreEvolved(Some(app), w.store)
    ensures Faithful(env, t0, v, Finalize(env, w, app).0)
  {
    var w1 := Interfere(env, w);
    InterfereFaithful(env, t0, v, w);
    EditsEvolve(env(w.tick).edits, w.store);
    EvolvedTransitive(Some(app), w.store, w1.store);
    CleanEffect(w1, env(w.tick), 0);
    var (w2, e) := CleanFrom(w1, env(w.tick), 0);
    ReleaseFaithful(env, t0, v, w2, app, env(w.tick).listing, 0);
  }

  lemma ActFaithful(env: Environment, t0: nat, v: View, w: World, first: Spec, original: AppStatus, app: App)
    requires Faithful(env, t0, v, w) && StoreEvolved(Some(app), w.store)
    ensures Faithful(env, t0, v, Act(env, w, first, original, app).0)
  {
    hide Process, UpdateStatusIfNeeded, Emissions, Deployed;
    var r := Process(first, app, env(w.tick));
    var w1 := w.(events := w.events + Emissions(app, r.events), cluster := Deployed(w.cluster, r.applied));
    WriteBackFaithful(env, t0, v, w1, app, r.status, original, Processed(first, app, env(w.tick)));
    var u := UpdateStatusIfNeeded(env, w1, app, r.status, original, Processed(first, app, env(w.tick)));
    assert !r.panicked ==> Act(env, w, first, original, app).0 == u.0;
  }

  lemma AdvanceFaithful(env: Environment, t0: nat, v: View, w: World, first: Spec, original: AppStatus, app: App)
    requires Faithful(env, t0, v, w) && StoreEvolved(Some(app), w.store)
    ensures Faithful(env, t0, v, Advance(env, w, first, original, app).0)
  {
    hide Act, StartFrom, Faithful;
    StartFaithful(env, t0, v, w, app, 0);
    ActFaithful(env, t0, v, w, first, original, app);
  }

  lemma HandleFaithful(env: Environment, t0: nat, v: View, w: World, app: App)
    requires Faithful(env, t0, v, w) && w.store == Some(app)
    ensures Faithful(env, t0, v, Handle(env, w, app).0)
  {
    hide Faithful, Initialize, UpdateStatusIfNeeded, Advance, Finalize, ClaimFrom;
    var (statuses, e) := Initialize(app.spec);
    if e.Some? {
      WriteBackFaithful(env, t0, v, w, app, ErrorStatus(app.status, statuses, InitializationFailed, e.value),
                        app.status, Rejected(app));
      var u := UpdateStatusIfNeeded(env, w, app, ErrorStatus(app.status, statuses, InitializationFailed, e.value),
                                    app.status, Rejected(app));
      assert Handle(env, w, app).0 == u.0;
    } else if app.spec.components == [] {
      WriteBackFaithful(env, t0, v, w, app, EmptiedStatus(app.status), app.status, Emptied(app));
      var u := UpdateStatusIfNeeded(env, w, app, EmptiedStatus(app.status), app.status, Emptied(app));
      assert Handle(env, w, app).0 == u.0;
    } else {
      var (w1, f) := HandleFinalizer(env, w, app);
      if app.deleting {
        FinalizeFaithful(env, t0, v, w, app);
        FinalizeShape(env, w, app);
      } else {
        if FINALIZER !in app.finalizers {
          ClaimFaithful(env, t0, v, w, app, 0);
          ClaimShape(env, w, app);
        }
        if f.Continue? {
          AdvanceFaithful(env, t0, v, w1, app.spec, app.status, f.app);
        }
      }
    }
  }

  lemma CycleFaithful(env: Environment, t0: nat, v: View, w: World)
    requires Faithful(env, t0, v, w)
    ensures Faithful(env, t0, v, Reconcile(env, w, WATCHED).0)
  {
    hide Handle, Faithful;
    GetFaithful(env, t0, v, w);
    GetEffect(env, w);
    var (w1, g) := Get(env, w);
    if g.Got? {
      HandleFaithful(env, t0, v, w1, g.app);
    }
  }

  /** What a cycle works on is the object as its users then see it. */
  lemma PathFaithful(env: Environment, t0: nat, v: View, w: World)
    requires Faithful(env, t0, v, w)
    ensures var p := PathOf(env, w);
            p.Worked? ==> t0 <= p.w1.tick && ViewOf(p.app) == Views(env, t0, p.w1.tick, v)
  {
    hide Faithful, Initialize, Acting, Finalize;
    GetFaithful(env, t0, v, w);
    GetEffect(env, w);
    var (w1, g) := Get(env, w);
    if g.Got? && !g.app.deleting && FINALIZER !in g.app.finalizers {
      ClaimFaithful(env, t0, v, w1, g.app, 0);
      ClaimEffect(env, w1, g.app, 0);
    } else if g.Got? && g.app.deleting {
      FinalizeShape(env, w1, g.app);
    }
    var p := PathOf(env, w);
    if p.Worked? {
      assert Faithful(env, t0, v, p.w1) && p.w1.store == Some(p.app);
      FaithfulView(env, t0, v, p.w1);
    }
  }

  lemma FaithfulView(env: Environment, t0: nat, v: View, w: World)
    requires Faithful(env, t0, v, w) && w.store.Some?
    ensures t0 <= w.tick && ViewOf(w.store.value) == Views(env, t0, w.tick, v)
  {
  }

  lemma {:induction false} FaithfulRun(env: Environment, w: World, n: nat, m: nat)
    requires n <= m && Run(env, w, n).store.Some?
    ensures var w0 := Run(env, w, n); Faithful(env, w0.tick, ViewOf(w0.store.value), Run(env, w, m))
  {
    hide Reconcile;
    if n < m {
      var w0 := Run(env, w, n);
      FaithfulRun(env, w, n, m - 1);
      CycleFaithful(env, w0.tick, ViewOf(w0.store.value), Run(env, w, m - 1));
    }
  }

  // ----- what all edits agree on -----

  /** From call t on every full update carries the change id c. */
  ghost predicate AlwaysCarry(env: Environment, t: nat, c: string) {
    forall k :: t <= k ==> forall e :: e in env(k).edits && e.Put? ==> e.changeID == c
  }

  lemma {:induction false} EditsCarry(edits: seq<Edit>, v: View, c: string)
    requires v.changeID == c && forall e :: e in edits && e.Put? ==> e.changeID == c
    ensures ViewEdits(edits, v).changeID == c
  {
    if edits != [] {
      assert edits[0] in edits;
      EditsCarry(edits[1..], ViewEdit(edits[0], v), c);
    }
  }

  lemma {:induction false} ViewsCarry(env: Environment, t0: nat, t: nat, v: View, c: string)
    requires t0 <= t && v.changeID == c && AlwaysCarry(env, t0, c)
    ensures Views(env, t0, t, v).changeID == c
  {
    if t0 < t {
      ViewsCarry(env, t0, t - 1, v, c);
      EditsCarry(env(t - 1).edits, Views(env, t0, t - 1, v), c);
    }
  }

  /** From call t on every full update has components, as the API demands. */
  ghost predicate AlwaysComponents(env: Environment, t: nat) {
    forall k :: t <= k ==> forall e :: e in env(k).edits && e.Put? ==> e.spec.components != []
  }

  lemma {:induction false} EditsKeepComponents(edits: seq<Edit>, v: View)
    requires v.spec.components != [] && forall e :: e in edits && e.Put? ==> e.spec.components != []
    ensures ViewEdits(edits, v).spec.components != []
  {
    if edits != [] {
      assert edits[0] in edits;
      EditsKeepComponents(edits[1..], ViewEdit(edits[0], v));
    }
  }

  lemma {:induction false} ViewsKeepComponents(env: Environment, t0: nat, t: nat, v: View)
    requires t0 <= t && v.spec.components != [] && AlwaysComponents(env, t0)
    ensures Views(env, t0, t, v).spec.components != []
  {
    if t0 < t {
      ViewsKeepComponents(env, t0, t - 1, v);
      EditsKeepComponents(env(t - 1).edits, Views(env, t0, t - 1, v));
    }
  }

  /** In every run, as long as the object exists, its specification, annotations, deletion mark,
      generation and the finalizers of everybody else are exactly what the users' edits alone would
      have made them. */
  lemma UsersSeeTheirEdits(env: Environment, w: World, n: nat)
    requires w.store.Some?
    ensures var w' := Run(env, w, n);
            w.tick <= w'.tick && (w'.store.Some? ==>
                                    ViewOf(w'.store.value) == Views(env, w.tick, w'.tick, ViewOf(w.store.value)))
  {
    hide Reconcile, Views;
    assert Run(env, w, 0) == w;
    FaithfulRun(env, w, 0, n);
  }

  // ----- the controller's own finalizer -----

  /** What each kind of write does to the finalizer list: claiming appends one name if it is
      missing, releasing takes that name out, a status write leaves the list alone. */
  ghost predicate OwnFinalizerOnly(wr: Write) {
    var before, after := wr.before.finalizers, wr.after.finalizers;
    && Others(after) == Others(before)
    && match wr.cause
       case Claimed =>
         after == if "infini.cloud/finalizer" in before then before else before + ["infini.cloud/finalizer"]
       case Released(_) => "infini.cloud/finalizer" !in after
       case _ => after == before
  }

  lemma FinalizersWritten(wr: Write)
    requires WriteGood(wr)
    ensures OwnFinalizerOnly(wr)
  {
    hide Process, Initialize, SetCondition, Others;
    ClaimingAppends(wr.before);
    ReleasingTakesOut(wr.before.finalizers);
  }

  /** In every run no write of the controller adds or removes a finalizer other than its own. */
  lemma FinalizersOfOthersStay(env: Environment, w: World, n: nat)
    requires IsInitial(w)
    ensures forall i :: 0 <= i < |Run(env, w, n).writes| ==> OwnFinalizerOnly(Run(env, w, n).writes[i])
  {
    hide Run, WriteGood, OwnFinalizerOnly;
    InvRun(env, w, n);
    forall i | 0 <= i < |Run(env, w, n).writes| ensures OwnFinalizerOnly(Run(env, w, n).writes[i]) {
      FinalizersWritten(Run(env, w, n).writes[i]);
    }
  }
}
