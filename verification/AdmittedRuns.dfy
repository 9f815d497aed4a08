/** Runs in which every specification has components, which the resource's schema demands: then
    Running has no exception. */
module AdmittedRuns {
  import opened Text
  import opened Config
  import opened Status
  import opened Api
  import opened Cycle
  import opened Reconciler
  import opened Effects
  import opened Runs
  import opened NoLostEdits
  import opened Readiness

  /** Everything the controller has computed a status from has components. */
  ghost predicate ComponentsSeen(writes: seq<Write>) {
    forall i :: 0 <= i < |writes| && IsStatusWrite(writes[i].cause) ==> SeesComponents(writes[i].cause)
  }

  predicate SeesComponents(c: Cause) {
    !c.Emptied? && (c.Processed? ==> c.app.spec.components != [])
  }

  /** A status that says Running, with one entry per component, each looked up and found healthy. */
  ghost predicate AllEntriesHealthy(wr: Write) {
    && wr.cause.Processed? && var app := wr.cause.app;
    && app.spec.components != []
    && (forall s :: s in wr.after.status.components ==> EntryHealthy(app, s, wr.cause.answers))
    && forall k :: 0 <= k < |app.spec.components| ==> Listed(wr.after.status.components, app.spec.components[k].name)
  }

  lemma JustifiedIsHealthy(wr: Write)
    requires WriteGood(wr) && IsStatusWrite(wr.cause) && SeesComponents(wr.cause) && wr.after.status.phase == Running
    ensures AllEntriesHealthy(wr)
  {
    hide WriteGood, Builds, AllApply, DesiredObjects, AllHealthy, EntryHealthy;
    WriteJustified(wr);
  }

  lemma EmptiedHasNone(wr: Write)
    requires WriteGood(wr) && wr.cause.Emptied?
    ensures wr.cause.app.spec.components == []
  {
    hide Initialize, SetCondition;
  }

  lemma ComponentsSeenCycle(env: Environment, t0: nat, v: View, w: World)
    requires Faithful(env, t0, v, w) && v.spec.components != [] && AlwaysComponents(env, t0) && ComponentsSeen(w.writes)
    ensures ComponentsSeen(Reconcile(env, w, WATCHED).0.writes)
  {
    hide Reconcile, Process, WriteGood, GoodWrites, PathOf, Get, Views, AlwaysComponents, Acting, Faithful;
    CycleShape(env, w);
    var w' := Reconcile(env, w, WATCHED).0;
    assert forall i :: 0 <= i < |w.writes| ==> w'.writes[i] == w.writes[i];
    if !Quiet(w, w') {
      var c := w'.last.value.cause;
      if c.Processed? {
        PathFaithful(env, t0, v, w);
        ViewsKeepComponents(env, t0, PathOf(env, w).w1.tick, v);
      } else if c.Emptied? {
        EmptiedHasNone(w'.last.value);
        ReadHasComponents(env, t0, v, w);
      }
    }
  }

  lemma ReadHasComponents(env: Environment, t0: nat, v: View, w: World)
    requires Faithful(env, t0, v, w) && v.spec.components != [] && AlwaysComponents(env, t0)
    ensures var (_, g) := Get(env, w); g.Got? ==> g.app.spec.components != []
  {
    hide Views;
    GetFaithful(env, t0, v, w);
    ViewsKeepComponents(env, t0, w.tick + 1, v);
  }

  lemma {:induction false} ComponentsSeenRun(env: Environment, w: World, n: nat)
    requires IsInitial(w) && w.store.value.spec.components != [] && AlwaysComponents(env, w.tick)
    ensures ComponentsSeen(Run(env, w, n).writes)
  {
    hide Reconcile, AlwaysComponents, SeesComponents;
    if n > 0 {
      ComponentsSeenRun(env, w, n - 1);
      assert Run(env, w, 0) == w;
      FaithfulRun(env, w, 0, n - 1);
      ComponentsSeenCycle(env, w.tick, ViewOf(w.store.value), Run(env, w, n - 1));
    }
  }

  /** If the object is created with components and every update has some, then in every run each
      stored Running stands over one healthy entry per component, without exception. */
  lemma RunningIsHealthy(env: Environment, w: World, n: nat)
    requires IsInitial(w) && w.store.value.spec.components != [] && AlwaysComponents(env, w.tick)
    ensures var w' := Run(env, w, n);
            && (forall i :: 0 <= i < |w'.writes| && StoresRunning(w'.writes[i]) ==>
                  AllEntriesHealthy(w'.writes[i]))
            && (w'.store.Some? && w'.store.value.status.phase == Running ==>
                  w'.last.Some? && w'.last.value.after.status == w'.store.value.status
                  && AllEntriesHealthy(w'.last.value))
  {
    hide WriteGood, Run, AllEntriesHealthy, SeesComponents, AlwaysComponents, Justified;
    ComponentsSeenRun(env, w, n);
    InvRun(env, w, n);
    RunningJustified(env, w, n);
    LastIsLogged(env, w, n);
    var w' := Run(env, w, n);
    forall i | 0 <= i < |w'.writes| && StoresRunning(w'.writes[i])
      ensures AllEntriesHealthy(w'.writes[i])
    {
      JustifiedIsHealthy(w'.writes[i]);
    }
    if w'.store.Some? && w'.store.value.status.phase == Running {
      var i :| 0 <= i < |w'.writes| && w'.writes[i] == w'.last.value;
    }
  }

  lemma {:induction false} LastIsLogged(env: Environment, w: World, n: nat)
    requires IsInitial(w)
    ensures var w' := Run(env, w, n); w'.last.Some? ==> w'.last.value in w'.writes
  {
    hide Reconcile, WriteGood, GoodWrites, TraceOf, Process;
    if n > 0 {
      LastIsLogged(env, w, n - 1);
      CycleShape(env, Run(env, w, n - 1));
    }
  }
}
