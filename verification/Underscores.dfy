/** What it means for a whole run that health is looked up under the raw component name: a name
    the builder sanitises is never deployed as it is, so its application never runs. */
module Underscores {
  import opened Text
  import opened Config
  import opened Names
  import opened Builder
  import opened Status
  import opened PauseResume
  import opened Api
  import opened Cycle
  import opened CycleFacts
  import opened BuildFacts
  import opened Reconciler
  import opened Effects
  import opened Runs
  import opened Readiness
  import opened SuspendRuns
  import opened ObjectIdentity
  import Health

  predicate AllSanitised(names: set<string>) {
    forall n :: n in names ==> Sanitised(n)
  }

  /** A lookup finds only what has been deployed by the time of the cycle's health checks. */
  ghost predicate Truthful(env: Environment, w: World) {
    var t, after := TraceOf(env, w), Reconcile(env, w, WATCHED).0.cluster;
    t.Acted? ==> forall name :: name !in after ==> t.answers.probes(name).Missing?
  }

  ghost predicate AlwaysTruthful(env: Environment, w: World, n: nat) {
    forall k :: 0 <= k < n ==> Truthful(env, Run(env, w, k))
  }

  lemma WorkloadSanitised(first: Spec, app: App, ans: Oracle, o: Obj)
    requires Initialize(first).1.None? && Builds(first, app) && o in DesiredObjects(first, app, ans) && IsWorkload(o)
    ensures Sanitised(o.name)
  {
    hide DesiredObjects, Builds, Initialize, DeriveResourceName, Sanitised;
    var j := WorkloadOwner(first, app, ans, o);
    ResourceNameFixedPoints(app.spec.components[j].name);
  }

  lemma DeployedSanitised(first: Spec, app: App, ans: Oracle, cluster: map<string, int>)
    requires Initialize(first).1.None? && AllSanitised(cluster.Keys)
    ensures AllSanitised(Deployed(cluster, Process(first, app, ans).applied).Keys)
  {
    hide Process, Initialize, Builds, DesiredObjects, Deployed, Sanitised, IsWorkload, LastApplied;
    var applied := Process(first, app, ans).applied;
    if !Builds(first, app) {
      NothingApplied(first, app, ans);
    }
    forall n | n in Deployed(cluster, applied) ensures Sanitised(n) {
      DeployedCount(cluster, applied, n);
      LastAppliedIs(applied, n);
      if LastApplied(applied, n).Some? {
        var o :| o in applied && IsWorkload(o) && o.name == n;
        NamedApplied(first, app, ans, n);
        WorkloadSanitised(first, app, ans, o);
      }
    }
  }

  /** What a status that says Running was computed from: nothing but sanitised component names. */
  ghost predicate RanSanitised(wr: Write) {
    wr.cause.Processed? && wr.after.status.phase == Running ==>
      forall k :: 0 <= k < |wr.cause.app.spec.components| ==> Sanitised(wr.cause.app.spec.components[k].name)
  }

  lemma FoundIsDeployed(wr: Write, cluster: map<string, int>)
    requires WriteGood(wr) && wr.cause.Processed? && AllSanitised(cluster.Keys)
    requires forall name :: name !in cluster ==> wr.cause.answers.probes(name).Missing?
    ensures RanSanitised(wr)
  {
    hide WriteGood, Sanitised, Builds, DesiredObjects, Initialize;
    if wr.after.status.phase == Running {
      WriteJustified(wr);
      var app := wr.cause.app;
      forall k | 0 <= k < |app.spec.components| ensures Sanitised(app.spec.components[k].name) {
        ComponentKnown(wr.cause.first, app, k);
        assert ProbedHealthy(app, app.spec.components[k].name, wr.cause.answers);
      }
    }
  }

  ghost predicate OnlySanitised(w: World) {
    && AllSanitised(w.cluster.Keys)
    && forall i :: 0 <= i < |w.writes| && IsStatusWrite(w.writes[i].cause) ==> RanSanitised(w.writes[i])
  }

  lemma OnlySanitisedCycle(env: Environment, w: World)
    requires OnlySanitised(w) && Truthful(env, w)
    ensures OnlySanitised(Reconcile(env, w, WATCHED).0)
  {
    hide Reconcile, Process, WriteGood, GoodWrites, PathOf, AllSanitised, Deployed, Emissions, Initialize;
    CycleShape(env, w);
    var t, w' := TraceOf(env, w), Reconcile(env, w, WATCHED).0;
    assert forall i :: 0 <= i < |w.writes| ==> w'.writes[i] == w.writes[i];
    if t.Acted? {
      DeployedSanitised(t.first, t.app, t.answers, w.cluster);
      if !Quiet(w, w') {
        FoundIsDeployed(w'.last.value, w'.cluster);
      }
    }
  }

  /** In every run whose lookups find only what was deployed: no application with a component
      name that the builder sanitises, as it does every name with an underscore, is ever stored
      as Running. */
  lemma {:induction false} UnderscoreNeverRuns(env: Environment, w: World, n: nat)
    requires IsInitial(w) && AlwaysTruthful(env, w, n)
    ensures OnlySanitised(Run(env, w, n))
  {
    hide Reconcile, OnlySanitised, Truthful;
    if n == 0 {
      NothingYet(w);
    } else {
      UnderscoreNeverRuns(env, w, n - 1);
      OnlySanitisedCycle(env, Run(env, w, n - 1));
    }
  }

  lemma NothingYet(w: World)
    requires IsInitial(w)
    ensures OnlySanitised(w)
  {
  }
}
