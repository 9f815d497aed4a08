/** Which cycles wake a suspended workload, told from what is known before the call: the
    specification, the replica record and the answers the applies will get. */
module Waking {
  import opened Text
  import opened Config
  import opened Names
  import opened Builder
  import opened Status
  import opened PauseResume
  import opened Api
  import opened Cycle
  import opened CycleFacts
  import opened BuildFacts
  import opened Reconciler
  import opened Effects
  import opened Runs
  import opened Readiness
  import opened NothingDropped
  import opened Outcomes
  import opened SuspendRuns
  import opened Restarts

  /** The count a resumed component gets is zero: the recorded one, or else the specified one. */
  ghost predicate ResumesAtZero(app: App, component: string) {
    if component in app.status.suspendedReplicas then app.status.suspendedReplicas[component] == 0
    else Specifies(app.spec, component, 0)
  }

  /** A workload of that name is reached by the apply loop and applied, and its component is not
      to be at zero. */
  ghost predicate ReachesAwake(first: Spec, app: App, ans: Oracle, name: string) {
    var objs := DesiredObjects(first, app, ans);
    exists k: nat :: ReachedAndApplied(objs, k, ans) && IsWorkload(objs[k]) && objs[k].name == name
                     && !ResumesAtZero(app, objs[k].instance)
  }

  /** A cycle that resumes, builds, and gets one of the workloads applied awake. */
  ghost predicate WokenIn(t: Trace, objs: seq<Obj>) {
    && t.Acted? && !WantsSuspend(t.app.spec) && Builds(t.first, t.app)
    && exists o :: o in objs && IsWorkload(o) && ReachesAwake(t.first, t.app, t.answers, o.name)
  }

  lemma DistinctResourcesDistinctNames(spec: Spec)
    requires DistinctResources(spec)
    ensures DistinctComponents(spec)
  {
    hide DeriveResourceName;
    forall j, k | 0 <= j < k < |spec.components| ensures spec.components[j].name != spec.components[k].name {
      assert DeriveResourceName(spec.components[j].name) != DeriveResourceName(spec.components[k].name);
    }
  }

  lemma SpecifiedOnce(spec: Spec, n: string, v: int, u: int)
    requires DistinctComponents(spec) && Specifies(spec, n, v) && Specifies(spec, n, u)
    ensures v == u
  {
    var i :| 0 <= i < |spec.components| && spec.components[i].name == n
             && spec.components[i].properties.Parsed? && spec.components[i].properties.config.replicas == Some(v);
    var j :| 0 <= j < |spec.components| && spec.components[j].name == n
             && spec.components[j].properties.Parsed? && spec.components[j].properties.config.replicas == Some(u);
    assert i == j;
  }

  /** Workloads of one name belong to one component. */
  lemma OneOwner(first: Spec, app: App, ans: Oracle, o: Obj, p: Obj)
    requires Initialize(first).1.None? && Builds(first, app) && DistinctResources(app.spec)
    requires o in DesiredObjects(first, app, ans) && IsWorkload(o)
    requires p in DesiredObjects(first, app, ans) && IsWorkload(p) && p.name == o.name
    ensures o.instance == p.instance
  {
    hide DesiredObjects, Builds, DeriveResourceName, Initialize;
    var i := WorkloadOwner(first, app, ans, o);
    var j := WorkloadOwner(first, app, ans, p);
  }

  lemma ZeroIff(first: Spec, app: App, ans: Oracle, o: Obj)
    requires Initialize(first).1.None? && Builds(first, app) && !WantsSuspend(app.spec) && DistinctResources(app.spec)
    requires o in DesiredObjects(first, app, ans) && IsWorkload(o)
    ensures o.body.replicas == 0 <==> ResumesAtZero(app, o.instance)
  {
    hide DesiredObjects, Builds, Initialize, Specifies, Process, DistinctResources;
    DistinctResourcesDistinctNames(app.spec);
    ResumingCycle(first, app, ans);
    if o.instance !in app.status.suspendedReplicas && Specifies(app.spec, o.instance, 0) {
      SpecifiedOnce(app.spec, o.instance, 0, o.body.replicas);
    }
  }

  /** The last workload applied under a name has replicas exactly when one is reached awake. */
  lemma RousedIff(first: Spec, app: App, ans: Oracle, name: string)
    requires Initialize(first).1.None? && Builds(first, app) && !WantsSuspend(app.spec) && DistinctResources(app.spec)
    ensures Roused(Process(first, app, ans).applied, name) <==> ReachesAwake(first, app, ans, name)
  {
    hide DesiredObjects, Builds, Initialize, Process, DistinctResources, LastApplied, ResumesAtZero;
    var objs, applied := DesiredObjects(first, app, ans), Process(first, app, ans).applied;
    LastAppliedIs(applied, name);
    NamedApplied(first, app, ans, name);
    forall o, p | o in objs && p in objs && IsWorkload(o) && IsWorkload(p) && o.name == name && p.name == name
      ensures o.instance == p.instance
    {
      OneOwner(first, app, ans, o, p);
    }
    forall o | o in objs && IsWorkload(o) ensures o.body.replicas == 0 <==> ResumesAtZero(app, o.instance) {
      ZeroIff(first, app, ans, o);
    }
    if NameApplied(objs, name, ans) {
      var k: nat :| ReachedAndApplied(objs, k, ans) && IsWorkload(objs[k]) && objs[k].name == name;
      assert objs[k] in objs;
    }
  }

  /** Waking, told before the call. */
  lemma WakesIff(t: Trace, objs: seq<Obj>)
    requires t.Acted? ==> Initialize(t.first).1.None? && DistinctResources(t.app.spec)
    ensures Wakes(t, objs) <==> WokenIn(t, objs)
  {
    hide DesiredObjects, Builds, Initialize, Process, DistinctResources, LastApplied, ReachesAwake, Roused, IsWorkload;
    if t.Acted? && !WantsSuspend(t.app.spec) {
      if Builds(t.first, t.app) {
        forall name { RousedIff(t.first, t.app, t.answers, name); }
      } else {
        NothingApplied(t.first, t.app, t.answers);
        forall name { NoneRoused(name); }
      }
    }
  }

  lemma NoneRoused(name: string)
    ensures !Roused([], name)
  {
  }

  /** A cycle that begins with phase Suspended and no replicas ends without any if and only if the
      apply loop reaches and applies none of the workloads with a recorded, or else specified,
      count other than zero. */
  lemma KeptAsleepIff(env: Environment, w: World, objs: seq<Obj>)
    requires IsSuspended(w) && AtZero(w.cluster, objs)
    requires TraceOf(env, w).Acted? ==> DistinctResources(TraceOf(env, w).app.spec)
    ensures AtZero(Reconcile(env, w, WATCHED).0.cluster, objs) <==> !WokenIn(TraceOf(env, w), objs)
  {
    hide Reconcile, Wakes, WokenIn, AtZero, IsSuspended, DistinctResources, Initialize, PathOf;
    StaysAtZeroIff(env, w, objs);
    AcceptedFirst(env, w);
    WakesIff(TraceOf(env, w), objs);
  }
}
