/** Suspending and resuming over whole runs, whatever status writes are lost: where a recorded
    replica count comes from, when it is restored and forgotten, and when the workloads of a
    suspended application are at zero. */
module SuspendRuns {
  import opened Text
  import opened Config
  import opened Names
  import opened Builder
  import opened Status
  import opened StatusCompare
  import opened PauseResume
  import opened Api
  import opened Cycle
  import opened CycleFacts
  import opened BuildFacts
  import opened Reconciler
  import opened Effects
  import opened Runs
  import opened Readiness
  import opened FastPathSoundness
  import opened NothingDropped

  // ----- one cycle -----

  /** The specification gives component n the replica count v. */
  ghost predicate Specifies(spec: Spec, n: string, v: int) {
    exists j :: 0 <= j < |spec.components| && spec.components[j].name == n
                && spec.components[j].properties.Parsed? && spec.components[j].properties.config.replicas == Some(v)
  }

  lemma WorkloadSpecified(objs: seq<Obj>, spec: Spec, o: Obj)
    requires Accounts(objs, spec.components, |spec.components|) && o in objs && IsWorkload(o)
    ensures Specifies(spec, o.instance, o.body.replicas)
  {
    hide IsWorkload;
    var ws := Workloads(objs);
    WorkloadsMembers(objs, o);
    var j :| 0 <= j < |ws| && ws[j] == o;
    assert WorkloadOf(ws[j], spec.components[j]);
  }

  /** A suspending cycle keeps every count on record and adds the specified count of each
      workload that has none; all its workloads are to be applied with zero replicas. */
  lemma SuspendingCycle(first: Spec, app: App, ans: Oracle)
    requires Initialize(first).1.None? && Builds(first, app) && WantsSuspend(app.spec)
    ensures var r := Process(first, app, ans);
            var known, rec := app.status.suspendedReplicas, r.status.suspendedReplicas;
            && !r.panicked && r.status.phase == Suspended
            && (forall n :: n in known ==> n in rec && rec[n] == known[n])
            && (forall n :: n in rec && n !in known ==> Specifies(app.spec, n, rec[n]))
            && ComponentNames(app.spec.components) <= rec.Keys
    ensures forall o :: o in DesiredObjects(first, app, ans) && IsWorkload(o) ==> o.body.replicas == 0
  {
    hide BuildFrom, PauseFrom, ApplyAll, Checked, MarkAll, SliceOf, Initialize, ReasonFor, Render, SetCondition,
         AllBuild,
         ComponentNames, IsWorkload, Specifies, Accounts, Instances;
    var statuses := Initialize(first).0;
    InitializeFacts(first);
    var b := BuildAll(app, statuses, ans.now);
    BuildAllFacts(app, statuses, ans.now);
    BuildAllWorkloads(app, statuses, ans.now);
    InstancesAreComponents(b.objects, app.spec.components);
    SuspendedObjects(b.objects, app.spec, app.status.suspendedReplicas);
  }

  lemma SuspendedObjects(objs: seq<Obj>, spec: Spec, record: Record)
    requires Accounts(objs, spec.components, |spec.components|)
    ensures var (r, rec) := PauseFrom(objs, 0, true, record);
            && (forall n :: n in record ==> n in rec && rec[n] == record[n])
            && (forall n :: n in rec && n !in record ==> Specifies(spec, n, rec[n]))
            && Instances(objs) <= rec.Keys
            && forall o :: o in r && IsWorkload(o) ==> o.body.replicas == 0
  {
    hide PauseFrom;
    Suspending(objs, 0, record);
    PauseKeepsObjects(objs, 0, true, record);
    var (r, rec) := PauseFrom(objs, 0, true, record);
    forall n | n in rec && n !in record ensures Specifies(spec, n, rec[n]) {
      var k :| 0 <= k < |objs| && IsWorkload(objs[k]) && objs[k].instance == n && rec[n] == objs[k].body.replicas;
      WorkloadSpecified(objs, spec, objs[k]);
    }
    forall o | o in r && IsWorkload(o) ensures o.body.replicas == 0 {
      var k :| 0 <= k < |r| && r[k] == o;
      WorkloadBefore(objs[k], r[k]);
    }
  }

  lemma WorkloadBefore(o: Obj, p: Obj)
    requires IsWorkload(p) && p.kind == o.kind && p.instance == o.instance && (!IsWorkload(o) ==> p == o)
    ensures IsWorkload(o)
  {
  }

  /** A resuming cycle gives every workload its recorded count, or the specified one if there is
      no record, forgets exactly the current workloads and leaves other entries alone. */
  lemma ResumingCycle(first: Spec, app: App, ans: Oracle)
    requires Initialize(first).1.None? && Builds(first, app) && !WantsSuspend(app.spec) && DistinctComponents(app.spec)
    ensures var r := Process(first, app, ans);
            var record := app.status.suspendedReplicas;
            && !r.panicked && r.status.suspendedReplicas == record - ComponentNames(app.spec.components)
            && forall o :: o in DesiredObjects(first, app, ans) && IsWorkload(o) ==>
                 if o.instance in record then o.body.replicas == record[o.instance]
                 else Specifies(app.spec, o.instance, o.body.replicas)
  {
    hide BuildFrom, PauseFrom, ApplyAll, Checked, MarkAll, SliceOf, Initialize, ReasonFor, Render, SetCondition,
         AllBuild,
         ComponentNames, Specifies, Accounts, Instances, IsWorkload;
    var statuses := Initialize(first).0;
    InitializeFacts(first);
    var b := BuildAll(app, statuses, ans.now);
    BuildAllFacts(app, statuses, ans.now);
    BuildAllWorkloads(app, statuses, ans.now);
    CarriedOver(first, app, ans);
    ResumedObjects(b.objects, app.spec, app.status.suspendedReplicas);
  }

  lemma ResumedObjects(objs: seq<Obj>, spec: Spec, record: Record)
    requires Accounts(objs, spec.components, |spec.components|) && DistinctComponents(spec)
    ensures forall o :: o in PauseFrom(objs, 0, false, record).0 && IsWorkload(o) ==>
              if o.instance in record then o.body.replicas == record[o.instance]
              else Specifies(spec, o.instance, o.body.replicas)
  {
    hide PauseFrom, Specifies;
    AccountedOnce(objs, spec.components, |spec.components|);
    Resuming(objs, 0, record);
    PauseKeepsObjects(objs, 0, false, record);
    var r := PauseFrom(objs, 0, false, record).0;
    forall o | o in r && IsWorkload(o)
      ensures if o.instance in record then o.body.replicas == record[o.instance]
              else Specifies(spec, o.instance, o.body.replicas)
    {
      var k :| 0 <= k < |r| && r[k] == o;
      WorkloadBefore(objs[k], r[k]);
      WorkloadSpecified(objs, spec, objs[k]);
    }
  }

  /** Each desired workload is the one of some component. */
  lemma WorkloadOwner(first: Spec, app: App, ans: Oracle, o: Obj) returns (j: nat)
    requires Initialize(first).1.None? && Builds(first, app) && o in DesiredObjects(first, app, ans) && IsWorkload(o)
    ensures j < |app.spec.components| && o.instance == app.spec.components[j].name
    ensures o.name == DeriveResourceName(app.spec.components[j].name)
  {
    hide BuildFrom, PauseFrom, Initialize, AllBuild, DeriveResourceName;
    var b := BuildAll(app, Initialize(first).0, ans.now);
    InitializeFacts(first);
    BuildAllFacts(app, Initialize(first).0, ans.now);
    BuildAllWorkloads(app, Initialize(first).0, ans.now);
    PauseKeepsObjects(b.objects, 0, WantsSuspend(app.spec), app.status.suspendedReplicas);
    var objs := DesiredObjects(first, app, ans);
    var k :| 0 <= k < |objs| && objs[k] == o;
    WorkloadsMembers(b.objects, b.objects[k]);
    var ws := Workloads(b.objects);
    j :| 0 <= j < |ws| && ws[j] == b.objects[k];
    assert WorkloadOf(ws[j], app.spec.components[j]);
  }

  // ----- where a recorded count comes from -----

  predicate HasCount(st: AppStatus, n: string, v: int) {
    n in st.suspendedReplicas && st.suspendedReplicas[n] == v
  }

  /** The write that put the count v of component n on record: a suspending cycle that found no
      record of n and stored v, which is what the specification it read asks for. */
  ghost predicate Records(wr: Write, n: string, v: int) {
    && wr.cause.Processed? && WantsSuspend(wr.cause.app.spec)
    && n !in wr.before.status.suspendedReplicas && HasCount(wr.after.status, n, v)
    && Specifies(wr.cause.app.spec, n, v)
  }

  /** A good write leaves the record alone, or adds specified counts while suspending, or removes
      exactly the current workloads while resuming. */
  lemma WrittenRecord(wr: Write)
    requires WriteGood(wr)
    ensures var known, rec := wr.before.status.suspendedReplicas, wr.after.status.suspendedReplicas;
            && (forall n :: n in rec ==> (n in known && rec[n] == known[n]) || Records(wr, n, rec[n]))
            && ((exists n :: n in known && n !in rec) ==>
                  wr.cause.Processed? && !WantsSuspend(wr.cause.app.spec) && Builds(wr.cause.first, wr.cause.app)
                  && rec == known - ComponentNames(wr.cause.app.spec.components))
  {
    hide Process, Initialize, SetCondition, SliceOf, Builds, Specifies, ComponentNames;
    match wr.cause {
      case Processed(first, app, ans) =>
        CarriedOver(first, app, ans);
        if Builds(first, app) && WantsSuspend(app.spec) {
          SuspendingCycle(first, app, ans);
        }
      case _ =>
    }
  }

  /** Write k put the count on record, and every status written since has kept it there. */
  ghost predicate RecordedAt(writes: seq<Write>, k: nat, n: string, v: int) {
    && k < |writes| && Records(writes[k], n, v)
    && forall j :: k < j < |writes| && IsStatusWrite(writes[j].cause) ==> HasCount(writes[j].after.status, n, v)
  }

  ghost predicate OnRecord(writes: seq<Write>, n: string, v: int) {
    exists k :: RecordedAt(writes, k, n, v)
  }

  /** Every persisted count was put on record by a suspending cycle, from its specification. */
  ghost predicate RecordExplained(w: World) {
    w.store.Some? ==> forall n :: n in w.store.value.status.suspendedReplicas ==>
                        OnRecord(w.writes, n, w.store.value.status.suspendedReplicas[n])
  }

  lemma RecordedLonger(writes: seq<Write>, longer: seq<Write>, n: string, v: int)
    requires writes <= longer && OnRecord(writes, n, v)
    requires forall i :: |writes| <= i < |longer| && IsStatusWrite(longer[i].cause) ==>
               HasCount(longer[i].after.status, n, v)
    ensures OnRecord(longer, n, v)
  {
    hide Records, HasCount;
    var k: nat :| RecordedAt(writes, k, n, v);
    assert longer[k] == writes[k];
    assert forall j :: k < j < |writes| ==> longer[j] == writes[j];
    assert RecordedAt(longer, k, n, v);
  }

  lemma NewlyRecorded(writes: seq<Write>, from: nat, wr: Write, n: string, v: int)
    requires from <= |writes| && wr in writes[from..] && Records(wr, n, v)
    requires forall i :: from <= i < |writes| && IsStatusWrite(writes[i].cause) ==> writes[i] == wr
    ensures OnRecord(writes, n, v)
  {
    var k :| 0 <= k < |writes[from..]| && writes[from..][k] == wr;
    assert RecordedAt(writes, from + k, n, v);
  }

  lemma RecordExplainedCycle(env: Environment, w: World)
    requires RecordExplained(w)
    ensures RecordExplained(Reconcile(env, w, WATCHED).0)
  {
    hide Reconcile, Process, WriteGood, Records, OnRecord, TraceOf, GoodWrites;
    CycleShape(env, w);
    var w' := Reconcile(env, w, WATCHED).0;
    if w'.store.Some? {
      var rec := w'.store.value.status.suspendedReplicas;
      forall n | n in rec ensures OnRecord(w'.writes, n, rec[n]) {
        if Quiet(w, w') {
          RecordedLonger(w.writes, w'.writes, n, rec[n]);
        } else {
          var wr := w'.last.value;
          WrittenRecord(wr);
          if Records(wr, n, rec[n]) {
            NewlyRecorded(w'.writes, |w.writes|, wr, n, rec[n]);
          } else {
            RecordedLonger(w.writes, w'.writes, n, rec[n]);
          }
        }
      }
    }
  }

  /** In every run: each persisted count was put on record by a suspending cycle that had found
      none, is what that cycle's specification asks for, and was kept by every status since. */
  lemma {:induction false} RecordsExplained(env: Environment, w: World, n: nat)
    requires IsInitial(w)
    ensures RecordExplained(Run(env, w, n))
  {
    hide Reconcile;
    if n > 0 {
      RecordsExplained(env, w, n - 1);
      hide OnRecord;
      RecordExplainedCycle(env, Run(env, w, n - 1));
    }
  }

  // ----- what the apply loop deploys -----

  /** The replica count last applied under a workload's name, if any was. */
  function LastApplied(applied: seq<Obj>, name: string): Option<int> {
    if applied == [] then None
    else
      var o := applied[|applied| - 1];
      if IsWorkload(o) && o.name == name then Some(o.body.replicas) else LastApplied(applied[..|applied| - 1], name)
  }

  function CountOf(cluster: map<string, int>, name: string): Option<int> {
    if name in cluster then Some(cluster[name]) else None
  }

  lemma {:induction false} DeployedCount(cluster: map<string, int>, applied: seq<Obj>, name: string)
    ensures CountOf(Deployed(cluster, applied), name)
         == if LastApplied(applied, name).Some? then LastApplied(applied, name) else CountOf(cluster, name)
  {
    if applied != [] {
      DeployedCount(cluster, applied[..|applied| - 1], name);
    }
  }

  lemma {:induction false} LastAppliedIs(applied: seq<Obj>, name: string)
    ensures LastApplied(applied, name).Some? <==> exists o :: o in applied && IsWorkload(o) && o.name == name
    ensures LastApplied(applied, name).Some? ==>
              exists o :: o in applied && IsWorkload(o) && o.name == name
                && LastApplied(applied, name) == Some(o.body.replicas)
  {
    if applied != [] {
      var front, last := applied[..|applied| - 1], applied[|applied| - 1];
      LastAppliedIs(front, name);
      assert forall o :: o in applied <==> o in front || o == last;
    }
  }

  /** The loop over the objects ends with this one: a failed lookup or owner reference. */
  predicate Stops(o: Obj, ans: Oracle) {
    (o.kind == Service && ans.lookupFault(KeyOf(o)).Some?) || ans.ownerFault(KeyOf(o)).Some?
  }

  /** The loop gets to object k, and the object is applied. */
  ghost predicate ReachedAndApplied(objs: seq<Obj>, k: nat, ans: Oracle) {
    k < |objs| && Applies(objs[k], ans) && forall j :: 0 <= j < k ==> !Stops(objs[j], ans)
  }

  /** The object is reached, at position i or later, and applied. */
  ghost predicate AppliedFrom(o: Obj, objs: seq<Obj>, i: nat, ans: Oracle) {
    exists k: nat :: i <= k && ReachedAndApplied(objs, k, ans) && objs[k] == o
  }

  lemma {:induction false} AppliedAreReached(objs: seq<Obj>, i: nat, a: Applying, ans: Oracle, o: Obj)
    requires i <= |objs| && !a.stopped && forall j :: 0 <= j < i ==> !Stops(objs[j], ans)
    ensures o in ApplyFrom(objs, i, a, ans).applied <==> o in a.applied || AppliedFrom(o, objs, i, ans)
    decreases |objs| - i
  {
    if i < |objs| {
      hide ApplyStep, Applies, Stops;
      var a' := ApplyStep(objs[i], a, ans);
      AppliedStep(objs[i], a, ans);
      assert Applies(objs[i], ans) <==> ReachedAndApplied(objs, i, ans);
      if a'.stopped {
        assert ApplyFrom(objs, i + 1, a', ans) == a';
      } else {
        AppliedAreReached(objs, i + 1, a', ans, o);
        assert AppliedFrom(o, objs, i, ans) <==>
                 (Applies(objs[i], ans) && objs[i] == o) || AppliedFrom(o, objs, i + 1, ans);
      }
    }
  }

  lemma AppliedStep(o: Obj, a: Applying, ans: Oracle)
    requires !a.stopped
    ensures var r := ApplyStep(o, a, ans);
            && (r.stopped <==> Stops(o, ans)) && (Stops(o, ans) ==> !Applies(o, ans))
            && r.applied == if Applies(o, ans) then a.applied + [o] else a.applied
  {
  }

  /** What a cycle applies: exactly the desired objects that are reached and applied. */
  lemma AppliedOf(first: Spec, app: App, ans: Oracle, o: Obj)
    requires Builds(first, app)
    ensures o in Process(first, app, ans).applied <==> AppliedFrom(o, DesiredObjects(first, app, ans), 0, ans)
  {
    hide Process, ApplyFrom, DesiredObjects, Builds, AppliedFrom;
    var start := Applying(map[], BuildAll(app, Initialize(first).0, ans.now).statuses, [], [], None, false);
    ProcessApplies(first, app, ans, start);
    AppliedAreReached(DesiredObjects(first, app, ans), 0, start, ans, o);
  }

  lemma ProcessApplies(first: Spec, app: App, ans: Oracle, start: Applying)
    requires Builds(first, app)
    requires start == Applying(map[], BuildAll(app, Initialize(first).0, ans.now).statuses, [], [], None, false)
    ensures Process(first, app, ans).applied == ApplyFrom(DesiredObjects(first, app, ans), 0, start, ans).applied
  {
    hide BuildFrom, PauseFrom, ApplyStep, Checked, MarkAll, SliceOf, Initialize, FinalPhase, SetCondition, AllBuild,
         MarkApplied;
    BuildAllFacts(app, Initialize(first).0, ans.now);
  }

  lemma NothingApplied(first: Spec, app: App, ans: Oracle)
    requires !Builds(first, app)
    ensures Process(first, app, ans).applied == []
  {
    hide BuildFrom, Paused, ApplyAll, Checked, MarkAll, SliceOf, Initialize, FinalPhase, SetCondition, AllBuild;
    BuildAllFacts(app, Initialize(first).0, ans.now);
  }

  // ----- the cluster while suspended -----

  /** Never deployed, or with no replicas. */
  predicate NoReplicas(count: Option<int>) {
    count.None? || count.value == 0
  }

  /** No workload of the list has replicas. */
  ghost predicate AtZero(cluster: map<string, int>, objs: seq<Obj>) {
    forall o :: o in objs && IsWorkload(o) ==> NoReplicas(CountOf(cluster, o.name))
  }

  /** A workload of that name was reached and applied. */
  ghost predicate NameApplied(objs: seq<Obj>, name: string, ans: Oracle) {
    exists k: nat :: ReachedAndApplied(objs, k, ans) && IsWorkload(objs[k]) && objs[k].name == name
  }

  /** Each workload was reached and applied in the suspending cycle, or had no replicas already. */
  ghost predicate ZeroReached(cluster: map<string, int>, objs: seq<Obj>, ans: Oracle) {
    forall o :: o in objs && IsWorkload(o) ==>
      NameApplied(objs, o.name, ans) || NoReplicas(CountOf(cluster, o.name))
  }

  /** A suspending cycle leaves its workloads at zero if and only if each was reached and applied
      in it or had no replicas already. What happens to its other objects does not matter. */
  lemma SuspendedToZeroIff(first: Spec, app: App, ans: Oracle, cluster: map<string, int>)
    requires Initialize(first).1.None? && Builds(first, app) && WantsSuspend(app.spec)
    ensures var objs := DesiredObjects(first, app, ans);
            AtZero(Deployed(cluster, Process(first, app, ans).applied), objs) <==> ZeroReached(cluster, objs, ans)
  {
    hide Process, DesiredObjects, Initialize, Builds, Deployed, LastApplied, ReachedAndApplied, IsWorkload,
         ComponentNames, Specifies;
    var objs, applied := DesiredObjects(first, app, ans), Process(first, app, ans).applied;
    SuspendingCycle(first, app, ans);
    forall o | o in objs && IsWorkload(o)
      ensures NoReplicas(CountOf(Deployed(cluster, applied), o.name)) <==>
              NameApplied(objs, o.name, ans) || NoReplicas(CountOf(cluster, o.name))
    {
      DeployedCount(cluster, applied, o.name);
      LastAppliedIs(applied, o.name);
      NamedApplied(first, app, ans, o.name);
    }
  }

  lemma NamedApplied(first: Spec, app: App, ans: Oracle, name: string)
    requires Builds(first, app)
    ensures var objs, applied := DesiredObjects(first, app, ans), Process(first, app, ans).applied;
            && (NameApplied(objs, name, ans) <==> exists o :: o in applied && IsWorkload(o) && o.name == name)
            && forall o :: o in applied ==> o in objs
  {
    hide Process, DesiredObjects, Builds, IsWorkload;
    var objs, applied := DesiredObjects(first, app, ans), Process(first, app, ans).applied;
    forall o ensures o in applied <==> AppliedFrom(o, objs, 0, ans) {
      AppliedOf(first, app, ans, o);
    }
    if NameApplied(objs, name, ans) {
      var k: nat :| ReachedAndApplied(objs, k, ans) && IsWorkload(objs[k]) && objs[k].name == name;
      assert AppliedFrom(objs[k], objs, 0, ans);
    }
  }

  ghost predicate IsSuspended(w: World) {
    w.store.Some? && w.store.value.status.phase == Suspended
  }

  /** The cycle worked on a specification that does not suspend, and left one of the workloads
      applied with a count other than zero. */
  ghost predicate Wakes(t: Trace, objs: seq<Obj>) {
    && t.Acted? && !WantsSuspend(t.app.spec)
    && exists o :: o in objs && IsWorkload(o) && Roused(Process(t.first, t.app, t.answers).applied, o.name)
  }

  predicate Roused(applied: seq<Obj>, name: string) {
    !NoReplicas(LastApplied(applied, name))
  }

  /** A cycle that begins with phase Suspended and the workloads at zero keeps them there if and
      only if it does not wake one. */
  lemma StaysAtZeroIff(env: Environment, w: World, objs: seq<Obj>)
    requires IsSuspended(w) && AtZero(w.cluster, objs)
    ensures AtZero(Reconcile(env, w, WATCHED).0.cluster, objs) <==> !Wakes(TraceOf(env, w), objs)
  {
    hide Reconcile, Process, TraceOf, Deployed, LastApplied, GoodWrites, IsWorkload, Initialize;
    CycleShape(env, w);
    var t := TraceOf(env, w);
    if t.Acted? {
      assert !WantsSuspend(t.app.spec);
      forall o | o in objs && IsWorkload(o)
        ensures NoReplicas(CountOf(Deployed(w.cluster, Process(t.first, t.app, t.answers).applied), o.name))
                <==> !Roused(Process(t.first, t.app, t.answers).applied, o.name)
      {
        DeployedCount(w.cluster, Process(t.first, t.app, t.answers).applied, o.name);
      }
    }
  }

  /** The last cycle before the n-th state that stored a status. */
  ghost function StoredIn(env: Environment, w: World, n: nat): nat {
    if n == 0 then 0 else if !Quiet(Run(env, w, n - 1), Run(env, w, n)) then n - 1 else StoredIn(env, w, n - 1)
  }

  /** What stored the phase Suspended was a working, suspending cycle, and the phase has stayed. */
  lemma {:induction false} SuspendedSince(env: Environment, w: World, n: nat)
    requires IsInitial(w) && IsSuspended(Run(env, w, n))
    ensures var s := StoredIn(env, w, n);
            && s < n && (forall m :: s < m <= n ==> IsSuspended(Run(env, w, m)))
            && var t := TraceOf(env, Run(env, w, s));
               && t.Acted? && Initialize(t.first).1.None? && Builds(t.first, t.app) && WantsSuspend(t.app.spec)
               && Run(env, w, s + 1).cluster
                  == Deployed(Run(env, w, s).cluster, Process(t.first, t.app, t.answers).applied)
  {
    hide Reconcile, Process, TraceOf, GoodWrites, WriteGood, Initialize, Builds, Deployed;
    if n > 0 {
      var w0, w1 := Run(env, w, n - 1), Run(env, w, n);
      CycleShape(env, w0);
      if Quiet(w0, w1) {
        SuspendedSince(env, w, n - 1);
      } else {
        SuspendedWrite(w1.last.value);
        ActedOnAccepted(TraceOf(env, w0));
      }
    }
  }

  lemma ActedOnAccepted(t: Trace)
    ensures t.Acted? && Acting(t.first, t.app) ==> Initialize(t.first).1.None?
  {
  }

  /** A cycle that stores Suspended was suspending. */
  lemma SuspendedWrite(wr: Write)
    requires WriteGood(wr) && IsStatusWrite(wr.cause) && wr.after.status.phase == Suspended
    ensures wr.cause.Processed? && Builds(wr.cause.first, wr.cause.app) && WantsSuspend(wr.cause.app.spec)
  {
    hide Process, Initialize, SetCondition, SliceOf, Builds;
    if wr.cause.Processed? {
      CarriedOver(wr.cause.first, wr.cause.app, wr.cause.answers);
    }
  }

  /** The workloads were at zero in every state after cycle s, up to the n-th. */
  ghost predicate ZeroSince(env: Environment, w: World, s: nat, n: nat, objs: seq<Obj>) {
    forall m :: s < m <= n ==> AtZero(Run(env, w, m).cluster, objs)
  }

  /** No cycle after s and before n woke one of the workloads. */
  ghost predicate NoneWoken(env: Environment, w: World, s: nat, n: nat, objs: seq<Obj>) {
    forall m :: s < m < n ==> !Wakes(TraceOf(env, Run(env, w, m)), objs)
  }

  lemma OneMoreCycle(env: Environment, w: World, s: nat, n: nat, objs: seq<Obj>)
    requires s < n
    ensures ZeroSince(env, w, s, n + 1, objs) <==>
              ZeroSince(env, w, s, n, objs) && AtZero(Run(env, w, n + 1).cluster, objs)
    ensures NoneWoken(env, w, s, n + 1, objs) <==>
              NoneWoken(env, w, s, n, objs) && !Wakes(TraceOf(env, Run(env, w, n)), objs)
    ensures ZeroSince(env, w, s, n, objs) ==> AtZero(Run(env, w, n).cluster, objs)
  {
    hide Run, AtZero, Wakes, TraceOf;
  }

  lemma {:induction false} ZeroThroughout(env: Environment, w: World, s: nat, n: nat, objs: seq<Obj>)
    requires s < n && forall m :: s < m <= n ==> IsSuspended(Run(env, w, m))
    ensures ZeroSince(env, w, s, n, objs) <==> AtZero(Run(env, w, s + 1).cluster, objs) && NoneWoken(env, w, s, n, objs)
    decreases n
  {
    hide Run, Reconcile, AtZero, Wakes, TraceOf, IsSuspended;
    if s + 1 < n {
      ZeroThroughout(env, w, s, n - 1, objs);
      OneMoreCycle(env, w, s, n - 1, objs);
      RunNext(env, w, n - 1);
      hide ZeroSince, NoneWoken;
      if AtZero(Run(env, w, n - 1).cluster, objs) {
        StaysAtZeroIff(env, Run(env, w, n - 1), objs);
      }
    } else {
      assert n == s + 1;
    }
  }

  /** In every run that has come to the phase Suspended, whatever was lost and edited on the way:
      the workloads of the suspending cycle have been at zero ever since if and only if each was
      reached and applied in that cycle or had no replicas already, and no later cycle woke one. */
  lemma SuspendedAtZero(env: Environment, w: World, n: nat)
    requires IsInitial(w) && IsSuspended(Run(env, w, n))
    ensures var s := StoredIn(env, w, n);
            && s < n && var t := TraceOf(env, Run(env, w, s));
            && t.Acted? && WantsSuspend(t.app.spec)
            && var objs := DesiredObjects(t.first, t.app, t.answers);
               ZeroSince(env, w, s, n, objs) <==>
               ZeroReached(Run(env, w, s).cluster, objs, t.answers) && NoneWoken(env, w, s, n, objs)
  {
    hide Reconcile, AtZero, Wakes, TraceOf, ZeroReached, Process, DesiredObjects, Builds, Initialize, IsSuspended,
         StoredIn, ZeroSince, NoneWoken;
    SuspendedSince(env, w, n);
    var s := StoredIn(env, w, n);
    var t := TraceOf(env, Run(env, w, s));
    SuspendedToZeroIff(t.first, t.app, t.answers, Run(env, w, s).cluster);
    ZeroThroughout(env, w, s, n, DesiredObjects(t.first, t.app, t.answers));
  }

  // ----- what is never done -----

  /** An object that is suspended both in its specification and in its phase. */
  predicate Parked(app: App) {
    SkipsSuspended(app) && !app.deleting && FINALIZER in app.finalizers && app.spec.components != []
    && Initialize(app.spec).1.None?
  }

  /** An edit that neither resumes nor deletes the object nor takes its finalizer or its components. */
  predicate KeepsParked(e: Edit) {
    match e
    case Put(spec, _, _, finalizers) =>
      WantsSuspend(spec) && FINALIZER in finalizers && spec.components != [] && Initialize(spec).1.None?
    case Touch => true
    case Delete => false
  }

  lemma {:induction false} EditsKeepParked(edits: seq<Edit>, app: App)
    requires Parked(app) && forall e :: e in edits ==> KeepsParked(e)
    ensures var s := ApplyEdits(edits, Some(app)); s.Some? && Parked(s.value)
  {
    hide Initialize;
    if edits != [] {
      assert edits[0] in edits;
      EditsKeepParked(edits[1..], ApplyEdit(edits[0], app).value);
    }
  }

  /** A parked object that is read is left alone: no apply, no write, no event, no requeue. */
  lemma ParkedIsSkipped(env: Environment, w: World)
    requires var (w1, g) := Get(env, w); g.Got? && Parked(g.app)
    ensures Reconcile(env, w, WATCHED) == (Get(env, w).0, Done)
  {
    hide Initialize, Act, UpdateStatusIfNeeded, StartFrom, ClaimFrom, Finalize;
  }

  /** While no edit unparks it, a parked object is never touched again, whatever is deployed. */
  lemma {:induction false} ParkedForGood(env: Environment, w: World, n: nat, m: nat)
    requires n <= m && Run(env, w, n).store.Some? && Parked(Run(env, w, n).store.value)
    requires forall k :: Run(env, w, n).tick <= k ==> forall e :: e in env(k).edits ==> KeepsParked(e)
    ensures var a, b := Run(env, w, n), Run(env, w, m);
            && a.tick <= b.tick && b.store.Some? && Parked(b.store.value)
            && b.cluster == a.cluster && b.writes == a.writes && b.events == a.events
  {
    hide Parked, KeepsParked, Reconcile;
    if n < m {
      ParkedForGood(env, w, n, m - 1);
      var w0 := Run(env, w, m - 1);
      EditsKeepParked(env(w0.tick).edits, w0.store.value);
      ParkedCycle(env, w0);
    }
  }

  lemma ParkedCycle(env: Environment, w: World)
    requires var s := ApplyEdits(env(w.tick).edits, w.store); s.Some? && Parked(s.value)
    ensures Reconcile(env, w, WATCHED).0 == w.(store := ApplyEdits(env(w.tick).edits, w.store), tick := w.tick + 1)
  {
    hide Parked, Handle, ApplyEdits;
    if !env(w.tick).fault {
      ParkedIsSkipped(env, w);
    }
  }

  /** A suspending cycle stores Suspended even if nothing could be applied. */
  lemma SuspendedDespiteErrors(first: Spec, app: App, ans: Oracle)
    requires Initialize(first).1.None? && Builds(first, app) && WantsSuspend(app.spec)
    ensures var r := Process(first, app, ans);
            r.status.phase == Suspended && (r.error.Some? <== !AllApply(DesiredObjects(first, app, ans), ans))
  {
    hide BuildFrom, PauseFrom, ApplyFrom, CheckAll, MarkAll, SliceOf, Initialize, ReasonFor, Render, SetCondition,
         AllBuild, Applies, FinalPhase;
    SuspendingCycle(first, app, ans);
    var b := BuildAll(app, Initialize(first).0, ans.now);
    BuildAllFacts(app, Initialize(first).0, ans.now);
    ApplyAllClean(DesiredObjects(first, app, ans), b.statuses, ans);
  }
}
