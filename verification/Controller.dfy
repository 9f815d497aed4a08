/** The controller as it is written: one object whose methods update the fields of a cycle in
    place and loop over lists, maps and retries. Each method is proved to do what the functions
    of Cycle and Reconciler say, on which the run theorems are proved. */
module Controller {
  import opened Text
  import opened Config
  import opened Builder
  import opened Status
  import opened StatusCompare
  import opened StatusOrder
  import opened PauseResume
  import opened Api
  import opened Cycle
  import opened CycleFacts
  import opened BuildFacts
  import opened Reconciler
  import opened NothingDropped
  import Apply
  import Health

  class ApplicationDefinitionReconciler {
    const server: Server
    var appDef: App
    var originalStatus: AppStatus
    var componentStatuses: Statuses
    var desiredObjects: seq<Obj>
    var applyResults: map<Identity, Apply.ApplyResult>
    var firstError: Option<Error>

    constructor (server: Server, placeholder: App)
      ensures this.server == server
    {
      this.server := server;
      appDef, originalStatus := placeholder, placeholder.status;
      componentStatuses, desiredObjects, applyResults, firstError := map[], [], map[], None;
    }

    // ----- initializeComponentStatuses -----

    method InitializeComponentStatuses() returns (e: Option<Error>)
      requires componentStatuses == map[]
      modifies `componentStatuses
      ensures (componentStatuses, e) == Initialize(appDef.spec)
    {
      var cs := appDef.spec.components;
      var names: set<string> := {};
      var i := 0;
      while i < |cs|
        invariant 0 <= i <= |cs|
        invariant names == componentStatuses.Keys
        invariant InitFrom(cs, i, componentStatuses) == InitFrom(cs, 0, map[])
      {
        var comp := cs[i];
        if comp.name == "" {
          return Some(Error(EmptyComponentName, "", false));
        }
        if comp.name in names {
          return Some(Error(DuplicateComponentName, comp.name, false));
        }
        names := names + {comp.name};
        componentStatuses := componentStatuses[comp.name := CompStatus(comp.name, "", "", "", "", false, Initializing)];
        i := i + 1;
      }
      var stale := componentStatuses.Keys - names;
      assert componentStatuses - stale == componentStatuses;
      componentStatuses := componentStatuses - stale;
      return None;
    }

    // ----- updateStatusIfNeeded -----

    method UpdateStatusIfNeeded(cause: Cause) returns (e: Option<Error>)
      modifies `appDef, server
      ensures (server.world, e)
              == Reconciler.UpdateStatusIfNeeded(server.env, old(server.world), old(appDef), old(appDef.status),
                                                 originalStatus, cause)
    {
      hide UpdateStatus, Get, Matches, ConditionPairs, ComponentPairs;
      appDef := appDef.(status := appDef.status.(observedGeneration := appDef.generation));
      var sameConditions := ConditionsEqual(appDef.status.conditions, originalStatus.conditions);
      var sameComponents := ComponentStatusesEqual(appDef.status.components, originalStatus.components);
      if appDef.status.phase == originalStatus.phase && sameConditions && sameComponents
         && appDef.status.observedGeneration == originalStatus.observedGeneration
         && appDef.status.lastChangeID == originalStatus.lastChangeID {
        return None;
      }
      var desired := appDef.status;
      ghost var goal := StatusFrom(server.env, server.world, appDef, desired, cause, 0);
      var i := 0;
      while i < MAX_WRITES
        invariant 0 <= i <= MAX_WRITES
        invariant StatusFrom(server.env, server.world, appDef, desired, cause, i) == goal
      {
        var r := server.WriteStatus(appDef, cause);
        match r {
          case Accepted(stored) =>
            appDef := stored;
            return None;
          case Refused(error) => return Some(error);
          case Conflict =>
        }
        var g := server.Read();
        match g {
          case NotFound => return Some(Error(ObjectNotFound, "", false));
          case GetFailed(error) => return Some(error);
          case Got(latest) => appDef := latest;
        }
        appDef := appDef.(status := desired.(observedGeneration := appDef.generation));
        i := i + 1;
      }
      return Some(GAVE_UP);
    }

    // ----- handleFinalizer -----

    method AddFinalizer() returns (e: Option<Error>)
      requires FINALIZER !in appDef.finalizers
      modifies `appDef, server
      ensures var (w, stored, e') := ClaimFrom(server.env, old(server.world), WithFinalizer(old(appDef)), 0);
              server.world == w && e == e' && (e.None? ==> appDef == stored)
    {
      hide Update, Get;
      appDef := appDef.(finalizers := appDef.finalizers + [FINALIZER]);
      ghost var goal := ClaimFrom(server.env, server.world, appDef, 0);
      var i := 0;
      while i < MAX_WRITES
        invariant 0 <= i <= MAX_WRITES
        invariant var now := ClaimFrom(server.env, server.world, appDef, i);
                  now.0 == goal.0 && now.2 == goal.2 && (now.2.None? ==> now.1 == goal.1)
      {
        var r := server.Write(appDef, Claimed);
        match r {
          case Accepted(stored) =>
            appDef := stored;
            return None;
          case Refused(error) => return Some(error);
          case Conflict =>
        }
        var g := server.Read();
        match g {
          case NotFound => return Some(Error(ObjectNotFound, "", false));
          case GetFailed(error) => return Some(error);
          case Got(latest) => appDef := latest;
        }
        if FINALIZER !in appDef.finalizers {
          appDef := appDef.(finalizers := appDef.finalizers + [FINALIZER]);
        }
        i := i + 1;
      }
      return Some(GAVE_UP);
    }

    method CleanClaims() returns (e: Option<Error>, listed: seq<string>)
      modifies server
      ensures var ans := server.env(old(server.world).tick);
              var w1 := Interfere(server.env, old(server.world));
              && listed == ans.listing
              && (ans.fault ==> server.world == w1 && e == Some(Error(ListFailed, "", false)))
              && (!ans.fault ==> (server.world, e) == CleanFrom(w1, ans, 0))
    {
      var at := server.world.tick;
      ghost var ans := server.env(at);
      var ok;
      ok, listed := server.List();
      if !ok {
        return Some(Error(ListFailed, "", false)), listed;
      }
      ghost var goal := CleanFrom(server.world, ans, 0);
      for i := 0 to |listed|
        invariant listed == ans.listing
        invariant CleanFrom(server.world, ans, i) == goal
      {
        var deleted := server.DeleteClaim(listed[i], at);
        if !deleted {
          return Some(Error(ClaimDeletion, listed[i], false)), listed;
        }
      }
      return None, listed;
    }

    method RemoveFinalizer(listed: seq<string>) returns (e: Option<Error>)
      modifies `appDef, server
      ensures (server.world, e) == ReleaseFrom(server.env, old(server.world), WithoutFinalizer(old(appDef)), listed, 0)
    {
      hide Update, Get, Without;
      appDef := WithoutFinalizer(appDef);
      ghost var goal := ReleaseFrom(server.env, server.world, appDef, listed, 0);
      var i := 0;
      while i < MAX_WRITES
        invariant 0 <= i <= MAX_WRITES
        invariant ReleaseFrom(server.env, server.world, appDef, listed, i) == goal
      {
        var r := server.Write(appDef, Released(listed));
        match r {
          case Accepted(_) => return None;
          case Refused(error) => return Some(error);
          case Conflict =>
        }
        var g := server.Read();
        match g {
          case NotFound => return Some(Error(ObjectNotFound, "", false));
          case GetFailed(error) => return Some(error);
          case Got(latest) => appDef := latest;
        }
        appDef := WithoutFinalizer(appDef);
        i := i + 1;
      }
      return None;
    }

    method HandleFinalizer() returns (isDeleted: bool, e: Option<Error>)
      modifies `appDef, server
      ensures var (w, f) := Reconciler.HandleFinalizer(server.env, old(server.world), old(appDef));
              && server.world == w
              && match f
                 case Continue(app) => !isDeleted && e.None? && appDef == app
                 case Deleted => isDeleted && e.None?
                 case FinalizerError(error) => e == Some(error)
    {
      if !appDef.deleting {
        if FINALIZER !in appDef.finalizers {
          e := AddFinalizer();
          return false, e;
        }
        return false, None;
      }
      if FINALIZER in appDef.finalizers {
        var listed;
        e, listed := CleanClaims();
        if e.Some? {
          return true, e;
        }
        e := RemoveFinalizer(listed);
        if e.Some? {
          return true, e;
        }
      }
      return true, None;
    }

    // ----- setInitialPhase -----

    method SetInitialPhase() returns (updated: bool, e: Option<Error>)
      modifies `appDef, server
      ensures old(appDef).status.phase == Unset || old(appDef).status.phase == Pending ==>
                && (server.world, e)
                   == StartFrom(server.env, old(server.world),
                                old(appDef).(status := StartedStatus(old(appDef).status)), 0)
                && updated == e.None?
      ensures !(old(appDef).status.phase == Unset || old(appDef).status.phase == Pending) ==>
                !updated && e.None? && server.world == old(server.world) && appDef == old(appDef)
    {
      hide SetCondition, UpdateStatus, Get, Emitted;
      if appDef.status.phase != Unset && appDef.status.phase != Pending {
        return false, None;
      }
      appDef := appDef.(status := WithCondition(appDef.status, Creating, false, Processing, None));
      ghost var goal := StartFrom(server.env, server.world, appDef, 0);
      var i := 0;
      while i < MAX_WRITES
        invariant 0 <= i <= MAX_WRITES
        invariant StartFrom(server.env, server.world, appDef, i) == goal
      {
        var r := server.WriteStatus(appDef, Started);
        match r {
          case Accepted(stored) =>
            appDef := stored;
            server.Record(appDef, ProcessingStarted);
            return true, None;
          case Refused(error) => return false, Some(error);
          case Conflict =>
        }
        var g := server.Read();
        match g {
          case NotFound => return false, Some(Error(ObjectNotFound, "", false));
          case GetFailed(error) => return false, Some(error);
          case Got(latest) => appDef := latest;
        }
        appDef := appDef.(status := WithCondition(appDef.status, Creating, false, Processing, None));
        i := i + 1;
      }
      return false, Some(GAVE_UP);
    }

    // ----- processComponentsAndBuildObjects -----

    /** The fields hold what the building b says, for a cycle that began with app0 in world w0. */
    ghost predicate AtBuild(app0: App, w0: World, b: Building)
      reads this, server
    {
      && appDef == app0.(status := app0.status.(annotations := b.annotations))
      && desiredObjects == b.objects && componentStatuses == b.statuses
      && server.world == w0.(events := w0.events + Emissions(app0, b.events))
    }

    /** The inner loop: objects are labelled and collected up to the first without name or namespace. */
    method CollectObjects(instance: string, objects: seq<Obj>) returns (named: bool)
      requires forall k :: 0 <= k < |objects| ==> objects[k].instance == instance
      modifies `desiredObjects
      ensures desiredObjects == old(desiredObjects) + objects[..FirstUnnameable(objects, 0)]
      ensures named <==> FirstUnnameable(objects, 0) == |objects|
    {
      for k := 0 to |objects|
        invariant desiredObjects == old(desiredObjects) + objects[..k]
        invariant forall j :: 0 <= j < k ==> Nameable(objects[j])
      {
        var obj := objects[k];
        if obj.name == "" || obj.namespace == "" {
          assert FirstUnnameable(objects, 0) == k;
          return false;
        }
        obj := obj.(instance := instance);
        desiredObjects := desiredObjects + [obj];
        assert objects[..k + 1] == objects[..k] + [objects[k]];
      }
      return true;
    }

    /** One round of the loop over the components. */
    method BuildComponent(c: Component, now: Time, ghost app0: App, ghost w0: World, ghost b: Building)
      returns (e: Option<Error>, panicked: bool)
      requires AtBuild(app0, w0, b) && !Stopped(b)
      modifies `appDef, `desiredObjects, `componentStatuses, server
      ensures AtBuild(app0, w0, BuildStep(app0.namespace, c, b, now))
      ensures e == BuildStep(app0.namespace, c, b, now).error
              && panicked == BuildStep(app0.namespace, c, b, now).panicked
    {
      hide Verified, ObjectsOf, Recorded, BuildStep, Emissions, ConfigBuilt, WorkloadBuilt, ClientBuilt, AccountBuilt;
      BuildStepCases(app0.namespace, c, b, now);
      if c.name !in componentStatuses {
        return None, true;
      }
      componentStatuses := componentStatuses[c.name := componentStatuses[c.name].(message := BeingProcessed)];
      if c.properties.Malformed? {
        return Some(Error(UnmarshalError, c.properties.text, false)), false;
      }
      var built, objects, record := false, [], appDef.status.annotations;
      if c.properties.Parsed? {
        built, objects, record := BuildObjects(appDef.namespace, c, c.properties.config, record, now);
      }
      if !built {
        UnverifiedRecordsNothing(b.annotations, c);
        EmissionsAlso(app0, b.events, BuilderFailed(c.name));
        server.Record(appDef, BuilderFailed(c.name));
        return Some(Error(BuilderError, c.name, false)), false;
      }
      appDef := appDef.(status := appDef.status.(annotations := record));
      var named := CollectObjects(c.name, objects);
      if !named {
        componentStatuses :=
          componentStatuses[c.name := componentStatuses[c.name].(health := false,
                                                                 message := InvalidBuiltObject(c.name))];
        return Some(Error(UnnamedObject, c.name, false)), false;
      }
      assert objects[..|objects|] == objects;
      componentStatuses := componentStatuses[c.name := componentStatuses[c.name].(message := BuiltSuccessfully)];
      return None, false;
    }

    method BuildComponents(now: Time) returns (e: Option<Error>, panicked: bool)
      requires KeyedByName(componentStatuses)
      modifies `appDef, `desiredObjects, `componentStatuses, server
      ensures AtBuild(old(appDef), old(server.world), BuildAll(old(appDef), old(componentStatuses), now))
      ensures var b := BuildAll(old(appDef), old(componentStatuses), now); e == b.error && panicked == b.panicked
      ensures KeyedByName(componentStatuses)
    {
      hide BuildStep;
      desiredObjects := [];
      e, panicked := None, false;
      ghost var app0, w0, b := appDef, server.world,
                               Building(appDef.status.annotations, [], componentStatuses, [], None, false);
      ghost var goal := BuildAll(app0, componentStatuses, now);
      BuildAllFacts(app0, componentStatuses, now);
      var i := 0;
      while i < |appDef.spec.components| && e.None? && !panicked
        invariant 0 <= i <= |app0.spec.components|
        invariant AtBuild(app0, w0, b) && e == b.error && panicked == b.panicked
        invariant BuildFrom(app0, i, b, now) == goal
        decreases |app0.spec.components| - i
      {
        var c := appDef.spec.components[i];
        e, panicked := BuildComponent(c, now, app0, w0, b);
        b := BuildStep(app0.namespace, c, b, now);
        i := i + 1;
      }
      assert b == goal;
    }

    // ----- handlePauseResume -----

    method HandlePauseResume()
      modifies `appDef, `desiredObjects
      ensures var (objs, record) :=
        PauseFrom(old(desiredObjects), 0, WantsSuspend(old(appDef).spec), old(appDef).status.suspendedReplicas);
              && desiredObjects == objs
              && appDef == old(appDef).(status := old(appDef).status.(
                             suspendedReplicas := record, phase := ResumedPhase(old(appDef).status, old(appDef).spec)))
    {
      var suspended := appDef.spec.suspend == Some(true);
      ghost var goal := PauseFrom(desiredObjects, 0, suspended, appDef.status.suspendedReplicas);
      var i := 0;
      while i < |desiredObjects|
        invariant 0 <= i <= |desiredObjects|
        invariant appDef == old(appDef).(status :=
                    old(appDef).status.(suspendedReplicas := appDef.status.suspendedReplicas))
        invariant PauseFrom(desiredObjects, i, suspended, appDef.status.suspendedReplicas) == goal
      {
        ghost var objs, record := desiredObjects, appDef.status.suspendedReplicas;
        var o := desiredObjects[i];
        if o.kind == StatefulSet && o.body.Workload? && o.instance != "" {
          if suspended {
            if o.instance !in appDef.status.suspendedReplicas {
              appDef := appDef.(status := appDef.status.(
                          suspendedReplicas := appDef.status.suspendedReplicas[o.instance := o.body.replicas]));
            }
            desiredObjects := desiredObjects[i := o.(body := o.body.(replicas := 0))];
          } else if o.instance in appDef.status.suspendedReplicas {
            var recorded := appDef.status.suspendedReplicas[o.instance];
            desiredObjects := desiredObjects[i := o.(body := o.body.(replicas := recorded))];
            var remaining := appDef.status.suspendedReplicas - {o.instance};
            appDef := appDef.(status := appDef.status.(suspendedReplicas := remaining));
          }
        }
        PausedInPlace(objs, i, suspended, record);
        i := i + 1;
      }
      if suspended {
        appDef := appDef.(status := appDef.status.(phase := Suspended));
      } else if appDef.status.phase == Suspended {
        appDef := appDef.(status := appDef.status.(phase := Updating));
      }
    }

    // ----- applyResources -----

    /** The fields hold what the application a says, for a cycle that started applying in world w0. */
    ghost predicate AtApply(app0: App, w0: World, a: Applying)
      reads this, server
    {
      && appDef == app0 && applyResults == a.results && componentStatuses == a.statuses
      && server.world == w0.(events := w0.events + Emissions(app0, a.events),
                             cluster := Deployed(w0.cluster, a.applied))
    }

    /** updateComponentStatusForApplyError. */
    method UpdateComponentStatusForApplyError(o: Obj, e: Error)
      modifies `componentStatuses
      ensures componentStatuses == WithApplyError(old(componentStatuses), o, e)
    {
      if o.instance == "" {
        return;
      }
      if o.instance in componentStatuses && !Marked(componentStatuses[o.instance].message) {
        componentStatuses :=
          componentStatuses[o.instance := componentStatuses[o.instance].(health := false,
                                                                         message := ApplyError(o.name, e))];
      }
    }

    /** One round of the loop over the objects: the first error so far, and whether to stop. */
    method ApplyObject(o: Obj, firstApplyErr: Option<Error>, ghost app0: App, ghost w0: World, ghost a: Applying)
      returns (first: Option<Error>, stop: bool)
      requires AtApply(app0, w0, a) && firstApplyErr == a.firstError && !a.stopped
      modifies `applyResults, `componentStatuses, server
      ensures AtApply(app0, w0, ApplyStep(o, a, server.env(w0.tick)))
      ensures first == ApplyStep(o, a, server.env(w0.tick)).firstError
              && stop == ApplyStep(o, a, server.env(w0.tick)).stopped
    {
      hide Emissions, Deployed, WithApplyError, Apply.ApplyObject, IsWorkload;
      var key := KeyOf(o);
      var ans := server.env(server.world.tick);
      if o.kind == Service && ans.lookupFault(key).Some? {
        return Some(Error(ServiceLookup, ans.lookupFault(key).value, false)), true;
      }
      first := firstApplyErr;
      if ans.ownerFault(key).Some? {
        EmissionsAlso(app0, a.events, OwnerRefFailed(key));
        server.Record(appDef, OwnerRefFailed(key));
        if first.None? {
          first := Some(Error(OwnerReference, ans.ownerFault(key).value, false));
        }
        applyResults := applyResults[key := Apply.Failed(first.value)];
        UpdateComponentStatusForApplyError(o, first.value);
        return first, true;
      }
      var result := server.ApplyOne(o);
      applyResults := applyResults[key := result];
      if result.Failed? {
        if first.None? {
          first := Some(result.error);
        }
        if !result.error.conflict {
          EmissionsAlso(app0, a.events, ResourceFailed(key));
          server.Record(appDef, ResourceFailed(key));
          UpdateComponentStatusForApplyError(o, result.error);
        } else {
          assert a.events + [] == a.events;
        }
      } else {
        DeployedOneMore(w0.cluster, a.applied, o);
        if result.operation.Created? {
          EmissionsAlso(app0, a.events, ResourceCreated(key));
          server.Record(appDef, ResourceCreated(key));
        } else {
          assert a.events + [] == a.events;
        }
      }
      return first, false;
    }

    /** updateComponentStatusesFromApplyResults: components without a failed object are marked applied. */
    method UpdateComponentStatusesFromApplyResults()
      modifies `componentStatuses
      ensures componentStatuses == MarkApplied(old(componentStatuses), desiredObjects, applyResults)
    {
      hide Marked;
      ghost var before := componentStatuses;
      var failed: set<string> := {};
      for i := 0 to |desiredObjects|
        invariant forall n :: n in failed <==>
                    && n != ""
                    && (exists k :: 0 <= k < i && desiredObjects[k].instance == n
                          && (KeyOf(desiredObjects[k]) !in applyResults
                              || applyResults[KeyOf(desiredObjects[k])].Failed?))
      {
        var o := desiredObjects[i];
        if o.instance != "" && (KeyOf(o) !in applyResults || applyResults[KeyOf(o)].Failed?) {
          failed := failed + {o.instance};
        }
      }
      assert forall n :: n in failed <==> ApplyFailedFor(desiredObjects, applyResults, n);
      var todo := componentStatuses.Keys;
      while todo != {}
        invariant todo <= before.Keys && componentStatuses.Keys == before.Keys
        invariant forall n :: n in before ==>
                    componentStatuses[n] == if n in todo then before[n]
                                            else MarkApplied(before, desiredObjects, applyResults)[n]
        decreases todo
      {
        var n :| n in todo;
        if n !in failed && componentStatuses[n].message in {Initializing, BeingProcessed, BuiltSuccessfully} {
          componentStatuses := componentStatuses[n := componentStatuses[n].(message := AppliedAwaitingHealth)];
        }
        todo := todo - {n};
      }
      assert componentStatuses == MarkApplied(before, desiredObjects, applyResults);
    }

    method ApplyResources() returns (firstApplyErr: Option<Error>)
      requires applyResults == map[]
      modifies `applyResults, `componentStatuses, server
      ensures var a := ApplyAll(desiredObjects, old(componentStatuses), server.env(old(server.world).tick));
              AtApply(appDef, old(server.world), a) && firstApplyErr == a.firstError
    {
      hide ApplyStep, MarkApplied;
      firstApplyErr := None;
      if |desiredObjects| == 0 {
        return;
      }
      ghost var app0, w0, ans := appDef, server.world, server.env(server.world.tick);
      ghost var a := Applying(map[], componentStatuses, [], [], None, false);
      ghost var goal := ApplyFrom(desiredObjects, 0, a, ans);
      var stop, i := false, 0;
      while i < |desiredObjects| && !stop
        invariant 0 <= i <= |desiredObjects|
        invariant AtApply(app0, w0, a) && firstApplyErr == a.firstError && stop == a.stopped
        invariant ApplyFrom(desiredObjects, i, a, ans) == goal
        decreases |desiredObjects| - i
      {
        ghost var o := desiredObjects[i];
        firstApplyErr, stop := ApplyObject(desiredObjects[i], firstApplyErr, app0, w0, a);
        a := ApplyStep(o, a, ans);
        i := i + 1;
      }
      if stop {
        return;
      }
      UpdateComponentStatusesFromApplyResults();
    }

    // ----- checkHealthAndCalculateStatus -----

    /** The search for the component of a status entry. */
    method FindComponent(name: string) returns (found: bool)
      ensures found == HasComponent(appDef.spec, name)
    {
      for i := 0 to |appDef.spec.components|
        invariant forall k :: 0 <= k < i ==> appDef.spec.components[k].name != name
      {
        if appDef.spec.components[i].name == name {
          return true;
        }
      }
      return false;
    }

    /** One round of the loop over the status entries. */
    method CheckComponent(name: string) returns (ready: bool, requeue: bool, e: Option<Error>)
      requires name in componentStatuses
      modifies `componentStatuses
      ensures var one := CheckOne(appDef, name, old(componentStatuses)[name], server.env(server.world.tick));
              && componentStatuses == old(componentStatuses)[name := one.entry]
              && ready == one.ready && requeue == one.requeue && e == one.error
    {
      hide Marked, Health.CheckHealth, HasComponent;
      ghost var before := componentStatuses;
      if |appDef.spec.components| == 0 {
        assert before == before[name := before[name]];
        return true, false, None;
      }
      var spec := appDef.spec.components[0];
      var status := componentStatuses[name].(namespace := appDef.namespace, resourceName := name,
                                             apiVersion := spec.apiVersion, kind := spec.kind);
      componentStatuses := componentStatuses[name := status];
      var found := FindComponent(name);
      if !found {
        return false, false, Some(Error(SpecMissing, name, false));
      }
      var infoMissing := status.resourceName == "" || status.kind == "" || status.apiVersion == "";
      var previousError := Marked(status.message);
      if infoMissing || previousError {
        if !previousError && status.message != ResourceInfoMissing {
          status := status.(message := ResourceInfoMissing);
        }
        componentStatuses := componentStatuses[name := status.(health := false)];
        return false, false, None;
      }
      match Health.CheckHealth(status.apiVersion, status.kind, server.env(server.world.tick).probes(name)) {
        case CheckFailed(error) =>
          componentStatuses :=
            componentStatuses[name := status.(health := false, message := K8sHealthCheckError(error))];
          return false, true, Some(error);
        case Unhealthy(unready) =>
          componentStatuses := componentStatuses[name := status.(health := false, message := FromHealthCheck(unready))];
          return false, true, None;
        case Healthy =>
          componentStatuses := componentStatuses[name := status.(health := true, message := ReadyAndHealthy)];
          return true, false, None;
      }
    }

    method CheckHealthAndCalculateStatus() returns (allReady: bool, requeue: bool, firstErr: Option<Error>)
      requires KeyedByName(componentStatuses)
      modifies `componentStatuses
      ensures var c := CheckAll(appDef, old(componentStatuses), server.env(server.world.tick));
              && componentStatuses == c.statuses && allReady == c.allReady && requeue == c.requeue
              && firstErr == c.firstError
      ensures KeyedByName(componentStatuses)
    {
      hide CheckOne;
      ghost var before, ans := componentStatuses, server.env(server.world.tick);
      var order := Visit(server.env(server.world.tick), componentStatuses.Keys);
      VisitCovers(ans, componentStatuses);
      allReady, requeue, firstErr := true, false, None;
      ghost var c := Checking(componentStatuses, true, false, None);
      ghost var goal := CheckFrom(appDef, order, 0, c, ans);
      for i := 0 to |order|
        invariant c == Checking(componentStatuses, allReady, requeue, firstErr)
        invariant c.statuses.Keys == before.Keys && KeyedByName(c.statuses)
        invariant CheckFrom(appDef, order, i, c, ans) == goal
      {
        CheckKeepsName(appDef, order[i], componentStatuses[order[i]], ans);
        var ready, again, e := CheckComponent(order[i]);
        c := CheckStep(appDef, order[i], c, ans);
        allReady, requeue := allReady && ready, requeue || again;
        if e.Some? && firstErr.None? {
          firstErr := e;
        }
      }
    }

    // ----- determineFinalPhase -----

    method DetermineFinalPhase(allReady: bool)
      modifies `appDef
      ensures appDef == old(appDef).(status := FinalPhase(old(appDef).status, firstError, allReady))
    {
      hide SetCondition, Contains, Render;
      var st := appDef.status;
      if st.phase == Suspended {
        appDef := appDef.(status := WithCondition(st, Suspended, false, IntentionallySuspended, None));
        return;
      }
      if firstError.Some? {
        var text := Render(firstError.value);
        var reason := Reason.ReconcileFailed;
        if Contains(text, "apply") || Contains(text, "Apply") || Contains(text, "OwnerRef") {
          reason := ApplyFailed;
        } else if Contains(text, "build") || Contains(text, "Build") || Contains(text, "Config")
                  || Contains(text, "CompDef")
                  || Contains(text, "strategy") || Contains(text, "Strategy") {
          reason := ProcessingFailed;
        } else if Contains(text, "HealthCheck") || Contains(text, "health check") {
          reason := HealthCheckFailed;
        }
        appDef := appDef.(status := WithCondition(st, Phase.Failed, false, reason, firstError));
        return;
      }
      if allReady {
        appDef := appDef.(status := WithCondition(st, Running, true, ComponentsReady, None));
      } else {
        var phase, reason := Updating, ComponentsApplying;
        if st.phase == Running || st.phase == Degraded {
          phase, reason := Degraded, ComponentsDegraded;
        } else if st.phase == Creating {
          phase, reason := Creating, ComponentsCreating;
        }
        appDef := appDef.(status := WithCondition(st, phase, false, reason, None));
      }
    }

    // ----- errors -----

    /** updateComponentStatusesForError. */
    method UpdateComponentStatusesForError(e: Error)
      modifies `componentStatuses
      ensures componentStatuses == MarkAll(old(componentStatuses), e)
    {
      hide Marked;
      ghost var before := componentStatuses;
      var todo := componentStatuses.Keys;
      while todo != {}
        invariant todo <= before.Keys && componentStatuses.Keys == before.Keys
        invariant forall n :: n in before ==>
                    componentStatuses[n] == if n in todo then before[n] else MarkAll(before, e)[n]
        decreases todo
      {
        var n :| n in todo;
        if !Marked(componentStatuses[n].message) {
          componentStatuses :=
            componentStatuses[n := componentStatuses[n].(health := false, message := OverallReconcileError(e))];
        }
        todo := todo - {n};
      }
      assert componentStatuses == MarkAll(before, e);
    }

    /** handleReconcileError: the error of the status write is logged and dropped. */
    method HandleReconcileError(reason: Reason, e: Error, cause: Cause)
      requires KeyedByName(componentStatuses)
      modifies `appDef, `componentStatuses, `firstError, server
      ensures server.world == Reconciler.UpdateStatusIfNeeded(server.env, old(server.world), old(appDef),
                                  ErrorStatus(old(appDef).status, old(componentStatuses), reason, e), originalStatus,
                                  cause).0
      ensures firstError == if old(firstError).None? then Some(e) else old(firstError)
    {
      hide SetCondition, Marked;
      ghost var app0 := appDef;
      appDef := appDef.(status := WithCondition(appDef.status, Phase.Failed, false, reason, Some(e)));
      UpdateComponentStatusesForError(e);
      var components := MapToSlice(componentStatuses);
      appDef := appDef.(status := appDef.status.(components := components));
      WrittenFromAnywhere(server.env, server.world, app0, appDef, appDef.status, originalStatus, cause);
      var _ := UpdateStatusIfNeeded(cause);
      if firstError.None? {
        firstError := Some(e);
      }
    }

    /** handleEmptyApp. */
    method HandleEmptyApp() returns (e: Option<Error>)
      modifies `appDef, server
      ensures (server.world, e) == Reconciler.UpdateStatusIfNeeded(server.env, old(server.world), old(appDef),
                                       EmptiedStatus(old(appDef).status), originalStatus, Emptied(old(appDef)))
    {
      hide SetCondition;
      ghost var app0 := appDef;
      var cause := Emptied(appDef);
      appDef := appDef.(status := WithCondition(appDef.status.(components := []), Running, true, NoComponentsDefined,
                                                None));
      WrittenFromAnywhere(server.env, server.world, app0, appDef, appDef.status, originalStatus, cause);
      e := UpdateStatusIfNeeded(cause);
    }

    // ----- Reconcile -----

    /** Steps 5 and 6. */
    method ApplyAndCheck() returns (allReady: bool, requeue: bool)
      requires applyResults == map[] && firstError.None? && KeyedByName(componentStatuses)
      modifies `applyResults, `componentStatuses, `firstError, server
      ensures var ans := server.env(old(server.world).tick);
              var a := ApplyAll(desiredObjects, old(componentStatuses), ans);
              var c := Checked(appDef, a, ans);
              && componentStatuses == c.statuses && allReady == c.allReady && requeue == c.requeue
              && firstError == c.firstError
              && server.world == old(server.world).(events := old(server.world).events + Emissions(appDef, a.events),
                                                    cluster := Deployed(old(server.world).cluster, a.applied))
      ensures KeyedByName(componentStatuses)
    {
      hide ApplyAll, CheckAll, MarkAll, Emissions, Deployed;
      ApplyKeepsNames(desiredObjects, componentStatuses, server.env(server.world.tick));
      var applyErr := ApplyResources();
      if applyErr.Some? && firstError.None? {
        firstError := applyErr;
      }
      if firstError.None? {
        var e;
        allReady, requeue, e := CheckHealthAndCalculateStatus();
        if e.Some? {
          firstError := e;
          requeue := true;
        }
      } else {
        MarkKeepsNames(componentStatuses, firstError.value);
        allReady, requeue := false, true;
        UpdateComponentStatusesForError(firstError.value);
      }
    }

    /** Step 7 up to the status write: phase, entries, final event and change mark. */
    method Judge(allReady: bool)
      requires KeyedByName(componentStatuses)
      modifies `appDef, server
      ensures var final :=
        FinalPhase(old(appDef).status, firstError, allReady).(components := Canonical(componentStatuses));
              appDef == old(appDef).(status := Marking(final, old(appDef), allReady && firstError.None?))
      ensures server.world
              == old(server.world).(events := old(server.world).events + Emitted(old(appDef),
                                                                                 FinalEvent(allReady, firstError)))
    {
      hide FinalPhase, Canonical;
      FinalPhaseKeeps(appDef.status, firstError, allReady);
      DetermineFinalPhase(allReady);
      var components := MapToSlice(componentStatuses);
      appDef := appDef.(status := appDef.status.(components := components));
      if firstError.Some? {
        server.Record(appDef, What.ReconcileFailed);
      } else if allReady {
        server.Record(appDef, ReconcileCompleted);
      } else {
        server.Record(appDef, ReconcileProgressing);
      }
      if allReady && firstError.None? {
        if appDef.changeID != "" {
          appDef := appDef.(status := appDef.status.(lastChangeID := appDef.changeID));
        }
      }
    }

    /** Steps 4 to 8. */
    method Work(first: Spec) returns (out: Outcome)
      requires componentStatuses == Initialize(first).0 && applyResults == map[] && firstError.None?
      modifies this, server
      ensures (server.world, out) == Act(server.env, old(server.world), first, old(originalStatus), old(appDef))
    {
      hide BuildAll, PauseFrom, ApplyAll, Checked, MarkAll, Initialize, FinalPhase, SetCondition, Emissions, Deployed,
           Emitted, Canonical,
           Reconciler.UpdateStatusIfNeeded, Process, Act;
      var ans := server.env(server.world.tick);
      var cause := Processed(first, appDef, ans);
      ghost var app, w, r := appDef, server.world, Process(first, appDef, ans);
      InitializeFacts(first);
      ghost var b := BuildAll(app, componentStatuses, ans.now);
      ProcessSteps(first, app, ans);
      ActSteps(server.env, w, first, originalStatus, app);
      NothingDeployed(w.cluster);
      var e, panicked := BuildComponents(ans.now);
      if panicked {
        assert server.world == WorkedWorld(w, app, r);
        return Panic;
      }
      if e.Some? {
        firstError := e;
        WrittenFromAnywhere(server.env, server.world, app, appDef, r.status, originalStatus, cause);
        assert server.world == WorkedWorld(w, app, r);
        HandleReconcileError(ProcessingFailed, e.value, cause);
        return Errored(firstError.value);
      }
      HandlePauseResume();
      ghost var paused, a := appDef, ApplyAll(desiredObjects, componentStatuses, ans);
      CheckedSame(app, paused, a, ans);
      var allReady, requeue := ApplyAndCheck();
      Judge(allReady);
      EmissionsOfAll(app, paused, b.events, a.events, FinalEvent(allReady, firstError));
      assert server.world.events == w.events + Emissions(app, r.events);
      assert server.world == WorkedWorld(w, app, r);
      assert appDef == app.(status := r.status);
      WrittenFromAnywhere(server.env, server.world, app, appDef, appDef.status, originalStatus, cause);
      var statusErr := UpdateStatusIfNeeded(cause);
      if statusErr.Some? {
        if firstError.None? {
          firstError := statusErr;
        }
        requeue := true;
      }
      if firstError.Some? {
        return Errored(firstError.value);
      }
      return if requeue then RequeueAfter(REQUEUE_SECONDS) else Done;
    }

    /** Steps 3 to 8. */
    method Proceed(first: Spec) returns (out: Outcome)
      requires componentStatuses == Initialize(first).0 && applyResults == map[] && firstError.None?
      modifies this, server
      ensures (server.world, out) == Advance(server.env, old(server.world), first, old(originalStatus), old(appDef))
    {
      hide Act, StartFrom, Initialize, StartedStatus;
      var updated, e := SetInitialPhase();
      if e.Some? {
        return Errored(e.value);
      }
      if updated {
        return Requeue;
      }
      var isSuspended := appDef.spec.suspend == Some(true);
      if isSuspended && appDef.status.phase == Suspended {
        return Done;
      }
      if appDef.status.phase == Running && appDef.status.observedGeneration == appDef.generation
         && appDef.status.lastChangeID != "" && appDef.changeID == appDef.status.lastChangeID {
        return Done;
      }
      out := Work(first);
    }

    /** One call, for any world and any environment: the same world and the same result as the
        function all run theorems are about. */
    method Reconcile(namespace: string) returns (out: Outcome)
      modifies this, server
      ensures (server.world, out) == Reconciler.Reconcile(server.env, old(server.world), namespace)
    {
      hide Advance, Get, Initialize, Reconciler.UpdateStatusIfNeeded, Reconciler.HandleFinalizer, ErrorStatus,
           EmptiedStatus;
      if namespace != WATCHED {
        return Done;
      }
      componentStatuses, desiredObjects, applyResults, firstError := map[], [], map[], None;
      var g := server.Read();
      if g.GetFailed? {
        return Errored(g.error);
      }
      if g.NotFound? {
        return Done;
      }
      appDef := g.app;
      originalStatus := appDef.status;
      ghost var app, w := appDef, server.world;
      InitializeFacts(appDef.spec);
      var e := InitializeComponentStatuses();
      if e.Some? {
        var error := e.value;
        ghost var u := Reconciler.UpdateStatusIfNeeded(server.env, w, app,
                                                       ErrorStatus(app.status, componentStatuses, InitializationFailed,
                                                                   error),
                                                       app.status, Rejected(app));
        assert Handle(server.env, w, app) == (u.0, Errored(error));
        HandleReconcileError(InitializationFailed, error, Rejected(appDef));
        return Errored(error);
      }
      if |appDef.spec.components| == 0 {
        ghost var u := Reconciler.UpdateStatusIfNeeded(server.env, w, app, EmptiedStatus(app.status), app.status,
                                                       Emptied(app));
        assert Handle(server.env, w, app) == (u.0, if u.1.Some? then Errored(u.1.value) else Done);
        e := HandleEmptyApp();
        return if e.Some? then Errored(e.value) else Done;
      }
      var first := appDef.spec;
      var isDeleted;
      isDeleted, e := HandleFinalizer();
      if e.Some? {
        return Errored(e.value);
      }
      if isDeleted {
        return Done;
      }
      assert Handle(server.env, w, app) == Advance(server.env, server.world, first, originalStatus, appDef);
      out := Proceed(first);
    }
  }

  // ----- facts the methods use -----

  lemma EmissionsAlso(app: App, whats: seq<What>, what: What)
    ensures Emissions(app, whats + [what]) == Emissions(app, whats) + Emitted(app, what)
  {
    assert (whats + [what])[..|whats|] == whats;
  }

  lemma BuildStepCases(namespace: string, c: Component, b: Building, now: Time)
    requires !Stopped(b)
    ensures var r := BuildStep(namespace, c, b, now);
            if c.name !in b.statuses then r == b.(panicked := true)
            else
              var entry := b.statuses[c.name];
              if c.properties.Malformed? then
                r == b.(statuses := b.statuses[c.name := entry.(message := BeingProcessed)],
                        error := Some(Error(UnmarshalError, c.properties.text, false)))
              else if !(c.properties.Parsed? && Verified(c.properties.config)) then
                r == b.(statuses := b.statuses[c.name := entry.(message := BeingProcessed)],
                        error := Some(Error(BuilderError, c.name, false)), events := b.events + [BuilderFailed(c.name)])
              else
                var objs := ObjectsOf(namespace, c, c.properties.config, b.annotations, now);
                var bad := FirstUnnameable(objs, 0);
                r == b.(annotations := Recorded(b.annotations, c), objects := b.objects + objs[..bad],
                        statuses := b.statuses[c.name :=
                          if bad < |objs| then entry.(health := false, message := InvalidBuiltObject(c.name))
                          else entry.(message := BuiltSuccessfully)],
                        error := if bad < |objs| then Some(Error(UnnamedObject, c.name, false)) else None)
  {
    hide ObjectsOf, Recorded, Verified;
    assert b.events + [] == b.events;
    if c.properties.Parsed? && Verified(c.properties.config) {
      var objs := ObjectsOf(namespace, c, c.properties.config, b.annotations, now);
      assert objs[..|objs|] == objs;
    }
  }

  lemma UnverifiedRecordsNothing(annotations: map<string, ConfigHash>, c: Component)
    requires c.properties.Parsed? ==> !Verified(c.properties.config)
    ensures Recorded(annotations, c) == annotations
  {
  }

  /** Writing back an unchanged object, or removing an absent entry, changes nothing. */
  lemma PausedInPlace(objs: seq<Obj>, i: nat, suspended: bool, record: Record)
    requires i < |objs|
    ensures PauseFrom(objs, i, suspended, record)
         == PauseFrom(objs[i := PauseObject(objs[i], suspended, record)], i + 1, suspended,
                      PauseRecord(objs[i], suspended, record))
    ensures objs[i := objs[i]] == objs
    ensures objs[i].instance !in record ==> record - {objs[i].instance} == record
  {
  }

  lemma NothingDeployed(cluster: map<string, int>)
    ensures Deployed(cluster, []) == cluster
  {
  }

  lemma DeployedOneMore(cluster: map<string, int>, applied: seq<Obj>, o: Obj)
    ensures Deployed(cluster, applied + [o]) == DeployedAlso(Deployed(cluster, applied), o)
  {
    assert (applied + [o])[..|applied|] == applied;
  }

  /** A status write does not look at the status the object carried before. */
  lemma WrittenFromAnywhere(env: Environment, w: World, app: App, app': App, desired: AppStatus, original: AppStatus,
                            cause: Cause)
    requires app' == app.(status := app'.status)
    ensures Reconciler.UpdateStatusIfNeeded(env, w, app', desired, original, cause)
         == Reconciler.UpdateStatusIfNeeded(env, w, app, desired, original, cause)
  {
    assert Stamp(app', desired) == Stamp(app, desired);
  }

  /** The event that ends a cycle. */
  function FinalEvent(allReady: bool, error: Option<Error>): What {
    if error.Some? then What.ReconcileFailed else if allReady then ReconcileCompleted else ReconcileProgressing
  }

  /** Emissions depend on the annotations and on the change mark only, and follow each other. */
  lemma {:induction false} EmissionsSame(app: App, app': App, whats: seq<What>)
    requires app'.webhookURL == app.webhookURL && app'.changeID == app.changeID
             && app'.status.lastChangeID == app.status.lastChangeID
    ensures Emissions(app', whats) == Emissions(app, whats)
  {
    if whats != [] {
      EmissionsSame(app, app', whats[..|whats| - 1]);
    }
  }

  lemma {:induction false} EmissionsConcatenation(app: App, a: seq<What>, b: seq<What>)
    ensures Emissions(app, a + b) == Emissions(app, a) + Emissions(app, b)
  {
    if b == [] {
      assert a + b == a;
    } else {
      EmissionsConcatenation(app, a, b[..|b| - 1]);
      assert (a + b)[..|a + b| - 1] == a + b[..|b| - 1];
    }
  }

  lemma EmissionsOfAll(app: App, paused: App, built: seq<What>, applied: seq<What>, event: What)
    requires paused.webhookURL == app.webhookURL && paused.changeID == app.changeID
             && paused.status.lastChangeID == app.status.lastChangeID
    ensures Emissions(app, built + applied + [event])
            == Emissions(app, built) + Emissions(paused, applied) + Emitted(paused, event)
  {
    EmissionsConcatenation(app, built, applied);
    EmissionsAlso(app, built + applied, event);
    EmissionsSame(app, paused, applied);
  }

  lemma ActSteps(env: Environment, w: World, first: Spec, original: AppStatus, app: App)
    ensures var r := Process(first, app, env(w.tick));
            var w1, act := WorkedWorld(w, app, r), Act(env, w, first, original, app);
            && (r.panicked ==> act == (w1, Panic))
            && (!r.panicked ==>
                  var u := Reconciler.UpdateStatusIfNeeded(env, w1, app, r.status, original,
                                                           Processed(first, app, env(w.tick)));
                  && (r.buildFailed && r.error.Some? ==> act == (u.0, Errored(r.error.value)))
                  && (!r.buildFailed ==> act == (u.0, Conclude(r.error, r.requeue, u.1))))
  {
    hide Process, Emissions, Deployed, Reconciler.UpdateStatusIfNeeded;
    var r := Process(first, app, env(w.tick));
    var u := Reconciler.UpdateStatusIfNeeded(env, WorkedWorld(w, app, r), app, r.status, original,
                                             Processed(first, app, env(w.tick)));
    assert !r.panicked && r.buildFailed && r.error.Some? ==>
             Act(env, w, first, original, app) == (u.0, Errored(r.error.value));
    assert !r.panicked && !r.buildFailed ==>
             Act(env, w, first, original, app) == (u.0, Conclude(r.error, r.requeue, u.1));
  }

  /** Process, step by step. */
  lemma ProcessSteps(first: Spec, app: App, ans: Oracle)
    ensures var b := BuildAll(app, Initialize(first).0, ans.now);
            var built := app.status.(annotations := b.annotations);
            && (b.panicked ==> Process(first, app, ans) == Result(built, b.events, [], None, false, false, true, false))
            && (!b.panicked && b.error.Some? ==>
                  Process(first, app, ans)
                  == Result(ErrorStatus(built, b.statuses, ProcessingFailed, b.error.value), b.events, [], b.error,
                                                     false, false, false, true))
            && (!Stopped(b) ==>
                  var (objs, record) := Paused(app, b);
                  var a := ApplyAll(objs, b.statuses, ans);
                  var c := Checked(app, a, ans);
                  var st := built.(suspendedReplicas := record, phase := ResumedPhase(app.status, app.spec));
                  var final := FinalPhase(st, c.firstError, c.allReady).(components := SliceOf(c.statuses));
                  Process(first, app, ans) == Result(Marking(final, app, c.allReady && c.firstError.None?),
                                                     b.events + a.events + [FinalEvent(c.allReady, c.firstError)],
                                                     a.applied,
                                                     c.firstError, c.allReady, c.requeue, false, false))
  {
    hide BuildAll, Paused, ApplyAll, Checked, MarkAll, SliceOf, Initialize, FinalPhase, SetCondition;
  }

  /** Checks look at specification and namespace, not at the status. */
  lemma CheckedSame(app: App, app': App, a: Applying, ans: Oracle)
    requires app'.spec == app.spec && app'.namespace == app.namespace
    ensures Checked(app', a, ans) == Checked(app, a, ans)
  {
    hide MarkAll, CheckAll;
    CheckAllSame(app, app', a.statuses, ans);
  }
}
