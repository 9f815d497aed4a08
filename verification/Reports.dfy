/** What a cycle reports - its error, its events and the component entries - told from the
    specification and the answers of the environment. */
module Reports {
  import opened Text
  import opened Config
  import opened Names
  import opened Builder
  import opened Status
  import opened StatusCompare
  import opened StatusOrder
  import opened PauseResume
  import opened Api
  import opened Cycle
  import opened CycleFacts
  import opened BuildFacts
  import opened Reconciler
  import opened Effects
  import opened Runs
  import opened Readiness
  import opened ObjectIdentity
  import opened SuspendRuns
  import Apply
  import Health

  // ----- a failed build -----

  /** Why a component does not build: it is malformed, the builder refuses it, or one of its
      objects would have no name or namespace. */
  function WhyNot(c: Component): Error {
    match c.properties
    case NoProperties => Error(BuilderError, c.name, false)
    case Malformed(text) => Error(UnmarshalError, text, false)
    case Parsed(cfg) => if Verified(cfg) then Error(UnnamedObject, c.name, false)
                        else Error(BuilderError, c.name, false)
  }

  /** The event a failed build sends: only the builder's own refusal has one. */
  function RefusalEvents(c: Component): seq<What> {
    if WhyNot(c).origin == BuilderError then [BuilderFailed(c.name)] else []
  }

  ghost predicate FirstUnbuildable(namespace: string, cs: seq<Component>, k: nat) {
    k < |cs| && !Buildable(namespace, cs[k]) && forall j :: 0 <= j < k ==> Buildable(namespace, cs[j])
  }

  /** One step leaves other components' entries alone; its own is never left in doubt by a failure. */
  lemma StepTold(namespace: string, c: Component, b: Building, now: Time)
    requires !Stopped(b) && c.name in b.statuses
    ensures var r := BuildStep(namespace, c, b, now);
            && !r.panicked && (r.error.Some? <==> !Buildable(namespace, c))
            && (r.error.Some? ==> r.error == Some(WhyNot(c)) && r.events == b.events + RefusalEvents(c))
            && (r.error.None? ==> r.events == b.events)
            && r.statuses.Keys == b.statuses.Keys
            && (forall n :: n in b.statuses && n != c.name ==> r.statuses[n] == b.statuses[n])
            && (r.error.Some? && r.error.value.origin == UnnamedObject ==>
                  r.statuses[c.name] == b.statuses[c.name].(health := false, message := InvalidBuiltObject(c.name)))
            && (r.error.Some? && r.error.value.origin != UnnamedObject ==>
                  r.statuses[c.name] == b.statuses[c.name].(message := BeingProcessed))
            && (r.error.None? ==> r.statuses[c.name] == b.statuses[c.name].(message := BuiltSuccessfully))
  {
    hide Identities, ObjectsOf, Recorded, Buildable;
    BuildStepFacts(namespace, c, b, now);
  }

  /** No entry so far claims more than work in progress, and none is healthy. */
  predicate Underway(m: Statuses) {
    forall n :: n in m ==> m[n] == Fresh(n).(message := m[n].message)
                           && m[n].message in {Initializing, BeingProcessed, BuiltSuccessfully}
  }

  lemma {:induction false} BuildFromTold(app: App, i: nat, b: Building, now: Time) returns (k: nat)
    requires i <= |app.spec.components| && !Stopped(b) && Underway(b.statuses)
    requires var r := BuildFrom(app, i, b, now); r.error.Some? && !r.panicked
    requires forall j :: 0 <= j < i ==> Buildable(app.namespace, app.spec.components[j])
    ensures FirstUnbuildable(app.namespace, app.spec.components, k) && app.spec.components[k].name in b.statuses
    ensures var r, c := BuildFrom(app, i, b, now), app.spec.components[k];
            && r.error == Some(WhyNot(c)) && r.events == b.events + RefusalEvents(c)
            && r.statuses.Keys == b.statuses.Keys
            && Underway(r.statuses - if WhyNot(c).origin == UnnamedObject then {c.name} else {})
            && (WhyNot(c).origin == UnnamedObject ==>
                  r.statuses[c.name] == Fresh(c.name).(message := InvalidBuiltObject(c.name)))
    decreases |app.spec.components| - i
  {
    hide BuildStep, Buildable, WhyNot, RefusalEvents;
    var c := app.spec.components[i];
    BuildStepFacts(app.namespace, c, b, now);
    StepTold(app.namespace, c, b, now);
    var b' := BuildStep(app.namespace, c, b, now);
    if b'.error.Some? {
      k := i;
      assert BuildFrom(app, i + 1, b', now) == b';
    } else {
      k := BuildFromTold(app, i + 1, b', now);
    }
  }

  /** Some text that marks a message as an error is in the component's own name. */
  predicate NameMarks(n: string) {
    Contains(n, "Error:") || Contains(n, "Failed")
  }

  /** The entry of component n after a failed build. */
  function UnbuiltEntry(n: string, failing: string, e: Error): CompStatus {
    CompStatus(n, "", "", "", "", false,
               if n == failing && e.origin == UnnamedObject && NameMarks(n) then InvalidBuiltObject(n)
               else OverallReconcileError(e))
  }

  /** A list with exactly one entry for each of these names, the given one. */
  ghost predicate Entries(cs: seq<CompStatus>, names: set<string>, entry: string -> CompStatus) {
    && DistinctKeys(ComponentPairs(cs))
    && forall s :: s in cs <==> s.name in names && s == entry(s.name)
  }

  lemma EntriesOfSlice(m: Statuses, entry: string -> CompStatus)
    requires KeyedByName(m) && forall n :: n in m ==> m[n] == entry(n)
    ensures Entries(SliceOf(m), m.Keys, entry)
  {
    hide Canonical;
    CanonicalMembers(m);
  }

  lemma MarkedUnbuilt(m: Statuses, failing: string, e: Error, n: string)
    requires n in m && !e.conflict
    requires if n == failing && e.origin == UnnamedObject then m[n] == Fresh(n).(message := InvalidBuiltObject(n))
             else m[n] == Fresh(n).(message := m[n].message)
                  && m[n].message in {Initializing, BeingProcessed, BuiltSuccessfully}
    ensures MarkAll(m, e)[n] == UnbuiltEntry(n, failing, e)
  {
    hide Contains;
  }

  /** A cycle whose build fails reports the first component that does not build, in its result, its
      event, its Ready condition and every entry. */
  lemma UnbuiltTold(first: Spec, app: App, ans: Oracle) returns (k: nat)
    requires !Builds(first, app) && !Process(first, app, ans).panicked
    ensures FirstUnbuildable(app.namespace, app.spec.components, k)
    ensures var r, c := Process(first, app, ans), app.spec.components[k];
            && r.error == Some(WhyNot(c)) && r.events == RefusalEvents(c) && r.applied == []
            && Entries(r.status.components, Initialize(first).0.Keys, n => UnbuiltEntry(n, c.name, WhyNot(c)))
  {
    hide BuildFrom, Paused, ApplyAll, Checked, MarkAll, SliceOf, Initialize, FinalPhase, SetCondition, AllBuild,
         WhyNot, RefusalEvents, UnbuiltEntry, Entries, KeyedByName;
    var statuses := Initialize(first).0;
    InitializeFacts(first);
    BuildAllFacts(app, statuses, ans.now);
    var start := Building(app.status.annotations, [], statuses, [], None, false);
    FreshUnderway(statuses);
    k := BuildFromTold(app, 0, start, ans.now);
    var b, c := BuildAll(app, statuses, ans.now), app.spec.components[k];
    MarkKeepsNames(b.statuses, WhyNot(c));
    forall n | n in statuses ensures MarkAll(b.statuses, WhyNot(c))[n] == UnbuiltEntry(n, c.name, WhyNot(c)) {
      NoConflict(c);
      MarkedUnbuilt(b.statuses, c.name, WhyNot(c), n);
    }
    EntriesOfSlice(MarkAll(b.statuses, WhyNot(c)), n => UnbuiltEntry(n, c.name, WhyNot(c)));
  }

  lemma NoConflict(c: Component)
    ensures !WhyNot(c).conflict
  {
  }

  lemma FreshUnderway(m: Statuses)
    requires forall n :: n in m ==> m[n] == Fresh(n)
    ensures Underway(m)
  {
  }

  // ----- failed applies -----

  predicate LookupFails(o: Obj, ans: Oracle) {
    o.kind == Service && ans.lookupFault(KeyOf(o)).Some?
  }

  /** Why an object is not applied, if its lookup does not fail already. */
  function FailureOf(o: Obj, ans: Oracle): Option<Error> {
    if ans.ownerFault(KeyOf(o)).Some? then Some(Error(OwnerReference, ans.ownerFault(KeyOf(o)).value, false))
    else match Apply.ApplyObject(o, ans.applies(KeyOf(o)))
         case Applied(_) => None
         case Failed(e) => Some(e)
  }

  /** The first object, from i on, whose service cannot be looked up: the loop ends there. */
  function LookupFrom(objs: seq<Obj>, i: nat, ans: Oracle): Option<Error>
    requires i <= |objs|
    decreases |objs| - i
  {
    if i == |objs| then None
    else if LookupFails(objs[i], ans) then Some(Error(ServiceLookup, ans.lookupFault(KeyOf(objs[i])).value, false))
    else if ans.ownerFault(KeyOf(objs[i])).Some? then None
    else LookupFrom(objs, i + 1, ans)
  }

  /** The first failure of another kind. */
  function FailureFrom(objs: seq<Obj>, i: nat, ans: Oracle): Option<Error>
    requires i <= |objs|
    decreases |objs| - i
  {
    if i == |objs| || LookupFails(objs[i], ans) then None
    else if FailureOf(objs[i], ans).Some? then FailureOf(objs[i], ans)
    else FailureFrom(objs, i + 1, ans)
  }

  /** A failed lookup outranks whatever failed before it. */
  function FirstFailure(objs: seq<Obj>, ans: Oracle): Option<Error> {
    if LookupFrom(objs, 0, ans).Some? then LookupFrom(objs, 0, ans) else FailureFrom(objs, 0, ans)
  }

  lemma StepFails(o: Obj, a: Applying, ans: Oracle)
    requires !a.stopped
    ensures var r := ApplyStep(o, a, ans);
            if LookupFails(o, ans) then
              r.stopped && r.firstError == Some(Error(ServiceLookup, ans.lookupFault(KeyOf(o)).value, false))
            else
              && (r.stopped <==> ans.ownerFault(KeyOf(o)).Some?)
              && r.firstError == if a.firstError.Some? then a.firstError else FailureOf(o, ans)
  {
  }

  lemma {:induction false} ApplyFails(objs: seq<Obj>, i: nat, a: Applying, ans: Oracle)
    requires i <= |objs| && !a.stopped
    ensures ApplyFrom(objs, i, a, ans).firstError
         == if LookupFrom(objs, i, ans).Some? then LookupFrom(objs, i, ans)
            else if a.firstError.Some? then a.firstError else FailureFrom(objs, i, ans)
    decreases |objs| - i
  {
    hide ApplyStep, LookupFails;
    if i < |objs| {
      var a' := ApplyStep(objs[i], a, ans);
      StepFails(objs[i], a, ans);
      if a'.stopped {
        assert ApplyFrom(objs, i + 1, a', ans) == a';
      } else {
        ApplyFails(objs, i + 1, a', ans);
      }
    }
  }

  /** The object's failure is told in the entry of its component: a conflict is not. */
  predicate Tells(o: Obj, ans: Oracle) {
    !LookupFails(o, ans) && FailureOf(o, ans).Some? && !FailureOf(o, ans).value.conflict
  }

  /** The first object of component n, from i on, whose failure is told. */
  function TellingFrom(objs: seq<Obj>, i: nat, ans: Oracle, n: string): (k: Option<nat>)
    requires i <= |objs|
    ensures k.Some? ==> k.value < |objs| && Tells(objs[k.value], ans)
    decreases |objs| - i
  {
    if i == |objs| then None
    else if objs[i].instance == n && Tells(objs[i], ans) then Some(i)
    else if Stops(objs[i], ans) then None
    else TellingFrom(objs, i + 1, ans, n)
  }

  /** The error shown for it: after an owner reference that cannot be set, the first one of the cycle. */
  function ToldError(o: Obj, ans: Oracle, first: Option<Error>): Error
    requires Tells(o, ans) && first.Some?
  {
    if ans.ownerFault(KeyOf(o)).Some? then first.value else FailureOf(o, ans).value
  }

  lemma StepEntry(o: Obj, a: Applying, ans: Oracle, n: string)
    requires !a.stopped && n in a.statuses && n != "" && !Marked(a.statuses[n].message)
    ensures var r := ApplyStep(o, a, ans);
            && n in r.statuses
            && (if o.instance == n && Tells(o, ans)
                then r.firstError.Some? && r.statuses[n] == a.statuses[n].(
                       health := false, message := ApplyError(o.name, ToldError(o, ans, r.firstError)))
                else r.statuses[n] == a.statuses[n])
  {
  }

  lemma {:induction false} MarkedStays(objs: seq<Obj>, i: nat, a: Applying, ans: Oracle, n: string)
    requires i <= |objs| && n in a.statuses && Marked(a.statuses[n].message)
    ensures var r := ApplyFrom(objs, i, a, ans); n in r.statuses && r.statuses[n] == a.statuses[n]
    decreases |objs| - i
  {
    hide Marked;
    if i < |objs| && !a.stopped {
      MarkedStays(objs, i + 1, ApplyStep(objs[i], a, ans), ans, n);
    }
  }

  lemma FailedBefore(o: Obj, a: Applying, ans: Oracle)
    requires !a.stopped && Tells(o, ans)
    ensures ApplyStep(o, a, ans).firstError.Some? && (ApplyStep(o, a, ans).stopped ==> ans.ownerFault(KeyOf(o)).Some?)
  {
  }

  lemma {:induction false} ApplyEntry(objs: seq<Obj>, i: nat, a: Applying, ans: Oracle, n: string)
    requires i <= |objs| && !a.stopped && n in a.statuses && n != "" && !Marked(a.statuses[n].message)
    ensures var r, k := ApplyFrom(objs, i, a, ans), TellingFrom(objs, i, ans, n);
            && n in r.statuses
            && (k.None? ==> r.statuses[n] == a.statuses[n])
            && (k.Some? ==>
                  && r.firstError.Some?
                  && r.statuses[n] == a.statuses[n].(
                       health := false,
                       message := ApplyError(objs[k.value].name, ToldError(objs[k.value], ans, r.firstError))))
    decreases |objs| - i
  {
    hide ApplyStep, Tells, Marked, Stops, ToldError;
    if i < |objs| {
      var o, a' := objs[i], ApplyStep(objs[i], a, ans);
      StepEntry(o, a, ans, n);
      AppliedStep(o, a, ans);
      if o.instance == n && Tells(o, ans) {
        ToldIsMarked(o, ToldError(o, ans, a'.firstError));
        MarkedStays(objs, i + 1, a', ans, n);
        LaterError(objs, i, a, ans);
      } else if a'.stopped {
        assert ApplyFrom(objs, i + 1, a', ans) == a';
      } else {
        ApplyEntry(objs, i + 1, a', ans, n);
      }
    }
  }

  lemma ToldIsMarked(o: Obj, e: Error)
    ensures Marked(ApplyError(o.name, e))
  {
  }

  /** What an object's entry shows does not depend on what fails after it. */
  lemma LaterError(objs: seq<Obj>, i: nat, a: Applying, ans: Oracle)
    requires i < |objs| && !a.stopped && Tells(objs[i], ans)
    ensures var r, a' := ApplyFrom(objs, i, a, ans), ApplyStep(objs[i], a, ans);
            && r.firstError.Some? && a'.firstError.Some?
            && ToldError(objs[i], ans, r.firstError) == ToldError(objs[i], ans, a'.firstError)
  {
    hide ApplyStep, FailureOf;
    var a' := ApplyStep(objs[i], a, ans);
    FailedBefore(objs[i], a, ans);
    StepFails(objs[i], a, ans);
    if a'.stopped {
      assert ApplyFrom(objs, i + 1, a', ans) == a';
    } else {
      ApplyFails(objs, i + 1, a', ans);
    }
  }

  // ----- events of applying -----

  /** The events of one object: what was created, what was refused for good, and an owner reference
      that could not be set; nothing for a conflict, a failed lookup or an unchanged object. */
  function EventsOf(o: Obj, ans: Oracle): seq<What> {
    var id := KeyOf(o);
    if LookupFails(o, ans) then []
    else if ans.ownerFault(id).Some? then [OwnerRefFailed(id)]
    else if Apply.ApplyObject(o, ans.applies(id)) == Apply.Applied(Apply.Created) then [ResourceCreated(id)]
    else if Tells(o, ans) then [ResourceFailed(id)] else []
  }

  /** The events of the objects the loop reaches, in their order. */
  function EventsFrom(objs: seq<Obj>, i: nat, ans: Oracle): seq<What>
    requires i <= |objs|
    decreases |objs| - i
  {
    if i == |objs| then []
    else EventsOf(objs[i], ans) + if Stops(objs[i], ans) then [] else EventsFrom(objs, i + 1, ans)
  }

  lemma StepEvents(o: Obj, a: Applying, ans: Oracle)
    requires !a.stopped
    ensures ApplyStep(o, a, ans).events == a.events + EventsOf(o, ans)
  {
  }

  lemma {:induction false} ApplyEvents(objs: seq<Obj>, i: nat, a: Applying, ans: Oracle)
    requires i <= |objs| && !a.stopped
    ensures ApplyFrom(objs, i, a, ans).events == a.events + EventsFrom(objs, i, ans)
    decreases |objs| - i
  {
    hide ApplyStep, EventsOf, Stops;
    if i < |objs| {
      var a' := ApplyStep(objs[i], a, ans);
      StepEvents(objs[i], a, ans);
      AppliedStep(objs[i], a, ans);
      if a'.stopped {
        assert ApplyFrom(objs, i + 1, a', ans) == a';
      } else {
        ApplyEvents(objs, i + 1, a', ans);
      }
    }
  }

  /** The events of a cycle that builds: those of its objects, and one for how it ended. */
  lemma EventsTold(first: Spec, app: App, ans: Oracle)
    requires Builds(first, app)
    ensures var r := Process(first, app, ans);
            r.events == EventsFrom(DesiredObjects(first, app, ans), 0, ans)
                        + [if r.error.Some? then What.ReconcileFailed
                           else if r.ready then ReconcileCompleted else ReconcileProgressing]
  {
    hide BuildFrom, Paused, ApplyFrom, Checked, MarkAll, MarkApplied, SliceOf, Initialize, FinalPhase, SetCondition,
         AllBuild;
    BuildAllFacts(app, Initialize(first).0, ans.now);
    NoBuildEvents(app, 0, Building(app.status.annotations, [], Initialize(first).0, [], None, false), ans.now);
    var b := BuildAll(app, Initialize(first).0, ans.now);
    var objs := DesiredObjects(first, app, ans);
    ApplyEvents(objs, 0, Applying(map[], b.statuses, [], [], None, false), ans);
  }

  lemma {:induction false} NoBuildEvents(app: App, i: nat, b: Building, now: Time)
    requires i <= |app.spec.components| && !Stopped(b) && !Stopped(BuildFrom(app, i, b, now))
    ensures BuildFrom(app, i, b, now).events == b.events
    decreases |app.spec.components| - i
  {
    hide BuildStep, Buildable;
    if i < |app.spec.components| {
      var c, b' := app.spec.components[i], BuildStep(app.namespace, app.spec.components[i], b, now);
      BuildFromStops(app, i, b, now);
      BuildStepFacts(app.namespace, c, b, now);
      StepTold(app.namespace, c, b, now);
      NoBuildEvents(app, i + 1, b', now);
    }
  }

  // ----- the entries of a cycle that builds -----

  /** The entry of component n after a cycle in which an apply failed. */
  function UnappliedEntry(n: string, objs: seq<Obj>, ans: Oracle): CompStatus {
    var e := FirstFailure(objs, ans);
    CompStatus(n, "", "", "", "", false,
               if e.None? then Initializing
               else match TellingFrom(objs, 0, ans, n)
                    case Some(k) => ApplyError(objs[k].name, ToldError(objs[k], ans, e))
                    case None => OverallReconcileError(e.value))
  }

  lemma UnappliedMarked(m: Statuses, objs: seq<Obj>, ans: Oracle, n: string)
    requires Underway(m) && n in m && n != "" && ApplyAll(objs, m, ans).firstError.Some?
    ensures var a := ApplyAll(objs, m, ans);
            a.firstError == FirstFailure(objs, ans) && n in MarkAll(a.statuses, a.firstError.value)
            && MarkAll(a.statuses, a.firstError.value)[n] == UnappliedEntry(n, objs, ans)
  {
    hide ApplyFrom, Tells, TellingFrom, ToldError, LookupFrom, FailureFrom, TextMarked, ApplyFailedFor;
    var start := Applying(map[], m, [], [], None, false);
    ApplyFails(objs, 0, start, ans);
    ApplyEntry(objs, 0, start, ans, n);
  }

  /** A cycle in which an apply fails reports the first failure - or the failed lookup that ended the
      loop - and in each entry the first failed object of that component, or else that one error. */
  lemma UnappliedTold(first: Spec, app: App, ans: Oracle)
    requires Builds(first, app) && !AllApply(DesiredObjects(first, app, ans), ans)
    ensures var r, objs := Process(first, app, ans), DesiredObjects(first, app, ans);
            && r.error.Some? && r.error == FirstFailure(objs, ans) && r.requeue && !r.ready
            && Entries(r.status.components, Initialize(first).0.Keys, n => UnappliedEntry(n, objs, ans))
  {
    hide BuildFrom, Paused, ApplyAll, CheckAll, MarkAll, SliceOf, Initialize, FinalPhase, SetCondition, AllBuild,
         Applies, FirstFailure, UnappliedEntry, Entries, KeyedByName;
    var statuses := Initialize(first).0;
    InitializeFacts(first);
    BuildAllFacts(app, statuses, ans.now);
    BuildAllEntries(app, statuses, ans.now);
    var b, objs := BuildAll(app, statuses, ans.now), DesiredObjects(first, app, ans);
    ApplyAllClean(objs, b.statuses, ans);
    ApplyKeepsNames(objs, b.statuses, ans);
    var a := ApplyAll(objs, b.statuses, ans);
    MarkKeepsNames(a.statuses, a.firstError.value);
    BuiltUnderway(app, statuses, b.statuses);
    forall n | n in statuses ensures MarkAll(a.statuses, a.firstError.value)[n] == UnappliedEntry(n, objs, ans) {
      UnappliedMarked(b.statuses, objs, ans, n);
    }
    EntriesOfSlice(MarkAll(a.statuses, a.firstError.value), n => UnappliedEntry(n, objs, ans));
    ApplyFailsAll(objs, b.statuses, ans);
  }

  lemma ApplyFailsAll(objs: seq<Obj>, m: Statuses, ans: Oracle)
    ensures ApplyAll(objs, m, ans).firstError == FirstFailure(objs, ans)
  {
    hide ApplyFrom, MarkApplied;
    ApplyFails(objs, 0, Applying(map[], m, [], [], None, false), ans);
  }

  lemma BuiltUnderway(app: App, statuses: Statuses, m: Statuses)
    requires m.Keys == statuses.Keys && forall n :: n in statuses ==> statuses[n] == Fresh(n)
    requires forall n :: n in statuses ==>
               m[n] == if HasComponent(app.spec, n) then statuses[n].(message := BuiltSuccessfully) else statuses[n]
    ensures Underway(m)
  {
  }

  // ----- the entries of a cycle that applies everything -----

  /** The entry of component n after its health check: looked up as component 0 says, under the raw
      name; healthy, or with what it waits for, what went wrong, or what is missing. */
  function CheckedEntry(app: App, n: string, ans: Oracle): CompStatus
    requires app.spec.components != []
  {
    var head := app.spec.components[0];
    var answer := Health.CheckHealth(head.apiVersion, head.kind, ans.probes(n));
    var known := head.kind != "" && head.apiVersion != "";
    CompStatus(n, head.kind, head.apiVersion, n, app.namespace, known && answer.Healthy?,
               if !known then ResourceInfoMissing
               else match answer
                    case Healthy => ReadyAndHealthy
                    case Unhealthy(unready) => FromHealthCheck(unready)
                    case CheckFailed(e) => K8sHealthCheckError(e))
  }

  lemma UnmarkedChecked(app: App, n: string, prior: CompStatus, ans: Oracle)
    requires app.spec.components != [] && n != "" && HasComponent(app.spec, n)
    requires prior == Fresh(n).(message := prior.message)
    requires prior.message in {Initializing, BuiltSuccessfully, AppliedAwaitingHealth}
    ensures CheckOne(app, n, prior, ans).entry == CheckedEntry(app, n, ans)
    ensures CheckOne(app, n, prior, ans).error == (var m := CheckedEntry(app, n, ans).message;
                                                   if m.K8sHealthCheckError? then Some(m.error) else None)
    ensures CheckOne(app, n, prior, ans).ready == CheckedEntry(app, n, ans).health
    ensures CheckOne(app, n, prior, ans).requeue <==>
              (var m := CheckedEntry(app, n, ans).message; m.K8sHealthCheckError? || m.FromHealthCheck?)
  {
  }

  /** A cycle that applies everything has one entry for each component, as its own lookup decided,
      and comes back exactly when some component waits or could not be looked up. */
  lemma CheckedTold(app: App, ans: Oracle)
    requires Builds(app.spec, app) && AllApply(DesiredObjects(app.spec, app, ans), ans)
    requires Initialize(app.spec).1.None? && app.spec.components != []
    ensures var r, names := Process(app.spec, app, ans), Initialize(app.spec).0.Keys;
            && Entries(r.status.components, names, n => CheckedEntry(app, n, ans))
            && (r.requeue <==> exists n :: n in names && (CheckedEntry(app, n, ans).message.FromHealthCheck?
                                                          || CheckedEntry(app, n, ans).message.K8sHealthCheckError?))
            && (r.ready <==> forall n :: n in names ==> CheckedEntry(app, n, ans).health)
            && (r.error.Some? ==>
                  exists n :: n in names && CheckedEntry(app, n, ans).message == K8sHealthCheckError(r.error.value))
            && (r.error.None? ==> forall n :: n in names ==> !CheckedEntry(app, n, ans).message.K8sHealthCheckError?)
  {
    hide BuildFrom, Paused, ApplyAll, CheckAll, MarkAll, SliceOf, Initialize, FinalPhase, SetCondition, AllBuild,
         Applies, CheckedEntry, CheckOne, Entries, KeyedByName, Builds, BuildAll, Process, DesiredObjects;
    var names := Initialize(app.spec).0.Keys;
    InitializeFacts(app.spec);
    CleanEntries(app.spec, app, ans);
    CleanPriors(app, ans);
    CleanComponents(app.spec, app, ans);
    CleanOutcome(app, ans);
    var a := ApplyAll(DesiredObjects(app.spec, app, ans), BuildAll(app, Initialize(app.spec).0, ans.now).statuses, ans);
    CheckAllEntries(app, a.statuses, ans);
    CheckAllReady(app, a.statuses, ans);
    CheckAllErrors(app, a.statuses, ans);
    CheckAllKeepsNames(app, a.statuses, ans);
    forall n | n in names
      ensures var one, entry := CheckOne(app, n, a.statuses[n], ans), CheckedEntry(app, n, ans);
              && one.entry == entry && one.ready == entry.health
              && (one.requeue <==> entry.message.K8sHealthCheckError? || entry.message.FromHealthCheck?)
              && one.error == if entry.message.K8sHealthCheckError? then Some(entry.message.error) else None
    {
      UnmarkedChecked(app, n, a.statuses[n], ans);
    }
    EntriesOfSlice(CheckAll(app, a.statuses, ans).statuses, n => CheckedEntry(app, n, ans));
  }

  lemma CleanOutcome(app: App, ans: Oracle)
    requires Builds(app.spec, app) && AllApply(DesiredObjects(app.spec, app, ans), ans)
    ensures var r := Process(app.spec, app, ans);
            var a := ApplyAll(DesiredObjects(app.spec, app, ans),
                              BuildAll(app, Initialize(app.spec).0, ans.now).statuses, ans);
            var c := CheckAll(app, a.statuses, ans);
            r.ready == c.allReady && r.error == c.firstError && r.requeue == (c.requeue || c.firstError.Some?)
  {
    hide BuildFrom, Paused, ApplyFrom, MarkApplied, CheckAll, MarkAll, SliceOf, Initialize, FinalPhase, SetCondition,
         AllBuild, Applies;
    BuildAllFacts(app, Initialize(app.spec).0, ans.now);
    ApplyAllClean(DesiredObjects(app.spec, app, ans), BuildAll(app, Initialize(app.spec).0, ans.now).statuses, ans);
  }

  lemma CleanPriors(app: App, ans: Oracle)
    requires Builds(app.spec, app) && AllApply(DesiredObjects(app.spec, app, ans), ans)
    ensures var a := ApplyAll(DesiredObjects(app.spec, app, ans),
                              BuildAll(app, Initialize(app.spec).0, ans.now).statuses, ans);
            forall n :: n in a.statuses ==> a.statuses[n] == Fresh(n).(message := a.statuses[n].message)
  {
    hide BuildFrom, ApplyFrom, MarkApplied, InitFrom, Paused, Applies, ApplyAll, BuildAll, AllBuild;
    var statuses := Initialize(app.spec).0;
    var b := BuildAll(app, statuses, ans.now);
    InitializeFacts(app.spec);
    BuildAllFacts(app, statuses, ans.now);
    BuildAllEntries(app, statuses, ans.now);
    ApplyAllClean(DesiredObjects(app.spec, app, ans), b.statuses, ans);
  }
}
