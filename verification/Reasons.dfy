/** Which reason the stored Ready condition gives, told from where the error comes from and what
    its text says: the controller reads the reason off the text by searching it for keywords. */
module Reasons {
  import opened Text
  import opened Config
  import opened Builder
  import opened Status
  import opened PauseResume
  import opened Api
  import opened Cycle
  import opened CycleFacts
  import opened BuildFacts
  import opened Reconciler
  import opened Effects
  import opened Runs
  import opened Readiness
  import opened NothingDropped

  // ----- keywords in a text that has a fixed beginning -----

  /** No occurrence of the keyword begins within the fixed part. */
  ghost predicate StartsClear(fixed: string, keyword: string) {
    forall i, rest: string :: 0 <= i < |fixed| ==> !(keyword <= (fixed + rest)[i..])
  }

  /** Then only the variable part decides. */
  lemma OnlyTheRest(fixed: string, rest: string, keyword: string)
    requires StartsClear(fixed, keyword)
    ensures Contains(fixed + rest, keyword) <==> Contains(rest, keyword)
  {
    var whole := fixed + rest;
    if Contains(whole, keyword) {
      var i :| 0 <= i <= |whole| && keyword <= whole[i..];
      assert i >= |fixed|;
      assert whole[i..] == rest[i - |fixed|..];
    }
    if Contains(rest, keyword) {
      var i :| 0 <= i <= |rest| && keyword <= rest[i..];
      assert whole[|fixed| + i..] == rest[i..];
    }
  }

  /** The first three letters never come together in the fixed part, nor across its end. */
  predicate Apart(fixed: string, keyword: string)
    requires |keyword| >= 3 && |fixed| >= 2
  {
    && (forall i :: 0 <= i < |fixed| - 2 ==>
          fixed[i] != keyword[0] || fixed[i + 1] != keyword[1] || fixed[i + 2] != keyword[2])
    && (fixed[|fixed| - 2] != keyword[0] || fixed[|fixed| - 1] != keyword[1])
    && fixed[|fixed| - 1] != keyword[0]
  }

  lemma ClearWhenApart(fixed: string, keyword: string)
    requires |keyword| >= 3 && |fixed| >= 2 && Apart(fixed, keyword)
    ensures StartsClear(fixed, keyword)
  {
    forall i, rest: string | 0 <= i < |fixed| ensures !(keyword <= (fixed + rest)[i..]) {
      var from := (fixed + rest)[i..];
      assert from[0] == fixed[i];
      assert i + 1 < |fixed| ==> from[1] == fixed[i + 1];
      assert i + 2 < |fixed| ==> from[2] == fixed[i + 2];
    }
  }

  predicate AboutApplying(text: string) {
    Contains(text, "apply") || Contains(text, "Apply") || Contains(text, "OwnerRef")
  }

  predicate AboutBuilding(text: string) {
    || Contains(text, "build") || Contains(text, "Build") || Contains(text, "Config") || Contains(text, "CompDef")
    || Contains(text, "strategy") || Contains(text, "Strategy")
  }

  predicate AboutHealth(text: string) {
    Contains(text, "HealthCheck") || Contains(text, "health check")
  }

  const KEYWORDS := {"apply", "Apply", "OwnerRef", "build", "Build", "Config", "CompDef", "strategy", "Strategy",
                     "HealthCheck", "health check"}

  /** Told about the variable part of the text alone, when the fixed part has no keyword. */
  lemma TextDecides(fixed: string, rest: string)
    requires forall k :: k in KEYWORDS ==> StartsClear(fixed, k)
    ensures AboutApplying(fixed + rest) <==> AboutApplying(rest)
    ensures AboutBuilding(fixed + rest) <==> AboutBuilding(rest)
    ensures AboutHealth(fixed + rest) <==> AboutHealth(rest)
  {
    hide Contains, StartsClear;
    forall k | k in KEYWORDS ensures Contains(fixed + rest, k) <==> Contains(rest, k) {
      OnlyTheRest(fixed, rest, k);
    }
  }

  // Lookups, of resources, services and components, report in words without a keyword.

  lemma ResourceLookupClear()
    ensures forall k :: k in KEYWORDS ==> StartsClear("failed to get resource ", k)
  {
    hide StartsClear;
    forall k | k in KEYWORDS ensures StartsClear("failed to get resource ", k) {
      ClearWhenApart("failed to get resource ", k);
    }
  }

  lemma ServiceLookupClear()
    ensures forall k :: k in KEYWORDS ==> StartsClear("failed to get existing service ", k)
  {
    hide StartsClear;
    forall k | k in KEYWORDS ensures StartsClear("failed to get existing service ", k) {
      ClearWhenApart("failed to get existing service ", k);
    }
  }

  lemma SpecLookupClear()
    ensures forall k :: k in KEYWORDS ==> StartsClear("component spec not found for ", k)
  {
    hide StartsClear;
    forall k | k in KEYWORDS ensures StartsClear("component spec not found for ", k) {
      ClearWhenApart("component spec not found for ", k);
    }
  }

  /** An owner reference that cannot be set, and missing metadata, are always about applying. */
  lemma ApplyingSaid(rest: string)
    ensures AboutApplying("Failed to set OwnerReference on " + rest)
    ensures AboutApplying("object is missing essential GVK or Name/Namespace for apply " + rest)
  {
    var owner, meta := "Failed to set OwnerReference on " + rest,
                       "object is missing essential GVK or Name/Namespace for apply " + rest;
    assert "Failed to set OwnerReference on "[14..22] == "OwnerRef";
    assert owner[14..] == "Failed to set OwnerReference on "[14..] + rest;
    assert "OwnerRef" <= owner[14..];
    assert "object is missing essential GVK or Name/Namespace for apply "[54..59] == "apply";
    assert meta[54..] == "object is missing essential GVK or Name/Namespace for apply "[54..] + rest;
    assert "apply" <= meta[54..];
  }

  // ----- the reason of a failure -----

  /** The reason that goes with an error: by its origin, or else by what its text says. */
  ghost predicate Fits(reason: Reason, e: Error) {
    && (e.origin == OwnerReference || e.origin == ApplyMetadata ==> reason == ApplyFailed)
    && (e.origin in {HealthLookup, ServiceLookup, SpecMissing, ApplyAnswer} ==>
          && (reason == ApplyFailed <==> AboutApplying(e.text))
          && (reason == ProcessingFailed <==> !AboutApplying(e.text) && AboutBuilding(e.text))
          && (reason == HealthCheckFailed <==> !AboutApplying(e.text) && !AboutBuilding(e.text) && AboutHealth(e.text))
          && (reason == Reason.ReconcileFailed <==>
              !AboutApplying(e.text) && !AboutBuilding(e.text) && !AboutHealth(e.text)))
  }

  lemma ReasonByText(text: string)
    ensures ReasonFor(text) == if AboutApplying(text) then ApplyFailed
                               else if AboutBuilding(text) then ProcessingFailed
                               else if AboutHealth(text) then HealthCheckFailed
                               else Reason.ReconcileFailed
  {
    hide Contains;
  }

  lemma RenderedTexts(e: Error)
    ensures e.origin == OwnerReference ==> Render(e) == "Failed to set OwnerReference on " + e.text
    ensures e.origin == ApplyMetadata ==>
              Render(e) == "object is missing essential GVK or Name/Namespace for apply " + e.text
    ensures e.origin == HealthLookup ==> Render(e) == "failed to get resource " + e.text
    ensures e.origin == ServiceLookup ==> Render(e) == "failed to get existing service " + e.text
    ensures e.origin == SpecMissing ==> Render(e) == "component spec not found for " + e.text
    ensures e.origin == ApplyAnswer ==> Render(e) == e.text
  {
    assert "" + e.text == e.text;
  }

  lemma ReasonFits(e: Error)
    ensures Fits(ReasonFor(Render(e)), e)
  {
    hide Contains, StartsClear, AboutApplying, AboutBuilding, AboutHealth, ReasonFor, Render;
    ReasonByText(Render(e));
    RenderedTexts(e);
    ApplyingSaid(e.text);
    ResourceLookupClear();
    TextDecides("failed to get resource ", e.text);
    ServiceLookupClear();
    TextDecides("failed to get existing service ", e.text);
    SpecLookupClear();
    TextDecides("component spec not found for ", e.text);
  }

  // ----- the condition that goes with a phase -----

  /** The list has this Ready condition and no other. */
  ghost predicate Says(cs: seq<Condition>, isTrue: bool, reason: Reason, detail: Option<Error>) {
    && Condition(Ready, isTrue, reason, detail) in cs
    && forall c :: c in cs && c.kind == Ready ==> c == Condition(Ready, isTrue, reason, detail)
  }

  lemma SetSays(st: AppStatus, phase: Phase, isTrue: bool, reason: Reason, detail: Option<Error>)
    requires DistinctTypes(st.conditions)
    ensures Says(WithCondition(st, phase, isTrue, reason, detail).conditions, isTrue, reason, detail)
  {
    SetConditionSets(st.conditions, Condition(Ready, isTrue, reason, detail));
  }

  /** The phase that follows, without an error and without everything being ready. */
  function Unfinished(before: Phase): Phase {
    match before
    case Running => Degraded
    case Degraded => Degraded
    case Creating => Creating
    case _ => Updating
  }

  function UnfinishedReason(phase: Phase): Reason {
    match phase
    case Degraded => ComponentsDegraded
    case Creating => ComponentsCreating
    case _ => ComponentsApplying
  }

  /** What a cycle that has built everything stores as phase and Ready condition. */
  ghost predicate Concludes(before: Phase, suspended: bool, error: Option<Error>, ready: bool, after: AppStatus) {
    if suspended then after.phase == Suspended && Says(after.conditions, false, IntentionallySuspended, None)
    else if error.Some? then
      after.phase == Phase.Failed && exists reason ::
        Fits(reason, error.value) && Says(after.conditions, false, reason, error)
    else if ready then after.phase == Running && Says(after.conditions, true, ComponentsReady, None)
    else after.phase == Unfinished(before) && Says(after.conditions, false, UnfinishedReason(after.phase), None)
  }

  lemma FinalSays(st: AppStatus, before: Phase, suspended: bool, error: Option<Error>, ready: bool)
    requires DistinctTypes(st.conditions)
    requires st.phase == if suspended then Suspended else if before == Suspended then Updating else before
    ensures Concludes(before, suspended, error, ready, FinalPhase(st, error, ready))
  {
    hide ReasonFor, Render, Fits, SetCondition, Says;
    forall phase, isTrue, reason, detail
      ensures Says(WithCondition(st, phase, isTrue, reason, detail).conditions, isTrue, reason, detail)
    {
      SetSays(st, phase, isTrue, reason, detail);
    }
    if error.Some? {
      ReasonFits(error.value);
    }
  }

  lemma ProcessSays(first: Spec, app: App, ans: Oracle)
    requires DistinctTypes(app.status.conditions) && !Process(first, app, ans).panicked
    ensures var r := Process(first, app, ans);
            if Builds(first, app) then
              Concludes(app.status.phase, app.spec.suspend == Some(true), r.error, r.ready, r.status)
            else
              && r.status.phase == Phase.Failed && r.error.Some?
              && Says(r.status.conditions, false, ProcessingFailed, r.error)
  {
    hide BuildAll, Paused, ApplyAll, Checked, MarkAll, SliceOf, Initialize, FinalPhase, SetCondition, AllBuild, Says,
         Fits;
    BuildAllFacts(app, Initialize(first).0, ans.now);
    var b := BuildAll(app, Initialize(first).0, ans.now);
    if b.error.Some? {
      SetSays(app.status.(annotations := b.annotations), Phase.Failed, false, ProcessingFailed, b.error);
    } else {
      var (objs, record) := Paused(app, b);
      var c := Checked(app, ApplyAll(objs, b.statuses, ans), ans);
      var st := app.status.(annotations := b.annotations, suspendedReplicas := record,
                            phase := ResumedPhase(app.status, app.spec));
      FinalSays(st, app.status.phase, app.spec.suspend == Some(true), c.firstError, c.allReady);
    }
  }

  /** Conditions of other types are the same. */
  ghost predicate OthersKept(cs: seq<Condition>, ds: seq<Condition>) {
    forall c: Condition :: c.kind != Ready ==> (c in cs <==> c in ds)
  }

  lemma SetKeeps(cs: seq<Condition>, isTrue: bool, reason: Reason, detail: Option<Error>)
    ensures OthersKept(cs, SetCondition(cs, Condition(Ready, isTrue, reason, detail)))
  {
    hide SetCondition;
    forall d: Condition | d.kind != Ready
      ensures d in cs <==> d in SetCondition(cs, Condition(Ready, isTrue, reason, detail))
    {
      SetConditionKeeps(cs, Condition(Ready, isTrue, reason, detail), d);
    }
  }

  /** What a stored status says, told from the step that stored it. */
  ghost predicate Explained(wr: Write) {
    var before, after := wr.before.status, wr.after.status;
    OthersKept(before.conditions, after.conditions) && match wr.cause
    case Started => after.phase == Creating && Says(after.conditions, false, Processing, None)
    case Emptied(_) => after.phase == Running && after.components == []
                       && Says(after.conditions, true, NoComponentsDefined, None)
    case Rejected(app) =>
      after.phase == Phase.Failed && Says(after.conditions, false, InitializationFailed, Initialize(app.spec).1)
    case Processed(first, app, ans) =>
      var r := Process(first, app, ans);
      if Builds(first, app) then Concludes(before.phase, app.spec.suspend == Some(true), r.error, r.ready, after)
      else after.phase == Phase.Failed && r.error.Some? && Says(after.conditions, false, ProcessingFailed, r.error)
    case _ => true
  }

  lemma WriteExplained(wr: Write)
    requires WriteGood(wr) && DistinctTypes(wr.before.status.conditions)
    ensures Explained(wr)
  {
    hide Process, Initialize, SetCondition, Says, Fits, Builds, SliceOf, OthersKept;
    match wr.cause {
      case Started =>
        SetSays(wr.before.status, Creating, false, Processing, None);
        SetKeeps(wr.before.status.conditions, false, Processing, None);
      case Emptied(app) =>
        SetSays(app.status.(components := []), Running, true, NoComponentsDefined, None);
        SetKeeps(app.status.conditions, true, NoComponentsDefined, None);
      case Rejected(app) =>
        SetSays(app.status, Phase.Failed, false, InitializationFailed, Initialize(app.spec).1);
        SetKeeps(app.status.conditions, false, InitializationFailed, Initialize(app.spec).1);
      case Processed(first, app, ans) =>
        ProcessSays(first, app, ans);
        var c := ProcessCondition(first, app, ans);
        SetKeeps(app.status.conditions, c.isTrue, c.reason, c.detail);
      case _ => KeepsAll(wr.before.status.conditions);
    }
  }

  lemma KeepsAll(cs: seq<Condition>)
    ensures OthersKept(cs, cs)
  {
  }

  ghost predicate AllExplained(w: World) {
    && (forall i :: 0 <= i < |w.writes| ==> Explained(w.writes[i]))
    && (w.last.Some? ==> Explained(w.last.value))
  }

  lemma ExplainedCycle(env: Environment, w: World)
    requires AllExplained(w) && AlwaysOK(Reconcile(env, w, WATCHED).0)
    ensures AllExplained(Reconcile(env, w, WATCHED).0)
  {
    hide Reconcile, Process, WriteGood, TraceOf, Explained, Get;
    CycleShape(env, w);
    var w' := Reconcile(env, w, WATCHED).0;
    assert forall i :: 0 <= i < |w.writes| ==> w'.writes[i] == w.writes[i];
    if !Quiet(w, w') {
      WriteExplained(w'.last.value);
    }
    forall i | |w.writes| <= i < |w'.writes| && !IsStatusWrite(w'.writes[i].cause) ensures Explained(w'.writes[i]) {
      OtherWritesSayNothing(w'.writes[i]);
    }
  }

  lemma OtherWritesSayNothing(wr: Write)
    requires WriteGood(wr) && !IsStatusWrite(wr.cause)
    ensures Explained(wr)
  {
  }

  /** In every run each stored status says in its Ready condition why it has its phase: which
      phase follows which outcome, and which reason goes with it, down to the words of the error. */
  lemma {:induction false} StatusSaysWhy(env: Environment, w: World, n: nat)
    requires IsInitial(w)
    ensures AllExplained(Run(env, w, n))
  {
    hide Reconcile, Explained;
    if n > 0 {
      StatusSaysWhy(env, w, n - 1);
      ReadyExactlyWhenRunning(env, w, n);
      ExplainedCycle(env, Run(env, w, n - 1));
    }
  }

  /** The reason HealthCheckFailed comes only from a keyword in the variable part of the error, such
      as a name: the fixed words of a failed lookup have none. */
  lemma HealthCheckFailedNeedsKeyword(first: Spec, app: App, ans: Oracle)
    requires DistinctTypes(app.status.conditions) && !Process(first, app, ans).panicked
    requires var e := Process(first, app, ans).error;
             e.Some? && e.value.origin in {HealthLookup, ServiceLookup, SpecMissing, ApplyAnswer}
    ensures var r := Process(first, app, ans);
            (exists c :: c in r.status.conditions && c.kind == Ready && c.reason == HealthCheckFailed) <==>
              && Builds(first, app) && app.spec.suspend != Some(true)
              && AboutHealth(r.error.value.text)
              && !AboutApplying(r.error.value.text) && !AboutBuilding(r.error.value.text)
  {
    hide Process, Builds, AboutHealth, AboutApplying, AboutBuilding;
    ProcessSays(first, app, ans);
  }
}
