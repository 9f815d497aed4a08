/** One call of Reconcile against the API server
    (internal/controller/app/applicationdefinition_controller.go). */
module Reconciler {
  import opened Text
  import opened Config
  import opened Builder
  import opened Status
  import opened StatusCompare
  import opened PauseResume
  import opened Api
  import opened Cycle

  const WATCHED := "default"

  const MAX_WRITES: nat := 3

  /** A non-nil error decides, whatever result accompanies it. */
  datatype Outcome = Done | Requeue | RequeueAfter(seconds: nat) | Errored(error: Error) | Panic

  // ----- finalizer -----

  function WithFinalizer(app: App): App {
    if FINALIZER in app.finalizers then app else app.(finalizers := app.finalizers + [FINALIZER])
  }

  function Without(fs: seq<string>, f: string): seq<string> {
    if fs == [] then [] else (if fs[0] == f then [] else [fs[0]]) + Without(fs[1..], f)
  }

  function WithoutFinalizer(app: App): App {
    app.(finalizers := Without(app.finalizers, FINALIZER))
  }

  const GAVE_UP := Error(GaveUp, "", false)

  /** The loop that adds the finalizer, from attempt i on: the object as stored, or an error. */
  function ClaimFrom(env: Environment, w: World, app: App, i: nat): (World, App, Option<Error>)
    requires i <= MAX_WRITES
    decreases MAX_WRITES - i
  {
    if i == MAX_WRITES then (w, app, Some(GAVE_UP))
    else
      var (w1, r) := Update(env, w, app, Claimed);
      match r
      case Accepted(stored) => (w1, stored, None)
      case Refused(e) => (w1, app, Some(e))
      case Conflict =>
        var (w2, g) := Get(env, w1);
        match g
        case Got(latest) => ClaimFrom(env, w2, WithFinalizer(latest), i + 1)
        case NotFound => (w2, app, Some(Error(ObjectNotFound, "", false)))
        case GetFailed(e) => (w2, app, Some(e))
  }

  /** The loop that removes it: three conflicts end it without an error. */
  function ReleaseFrom(env: Environment, w: World, app: App, listed: seq<string>, i: nat): (World, Option<Error>)
    requires i <= MAX_WRITES
    decreases MAX_WRITES - i
  {
    if i == MAX_WRITES then (w, None)
    else
      var (w1, r) := Update(env, w, app, Released(listed));
      match r
      case Accepted(_) => (w1, None)
      case Refused(e) => (w1, Some(e))
      case Conflict =>
        var (w2, g) := Get(env, w1);
        match g
        case Got(latest) => ReleaseFrom(env, w2, WithoutFinalizer(latest), listed, i + 1)
        case NotFound => (w2, Some(Error(ObjectNotFound, "", false)))
        case GetFailed(e) => (w2, Some(e))
  }

  /** Deleting the listed claims, from position i on; an absent claim counts as deleted. */
  function CleanFrom(w: World, ans: Oracle, i: nat): (World, Option<Error>)
    requires i <= |ans.listing|
    decreases |ans.listing| - i
  {
    if i == |ans.listing| then (w, None)
    else if ans.pvcFault(ans.listing[i]) then (w, Some(Error(ClaimDeletion, ans.listing[i], false)))
    else CleanFrom(w.(cleaned := w.cleaned + [ans.listing[i]]), ans, i + 1)
  }

  datatype Finalization = Continue(app: App) | Deleted | FinalizerError(error: Error)

  function Finalize(env: Environment, w: World, app: App): (World, Finalization) {
    if FINALIZER !in app.finalizers then (w, Deleted)
    else
      var ans := env(w.tick);
      var w1 := Interfere(env, w);
      if ans.fault then (w1, FinalizerError(Error(ListFailed, "", false)))
      else
        var (w2, e) := CleanFrom(w1, ans, 0);
        if e.Some? then (w2, FinalizerError(e.value))
        else
          var (w3, e') := ReleaseFrom(env, w2, WithoutFinalizer(app), ans.listing, 0);
          (w3, if e'.Some? then FinalizerError(e'.value) else Deleted)
  }

  /** handleFinalizer. */
  function HandleFinalizer(env: Environment, w: World, app: App): (World, Finalization) {
    if app.deleting then Finalize(env, w, app)
    else if FINALIZER in app.finalizers then (w, Continue(app))
    else
      var (w1, stored, e) := ClaimFrom(env, w, WithFinalizer(app), 0);
      (w1, if e.Some? then FinalizerError(e.value) else Continue(stored))
  }

  // ----- status writes -----

  /** The loop of setInitialPhase; app already carries the new status. */
  function StartFrom(env: Environment, w: World, app: App, i: nat): (World, Option<Error>)
    requires i <= MAX_WRITES
    decreases MAX_WRITES - i
  {
    if i == MAX_WRITES then (w, Some(GAVE_UP))
    else
      var (w1, r) := UpdateStatus(env, w, app, Started);
      match r
      case Accepted(stored) => (w1.(events := w1.events + Emitted(stored, ProcessingStarted)), None)
      case Refused(e) => (w1, Some(e))
      case Conflict =>
        var (w2, g) := Get(env, w1);
        match g
        case Got(latest) => StartFrom(env, w2, latest.(status := StartedStatus(latest.status)), i + 1)
        case NotFound => (w2, Some(Error(ObjectNotFound, "", false)))
        case GetFailed(e) => (w2, Some(e))
  }

  function Stamp(app: App, desired: AppStatus): App {
    app.(status := desired.(observedGeneration := app.generation))
  }

  /** The loop of updateStatusIfNeeded: after a conflict the desired status is put on the
      re-fetched object and stamped with that object's generation. */
  function StatusFrom(env: Environment, w: World, app: App, desired: AppStatus, cause: Cause, i: nat)
    : (World, Option<Error>)
    requires i <= MAX_WRITES
    decreases MAX_WRITES - i
  {
    if i == MAX_WRITES then (w, Some(GAVE_UP))
    else
      var (w1, r) := UpdateStatus(env, w, app, cause);
      match r
      case Accepted(_) => (w1, None)
      case Refused(e) => (w1, Some(e))
      case Conflict =>
        var (w2, g) := Get(env, w1);
        match g
        case Got(latest) => StatusFrom(env, w2, Stamp(latest, desired), desired, cause, i + 1)
        case NotFound => (w2, Some(Error(ObjectNotFound, "", false)))
        case GetFailed(e) => (w2, Some(e))
  }

  /** updateStatusIfNeeded: no request at all when the comparison finds no difference. */
  function UpdateStatusIfNeeded(env: Environment, w: World, app: App, desired: AppStatus, original: AppStatus,
                                cause: Cause)
    : (World, Option<Error>)
  {
    if SameStatus(Stamp(app, desired).status, original) then (w, None)
    else StatusFrom(env, w, Stamp(app, desired), Stamp(app, desired).status, cause, 0)
  }

  // ----- the cycle -----

  function Emissions(app: App, whats: seq<What>): seq<Event> {
    if whats == [] then [] else Emissions(app, whats[..|whats| - 1]) + Emitted(app, whats[|whats| - 1])
  }

  /** Replica counts in the cluster after applying objects. */
  function Deployed(cluster: map<string, int>, applied: seq<Obj>): map<string, int> {
    if applied == [] then cluster
    else DeployedAlso(Deployed(cluster, applied[..|applied| - 1]), applied[|applied| - 1])
  }

  predicate FastPath(app: App) {
    && app.status.phase == Running
    && app.status.observedGeneration == app.generation
    && app.status.lastChangeID != ""
    && app.changeID == app.status.lastChangeID
  }

  predicate SkipsSuspended(app: App) {
    WantsSuspend(app.spec) && app.status.phase == Suspended
  }

  const REQUEUE_SECONDS: nat := 30

  /** The result of a full cycle; the first error outranks the status error. */
  function Conclude(error: Option<Error>, requeue: bool, statusError: Option<Error>): Outcome {
    if error.Some? then Errored(error.value)
    else if statusError.Some? then Errored(statusError.value)
    else if requeue then RequeueAfter(REQUEUE_SECONDS)
    else Done
  }

  /** The world when the work of a cycle is done and its status is about to be written. */
  function WorkedWorld(w: World, app: App, r: Result): World {
    w.(events := w.events + Emissions(app, r.events), cluster := Deployed(w.cluster, r.applied))
  }

  /** Steps 4 to 8. */
  ghost function Act(env: Environment, w: World, first: Spec, original: AppStatus, app: App): (World, Outcome) {
    var r := Process(first, app, env(w.tick));
    var w1 := WorkedWorld(w, app, r);
    if r.panicked then (w1, Panic)
    else
      var (w2, e) := UpdateStatusIfNeeded(env, w1, app, r.status, original, Processed(first, app, env(w.tick)));
      if r.buildFailed then (w2, Errored(r.error.value))
      else (w2, Conclude(r.error, r.requeue, e))
  }

  /** Steps 3 to 8. */
  ghost function Advance(env: Environment, w: World, first: Spec, original: AppStatus, app: App): (World, Outcome) {
    if app.status.phase == Unset || app.status.phase == Pending then
      var (w1, e) := StartFrom(env, w, app.(status := StartedStatus(app.status)), 0);
      (w1, if e.Some? then Errored(e.value) else Requeue)
    else if SkipsSuspended(app) then (w, Done)
    else if FastPath(app) then (w, Done)
    else Act(env, w, first, original, app)
  }

  /** Everything after the first read. */
  ghost function Handle(env: Environment, w: World, app: App): (World, Outcome) {
    var (statuses, e) := Initialize(app.spec);
    if e.Some? then
      var (w1, _) := UpdateStatusIfNeeded(env, w, app, ErrorStatus(app.status, statuses, InitializationFailed, e.value),
                                          app.status, Rejected(app));
      (w1, Errored(e.value))
    else if app.spec.components == [] then
      var (w1, e') := UpdateStatusIfNeeded(env, w, app, EmptiedStatus(app.status), app.status, Emptied(app));
      (w1, if e'.Some? then Errored(e'.value) else Done)
    else
      var (w1, f) := HandleFinalizer(env, w, app);
      match f
      case FinalizerError(e') => (w1, Errored(e'))
      case Deleted => (w1, Done)
      case Continue(app1) => Advance(env, w1, app.spec, app.status, app1)
  }

  ghost function Reconcile(env: Environment, w: World, namespace: string): (World, Outcome) {
    if namespace != WATCHED then (w, Done)
    else
      var (w1, g) := Get(env, w);
      match g
      case NotFound => (w1, Done)
      case GetFailed(e) => (w1, Errored(e))
      case Got(app) => Handle(env, w1, app)
  }

  /** n cycles; between them, and inside them, the environment does what it likes. */
  ghost function Run(env: Environment, w: World, n: nat): World {
    if n == 0 then w else Reconcile(env, Run(env, w, n - 1), WATCHED).0
  }

  /** A freshly created object, never seen by the controller. */
  predicate IsInitial(w: World) {
    && w.store.Some? && w.store.value.status == EMPTY_STATUS && w.store.value.generation >= 1
    && w.writes == [] && w.last == None && w.events == [] && w.cleaned == [] && w.cluster == map[]
  }
}
