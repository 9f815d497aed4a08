/** What one reconcile cycle computes from the object it has read and the answers it gets,
    before any status is written (internal/controller/app/applicationdefinition_controller.go). */
module Cycle {
  import opened Text
  import opened Config
  import opened Builder
  import opened Status
  import opened StatusOrder
  import opened PauseResume
  import opened Api
  import Apply
  import Health

  type Statuses = map<string, CompStatus>

  // ----- initializeComponentStatuses -----

  function Fresh(name: string): CompStatus {
    CompStatus(name, "", "", "", "", false, Initializing)
  }

  function InitFrom(cs: seq<Component>, i: nat, statuses: Statuses): (Statuses, Option<Error>)
    requires i <= |cs|
    decreases |cs| - i
  {
    if i == |cs| then (statuses, None)
    else if cs[i].name == "" then (statuses, Some(Error(EmptyComponentName, "", false)))
    else if cs[i].name in statuses then (statuses, Some(Error(DuplicateComponentName, cs[i].name, false)))
    else InitFrom(cs, i + 1, statuses[cs[i].name := Fresh(cs[i].name)])
  }

  function Initialize(spec: Spec): (Statuses, Option<Error>) {
    InitFrom(spec.components, 0, map[])
  }

  // ----- processComponentsAndBuildObjects -----

  /** panicked: a component has no status entry and the code dereferences nil. */
  datatype Building = Building(annotations: map<string, ConfigHash>, objects: seq<Obj>, statuses: Statuses,
                               events: seq<What>, error: Option<Error>, panicked: bool)

  predicate Stopped(b: Building) {
    b.error.Some? || b.panicked
  }

  /** The first object without name or namespace, or the end of the list. */
  function FirstUnnameable(objs: seq<Obj>, k: nat): (r: nat)
    requires k <= |objs|
    ensures k <= r <= |objs|
    ensures forall j :: k <= j < r ==> Nameable(objs[j])
    ensures r < |objs| ==> !Nameable(objs[r])
    decreases |objs| - k
  {
    if k == |objs| || !Nameable(objs[k]) then k else FirstUnnameable(objs, k + 1)
  }

  function BuildStep(namespace: string, c: Component, b: Building, now: Time): Building {
    if c.name !in b.statuses then b.(panicked := true)
    else
      var entry := b.statuses[c.name];
      match Build(namespace, c, b.annotations, now)
      case BuildFailed(e) =>
        b.(statuses := b.statuses[c.name := entry.(message := BeingProcessed)], error := Some(e),
           events := b.events + if c.properties.Malformed? then [] else [BuilderFailed(c.name)])
      case Built(objs) =>
        var bad := FirstUnnameable(objs, 0);
        var record := Recorded(b.annotations, c);
        if bad < |objs| then
          b.(annotations := record, objects := b.objects + objs[..bad],
             statuses := b.statuses[c.name := entry.(health := false, message := InvalidBuiltObject(c.name))],
             error := Some(Error(UnnamedObject, c.name, false)))
        else
          b.(annotations := record, objects := b.objects + objs,
             statuses := b.statuses[c.name := entry.(message := BuiltSuccessfully)])
  }

  function BuildFrom(app: App, i: nat, b: Building, now: Time): Building
    requires i <= |app.spec.components|
    decreases |app.spec.components| - i
  {
    if i == |app.spec.components| || Stopped(b) then b
    else BuildFrom(app, i + 1, BuildStep(app.namespace, app.spec.components[i], b, now), now)
  }

  function BuildAll(app: App, statuses: Statuses, now: Time): Building {
    BuildFrom(app, 0, Building(app.status.annotations, [], statuses, [], None, false), now)
  }

  // ----- applyResources -----

  datatype Applying = Applying(results: map<Identity, Apply.ApplyResult>, statuses: Statuses, events: seq<What>,
                               applied: seq<Obj>, firstError: Option<Error>, stopped: bool)

  function FirstOf(a: Option<Error>, e: Error): Option<Error> {
    if a.Some? then a else Some(e)
  }

  /** updateComponentStatusForApplyError. */
  function WithApplyError(statuses: Statuses, o: Obj, e: Error): Statuses {
    if o.instance == "" || o.instance !in statuses || Marked(statuses[o.instance].message) then statuses
    else statuses[o.instance := statuses[o.instance].(health := false, message := ApplyError(o.name, e))]
  }

  function ApplyStep(o: Obj, a: Applying, ans: Oracle): Applying {
    var key := KeyOf(o);
    if o.kind == Service && ans.lookupFault(key).Some? then
      a.(firstError := Some(Error(ServiceLookup, ans.lookupFault(key).value, false)), stopped := true)
    else if ans.ownerFault(key).Some? then
      var first := FirstOf(a.firstError, Error(OwnerReference, ans.ownerFault(key).value, false));
      a.(results := a.results[key := Apply.Failed(first.value)], firstError := first, stopped := true,
         events := a.events + [OwnerRefFailed(key)], statuses := WithApplyError(a.statuses, o, first.value))
    else
      var result := Apply.ApplyObject(o, ans.applies(key));
      match result
      case Failed(e) =>
        a.(results := a.results[key := result], firstError := FirstOf(a.firstError, e),
           events := a.events + (if e.conflict then [] else [ResourceFailed(key)]),
           statuses := if e.conflict then a.statuses else WithApplyError(a.statuses, o, e))
      case Applied(op) =>
        a.(results := a.results[key := result], applied := a.applied + [o],
           events := a.events + if op.Created? then [ResourceCreated(key)] else [])
  }

  function ApplyFrom(objs: seq<Obj>, i: nat, a: Applying, ans: Oracle): Applying
    requires i <= |objs|
    decreases |objs| - i
  {
    if i == |objs| || a.stopped then a else ApplyFrom(objs, i + 1, ApplyStep(objs[i], a, ans), ans)
  }

  /** Some object of the component has no error-free entry in the result map. */
  predicate ApplyFailedFor(objs: seq<Obj>, results: map<Identity, Apply.ApplyResult>, name: string) {
    exists k :: 0 <= k < |objs| && objs[k].instance == name && name != ""
                && (KeyOf(objs[k]) !in results || results[KeyOf(objs[k])].Failed?)
  }

  /** updateComponentStatusesFromApplyResults. */
  function MarkApplied(statuses: Statuses, objs: seq<Obj>, results: map<Identity, Apply.ApplyResult>): Statuses {
    map n | n in statuses ::
      if !ApplyFailedFor(objs, results, n) && statuses[n].message in {Initializing, BeingProcessed, BuiltSuccessfully}
      then statuses[n].(message := AppliedAwaitingHealth) else statuses[n]
  }

  function ApplyAll(objs: seq<Obj>, statuses: Statuses, ans: Oracle): Applying {
    var start := Applying(map[], statuses, [], [], None, false);
    if objs == [] then start
    else
      var a := ApplyFrom(objs, 0, start, ans);
      if a.stopped then a else a.(statuses := MarkApplied(a.statuses, objs, a.results))
  }

  // ----- checkHealthAndCalculateStatus -----

  datatype Checking = Checking(statuses: Statuses, allReady: bool, requeue: bool, firstError: Option<Error>)

  predicate HasComponent(spec: Spec, name: string) {
    exists k :: 0 <= k < |spec.components| && spec.components[k].name == name
  }

  /** What one round of the loop decides about one entry. */
  datatype One = One(entry: CompStatus, ready: bool, requeue: bool, error: Option<Error>)

  /** The kind and version looked up are those of component 0, the name is the raw component name. */
  function CheckOne(app: App, name: string, prior: CompStatus, ans: Oracle): One {
    if app.spec.components == [] then One(prior, true, false, None)
    else
      var head := app.spec.components[0];
      var entry := prior.(namespace := app.namespace, resourceName := name, apiVersion := head.apiVersion,
                          kind := head.kind);
      if !HasComponent(app.spec, name) then One(entry, false, false, Some(Error(SpecMissing, name, false)))
      else if Marked(entry.message) then One(entry.(health := false), false, false, None)
      else if name == "" || head.kind == "" || head.apiVersion == "" then
        One(entry.(health := false, message := ResourceInfoMissing), false, false, None)
      else
        match Health.CheckHealth(head.apiVersion, head.kind, ans.probes(name))
        case CheckFailed(e) => One(entry.(health := false, message := K8sHealthCheckError(e)), false, true, Some(e))
        case Unhealthy(u) => One(entry.(health := false, message := FromHealthCheck(u)), false, true, None)
        case Healthy => One(entry.(health := true, message := ReadyAndHealthy), true, false, None)
  }

  function CheckStep(app: App, name: string, c: Checking, ans: Oracle): Checking
    requires name in c.statuses
  {
    var one := CheckOne(app, name, c.statuses[name], ans);
    Checking(c.statuses[name := one.entry], c.allReady && one.ready, c.requeue || one.requeue,
             if one.error.Some? then FirstOf(c.firstError, one.error.value) else c.firstError)
  }

  function CheckFrom(app: App, order: seq<string>, i: nat, c: Checking, ans: Oracle): Checking
    requires i <= |order|
    requires forall k :: 0 <= k < |order| ==> order[k] in c.statuses
    decreases |order| - i
  {
    if i == |order| then c else CheckFrom(app, order, i + 1, CheckStep(app, order[i], c, ans), ans)
  }

  /** An order in which a map's keys can be visited. */
  predicate VisitingOrder(order: seq<string>, keys: set<string>) {
    && (forall k :: k in keys ==> k in order) && (forall k :: k in order ==> k in keys)
    && forall i, j :: 0 <= i < j < |order| ==> order[i] != order[j]
  }

  predicate IsLeast(k: string, keys: set<string>) {
    k in keys && forall j :: j in keys ==> j == k || Before(k, j)
  }

  lemma {:induction false} LeastExists(keys: set<string>)
    requires keys != {}
    ensures exists k :: IsLeast(k, keys)
    ensures forall j, k :: IsLeast(j, keys) && IsLeast(k, keys) ==> j == k
  {
    var x :| x in keys;
    if keys == {x} {
      assert IsLeast(x, keys);
    } else {
      LeastExists(keys - {x});
      var k :| IsLeast(k, keys - {x});
      BeforeTotal(k, x);
      if Before(k, x) {
        assert IsLeast(k, keys);
      } else {
        forall j | j in keys && j != x ensures Before(x, j) {
          if j != k {
            BeforeTransitive(x, k, j);
          }
        }
        assert IsLeast(x, keys);
      }
    }
    forall j, k | IsLeast(j, keys) && IsLeast(k, keys) ensures j == k {
      BeforeTotal(j, k);
    }
  }

  function Least(keys: set<string>): (k: string)
    requires keys != {}
    ensures IsLeast(k, keys)
  {
    LeastExists(keys);
    var k :| k in keys && IsLeast(k, keys); k
  }

  function InOrder(keys: set<string>): (order: seq<string>)
    ensures VisitingOrder(order, keys)
    decreases |keys|
  {
    if keys == {} then [] else [Least(keys)] + InOrder(keys - {Least(keys)})
  }

  /** Go visits a map in any order: the one the environment proposes, if it is one. */
  function Visit(ans: Oracle, keys: set<string>): (order: seq<string>)
    ensures VisitingOrder(order, keys)
  {
    if VisitingOrder(ans.order, keys) then ans.order else InOrder(keys)
  }

  function CheckAll(app: App, statuses: Statuses, ans: Oracle): Checking {
    CheckFrom(app, Visit(ans, statuses.Keys), 0, Checking(statuses, true, false, None), ans)
  }

  // ----- phases -----

  /** updateComponentStatusesForError. */
  function MarkAll(statuses: Statuses, e: Error): Statuses {
    map n | n in statuses ::
      if Marked(statuses[n].message) then statuses[n]
      else statuses[n].(health := false, message := OverallReconcileError(e))
  }

  /** The reason determineFinalPhase reads off an error text. */
  function ReasonFor(text: string): Reason {
    if Contains(text, "apply") || Contains(text, "Apply") || Contains(text, "OwnerRef") then ApplyFailed
    else if Contains(text, "build") || Contains(text, "Build") || Contains(text, "Config") || Contains(text, "CompDef")
            || Contains(text, "strategy") || Contains(text, "Strategy") then ProcessingFailed
    else if Contains(text, "HealthCheck") || Contains(text, "health check") then HealthCheckFailed
    else Reason.ReconcileFailed
  }

  /** determineFinalPhase. */
  function FinalPhase(st: AppStatus, error: Option<Error>, allReady: bool): AppStatus {
    if st.phase == Suspended then WithCondition(st, Suspended, false, IntentionallySuspended, None)
    else if error.Some? then WithCondition(st, Phase.Failed, false, ReasonFor(Render(error.value)), error)
    else if allReady then WithCondition(st, Running, true, ComponentsReady, None)
    else if st.phase == Running || st.phase == Degraded then
      WithCondition(st, Degraded, false, ComponentsDegraded, None)
    else if st.phase == Creating then WithCondition(st, Creating, false, ComponentsCreating, None)
    else WithCondition(st, Updating, false, ComponentsApplying, None)
  }

  // ----- the statuses a cycle asks the server to store -----

  function StartedStatus(st: AppStatus): AppStatus {
    WithCondition(st, Creating, false, Processing, None)
  }

  function EmptiedStatus(st: AppStatus): AppStatus {
    WithCondition(st.(components := []), Running, true, NoComponentsDefined, None)
  }

  ghost predicate Keyed(statuses: Statuses) {
    KeyedByName(statuses)
  }

  ghost function SliceOf(statuses: Statuses): seq<CompStatus> {
    if Keyed(statuses) then Canonical(statuses) else []
  }

  /** handleReconcileError. */
  ghost function ErrorStatus(st: AppStatus, statuses: Statuses, reason: Reason, e: Error): AppStatus {
    WithCondition(st, Phase.Failed, false, reason, Some(e)).(components := SliceOf(MarkAll(statuses, e)))
  }

  /** The whole of steps 4 to 7: build, pause or resume, apply, check, decide. */
  datatype Result = Result(status: AppStatus, events: seq<What>, applied: seq<Obj>, error: Option<Error>,
                           ready: bool, requeue: bool, panicked: bool, buildFailed: bool)

  function ResumedPhase(st: AppStatus, spec: Spec): Phase {
    if WantsSuspend(spec) then Suspended else if st.phase == Suspended then Updating else st.phase
  }

  /** The objects to apply and the replica record, after handlePauseResume. */
  function Paused(app: App, b: Building): (r: (seq<Obj>, Record)) {
    PauseFrom(b.objects, 0, WantsSuspend(app.spec), app.status.suspendedReplicas)
  }

  /** Apply errors skip the health check. */
  ghost function Checked(app: App, a: Applying, ans: Oracle): Checking {
    if a.firstError.Some? then Checking(MarkAll(a.statuses, a.firstError.value), false, true, a.firstError)
    else
      var c := CheckAll(app, a.statuses, ans);
      c.(requeue := c.requeue || c.firstError.Some?)
  }

  function Marking(st: AppStatus, app: App, done: bool): AppStatus {
    if done && app.changeID != "" then st.(lastChangeID := app.changeID) else st
  }

  ghost function Process(first: Spec, app: App, ans: Oracle): Result {
    var b := BuildAll(app, Initialize(first).0, ans.now);
    var built := app.status.(annotations := b.annotations);
    if b.panicked then Result(built, b.events, [], None, false, false, true, false)
    else if b.error.Some? then
      Result(ErrorStatus(built, b.statuses, ProcessingFailed, b.error.value), b.events, [], b.error, false, false,
             false, true)
    else
      var (objs, record) := Paused(app, b);
      var a := ApplyAll(objs, b.statuses, ans);
      var c := Checked(app, a, ans);
      var st := built.(suspendedReplicas := record, phase := ResumedPhase(app.status, app.spec));
      var final := FinalPhase(st, c.firstError, c.allReady).(components := SliceOf(c.statuses));
      var done := c.allReady && c.firstError.None?;
      var event := if c.firstError.Some? then What.ReconcileFailed else if c.allReady then ReconcileCompleted
                   else ReconcileProgressing;
      Result(Marking(final, app, done), b.events + a.events + [event], a.applied, c.firstError, c.allReady, c.requeue,
             false, false)
  }
}
