/** The API server's side of one ApplicationDefinition: versioned writes, the status
    subresource, and other clients acting between any two controller calls. */
module Api {
  import opened Text
  import opened Config
  import opened Status
  import opened PauseResume
  import Builder
  import Apply
  import Health

  const FINALIZER := "infini.cloud/finalizer"

  datatype App = App(
    name: string, namespace: string, rv: nat, generation: nat, deleting: bool, finalizers: seq<string>,
    changeID: string, webhookURL: string, spec: Spec, status: AppStatus)

  // ----- other clients -----

  /** A full update of everything but the status, an update of unrelated metadata, a deletion. */
  datatype Edit =
    | Put(spec: Spec, changeID: string, webhookURL: string, finalizers: seq<string>)
    | Touch
    | Delete

  /** An object that is being deleted disappears with its last finalizer. */
  function Settle(a: App): Option<App> {
    if a.deleting && a.finalizers == [] then None else Some(a)
  }

  /** The version moves with every change, the generation only with the specification and on deletion. */
  function Changed(before: App, after: App): App {
    if before == after then before
    else after.(rv := before.rv + 1, generation := before.generation + if before.spec == after.spec then 0 else 1)
  }

  function ApplyEdit(e: Edit, a: App): Option<App> {
    match e
    case Put(spec, changeID, webhookURL, finalizers) =>
      Settle(Changed(a, a.(spec := spec, changeID := changeID, webhookURL := webhookURL, finalizers := finalizers)))
    case Touch => Some(a.(rv := a.rv + 1))
    case Delete =>
      if a.deleting then Some(a)
      else Settle(a.(deleting := true, rv := a.rv + 1, generation := a.generation + 1))
  }

  function ApplyEdits(edits: seq<Edit>, store: Option<App>): Option<App> {
    if store.None? || edits == [] then store else ApplyEdits(edits[1..], ApplyEdit(edits[0], store.value))
  }

  /** What other clients can do to an object: they never touch its status, and a version or
      generation that stands still shows that nothing it covers has changed. */
  ghost predicate Evolved(a: App, b: App) {
    && a.name == b.name && a.namespace == b.namespace && a.status == b.status
    && a.rv <= b.rv && (a.rv == b.rv ==> a == b)
    && a.generation <= b.generation
    && (a.generation == b.generation ==> a.spec == b.spec && a.deleting == b.deleting)
    && (a.deleting ==> b.deleting)
  }

  ghost predicate StoreEvolved(s: Option<App>, t: Option<App>) {
    t.Some? ==> s.Some? && Evolved(s.value, t.value)
  }

  lemma {:induction false} EditsEvolve(edits: seq<Edit>, store: Option<App>)
    ensures StoreEvolved(store, ApplyEdits(edits, store))
  {
    if store.Some? && edits != [] {
      EditsEvolve(edits[1..], ApplyEdit(edits[0], store.value));
    }
  }

  // ----- the outside world of one controller -----

  /** Everything the controller does not decide, at one API call: edits made just before it,
      whether the call fails, and the answers of lookups, applies and health checks. */
  datatype Oracle = Oracle(
    edits: seq<Edit>, fault: bool, now: Builder.Time,
    listing: seq<string>, pvcFault: string -> bool,
    lookupFault: Builder.Identity -> Option<string>, ownerFault: Builder.Identity -> Option<string>,
    applies: Builder.Identity -> Apply.Script, probes: string -> Health.Probe, order: seq<string>)

  type Environment = nat -> Oracle

  /** Why the controller wrote: which step, from which object it had read, with which answers. */
  datatype Cause =
    | Claimed
    | Released(listed: seq<string>)
    | Started
    | Emptied(app: App)
    | Rejected(app: App)
    | Processed(first: Spec, app: App, answers: Oracle)

  datatype Write = Write(before: App, after: App, cause: Cause)

  predicate IsStatusWrite(c: Cause) {
    !c.Claimed? && !c.Released?
  }

  datatype What =
    | ProcessingStarted | BuilderFailed(component: string)
    | OwnerRefFailed(key: Builder.Identity) | ResourceFailed(key: Builder.Identity)
    | ResourceCreated(key: Builder.Identity)
    | ReconcileCompleted | ReconcileProgressing | ReconcileFailed

  /** An event handed to the webhook recorder. */
  datatype Event = Event(changeID: string, what: What)

  /** cluster holds the replica counts of the StatefulSets the controller applied; cleaned the
      claims whose deletion was confirmed; attempts counts write requests. */
  datatype World = World(
    store: Option<App>, tick: nat, attempts: nat, writes: seq<Write>, last: Option<Write>,
    events: seq<Event>, cleaned: seq<string>, cluster: map<string, int>)

  function Interfere(env: Environment, w: World): World {
    w.(store := ApplyEdits(env(w.tick).edits, w.store), tick := w.tick + 1)
  }

  datatype GetResult = Got(app: App) | NotFound | GetFailed(error: Error)

  function Get(env: Environment, w: World): (World, GetResult) {
    var w1 := Interfere(env, w);
    (w1, if env(w.tick).fault then GetFailed(Error(RequestFailed, "", false))
         else if w1.store.None? then NotFound
         else Got(w1.store.value))
  }

  datatype WriteResult = Accepted(app: App) | Conflict | Refused(error: Error)

  /** The optimistic lock, common to both kinds of write. */
  function Admit(env: Environment, w: World, app: App): (r: (World, WriteResult))
  {
    var w1 := Interfere(env, w).(attempts := w.attempts + 1);
    if env(w.tick).fault then (w1, Refused(Error(RequestFailed, "", false)))
    else if w1.store.None? then (w1, Refused(Error(ObjectNotFound, "", false)))
    else if w1.store.value.rv != app.rv then (w1, Conflict)
    else (w1, Accepted(w1.store.value))
  }

  /** The server rejects new finalizers on an object that is being deleted. */
  predicate AddsFinalizerTooLate(before: App, finalizers: seq<string>) {
    before.deleting && exists f :: f in finalizers && f !in before.finalizers
  }

  /** An ordinary update sends specification, metadata and finalizers and ignores the status. */
  function Update(env: Environment, w: World, app: App, cause: Cause): (World, WriteResult) {
    var (w1, r) := Admit(env, w, app);
    if !r.Accepted? then (w1, r)
    else if AddsFinalizerTooLate(r.app, app.finalizers) then (w1, Refused(Error(Forbidden, "", false)))
    else
      var before := r.app;
      var after := Changed(before, before.(spec := app.spec, changeID := app.changeID, webhookURL := app.webhookURL,
                                           finalizers := app.finalizers));
      (w1.(store := Settle(after), writes := w1.writes + [Write(before, after, cause)]), Accepted(after))
  }

  /** A status update sends the status and ignores everything else. */
  function UpdateStatus(env: Environment, w: World, app: App, cause: Cause): (World, WriteResult) {
    var (w1, r) := Admit(env, w, app);
    if !r.Accepted? then (w1, r)
    else
      var before := r.app;
      var after := Changed(before, before.(status := app.status));
      var entry := Write(before, after, cause);
      (w1.(store := Some(after), writes := w1.writes + [entry], last := Some(entry)), Accepted(after))
  }

  /** recordEvent: webhook delivery must be configured and the change not yet marked. */
  function Emitted(app: App, what: What): seq<Event> {
    if app.webhookURL == "" || app.changeID == "" || app.status.lastChangeID == app.changeID then []
    else [Event(app.changeID, what)]
  }

  /** The replica counts in the cluster after one more object has been applied. */
  function DeployedAlso(cluster: map<string, int>, o: Builder.Obj): map<string, int> {
    if IsWorkload(o) then cluster[o.name := o.body.replicas] else cluster
  }

  // ----- the server as the controller sees it -----

  class Server {
    const env: Environment
    var world: World

    constructor (env: Environment, world: World)
      ensures this.env == env && this.world == world
    {
      this.env := env;
      this.world := world;
    }

    method Read() returns (r: GetResult)
      modifies this
      ensures (world, r) == Get(env, old(world))
    {
      world := Interfere(env, world);
      if env(world.tick - 1).fault {
        return GetFailed(Error(RequestFailed, "", false));
      }
      match world.store {
        case None => return NotFound;
        case Some(app) => return Got(app);
      }
    }

    method Write(app: App, cause: Cause) returns (r: WriteResult)
      modifies this
      ensures (world, r) == Update(env, old(world), app, cause)
    {
      var (w, answer) := Update(env, world, app, cause);
      world := w;
      return answer;
    }

    method WriteStatus(app: App, cause: Cause) returns (r: WriteResult)
      modifies this
      ensures (world, r) == UpdateStatus(env, old(world), app, cause)
    {
      var (w, answer) := UpdateStatus(env, world, app, cause);
      world := w;
      return answer;
    }

    /** Listing the claims: a request like any other. */
    method List() returns (ok: bool, listing: seq<string>)
      modifies this
      ensures world == Interfere(env, old(world))
      ensures ok == !env(old(world).tick).fault && listing == env(old(world).tick).listing
    {
      ok, listing := !env(world.tick).fault, env(world.tick).listing;
      world := Interfere(env, world);
    }

    /** Deleting one of the claims of the last listing. */
    method DeleteClaim(claim: string, listedAt: nat) returns (ok: bool)
      modifies this
      ensures ok == !env(listedAt).pvcFault(claim)
      ensures world == if ok then old(world).(cleaned := old(world).cleaned + [claim]) else old(world)
    {
      ok := !env(listedAt).pvcFault(claim);
      if ok {
        world := world.(cleaned := world.cleaned + [claim]);
      }
    }

    /** Applying one object: what the API answers, and what is then deployed. */
    method ApplyOne(o: Builder.Obj) returns (result: Apply.ApplyResult)
      modifies this
      ensures result == Apply.ApplyObject(o, env(old(world).tick).applies(Builder.KeyOf(o)))
      ensures world == if result.Applied? then old(world).(cluster := DeployedAlso(old(world).cluster, o))
                       else old(world)
    {
      var attempts;
      result, attempts := Apply.ApplyObjectV2(o, env(world.tick).applies(Builder.KeyOf(o)));
      if result.Applied? {
        world := world.(cluster := DeployedAlso(world.cluster, o));
      }
    }

    method Record(app: App, what: What)
      modifies this
      ensures world == old(world).(events := old(world).events + Emitted(app, what))
    {
      world := world.(events := world.events + Emitted(app, what));
    }
  }
}
