/** What the build loop establishes: which specifications build, what is recorded, and which
    workloads come out. None of it depends on the time or on the hashes recorded before. */
module BuildFacts {
  import opened Text
  import opened Names
  import opened Config
  import opened Builder
  import opened Status
  import opened StatusOrder
  import opened PauseResume
  import opened Api
  import opened Cycle
  import Volumes

  predicate Buildable(namespace: string, c: Component) {
    && c.properties.Parsed? && Verified(c.properties.config)
    && namespace != ""
    && forall x :: x in Identities(c, c.properties.config) ==> x.name != ""
  }

  /** The sanitised name is empty exactly when the first 63 characters are hyphens and underscores. */
  lemma ResourceNameEmpty(s: string)
    ensures DeriveResourceName(s) == "" <==> forall i :: 0 <= i < |s| && i < 63 ==> s[i] == '-' || s[i] == '_'
  {
    hide DeriveResourceName;
    ResourceNameCharacters(s);
    var r := DeriveResourceName(s);
    if r != "" {
      assert s[|r| - 1] != '-' && s[|r| - 1] != '_';
    }
  }

  /** Which components build, in terms of their configuration: everything the builder asks for is
      there, the name is more than hyphens and underscores, and the account says whether it is to
      be created. */
  lemma BuildableIff(namespace: string, c: Component)
    ensures Buildable(namespace, c) <==>
              && namespace != "" && c.properties.Parsed?
              && var cfg := c.properties.config;
                 && cfg.replicas.Some?
                 && cfg.image.Some? && (cfg.image.value.repository != "" || cfg.image.value.tag != "")
                 && cfg.ports != []
                 && cfg.storage.Some? && cfg.storage.value.enabled && cfg.storage.value.hasSize
                 && cfg.storage.value.mountPath != ""
                 && !(cfg.account.Some? && cfg.account.value.create.None?)
                 && exists i :: 0 <= i < |c.name| && i < 63 && c.name[i] != '-' && c.name[i] != '_'
  {
    hide DeriveResourceName;
    ResourceNameEmpty(c.name);
    if c.properties.Parsed? {
      NamesOfIdentities(c, c.properties.config);
    }
  }

  lemma NamesOfIdentities(c: Component, cfg: RuntimeConfig)
    ensures (forall x :: x in Identities(c, cfg) ==> x.name != "") <==>
              DeriveResourceName(c.name) != "" && !(cfg.account.Some? && cfg.account.value.create.None?)
  {
    hide DeriveResourceName;
    var ids := Identities(c, cfg);
    var base := DeriveResourceName(c.name);
    assert |ConfigMapName(c.name)| > 0 && |HeadlessName(c.name)| > 0;
    assert Identity(StatefulSet, base) in ids;
    if BuildsServiceAccount(cfg.account) {
      NamelessServiceAccount(c.name, cfg.account);
      assert ids[|ids| - 1] == Identity(Account, DeriveServiceAccountName(c.name, cfg.account));
    }
  }

  lemma BuildableIffNameable(namespace: string, c: Component, annotations: map<string, ConfigHash>, now: Time)
    requires c.properties.Parsed? && Verified(c.properties.config)
    ensures var objs := ObjectsOf(namespace, c, c.properties.config, annotations, now);
            FirstUnnameable(objs, 0) == |objs| <==> Buildable(namespace, c)
  {
    var cfg := c.properties.config;
    var objs := ObjectsOf(namespace, c, cfg, annotations, now);
    ObjectsHaveIdentities(namespace, c, cfg, annotations, now);
    var ids := Identities(c, cfg);
    assert |objs| > 0;
    assert forall k :: 0 <= k < |objs| ==> (Nameable(objs[k]) <==> ids[k].name != "" && namespace != "");
    assert (forall k :: 0 <= k < |ids| ==> ids[k].name != "") <==> (forall x :: x in ids ==> x.name != "");
    assert FirstUnnameable(objs, 0) == |objs| <==> forall k :: 0 <= k < |objs| ==> Nameable(objs[k]);
    assert namespace == "" ==> !Nameable(objs[0]);
  }

  /** One step: the hash record is brought up to date whether or not the component builds. */
  lemma BuildStepFacts(namespace: string, c: Component, b: Building, now: Time)
    requires !Stopped(b)
    ensures var r := BuildStep(namespace, c, b, now);
            && (r.panicked <==> c.name !in b.statuses)
            && (!Stopped(r) <==> c.name in b.statuses && Buildable(namespace, c))
            && r.annotations == (if r.panicked then b.annotations else b.annotations + Recorded(map[], c))
            && r.statuses.Keys == b.statuses.Keys
            && (KeyedByName(b.statuses) ==> KeyedByName(r.statuses))
            && (!Stopped(r) ==>
                  && r.objects == b.objects + ObjectsOf(namespace, c, c.properties.config, b.annotations, now)
                  && r.annotations == Recorded(b.annotations, c)
                  && r.statuses == b.statuses[c.name := b.statuses[c.name].(message := BuiltSuccessfully)])
  {
    hide Identities, ObjectsOf;
    if c.properties.Parsed? && Verified(c.properties.config) {
      BuildableIffNameable(namespace, c, b.annotations, now);
    }
  }

  // ----- the hash record -----

  /** The hashes a build writes, from component i to the end or to the failing component. */
  function WritesFrom(namespace: string, cs: seq<Component>, i: nat, known: set<string>): map<string, ConfigHash>
    requires i <= |cs|
    decreases |cs| - i
  {
    if i == |cs| || cs[i].name !in known then map[]
    else if !Buildable(namespace, cs[i]) then Recorded(map[], cs[i])
    else Recorded(map[], cs[i]) + WritesFrom(namespace, cs, i + 1, known)
  }

  /** Which names are known, which components build: the two things that stop a build. */
  ghost predicate AllBuild(namespace: string, cs: seq<Component>, i: nat, known: set<string>) {
    forall k :: i <= k < |cs| ==> cs[k].name in known && Buildable(namespace, cs[k])
  }

  lemma {:induction false} BuildFromStops(app: App, i: nat, b: Building, now: Time)
    requires i <= |app.spec.components| && !Stopped(b)
    ensures var r := BuildFrom(app, i, b, now);
            && (!Stopped(r) <==> AllBuild(app.namespace, app.spec.components, i, b.statuses.Keys))
            && r.statuses.Keys == b.statuses.Keys
            && (KeyedByName(b.statuses) ==> KeyedByName(r.statuses))
            && (r.panicked ==> exists k :: i <= k < |app.spec.components| && app.spec.components[k].name !in b.statuses)
    decreases |app.spec.components| - i
  {
    hide BuildStep, Buildable, Recorded, ObjectsOf, Identities;
    var cs := app.spec.components;
    if i < |cs| {
      var b' := BuildStep(app.namespace, cs[i], b, now);
      BuildStepFacts(app.namespace, cs[i], b, now);
      if Stopped(b') {
        assert BuildFrom(app, i + 1, b', now) == b';
      } else {
        BuildFromStops(app, i + 1, b', now);
      }
    }
  }

  lemma {:induction false} BuildFromRecord(app: App, i: nat, b: Building, now: Time)
    requires i <= |app.spec.components| && !Stopped(b)
    ensures BuildFrom(app, i, b, now).annotations
         == b.annotations + WritesFrom(app.namespace, app.spec.components, i, b.statuses.Keys)
    decreases |app.spec.components| - i
  {
    hide BuildStep, Buildable, Recorded, ObjectsOf, Identities;
    var cs := app.spec.components;
    if i < |cs| {
      var b' := BuildStep(app.namespace, cs[i], b, now);
      BuildStepFacts(app.namespace, cs[i], b, now);
      if Stopped(b') {
        assert BuildFrom(app, i + 1, b', now) == b';
      } else {
        BuildFromRecord(app, i + 1, b', now);
      }
    }
  }

  /** The record after a build: what was there, overwritten by what this specification writes. */
  lemma BuildAllFacts(app: App, statuses: Statuses, now: Time)
    ensures var r := BuildAll(app, statuses, now);
            && r.annotations == app.status.annotations + WritesFrom(app.namespace, app.spec.components, 0,
                                                                    statuses.Keys)
            && (!Stopped(r) <==> AllBuild(app.namespace, app.spec.components, 0, statuses.Keys))
            && r.statuses.Keys == statuses.Keys
            && (KeyedByName(statuses) ==> KeyedByName(r.statuses))
            && (r.panicked ==> exists k :: 0 <= k < |app.spec.components| && app.spec.components[k].name !in statuses)
  {
    var start := Building(app.status.annotations, [], statuses, [], None, false);
    BuildFromStops(app, 0, start, now);
    BuildFromRecord(app, 0, start, now);
  }

  // ----- initialization -----

  lemma {:induction false} InitFromEntries(cs: seq<Component>, i: nat, statuses: Statuses)
    requires i <= |cs| && KeyedByName(statuses)
    requires forall n :: n in statuses ==> statuses[n] == Fresh(n) && n != ""
    ensures var r := InitFrom(cs, i, statuses).0; KeyedByName(r) && (forall n :: n in r ==> r[n] == Fresh(n) && n != "")
    decreases |cs| - i
  {
    if i < |cs| && cs[i].name != "" && cs[i].name !in statuses {
      InitFromEntries(cs, i + 1, statuses[cs[i].name := Fresh(cs[i].name)]);
    }
  }

  lemma {:induction false} InitFromNames(cs: seq<Component>, i: nat, statuses: Statuses)
    requires i <= |cs| && InitFrom(cs, i, statuses).1.None?
    ensures var r := InitFrom(cs, i, statuses).0;
            && (forall n :: n in r <==> n in statuses || exists k :: i <= k < |cs| && cs[k].name == n)
            && (forall k :: i <= k < |cs| ==> cs[k].name != "" && cs[k].name !in statuses)
            && forall j, k :: i <= j < k < |cs| ==> cs[j].name != cs[k].name
    decreases |cs| - i
  {
    hide Fresh;
    if i < |cs| {
      var s' := statuses[cs[i].name := Fresh(cs[i].name)];
      InitFromNames(cs, i + 1, s');
      assert forall k :: i < k < |cs| ==> cs[k].name !in s';
    }
  }

  /** The first component without a name, or with the name of an earlier one. */
  ghost predicate FirstBad(cs: seq<Component>, k: nat) {
    && k < |cs| && (cs[k].name == "" || exists j :: 0 <= j < k && cs[j].name == cs[k].name)
    && forall i :: 0 <= i < k ==> cs[i].name != "" && forall j :: 0 <= j < i ==> cs[j].name != cs[i].name
  }

  lemma {:induction false} InitFromTold(cs: seq<Component>, i: nat, statuses: Statuses) returns (k: nat)
    requires i <= |cs| && forall n :: n in statuses <==> exists j :: 0 <= j < i && cs[j].name == n
    requires forall l :: 0 <= l < i ==> cs[l].name != "" && forall j :: 0 <= j < l ==> cs[j].name != cs[l].name
    requires InitFrom(cs, i, statuses).1.Some?
    ensures FirstBad(cs, k)
    ensures InitFrom(cs, i, statuses).1 == Some(if cs[k].name == "" then Error(EmptyComponentName, "", false)
                                                else Error(DuplicateComponentName, cs[k].name, false))
    decreases |cs| - i
  {
    k := i;
    if cs[i].name != "" && cs[i].name !in statuses {
      var s' := statuses[cs[i].name := Fresh(cs[i].name)];
      forall n ensures n in s' <==> exists j :: 0 <= j < i + 1 && cs[j].name == n {
        if n == cs[i].name {
          assert 0 <= i < i + 1 && cs[i].name == n;
        }
      }
      k := InitFromTold(cs, i + 1, s');
    }
  }

  /** Which specifications are rejected, and with which error: the first bad component decides. */
  lemma InitializeTold(spec: Spec)
    ensures Initialize(spec).1.Some? <==> exists k: nat :: FirstBad(spec.components, k)
    ensures forall k: nat :: FirstBad(spec.components, k) ==>
              Initialize(spec).1 == Some(if spec.components[k].name == "" then Error(EmptyComponentName, "", false)
                                         else Error(DuplicateComponentName, spec.components[k].name, false))
    ensures forall n :: n in Initialize(spec).0 ==>
              Initialize(spec).0[n] == CompStatus(n, "", "", "", "", false, Initializing)
  {
    hide Initialize;
    InitializeFacts(spec);
    if Initialize(spec).1.None? {
      InitializeNames(spec);
    } else {
      var k := FirstBadComponent(spec);
      forall l: nat | FirstBad(spec.components, l) ensures l == k {
      }
    }
  }

  /** No component name is empty, none occurs twice. */
  ghost predicate NamesInOrder(spec: Spec) {
    && (forall k :: 0 <= k < |spec.components| ==> spec.components[k].name != "")
    && forall j, k :: 0 <= j < k < |spec.components| ==> spec.components[j].name != spec.components[k].name
  }

  lemma InitializeIff(spec: Spec)
    ensures Initialize(spec).1.None? <==> NamesInOrder(spec)
  {
    hide Initialize;
    if Initialize(spec).1.None? {
      InitializeNames(spec);
    } else {
      var k := FirstBadComponent(spec);
    }
  }

  lemma FirstBadComponent(spec: Spec) returns (k: nat)
    requires Initialize(spec).1.Some?
    ensures FirstBad(spec.components, k)
    ensures Initialize(spec).1 == Some(if spec.components[k].name == "" then Error(EmptyComponentName, "", false)
                                       else Error(DuplicateComponentName, spec.components[k].name, false))
  {
    k := InitFromTold(spec.components, 0, map[]);
  }

  lemma InitializeNames(spec: Spec)
    requires Initialize(spec).1.None?
    ensures NamesInOrder(spec)
  {
    InitFromNames(spec.components, 0, map[]);
  }

  ghost predicate DistinctComponents(spec: Spec) {
    forall j, k :: 0 <= j < k < |spec.components| ==> spec.components[j].name != spec.components[k].name
  }

  /** An accepted specification has distinct non-empty names, one status entry each. */
  lemma InitializeFacts(spec: Spec)
    ensures var (r, e) := Initialize(spec);
            && KeyedByName(r) && (forall n :: n in r ==> r[n] == Fresh(n) && n != "")
            && (e.None? ==>
                  && DistinctComponents(spec)
                  && (forall k :: 0 <= k < |spec.components| ==> spec.components[k].name in r)
                  && forall n :: n in r ==> HasComponent(spec, n))
  {
    InitFromEntries(spec.components, 0, map[]);
    if Initialize(spec).1.None? {
      InitFromNames(spec.components, 0, map[]);
    }
  }

  // ----- the objects -----

  function KeysOf(objs: seq<Obj>): seq<Identity> {
    seq(|objs|, i requires 0 <= i < |objs| => KeyOf(objs[i]))
  }

  /** The one workload of a component. */
  ghost predicate WorkloadOf(o: Obj, c: Component) {
    && IsWorkload(o) && o.instance == c.name && o.name == DeriveResourceName(c.name)
    && c.properties.Parsed? && c.properties.config.replicas == Some(o.body.replicas)
  }

  function Workloads(objs: seq<Obj>): seq<Obj> {
    if objs == [] then []
    else Workloads(objs[..|objs| - 1]) + if IsWorkload(objs[|objs| - 1]) then [objs[|objs| - 1]] else []
  }

  lemma {:induction false} WorkloadsConcatenation(a: seq<Obj>, b: seq<Obj>)
    ensures Workloads(a + b) == Workloads(a) + Workloads(b)
  {
    if b == [] {
      assert a + b == a;
    } else {
      var c := b[..|b| - 1];
      WorkloadsConcatenation(a, c);
      assert (a + b)[..|a + b| - 1] == a + c;
    }
  }

  lemma {:induction false} WorkloadsMembers(objs: seq<Obj>, o: Obj)
    ensures o in Workloads(objs) <==> o in objs && IsWorkload(o)
  {
    if objs != [] {
      WorkloadsMembers(objs[..|objs| - 1], o);
      assert objs == objs[..|objs| - 1] + [objs[|objs| - 1]];
    }
  }

  /** The workloads are those of the first i components, one each and in their order. */
  ghost predicate Accounts(objs: seq<Obj>, cs: seq<Component>, i: nat)
    requires i <= |cs|
  {
    var ws := Workloads(objs);
    |ws| == i && forall j :: 0 <= j < i ==> WorkloadOf(ws[j], cs[j])
  }

  lemma {:induction false} AccountedOnce(objs: seq<Obj>, cs: seq<Component>, i: nat)
    requires i <= |cs| && Accounts(objs, cs, i)
    requires forall j, k :: 0 <= j < k < |cs| ==> cs[j].name != cs[k].name
    ensures OneWorkloadEach(objs)
  {
    hide DeriveResourceName;
    if objs != [] {
      var front, last := objs[..|objs| - 1], objs[|objs| - 1];
      var ws := Workloads(objs);
      if IsWorkload(last) {
        assert Workloads(front) == ws[..i - 1];
        AccountedOnce(front, cs, i - 1);
        forall k | 0 <= k < |front| && IsWorkload(front[k]) ensures front[k].instance != last.instance {
          WorkloadsMembers(front, front[k]);
          var j :| 0 <= j < i - 1 && ws[j] == front[k];
          assert WorkloadOf(ws[j], cs[j]) && WorkloadOf(ws[i - 1], cs[i - 1]);
        }
      } else {
        assert Workloads(front) == ws;
        AccountedOnce(front, cs, i);
      }
    }
  }

  lemma OneOfTwo(w: Obj, o: Obj)
    requires IsWorkload(w) && !IsWorkload(o)
    ensures Workloads([w, o]) == [w]
  {
    assert [w, o][..1] == [w] && [w][..0] == [];
    assert Workloads([w]) == Workloads([]) + [w];
  }

  lemma NoWorkloadsBeside(namespace: string, c: Component, cfg: RuntimeConfig)
    ensures Workloads(ConfigObjects(namespace, c, cfg)) == []
    ensures Workloads(ClientObjects(namespace, c, cfg)) == []
    ensures Workloads(AccountObjects(namespace, c, cfg)) == []
  {
    hide DeriveResourceName, HeadlessName, ConfigMapName, DeriveServiceAccountName;
    NoWorkloads(ConfigObjects(namespace, c, cfg));
    NoWorkloads(ClientObjects(namespace, c, cfg));
    NoWorkloads(AccountObjects(namespace, c, cfg));
  }

  lemma WorkloadAmongItsObjects(namespace: string, c: Component, stamp: Option<Time>)
    requires c.properties.Parsed? && Verified(c.properties.config) && c.name != ""
    ensures var ws := Workloads(WorkloadObjects(namespace, c, c.properties.config, stamp));
            |ws| == 1 && WorkloadOf(ws[0], c) && ws[0].body.restartedAt == stamp
  {
    hide DeriveResourceName, HeadlessName;
    var objs := WorkloadObjects(namespace, c, c.properties.config, stamp);
    assert objs == [objs[0], objs[1]];
    OneOfTwo(objs[0], objs[1]);
  }

  /** A component's own objects contain one workload. */
  lemma OwnWorkload(namespace: string, c: Component, annotations: map<string, ConfigHash>, now: Time)
    requires c.properties.Parsed? && Verified(c.properties.config) && c.name != ""
    ensures var ws := Workloads(ObjectsOf(namespace, c, c.properties.config, annotations, now));
            && |ws| == 1 && WorkloadOf(ws[0], c)
            && ws[0].body.restartedAt == if NeedsRestart(annotations, c, c.properties.config) then Some(now) else None
  {
    hide ConfigObjects, WorkloadObjects, ClientObjects, AccountObjects, NeedsRestart, Workloads;
    var cfg := c.properties.config;
    var stamp := if NeedsRestart(annotations, c, cfg) then Some(now) else None;
    var a, b := ConfigObjects(namespace, c, cfg), WorkloadObjects(namespace, c, cfg, stamp);
    var d, e := ClientObjects(namespace, c, cfg), AccountObjects(namespace, c, cfg);
    NoWorkloadsBeside(namespace, c, cfg);
    WorkloadAmongItsObjects(namespace, c, stamp);
    WorkloadsConcatenation(a + b + d, e);
    WorkloadsConcatenation(a + b, d);
    WorkloadsConcatenation(a, b);
  }

  lemma {:induction false} NoWorkloads(objs: seq<Obj>)
    requires forall k :: 0 <= k < |objs| ==> !IsWorkload(objs[k])
    ensures Workloads(objs) == []
  {
    if objs != [] {
      NoWorkloads(objs[..|objs| - 1]);
    }
  }

  lemma {:induction false} BuildFromWorkloads(app: App, i: nat, b: Building, now: Time)
    requires i <= |app.spec.components| && !Stopped(b) && "" !in b.statuses
    requires Accounts(b.objects, app.spec.components, i)
    ensures var r := BuildFrom(app, i, b, now);
            !Stopped(r) ==> Accounts(r.objects, app.spec.components, |app.spec.components|)
    decreases |app.spec.components| - i
  {
    var cs := app.spec.components;
    if i < |cs| {
      var b' := BuildStep(app.namespace, cs[i], b, now);
      BuildStepFacts(app.namespace, cs[i], b, now);
      if !Stopped(b') {
        var own := ObjectsOf(app.namespace, cs[i], cs[i].properties.config, b.annotations, now);
        OwnWorkload(app.namespace, cs[i], b.annotations, now);
        WorkloadsConcatenation(b.objects, own);
        assert Accounts(b'.objects, cs, i + 1);
        BuildFromWorkloads(app, i + 1, b', now);
      } else {
        assert BuildFrom(app, i + 1, b', now) == b';
      }
    }
  }

  /** A completed build has exactly one workload for each component. */
  lemma BuildAllWorkloads(app: App, statuses: Statuses, now: Time)
    requires "" !in statuses
    ensures var r := BuildAll(app, statuses, now);
            !Stopped(r) ==> Accounts(r.objects, app.spec.components, |app.spec.components|)
  {
    BuildFromWorkloads(app, 0, Building(app.status.annotations, [], statuses, [], None, false), now);
  }

  lemma {:induction false} BuildFromKeys(app: App, i: nat, b: Building, now: Time)
    requires i <= |app.spec.components| && !Stopped(b)
    requires AllBuildable(app.spec.components) && KeysOf(b.objects) == AllIdentities(app.spec.components[..i])
    ensures var r := BuildFrom(app, i, b, now);
            !Stopped(r) ==> KeysOf(r.objects) == AllIdentities(app.spec.components)
    decreases |app.spec.components| - i
  {
    hide BuildStep, Buildable, Recorded, ObjectsOf, Identities;
    var cs := app.spec.components;
    if i < |cs| {
      var b' := BuildStep(app.namespace, cs[i], b, now);
      BuildStepFacts(app.namespace, cs[i], b, now);
      if !Stopped(b') {
        var own := ObjectsOf(app.namespace, cs[i], cs[i].properties.config, b.annotations, now);
        ObjectsHaveIdentities(app.namespace, cs[i], cs[i].properties.config, b.annotations, now);
        assert KeysOf(b'.objects) == KeysOf(b.objects) + KeysOf(own);
        assert KeysOf(own) == Identities(cs[i], cs[i].properties.config);
        assert cs[..i + 1][..i] == cs[..i];
        BuildFromKeys(app, i + 1, b', now);
      } else {
        assert BuildFrom(app, i + 1, b', now) == b';
      }
    } else {
      assert cs[..i] == cs;
    }
  }

  /** The identities of the desired objects are a function of the specification alone. */
  lemma BuildAllKeys(app: App, statuses: Statuses, now: Time)
    requires AllBuildable(app.spec.components)
    ensures var r := BuildAll(app, statuses, now);
            !Stopped(r) ==> KeysOf(r.objects) == AllIdentities(app.spec.components)
  {
    assert app.spec.components[..0] == [];
    assert KeysOf([]) == [];
    BuildFromKeys(app, 0, Building(app.status.annotations, [], statuses, [], None, false), now);
  }

  /** Desired objects have distinct result keys exactly when the components are pairwise compatible. */
  lemma DesiredObjectsDistinct(app: App, statuses: Statuses, now: Time)
    requires AllBuildable(app.spec.components) && !Stopped(BuildAll(app, statuses, now))
    ensures Volumes.Distinct(KeysOf(BuildAll(app, statuses, now).objects)) <==> PairwiseCompatible(app.spec.components)
  {
    BuildAllKeys(app, statuses, now);
    DistinctIffCompatible(app.spec.components);
  }
}
