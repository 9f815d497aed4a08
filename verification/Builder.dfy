/** The objects of one component (pkg/builders/runtime/builder.go) and their identity in the
    apply-result map (internal/controller/common/kubeutil/apply.go). */
module Builder {
  import opened Text
  import opened Names
  import opened ServicePorts
  import opened Config
  import Volumes

  type Time = nat

  datatype Kind = ConfigMap | StatefulSet | Service | Account

  datatype Body =
    | Files(data: map<string, string>)
    | Workload(replicas: int, restartedAt: Option<Time>, serviceName: string, claims: seq<string>)
    | HeadlessPorts(headlessPorts: seq<PortSpec>)
    | ClientPorts(clientPorts: seq<PortSpec>)
    | AccountBody

  /** instance is the component-instance label the controller stamps. */
  datatype Obj = Obj(kind: Kind, name: string, namespace: string, instance: string, body: Body)

  function GroupVersionKind(k: Kind): string {
    match k
    case ConfigMap => "/v1, Kind=ConfigMap"
    case StatefulSet => "apps/v1, Kind=StatefulSet"
    case Service => "/v1, Kind=Service"
    case Account => "/v1, Kind=ServiceAccount"
  }

  /** BuildObjectResultMapKey. */
  function ResultKey(k: Kind, namespace: string, name: string): string {
    GroupVersionKind(k) + "/" + namespace + "/" + name
  }

  /** Three characters tell the kinds apart. */
  lemma KindShows(k: Kind, namespace: string, n: string)
    ensures var key := ResultKey(k, namespace, n);
            && |key| > 17
            && key[0] == (if k == StatefulSet then 'a' else '/')
            && (k != StatefulSet ==> key[10] == if k == ConfigMap then 'C' else 'S')
            && (k == Service || k == Account ==> key[17] == if k == Account then 'A' else '/')
  {
  }

  lemma ResultKeyText(namespace: string, n: string)
    ensures ResultKey(ConfigMap, namespace, n) == "/v1, Kind=ConfigMap/" + namespace + "/" + n
    ensures ResultKey(StatefulSet, namespace, n) == "apps/v1, Kind=StatefulSet/" + namespace + "/" + n
    ensures ResultKey(Service, namespace, n) == "/v1, Kind=Service/" + namespace + "/" + n
    ensures ResultKey(Account, namespace, n) == "/v1, Kind=ServiceAccount/" + namespace + "/" + n
  {
    forall k: Kind { KindText(k, namespace, n); }
  }

  lemma KindText(k: Kind, namespace: string, n: string)
    ensures ResultKey(k, namespace, n) == (GroupVersionKind(k) + "/") + namespace + "/" + n
  {
    hide GroupVersionKind;
  }

  /** Within a namespace the key string loses nothing: no kind's text runs into another's. */
  lemma ResultKeyInjective(k: Kind, n: string, k': Kind, n': string, namespace: string)
    ensures ResultKey(k, namespace, n) == ResultKey(k', namespace, n') <==> k == k' && n == n'
  {
    hide GroupVersionKind;
    var key, key' := ResultKey(k, namespace, n), ResultKey(k', namespace, n');
    KindShows(k, namespace, n);
    KindShows(k', namespace, n');
    if key == key' {
      assert k == k';
      var p := GroupVersionKind(k) + "/" + namespace + "/";
      assert n == key[|p|..] && n' == key'[|p|..];
    }
  }

  /** Kind and name: within one namespace they stand for the key string (ResultKeyInjective). */
  datatype Identity = Identity(kind: Kind, name: string)

  function KeyOf(o: Obj): Identity {
    Identity(o.kind, o.name)
  }

  // ----- building -----

  function ConfigMapName(component: string): string {
    DeriveResourceName(component) + "-config"
  }

  function HeadlessName(component: string): string {
    DeriveResourceName(component) + "-headless"
  }

  /** The hash record after building a component: its ConfigMap's entry is brought up to date. */
  function Recorded(annotations: map<string, ConfigHash>, c: Component): map<string, ConfigHash> {
    if c.properties.Parsed? && Verified(c.properties.config) && c.properties.config.configFiles != map[]
    then annotations[ConfigMapName(c.name) := ConfigHash(c.properties.config.configFiles)]
    else annotations
  }

  /** A pod restart is stamped iff the recorded hash is missing or differs. */
  predicate NeedsRestart(annotations: map<string, ConfigHash>, c: Component, cfg: RuntimeConfig) {
    && cfg.configFiles != map[]
    && (ConfigMapName(c.name) !in annotations || annotations[ConfigMapName(c.name)] != ConfigHash(cfg.configFiles))
  }

  function ConfigObjects(namespace: string, c: Component, cfg: RuntimeConfig): seq<Obj> {
    if cfg.configFiles == map[] then []
    else [Obj(ConfigMap, ConfigMapName(c.name), namespace, c.name, Files(cfg.configFiles))]
  }

  function WorkloadObjects(namespace: string, c: Component, cfg: RuntimeConfig, stamp: Option<Time>): seq<Obj>
    requires Verified(cfg)
  {
    [Obj(StatefulSet, DeriveResourceName(c.name), namespace, c.name,
         Workload(cfg.replicas.value, stamp, HeadlessName(c.name), Volumes.ClaimTemplates(cfg.storage))),
     Obj(Service, HeadlessName(c.name), namespace, c.name, HeadlessPorts(cfg.ports))]
  }

  function ClientObjects(namespace: string, c: Component, cfg: RuntimeConfig): seq<Obj> {
    if !BuildsClientService(cfg.service) then []
    else [Obj(Service, DeriveResourceName(c.name), namespace, c.name, ClientPorts(cfg.service.value.ports))]
  }

  function AccountObjects(namespace: string, c: Component, cfg: RuntimeConfig): seq<Obj> {
    if !BuildsServiceAccount(cfg.account) then []
    else [Obj(Account, DeriveServiceAccountName(c.name, cfg.account), namespace, c.name, AccountBody)]
  }

  function ObjectsOf(namespace: string, c: Component, cfg: RuntimeConfig, annotations: map<string, ConfigHash>,
                     now: Time): seq<Obj>
    requires Verified(cfg)
  {
    ConfigObjects(namespace, c, cfg)
    + WorkloadObjects(namespace, c, cfg, if NeedsRestart(annotations, c, cfg) then Some(now) else None)
    + ClientObjects(namespace, c, cfg)
    + AccountObjects(namespace, c, cfg)
  }

  // ----- what is in the objects -----

  /** The one ConfigMap carries the configured files, and its hash is the recorded one. */
  ghost predicate ConfigBuilt(objs: seq<Obj>, record: map<string, ConfigHash>, c: Component, cfg: RuntimeConfig) {
    && (cfg.configFiles != map[] <==> exists o :: o in objs && o.kind == ConfigMap)
    && forall o :: o in objs && o.kind == ConfigMap ==>
         && o.name == DeriveResourceName(c.name) + "-config" && o.body == Files(cfg.configFiles)
         && o.name in record && record[o.name] == ConfigHash(o.body.data)
  }

  /** The one StatefulSet: its count, its claim and its restart stamp, and the headless service it
      names, which is in the same list and exposes the container ports. */
  ghost predicate WorkloadBuilt(objs: seq<Obj>, annotations: map<string, ConfigHash>, c: Component, cfg: RuntimeConfig,
                                now: Time)
    requires cfg.replicas.Some? && cfg.storage.Some?
  {
    var base := DeriveResourceName(c.name);
    && (exists o :: o in objs && o.kind == StatefulSet)
    && (forall o :: o in objs && o.kind == StatefulSet ==>
          && o.name == base && o.body.Workload? && o.body.replicas == cfg.replicas.value
          && o.body.claims == [if cfg.storage.value.claimName == "" then "data" else cfg.storage.value.claimName]
          && (o.body.restartedAt == if cfg.configFiles == map[] || (base + "-config" in annotations &&
                                       annotations[base + "-config"] == ConfigHash(cfg.configFiles))
                                    then None else Some(now))
          && o.body.serviceName == base + "-headless"
          && exists h :: h in objs && h.kind == Service && h.name == o.body.serviceName
                         && h.body == HeadlessPorts(cfg.ports))
  }

  /** The client service is there when the configuration asks for it, with the service's own ports. */
  ghost predicate ClientBuilt(objs: seq<Obj>, c: Component, cfg: RuntimeConfig) {
    && (cfg.service.Some? && cfg.service.value.ports != [] && cfg.service.value.serviceType != Some("None") <==>
        exists o :: o in objs && o.body.ClientPorts?)
    && (forall o :: o in objs && o.body.ClientPorts? ==>
          && o.kind == Service && o.name == DeriveResourceName(c.name)
          && cfg.service.Some? && o.body.clientPorts == cfg.service.value.ports)
  }

  /** So is the account, under its own name, a derived one, or none. */
  ghost predicate AccountBuilt(objs: seq<Obj>, c: Component, cfg: RuntimeConfig) {
    && (cfg.account.Some? && cfg.account.value.create != Some(false) <==> exists o :: o in objs && o.kind == Account)
    && (forall o :: o in objs && o.kind == Account && cfg.account.Some? ==>
          o.name == if cfg.account.value.create.None? then ""
                    else if cfg.account.value.name != "" then ToLower(cfg.account.value.name)
                    else DeriveResourceName(c.name) + "-sa")
  }

  lemma ObjectsMembers(namespace: string, c: Component, cfg: RuntimeConfig, annotations: map<string, ConfigHash>,
                       now: Time, o: Obj)
    requires Verified(cfg)
    ensures var stamp := if NeedsRestart(annotations, c, cfg) then Some(now) else None;
            o in ObjectsOf(namespace, c, cfg, annotations, now) <==>
              || o in ConfigObjects(namespace, c, cfg) || o in WorkloadObjects(namespace, c, cfg, stamp)
              || o in ClientObjects(namespace, c, cfg) || o in AccountObjects(namespace, c, cfg)
  {
    hide ConfigObjects, WorkloadObjects, ClientObjects, AccountObjects, NeedsRestart, Verified;
  }

  lemma ConfigContents(namespace: string, c: Component, cfg: RuntimeConfig, annotations: map<string, ConfigHash>,
                       now: Time)
    requires c.properties == Parsed(cfg) && Verified(cfg)
    ensures ConfigBuilt(ObjectsOf(namespace, c, cfg, annotations, now), Recorded(annotations, c), c, cfg)
  {
    hide DeriveResourceName, ObjectsOf, NeedsRestart, Verified, Volumes.ClaimTemplates, DeriveServiceAccountName;
    forall o { ObjectsMembers(namespace, c, cfg, annotations, now, o); }
    if cfg.configFiles != map[] {
      assert ConfigObjects(namespace, c, cfg)[0] in ObjectsOf(namespace, c, cfg, annotations, now);
    }
  }

  lemma WorkloadContents(namespace: string, c: Component, cfg: RuntimeConfig, annotations: map<string, ConfigHash>,
                         now: Time)
    requires c.properties == Parsed(cfg) && Verified(cfg)
    ensures WorkloadBuilt(ObjectsOf(namespace, c, cfg, annotations, now), annotations, c, cfg, now)
  {
    hide DeriveResourceName, ObjectsOf, DeriveServiceAccountName;
    forall o { ObjectsMembers(namespace, c, cfg, annotations, now, o); }
    var objs := ObjectsOf(namespace, c, cfg, annotations, now);
    var own := WorkloadObjects(namespace, c, cfg, if NeedsRestart(annotations, c, cfg) then Some(now) else None);
    assert own[0] in objs && own[1] in objs;
    assert own == [own[0], own[1]];
  }

  lemma ClientContents(namespace: string, c: Component, cfg: RuntimeConfig, annotations: map<string, ConfigHash>,
                       now: Time)
    requires c.properties == Parsed(cfg) && Verified(cfg)
    ensures ClientBuilt(ObjectsOf(namespace, c, cfg, annotations, now), c, cfg)
  {
    hide DeriveResourceName, ObjectsOf, NeedsRestart, Verified, Volumes.ClaimTemplates, DeriveServiceAccountName;
    forall o { ObjectsMembers(namespace, c, cfg, annotations, now, o); }
    var clients := ClientObjects(namespace, c, cfg);
    if clients != [] {
      assert clients[0] in ObjectsOf(namespace, c, cfg, annotations, now);
    }
  }

  lemma AccountContents(namespace: string, c: Component, cfg: RuntimeConfig, annotations: map<string, ConfigHash>,
                        now: Time)
    requires c.properties == Parsed(cfg) && Verified(cfg)
    ensures AccountBuilt(ObjectsOf(namespace, c, cfg, annotations, now), c, cfg)
  {
    hide DeriveResourceName, ObjectsOf, NeedsRestart, Verified, Volumes.ClaimTemplates;
    forall o { ObjectsMembers(namespace, c, cfg, annotations, now, o); }
    var accounts := AccountObjects(namespace, c, cfg);
    if accounts != [] {
      assert cfg.account.value.create.Some? ==> cfg.account.value.create.value;
      assert accounts[0] in ObjectsOf(namespace, c, cfg, annotations, now);
    }
  }

  /** The controller refuses an object without name or namespace. */
  predicate Nameable(o: Obj) {
    o.name != "" && o.namespace != ""
  }

  datatype BuildResult = Built(objects: seq<Obj>) | BuildFailed(error: Error)

  /** Unmarshalling and BuildObjects together; a nil or malformed configuration fails. */
  function Build(namespace: string, c: Component, annotations: map<string, ConfigHash>, now: Time): BuildResult {
    match c.properties
    case NoProperties => BuildFailed(Error(BuilderError, c.name, false))
    case Malformed(text) => BuildFailed(Error(UnmarshalError, text, false))
    case Parsed(cfg) =>
      if !Verified(cfg) then BuildFailed(Error(BuilderError, c.name, false))
      else Built(ObjectsOf(namespace, c, cfg, annotations, now))
  }

  /** The ConfigMap part of BuildObjects: compares and records the hash, and asks for a restart. */
  method RecordConfig(c: Component, cfg: RuntimeConfig, annotations: map<string, ConfigHash>, now: Time)
    returns (record: map<string, ConfigHash>, stamp: Option<Time>)
    requires c.properties == Parsed(cfg) && Verified(cfg)
    ensures record == Recorded(annotations, c)
    ensures stamp == if NeedsRestart(annotations, c, cfg) then Some(now) else None
  {
    record := annotations;
    stamp := None;
    if cfg.configFiles != map[] {
      var name := ConfigMapName(c.name);
      var needRestart := false;
      var hash := ConfigHash(cfg.configFiles);
      if name !in record || record[name] != hash {
        needRestart := true;
        record := record[name := hash];
      }
      if needRestart {
        stamp := Some(now);
      }
    }
  }

  /** BuildObjects: appends to the object list and writes the hash record as it goes. */
  method BuildObjects(namespace: string, c: Component, cfg: RuntimeConfig, annotations: map<string, ConfigHash>,
                      now: Time)
    returns (ok: bool, objects: seq<Obj>, record: map<string, ConfigHash>)
    requires c.properties == Parsed(cfg)
    ensures ok == Verified(cfg)
    ensures ok ==> objects == ObjectsOf(namespace, c, cfg, annotations, now)
    ensures record == Recorded(annotations, c)
    ensures ok ==> ConfigBuilt(objects, record, c, cfg) && WorkloadBuilt(objects, annotations, c, cfg, now)
    ensures ok ==> ClientBuilt(objects, c, cfg) && AccountBuilt(objects, c, cfg)
    ensures ok ==> forall o :: o in objects ==> o.namespace == namespace && o.instance == c.name
  {
    hide DeriveResourceName, HeadlessName, ConfigMapName, DeriveServiceAccountName, Volumes.ClaimTemplates,
         NeedsRestart, ConfigBuilt, WorkloadBuilt, ClientBuilt, AccountBuilt;
    record := annotations;
    objects := [];
    if !Verified(cfg) {
      return false, objects, record;
    }
    ConfigContents(namespace, c, cfg, annotations, now);
    WorkloadContents(namespace, c, cfg, annotations, now);
    ClientContents(namespace, c, cfg, annotations, now);
    AccountContents(namespace, c, cfg, annotations, now);
    var stamp;
    record, stamp := RecordConfig(c, cfg, annotations, now);
    objects := objects + ConfigObjects(namespace, c, cfg);
    objects := objects + WorkloadObjects(namespace, c, cfg, stamp);
    if BuildsClientService(cfg.service) {
      objects := objects + [Obj(Service, DeriveResourceName(c.name), namespace, c.name,
                                ClientPorts(cfg.service.value.ports))];
    }
    if BuildsServiceAccount(cfg.account) {
      objects := objects + [Obj(Account, DeriveServiceAccountName(c.name, cfg.account), namespace, c.name,
                                AccountBody)];
    }
    return true, objects, record;
  }

  // ----- identity -----

  /** Kinds and names of a component's objects: they depend on its configuration only. */
  function Identities(c: Component, cfg: RuntimeConfig): seq<Identity> {
    var base := DeriveResourceName(c.name);
    (if cfg.configFiles != map[] then [Identity(ConfigMap, ConfigMapName(c.name))] else [])
    + [Identity(StatefulSet, base), Identity(Service, HeadlessName(c.name))]
    + (if BuildsClientService(cfg.service) then [Identity(Service, base)] else [])
    + (if BuildsServiceAccount(cfg.account) then [Identity(Account, DeriveServiceAccountName(c.name, cfg.account))]
       else [])
  }

  lemma ObjectsHaveIdentities(namespace: string, c: Component, cfg: RuntimeConfig, annotations: map<string, ConfigHash>,
                              now: Time)
    requires Verified(cfg)
    ensures var objs := ObjectsOf(namespace, c, cfg, annotations, now);
            && |objs| == |Identities(c, cfg)|
            && forall i :: 0 <= i < |objs| ==>
                 && KeyOf(objs[i]) == Identities(c, cfg)[i]
                 && objs[i].namespace == namespace && objs[i].instance == c.name
  {
    hide DeriveResourceName, HeadlessName, ConfigMapName, DeriveServiceAccountName, Volumes.ClaimTemplates,
         NeedsRestart;
  }

  /** The names of two components keep their objects apart. */
  ghost predicate Compatible(c: Component, cfg: RuntimeConfig, d: Component, dfg: RuntimeConfig) {
    && DeriveResourceName(c.name) != DeriveResourceName(d.name)
    && (BuildsClientService(cfg.service) ==> DeriveResourceName(c.name) != HeadlessName(d.name))
    && (BuildsClientService(dfg.service) ==> DeriveResourceName(d.name) != HeadlessName(c.name))
    && (BuildsServiceAccount(cfg.account) && BuildsServiceAccount(dfg.account) ==>
          DeriveServiceAccountName(c.name, cfg.account) != DeriveServiceAccountName(d.name, dfg.account))
  }

  lemma SuffixInjective(a: string, b: string, suffix: string)
    ensures a + suffix == b + suffix <==> a == b
    ensures suffix != "" ==> a != a + suffix
  {
    if a + suffix == b + suffix {
      assert a == (a + suffix)[..|a|] && b == (b + suffix)[..|b|];
    }
    assert |a + suffix| == |a| + |suffix|;
  }

  lemma OwnIdentitiesDistinct(c: Component, cfg: RuntimeConfig, i: nat, j: nat)
    requires i < j < |Identities(c, cfg)|
    ensures Identities(c, cfg)[i] != Identities(c, cfg)[j]
  {
    SuffixInjective(DeriveResourceName(c.name), "", "-headless");
  }

  /** Two components own a common object exactly when their names are not compatible. */
  lemma SharedObjectIffIncompatible(c: Component, cfg: RuntimeConfig, d: Component, dfg: RuntimeConfig)
    ensures (forall x :: x in Identities(c, cfg) ==> x !in Identities(d, dfg)) <==> Compatible(c, cfg, d, dfg)
  {
    hide DeriveResourceName, DeriveServiceAccountName, Identities;
    var a, b := DeriveResourceName(c.name), DeriveResourceName(d.name);
    SuffixInjective(a, b, "-headless");
    SuffixInjective(a, b, "-config");
    MemberIdentities(c, cfg);
    MemberIdentities(d, dfg);
    var mine, theirs := Identities(c, cfg), Identities(d, dfg);
    if forall x :: x in mine ==> x !in theirs {
      assert Identity(StatefulSet, a) in mine;
      assert BuildsClientService(cfg.service) ==> Identity(Service, a) in mine;
      assert Identity(Service, HeadlessName(c.name)) in mine;
      assert BuildsServiceAccount(cfg.account) ==>
               Identity(Account, DeriveServiceAccountName(c.name, cfg.account)) in mine;
      assert Compatible(c, cfg, d, dfg);
    }
  }

  lemma MemberIdentities(c: Component, cfg: RuntimeConfig)
    ensures forall x :: x in Identities(c, cfg) <==>
              || (cfg.configFiles != map[] && x == Identity(ConfigMap, ConfigMapName(c.name)))
              || x == Identity(StatefulSet, DeriveResourceName(c.name))
              || x == Identity(Service, HeadlessName(c.name))
              || (BuildsClientService(cfg.service) && x == Identity(Service, DeriveResourceName(c.name)))
              || (BuildsServiceAccount(cfg.account)
                  && x == Identity(Account, DeriveServiceAccountName(c.name, cfg.account)))
  {
  }

  /** Every component unmarshals and verifies. */
  ghost predicate AllBuildable(cs: seq<Component>) {
    forall i :: 0 <= i < |cs| ==> cs[i].properties.Parsed? && Verified(cs[i].properties.config)
  }

  function AllIdentities(cs: seq<Component>): seq<Identity>
    requires AllBuildable(cs)
  {
    if cs == [] then []
    else AllIdentities(cs[..|cs| - 1]) + Identities(cs[|cs| - 1], cs[|cs| - 1].properties.config)
  }

  ghost predicate PairwiseCompatible(cs: seq<Component>)
    requires AllBuildable(cs)
  {
    forall i, j :: 0 <= i < j < |cs| ==> Compatible(cs[i], cs[i].properties.config, cs[j], cs[j].properties.config)
  }

  lemma {:induction false} AllIdentitiesMembers(cs: seq<Component>, x: Identity)
    requires AllBuildable(cs)
    ensures x in AllIdentities(cs) <==> exists i :: 0 <= i < |cs| && x in Identities(cs[i], cs[i].properties.config)
  {
    hide Identities;
    if cs != [] {
      var front, last := cs[..|cs| - 1], cs[|cs| - 1];
      AllIdentitiesMembers(front, x);
      assert forall i :: 0 <= i < |front| ==> front[i] == cs[i];
      assert cs[|cs| - 1] == last;
    }
  }

  /** The last component shares nothing with the earlier ones exactly when it is compatible
      with each of them. */
  lemma LastApart(cs: seq<Component>)
    requires cs != [] && AllBuildable(cs)
    ensures var n := |cs| - 1;
            Volumes.Apart(AllIdentities(cs[..n]), Identities(cs[n], cs[n].properties.config)) <==>
            forall i :: 0 <= i < n ==> Compatible(cs[i], cs[i].properties.config, cs[n], cs[n].properties.config)
  {
    var n := |cs| - 1;
    var front, last := cs[..n], Identities(cs[n], cs[n].properties.config);
    forall i | 0 <= i < n
      ensures (forall x :: x in Identities(cs[i], cs[i].properties.config) ==> x !in last)
              <==> Compatible(cs[i], cs[i].properties.config, cs[n], cs[n].properties.config)
    {
      SharedObjectIffIncompatible(cs[i], cs[i].properties.config, cs[n], cs[n].properties.config);
    }
    forall x
      ensures x in AllIdentities(front) <==> exists i :: 0 <= i < n && x in Identities(cs[i], cs[i].properties.config)
    {
      AllIdentitiesMembers(front, x);
      assert forall i :: 0 <= i < n ==> front[i] == cs[i];
    }
  }

  /** The objects of a specification have distinct identities exactly when its components are
      pairwise compatible. */
  lemma {:induction false} DistinctIffCompatible(cs: seq<Component>)
    requires AllBuildable(cs)
    ensures Volumes.Distinct(AllIdentities(cs)) <==> PairwiseCompatible(cs)
  {
    hide Identities, Compatible;
    if cs != [] {
      var n := |cs| - 1;
      var front, last := cs[..n], Identities(cs[n], cs[n].properties.config);
      DistinctIffCompatible(front);
      LastApart(cs);
      forall i, j | 0 <= i < j < |last| ensures last[i] != last[j] {
        OwnIdentitiesDistinct(cs[n], cs[n].properties.config, i, j);
      }
      assert forall i :: 0 <= i < n ==> front[i] == cs[i];
      if Volumes.Distinct(AllIdentities(front)) {
        Volumes.DistinctConcatenation(AllIdentities(front), last);
      } else {
        var i, j :| 0 <= i < j < |AllIdentities(front)| && AllIdentities(front)[i] == AllIdentities(front)[j];
        assert AllIdentities(cs)[i] == AllIdentities(cs)[j];
      }
    }
  }
}
