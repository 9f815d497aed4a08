/** Pod volumes, claim templates and mounts (pkg/builders/k8s/volume.go and
    pkg/builders/runtime/builder.go): two families of loops that must agree on names. */
module Volumes {
  import opened Text
  import opened Config

  datatype Source = FromConfigMap(name: string, items: seq<string>) | FromSecret(name: string, items: seq<string>)
  datatype Volume = Volume(name: string, source: Source)
  datatype Mount = Mount(volume: string, path: string, subPath: string, readOnly: bool)

  function GetOr<T>(o: Option<T>, default: T): T {
    if o.None? then default else o.value
  }

  function ConfigVolume(m: ConfigMount): Volume {
    Volume(if m.volumeName == "" then m.name else m.volumeName, FromConfigMap(m.name, m.items))
  }

  function SecretVolume(m: SecretMount): Volume {
    Volume(if m.volumeName == "" then m.secretName else m.volumeName, FromSecret(m.secretName, m.items))
  }

  /** One volume per mount entry, in configuration order, before duplicates are skipped. */
  function ConfigVolumes(ms: seq<ConfigMount>): (vs: seq<Volume>)
    ensures |vs| == |ms|
  {
    seq(|ms|, i requires 0 <= i < |ms| => ConfigVolume(ms[i]))
  }

  function SecretVolumes(ms: seq<SecretMount>): (vs: seq<Volume>)
    ensures |vs| == |ms|
  {
    seq(|ms|, i requires 0 <= i < |ms| => SecretVolume(ms[i]))
  }

  function NamesIn(vs: seq<Volume>): set<string> {
    set v | v in vs :: v.name
  }

  ghost predicate DistinctNames(vs: seq<Volume>) {
    forall i, j :: 0 <= i < j < |vs| ==> vs[i].name != vs[j].name
  }

  /** The first entry of each name, in order. */
  function FirstOfEachName(vs: seq<Volume>): seq<Volume> {
    if vs == [] then []
    else
      var kept := FirstOfEachName(vs[..|vs| - 1]);
      var last := vs[|vs| - 1];
      if last.name in NamesIn(kept) then kept else kept + [last]
  }

  /** v is the entry a lookup by name finds first. */
  ghost predicate FirstNamed(vs: seq<Volume>, v: Volume) {
    exists i :: 0 <= i < |vs| && vs[i] == v && forall j :: 0 <= j < i ==> vs[j].name != v.name
  }

  lemma {:induction false} FirstOfEachNameIsDistinct(vs: seq<Volume>)
    ensures DistinctNames(FirstOfEachName(vs))
    ensures NamesIn(FirstOfEachName(vs)) == NamesIn(vs)
  {
    if vs != [] {
      var front, last := vs[..|vs| - 1], vs[|vs| - 1];
      var kept := FirstOfEachName(front);
      FirstOfEachNameIsDistinct(front);
      assert forall v :: v in vs <==> v in front || v == last;
      assert forall v :: v in kept + [last] <==> v in kept || v == last;
      assert NamesIn(kept + [last]) == NamesIn(kept) + {last.name};
      assert NamesIn(vs) == NamesIn(front) + {last.name};
      assert forall j :: 0 <= j < |kept| ==> kept[j] in kept;
    }
  }

  lemma {:induction false} FirstOfEachNameIsFirst(vs: seq<Volume>, v: Volume)
    ensures v in FirstOfEachName(vs) <==> FirstNamed(vs, v)
  {
    if vs != [] {
      var front, last := vs[..|vs| - 1], vs[|vs| - 1];
      FirstOfEachNameIsFirst(front, v);
      FirstOfEachNameIsDistinct(front);
      assert vs == front + [last];
      FirstNamedAppend(front, last, v);
    }
  }

  lemma FirstNamedAppend(front: seq<Volume>, last: Volume, v: Volume)
    ensures FirstNamed(front + [last], v) <==> FirstNamed(front, v) || (v == last && last.name !in NamesIn(front))
  {
    var vs := front + [last];
    assert vs[|front|] == last && forall j :: 0 <= j < |front| ==> vs[j] == front[j];
    if FirstNamed(front, v) {
      var i :| 0 <= i < |front| && front[i] == v && forall j :: 0 <= j < i ==> front[j].name != v.name;
      assert vs[i] == v && forall j :: 0 <= j < i ==> vs[j].name != v.name;
    }
    if v == last && last.name !in NamesIn(front) {
      forall j | 0 <= j < |front| ensures vs[j].name != v.name { assert front[j] in front; }
    }
    if FirstNamed(vs, v) {
      var i :| 0 <= i < |vs| && vs[i] == v && forall j :: 0 <= j < i ==> vs[j].name != v.name;
      if i < |front| {
        assert front[i] == v;
        forall j | 0 <= j < i ensures front[j].name != v.name { assert vs[j].name != v.name; }
      } else {
        forall j | 0 <= j < |front| ensures front[j].name != v.name { assert vs[j].name != v.name; }
      }
    }
  }

  lemma NoVolumes()
    ensures FirstOfEachName([]) == [] && NamesIn([]) == {}
  {
  }

  lemma NextVolume(vs: seq<Volume>, i: nat)
    requires i < |vs|
    ensures var r := FirstOfEachName(vs[..i]);
            && FirstOfEachName(vs[..i + 1]) == (if vs[i].name in NamesIn(r) then r else r + [vs[i]])
            && NamesIn(r + [vs[i]]) == NamesIn(r) + {vs[i].name}
  {
    assert vs[..i + 1][..i] == vs[..i];
    var r := FirstOfEachName(vs[..i]);
    assert forall v :: v in r + [vs[i]] <==> v in r || v == vs[i];
  }

  method BuildVolumesFromConfigMaps(ms: seq<ConfigMount>) returns (volumes: seq<Volume>)
    ensures volumes == FirstOfEachName(ConfigVolumes(ms))
  {
    hide FirstOfEachName, NamesIn;
    volumes := [];
    var seen: set<string> := {};
    NoVolumes();
    for i := 0 to |ms|
      invariant volumes == FirstOfEachName(ConfigVolumes(ms)[..i])
      invariant seen == NamesIn(volumes)
    {
      NextVolume(ConfigVolumes(ms), i);
      var name := ms[i].volumeName;
      if name == "" {
        name := ms[i].name;
      }
      if name in seen {
        continue;
      }
      seen := seen + {name};
      volumes := volumes + [Volume(name, FromConfigMap(ms[i].name, ms[i].items))];
    }
    assert ConfigVolumes(ms)[..|ms|] == ConfigVolumes(ms);
  }

  method BuildVolumesFromSecrets(ms: seq<SecretMount>) returns (volumes: seq<Volume>)
    ensures volumes == FirstOfEachName(SecretVolumes(ms))
  {
    hide FirstOfEachName, NamesIn;
    volumes := [];
    var seen: set<string> := {};
    NoVolumes();
    for i := 0 to |ms|
      invariant volumes == FirstOfEachName(SecretVolumes(ms)[..i])
      invariant seen == NamesIn(volumes)
    {
      NextVolume(SecretVolumes(ms), i);
      var name := ms[i].volumeName;
      if name == "" {
        name := ms[i].secretName;
      }
      if name in seen {
        continue;
      }
      seen := seen + {name};
      volumes := volumes + [Volume(name, FromSecret(ms[i].secretName, ms[i].items))];
    }
    assert SecretVolumes(ms)[..|ms|] == SecretVolumes(ms);
  }

  // ----- mounts -----

  /** What an entry is mounted as: under its volume name or else its own, read-only unless it says not. */
  function ConfigMountOf(m: ConfigMount): Mount {
    Mount(if m.volumeName != "" then m.volumeName else m.name, m.mountPath,
          if m.subPath.Some? then m.subPath.value else "", m.readOnly != Some(false))
  }

  function SecretMountOf(m: SecretMount): Mount {
    Mount(if m.volumeName != "" then m.volumeName else m.secretName, m.mountPath, "", m.readOnly != Some(false))
  }

  /** A mount of every entry, duplicates included. */
  method BuildVolumeMountsFromConfigMaps(ms: seq<ConfigMount>) returns (mounts: seq<Mount>)
    ensures |mounts| == |ms|
    ensures forall i :: 0 <= i < |ms| ==>
              mounts[i] == ConfigMountOf(ms[i])
  {
    mounts := [];
    for i := 0 to |ms|
      invariant |mounts| == i
      invariant forall j :: 0 <= j < i ==>
                  mounts[j] == ConfigMountOf(ms[j])
    {
      var name := ms[i].volumeName;
      if name == "" {
        name := ms[i].name;
      }
      mounts := mounts + [Mount(name, ms[i].mountPath, GetOr(ms[i].subPath, ""), GetOr(ms[i].readOnly, true))];
    }
  }

  method BuildVolumeMountsFromSecrets(ms: seq<SecretMount>) returns (mounts: seq<Mount>)
    ensures |mounts| == |ms|
    ensures forall i :: 0 <= i < |ms| ==>
              mounts[i] == SecretMountOf(ms[i])
  {
    mounts := [];
    for i := 0 to |ms|
      invariant |mounts| == i
      invariant forall j :: 0 <= j < i ==>
                  mounts[j] == SecretMountOf(ms[j])
    {
      var name := ms[i].volumeName;
      if name == "" {
        name := ms[i].secretName;
      }
      mounts := mounts + [Mount(name, ms[i].mountPath, "", GetOr(ms[i].readOnly, true))];
    }
  }

  /** The claim template a StatefulSet gets, by name. */
  function ClaimTemplates(storage: Option<Storage>): seq<string> {
    if storage.None? || !storage.value.enabled then []
    else [if storage.value.claimName == "" then "data" else storage.value.claimName]
  }

  function StorageMounts(storage: Option<Storage>): seq<Mount> {
    if storage.None? || !storage.value.enabled || storage.value.mountPath == "" || storage.value.claimName == "" then []
    else
      var s := storage.value;
      [Mount(s.claimName, s.mountPath, "", false)]
      + (if s.dataSubpath.Some? && s.dataSubpath.value != ""
         then [Mount(s.claimName, s.mountPath + "/" + s.dataSubpath.value, s.dataSubpath.value, false)]
         else [])
  }

  /** The init container mounts the claim only under its configured name. */
  function InitMounts(cfg: RuntimeConfig): seq<Mount> {
    if !cfg.initContainer || cfg.storage.None? || !cfg.storage.value.enabled then []
    else if cfg.storage.value.mountPath == "" || cfg.storage.value.claimName == "" then []
    else [Mount(cfg.storage.value.claimName, cfg.storage.value.mountPath, "", false)]
  }

  method BuildRuntimeVolumes(cfg: RuntimeConfig) returns (volumes: seq<Volume>)
    ensures volumes == PodVolumes(cfg)
  {
    var fromConfig := BuildVolumesFromConfigMaps(cfg.configMounts);
    volumes := fromConfig;
    var fromSecrets := BuildVolumesFromSecrets(cfg.secretMounts);
    volumes := volumes + fromSecrets;
  }

  function PodVolumes(cfg: RuntimeConfig): seq<Volume> {
    FirstOfEachName(ConfigVolumes(cfg.configMounts)) + FirstOfEachName(SecretVolumes(cfg.secretMounts))
  }

  /** The main container's mounts come from these two lists and the claim, nowhere else. */
  ghost predicate MountsOf(cfg: RuntimeConfig, mounts: seq<Mount>) {
    var c, s := |cfg.configMounts|, |cfg.secretMounts|;
    && |mounts| == c + s + |StorageMounts(cfg.storage)|
    && (forall i :: 0 <= i < c ==> mounts[i] == ConfigMountOf(cfg.configMounts[i]))
    && (forall i :: 0 <= i < s ==> mounts[c + i] == SecretMountOf(cfg.secretMounts[i]))
    && mounts[c + s..] == StorageMounts(cfg.storage)
  }

  method BuildRuntimeVolumeMounts(cfg: RuntimeConfig) returns (mounts: seq<Mount>)
    ensures MountsOf(cfg, mounts)
  {
    var fromConfig := BuildVolumeMountsFromConfigMaps(cfg.configMounts);
    mounts := fromConfig;
    var fromSecrets := BuildVolumeMountsFromSecrets(cfg.secretMounts);
    mounts := mounts + fromSecrets;
    mounts := mounts + StorageMounts(cfg.storage);
    assert mounts[|cfg.configMounts| + |cfg.secretMounts|..] == StorageMounts(cfg.storage);
  }

  // ----- closure -----

  /** Names a mount can resolve to, volumes before claims. */
  function Resolvable(cfg: RuntimeConfig): seq<string> {
    NameList(PodVolumes(cfg)) + ClaimTemplates(cfg.storage)
  }

  lemma NamesOfBoth(a: seq<Volume>, b: seq<Volume>)
    ensures NamesIn(a + b) == NamesIn(a) + NamesIn(b)
  {
    assert forall v :: v in a + b <==> v in a || v in b;
  }

  lemma ResolvableNames(cfg: RuntimeConfig, n: string)
    ensures n in Resolvable(cfg) <==>
            || n in NamesIn(ConfigVolumes(cfg.configMounts))
            || n in NamesIn(SecretVolumes(cfg.secretMounts))
            || n in ClaimTemplates(cfg.storage)
  {
    hide FirstOfEachName, NamesIn, ConfigVolumes, SecretVolumes, ClaimTemplates, NameList;
    var a, b := FirstOfEachName(ConfigVolumes(cfg.configMounts)), FirstOfEachName(SecretVolumes(cfg.secretMounts));
    FirstOfEachNameIsDistinct(ConfigVolumes(cfg.configMounts));
    FirstOfEachNameIsDistinct(SecretVolumes(cfg.secretMounts));
    NamesOfBoth(a, b);
    NameListOf(PodVolumes(cfg));
  }

  lemma MountNames(cfg: RuntimeConfig, mounts: seq<Mount>)
    requires MountsOf(cfg, mounts)
    ensures var c, s := |cfg.configMounts|, |cfg.secretMounts|;
            && |mounts| == c + s + |StorageMounts(cfg.storage)|
            && (forall i :: 0 <= i < c ==> mounts[i].volume == ConfigVolumes(cfg.configMounts)[i].name)
            && (forall i :: 0 <= i < s ==> mounts[c + i].volume == SecretVolumes(cfg.secretMounts)[i].name)
            && mounts[c + s..] == StorageMounts(cfg.storage)
  {
    hide StorageMounts;
  }

  /** Every mount of the main and the init container names a pod volume or a claim template. */
  lemma MountClosure(cfg: RuntimeConfig, mounts: seq<Mount>)
    requires Verified(cfg) && MountsOf(cfg, mounts)
    ensures forall m :: m in mounts + InitMounts(cfg) ==> m.volume in Resolvable(cfg)
  {
    MountNames(cfg, mounts);
    hide MountsOf, ConfigVolumes, SecretVolumes;
    var c, s := |cfg.configMounts|, |cfg.secretMounts|;
    forall m | m in mounts + InitMounts(cfg) ensures m.volume in Resolvable(cfg) {
      ResolvableNames(cfg, m.volume);
      if m in mounts {
        var i :| 0 <= i < |mounts| && mounts[i] == m;
        if i < c {
          assert ConfigVolumes(cfg.configMounts)[i] in ConfigVolumes(cfg.configMounts);
        } else if i < c + s {
          assert mounts[c + (i - c)] == m;
          assert SecretVolumes(cfg.secretMounts)[i - c] in SecretVolumes(cfg.secretMounts);
        } else {
          assert m == mounts[c + s..][i - c - s];
          assert m in StorageMounts(cfg.storage);
        }
      }
    }
  }

  /** No idle volume: each one is mounted by the main container. */
  lemma EveryVolumeMounted(cfg: RuntimeConfig, mounts: seq<Mount>, v: Volume)
    requires MountsOf(cfg, mounts) && v in PodVolumes(cfg)
    ensures exists m :: m in mounts && m.volume == v.name
  {
    MountNames(cfg, mounts);
    hide MountsOf;
    var cs, ss := ConfigVolumes(cfg.configMounts), SecretVolumes(cfg.secretMounts);
    FirstOfEachNameIsFirst(cs, v);
    FirstOfEachNameIsFirst(ss, v);
    if v in FirstOfEachName(cs) {
      var i :| 0 <= i < |cs| && cs[i] == v;
      assert mounts[i] in mounts;
    } else {
      var i :| 0 <= i < |ss| && ss[i] == v;
      assert mounts[|cs| + i] in mounts;
    }
  }

  /** The volume that serves a mount is made from the ConfigMap of that very entry, if no earlier
      entry has its volume name. */
  lemma ConfigServed(cfg: RuntimeConfig, mounts: seq<Mount>, i: nat)
    requires MountsOf(cfg, mounts) && i < |cfg.configMounts|
    requires forall j :: 0 <= j < i ==>
               ConfigMountOf(cfg.configMounts[j]).volume != ConfigMountOf(cfg.configMounts[i]).volume
    ensures var m := cfg.configMounts[i];
            Volume(mounts[i].volume, FromConfigMap(m.name, m.items)) in PodVolumes(cfg)
  {
    hide FirstOfEachName, StorageMounts;
    var cs := ConfigVolumes(cfg.configMounts);
    forall j | 0 <= j < i ensures cs[j].name != cs[i].name {
      assert ConfigMountOf(cfg.configMounts[j]).volume == cs[j].name;
    }
    FirstOfEachNameIsFirst(cs, cs[i]);
  }

  lemma SecretServed(cfg: RuntimeConfig, mounts: seq<Mount>, i: nat)
    requires MountsOf(cfg, mounts) && i < |cfg.secretMounts|
    requires forall j :: 0 <= j < i ==>
               SecretMountOf(cfg.secretMounts[j]).volume != SecretMountOf(cfg.secretMounts[i]).volume
    ensures var m := cfg.secretMounts[i];
            Volume(mounts[|cfg.configMounts| + i].volume, FromSecret(m.secretName, m.items)) in PodVolumes(cfg)
  {
    hide FirstOfEachName, StorageMounts;
    var ss := SecretVolumes(cfg.secretMounts);
    forall j | 0 <= j < i ensures ss[j].name != ss[i].name {
      assert SecretMountOf(cfg.secretMounts[j]).volume == ss[j].name;
    }
    FirstOfEachNameIsFirst(ss, ss[i]);
  }

  /** Where the claim is mounted: writable, at its path and perhaps at a path below it - but only
      under a configured name, although the template itself falls back to the name "data". */
  lemma ClaimMounted(cfg: RuntimeConfig)
    requires Verified(cfg)
    ensures var s := cfg.storage.value;
            && ClaimTemplates(cfg.storage) == [if s.claimName == "" then "data" else s.claimName]
            && (StorageMounts(cfg.storage) == [] <==> s.claimName == "")
            && (s.claimName != "" ==>
                  var whole := Mount(s.claimName, s.mountPath, "", false);
                  && StorageMounts(cfg.storage)
                     == (match s.dataSubpath
                         case None => [whole]
                         case Some(sub) =>
                           if sub == "" then [whole]
                           else [whole, Mount(s.claimName, s.mountPath + "/" + sub, sub, false)])
                  && InitMounts(cfg) == if cfg.initContainer then [whole] else [])
            && (s.claimName == "" ==> InitMounts(cfg) == [])
  {
  }

  /** The two loops that build volumes and mounts separately agree: each mount resolves to a built
      volume or a claim template, and each built volume is mounted. */
  method BuildPodVolumes(cfg: RuntimeConfig) returns (volumes: seq<Volume>, mounts: seq<Mount>)
    requires Verified(cfg)
    ensures forall m :: m in mounts + InitMounts(cfg) ==>
              m.volume in NamesIn(volumes) || m.volume in ClaimTemplates(cfg.storage)
    ensures forall v :: v in volumes ==> exists m :: m in mounts && m.volume == v.name
  {
    volumes := BuildRuntimeVolumes(cfg);
    mounts := BuildRuntimeVolumeMounts(cfg);
    MountClosure(cfg, mounts);
    NameListOf(volumes);
    forall v | v in volumes ensures exists m :: m in mounts && m.volume == v.name {
      EveryVolumeMounted(cfg, mounts, v);
    }
    hide MountsOf, PodVolumes, InitMounts, ClaimTemplates, NamesIn, NameList;
    assert forall m :: m in mounts + InitMounts(cfg) ==> m.volume in NameList(volumes) + ClaimTemplates(cfg.storage);
  }

  /** Same-named entries: the volume a mount gets is the first one configured, among ConfigMaps
      if any has the name and among Secrets otherwise. */
  lemma ResolvesToFirstListed(cfg: RuntimeConfig, i: nat)
    requires i < |PodVolumes(cfg)|
    requires forall j :: 0 <= j < i ==> PodVolumes(cfg)[j].name != PodVolumes(cfg)[i].name
    ensures var v := PodVolumes(cfg)[i];
            FirstNamed(ConfigVolumes(cfg.configMounts) + SecretVolumes(cfg.secretMounts), v)
  {
    hide FirstOfEachName, ConfigVolumes, SecretVolumes, FirstNamed, NamesIn;
    var cs, ss := ConfigVolumes(cfg.configMounts), SecretVolumes(cfg.secretMounts);
    var a, b := FirstOfEachName(cs), FirstOfEachName(ss);
    var v := PodVolumes(cfg)[i];
    FirstOfEachNameIsFirst(cs, v);
    FirstOfEachNameIsFirst(ss, v);
    FirstOfEachNameIsDistinct(cs);
    if i < |a| {
      assert v in a;
      FirstNamedBefore(cs, ss, v);
    } else {
      assert v == b[i - |a|] && v in b;
      assert forall j :: 0 <= j < |a| ==> PodVolumes(cfg)[j] == a[j];
      NotNamed(a, v.name);
      FirstNamedBehind(cs, ss, v);
    }
  }

  lemma NotNamed(vs: seq<Volume>, name: string)
    requires forall j :: 0 <= j < |vs| ==> vs[j].name != name
    ensures name !in NamesIn(vs)
  {
  }

  lemma FirstNamedBefore(a: seq<Volume>, b: seq<Volume>, v: Volume)
    requires FirstNamed(a, v)
    ensures FirstNamed(a + b, v)
  {
    var k :| 0 <= k < |a| && a[k] == v && forall j :: 0 <= j < k ==> a[j].name != v.name;
    assert (a + b)[k] == v && forall j :: 0 <= j < k ==> (a + b)[j].name != v.name;
  }

  lemma FirstNamedBehind(a: seq<Volume>, b: seq<Volume>, v: Volume)
    requires FirstNamed(b, v) && v.name !in NamesIn(a)
    ensures FirstNamed(a + b, v)
  {
    var k :| 0 <= k < |b| && b[k] == v && forall j :: 0 <= j < k ==> b[j].name != v.name;
    forall j | 0 <= j < |a| + k ensures (a + b)[j].name != v.name {
      if j < |a| { assert a[j] in a; } else { assert (a + b)[j] == b[j - |a|]; }
    }
    assert (a + b)[|a| + k] == v;
  }

  /** The three name spaces of a pod do not meet. */
  ghost predicate DisjointNames(cfg: RuntimeConfig) {
    var c, s := NamesIn(ConfigVolumes(cfg.configMounts)), NamesIn(SecretVolumes(cfg.secretMounts));
    c !! s && forall n :: n in ClaimTemplates(cfg.storage) ==> n !in c && n !in s
  }

  ghost predicate Distinct<T>(s: seq<T>) {
    forall i, j :: 0 <= i < j < |s| ==> s[i] != s[j]
  }

  ghost predicate Apart<T>(a: seq<T>, b: seq<T>) {
    forall x :: x in a ==> x !in b
  }

  lemma DistinctConcatenation<T>(a: seq<T>, b: seq<T>)
    requires Distinct(a) && Distinct(b)
    ensures Distinct(a + b) <==> Apart(a, b)
  {
    var r := a + b;
    assert forall i :: 0 <= i < |b| ==> r[|a| + i] == b[i];
    if Distinct(r) {
      forall x | x in a ensures x !in b {
        var i :| 0 <= i < |a| && a[i] == x;
        forall j | 0 <= j < |b| ensures b[j] != x { assert r[i] != r[|a| + j]; }
      }
    } else {
      var i, j :| 0 <= i < j < |r| && r[i] == r[j];
      if i < |a| <= j { assert r[i] in a && r[j] in b; }
    }
  }

  function NameList(vs: seq<Volume>): seq<string> {
    seq(|vs|, i requires 0 <= i < |vs| => vs[i].name)
  }

  lemma NameListOf(vs: seq<Volume>)
    ensures forall n :: n in NameList(vs) <==> n in NamesIn(vs)
    ensures DistinctNames(vs) ==> Distinct(NameList(vs))
  {
    forall n ensures n in NameList(vs) <==> n in NamesIn(vs) {
      if n in NameList(vs) {
        var i :| 0 <= i < |vs| && NameList(vs)[i] == n;
        assert vs[i] in vs;
      }
      if n in NamesIn(vs) {
        var i :| 0 <= i < |vs| && vs[i].name == n;
        assert NameList(vs)[i] == n;
      }
    }
  }

  /** Each mount resolves to one entry exactly when config, secret and claim names are disjoint. */
  lemma UniqueResolution(cfg: RuntimeConfig)
    ensures Distinct(Resolvable(cfg)) <==> DisjointNames(cfg)
  {
    var cs, ss := ConfigVolumes(cfg.configMounts), SecretVolumes(cfg.secretMounts);
    var a, b, t := FirstOfEachName(cs), FirstOfEachName(ss), ClaimTemplates(cfg.storage);
    FirstOfEachNameIsDistinct(cs);
    FirstOfEachNameIsDistinct(ss);
    NameListOf(a);
    NameListOf(b);
    assert NameList(a + b) == NameList(a) + NameList(b);
    DistinctConcatenation(NameList(a), NameList(b));
    if Distinct(NameList(a + b)) {
      DistinctConcatenation(NameList(a + b), t);
    } else {
      var r := Resolvable(cfg);
      var i, j :| 0 <= i < j < |NameList(a + b)| && NameList(a + b)[i] == NameList(a + b)[j];
      assert r[i] == r[j];
    }
  }
}
