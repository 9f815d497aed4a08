/** Object identity through build and apply: distinct result keys, one owner per object, and
    what the result map then says about objects and components. */
module ObjectIdentity {
  import opened Text
  import opened Names
  import opened Config
  import opened Builder
  import opened Status
  import opened StatusOrder
  import opened PauseResume
  import opened Api
  import opened Cycle
  import opened CycleFacts
  import opened BuildFacts
  import opened Readiness
  import opened Quiescence
  import Volumes

  /** The object is one of component k's, under its own instance label. */
  ghost predicate Owned(o: Obj, app: App, k: nat)
    requires k < |app.spec.components|
  {
    var c := app.spec.components[k];
    && c.properties.Parsed? && o.instance == c.name && o.namespace == app.namespace
    && KeyOf(o) in Identities(c, c.properties.config)
    && (o.kind == ConfigMap ==> o.body == Files(c.properties.config.configFiles))
  }

  ghost predicate HasOwner(o: Obj, app: App) {
    exists k :: 0 <= k < |app.spec.components| && Owned(o, app, k)
  }

  lemma {:induction false} BuildFromOwned(app: App, i: nat, b: Building, now: Time)
    requires i <= |app.spec.components| && !Stopped(b)
    requires forall o :: o in b.objects ==> HasOwner(o, app)
    ensures var r := BuildFrom(app, i, b, now); !Stopped(r) ==> forall o :: o in r.objects ==> HasOwner(o, app)
    decreases |app.spec.components| - i
  {
    hide BuildStep, Buildable, Recorded, ObjectsOf, Identities;
    var cs := app.spec.components;
    if i < |cs| {
      var b' := BuildStep(app.namespace, cs[i], b, now);
      BuildStepFacts(app.namespace, cs[i], b, now);
      if Stopped(b') {
        assert BuildFrom(app, i + 1, b', now) == b';
      } else {
        StepParsed(app.namespace, cs[i]);
        var own := ObjectsOf(app.namespace, cs[i], cs[i].properties.config, b.annotations, now);
        ObjectsHaveIdentities(app.namespace, cs[i], cs[i].properties.config, b.annotations, now);
        ConfigContents(app.namespace, cs[i], cs[i].properties.config, b.annotations, now);
        forall o | o in own ensures HasOwner(o, app) {
          var j :| 0 <= j < |own| && own[j] == o;
          assert Owned(o, app, i);
        }
        assert forall o :: o in b'.objects ==> o in b.objects || o in own;
        BuildFromOwned(app, i + 1, b', now);
      }
    }
  }

  lemma StepParsed(namespace: string, c: Component)
    requires Buildable(namespace, c)
    ensures c.properties.Parsed? && Verified(c.properties.config)
  {
  }

  lemma BuildsAllBuildable(first: Spec, app: App)
    requires Builds(first, app)
    ensures AllBuildable(app.spec.components)
  {
  }

  /** Desired objects have distinct result keys exactly when the components are pairwise
      compatible: distinct sanitised names, none with a client service equal to another plus
      "-headless", distinct service-account names. Every object carries its own component's label. */
  lemma DistinctKeysIffCompatible(first: Spec, app: App, ans: Oracle)
    requires Builds(first, app)
    ensures AllBuildable(app.spec.components)
    ensures var objs := DesiredObjects(first, app, ans);
            && (DistinctObjectKeys(objs) <==> PairwiseCompatible(app.spec.components))
            && KeysOf(objs) == AllIdentities(app.spec.components)
            && forall o :: o in objs ==> HasOwner(o, app)
  {
    hide BuildFrom, PauseFrom, Initialize, AllBuild, AllBuildable, PairwiseCompatible, AllIdentities, HasOwner;
    BuildsAllBuildable(first, app);
    var statuses := Initialize(first).0;
    var b := BuildAll(app, statuses, ans.now);
    BuildAllFacts(app, statuses, ans.now);
    BuildAllKeys(app, statuses, ans.now);
    DesiredObjectsDistinct(app, statuses, ans.now);
    BuildFromOwned(app, 0, Building(app.status.annotations, [], statuses, [], None, false), ans.now);
    PausedIdentity(b.objects, app, WantsSuspend(app.spec), app.status.suspendedReplicas);
  }

  lemma KeysDistinct(objs: seq<Obj>)
    ensures DistinctObjectKeys(objs) <==> Volumes.Distinct(KeysOf(objs))
  {
    var keys := KeysOf(objs);
    assert forall i :: 0 <= i < |objs| ==> keys[i] == KeyOf(objs[i]);
    if DistinctObjectKeys(objs) {
      assert forall i, j :: 0 <= i < j < |keys| ==> keys[i] != keys[j];
    } else {
      var i, j :| 0 <= i < j < |objs| && KeyOf(objs[i]) == KeyOf(objs[j]);
      assert keys[i] == keys[j];
    }
  }

  lemma PausedIdentity(objs: seq<Obj>, app: App, suspended: bool, record: Record)
    ensures var r := PauseFrom(objs, 0, suspended, record).0;
            && KeysOf(r) == KeysOf(objs)
            && (DistinctObjectKeys(r) <==> Volumes.Distinct(KeysOf(objs)))
            && ((forall o :: o in objs ==> HasOwner(o, app)) ==> forall o :: o in r ==> HasOwner(o, app))
  {
    hide PauseFrom, Identities;
    PauseKeepsObjects(objs, 0, suspended, record);
    var r := PauseFrom(objs, 0, suspended, record).0;
    assert forall k :: 0 <= k < |objs| ==> KeyOf(r[k]) == KeyOf(objs[k]);
    assert KeysOf(r) == KeysOf(objs);
    KeysDistinct(r);
    if forall o :: o in objs ==> HasOwner(o, app) {
      forall o | o in r ensures HasOwner(o, app) {
        var k :| 0 <= k < |r| && r[k] == o;
        assert objs[k] in objs && HasOwner(objs[k], app);
        var j :| 0 <= j < |app.spec.components| && Owned(objs[k], app, j);
        assert Owned(o, app, j);
      }
    }
  }

  /** With compatible components the apply step ends without error exactly when every desired
      object has an error-free entry in the result map. */
  lemma ApplyNilIffClean(first: Spec, app: App, ans: Oracle)
    requires Builds(first, app) && AllBuildable(app.spec.components) && PairwiseCompatible(app.spec.components)
    ensures var objs := DesiredObjects(first, app, ans);
            var a := ApplyAll(objs, BuildAll(app, Initialize(first).0, ans.now).statuses, ans);
            && (a.firstError.None? <==> forall k :: 0 <= k < |objs| ==> EntryClean(a.results, objs[k]))
            && (a.firstError.None? <==> AllApply(objs, ans))
  {
    hide ApplyAll, Initialize, DesiredObjects, PairwiseCompatible, EntryClean, Applies;
    DistinctKeysIffCompatible(first, app, ans);
    var objs := DesiredObjects(first, app, ans);
    var statuses := BuildAll(app, Initialize(first).0, ans.now).statuses;
    ApplyNilIffAllEntriesClean(objs, statuses, ans);
    ApplyAllClean(objs, statuses, ans);
  }

  /** ... and, if the loop was not cut short, a component is marked applied exactly when every
      one of its own objects was. */
  lemma ComponentAppliedIff(first: Spec, app: App, ans: Oracle, j: nat)
    requires Initialize(first).1.None? && Builds(first, app) && j < |app.spec.components|
    requires AllBuildable(app.spec.components) && PairwiseCompatible(app.spec.components)
    requires !ApplyAll(DesiredObjects(first, app, ans), BuildAll(app, Initialize(first).0, ans.now).statuses,
                       ans).stopped
    ensures var objs, name := DesiredObjects(first, app, ans), app.spec.components[j].name;
            var a := ApplyAll(objs, BuildAll(app, Initialize(first).0, ans.now).statuses, ans);
            name in a.statuses ==>
              (a.statuses[name].message == AppliedAwaitingHealth <==>
               forall k :: 0 <= k < |objs| && objs[k].instance == name ==> Applies(objs[k], ans))
  {
    hide ApplyAll, Initialize, PairwiseCompatible, EntryClean, Applies, BuildFrom, PauseFrom, AllBuildable,
         AllIdentities, Buildable;
    var objs, name := DesiredObjects(first, app, ans), app.spec.components[j].name;
    var b := BuildAll(app, Initialize(first).0, ans.now);
    InitializeFacts(first);
    BuildAllFacts(app, Initialize(first).0, ans.now);
    BuildAllEntries(app, Initialize(first).0, ans.now);
    DistinctKeysIffCompatible(first, app, ans);
    ComponentKnown(first, app, j);
    assert HasComponent(app.spec, name);
    AllIdentitiesNonEmpty(app.spec.components);
    MarkedAppliedIff(objs, b.statuses, ans, name);
  }

  lemma AllIdentitiesNonEmpty(cs: seq<Component>)
    requires AllBuildable(cs) && cs != []
    ensures AllIdentities(cs) != []
  {
    hide DeriveResourceName, HeadlessName, ConfigMapName;
  }
}
