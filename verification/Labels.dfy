/** All objects of a component point at one label map, and the controller later writes through
    it (pkg/builders/runtime/builder.go and processComponentsAndBuildObjects). */
module Labels {

  const MANAGED_BY := "app.kubernetes.io/managed-by"
  const NAME := "app.kubernetes.io/name"
  const INSTANCE := "app.kubernetes.io/instance"
  const APP_NAME := "infini.cloud/application-name"
  const COMP_NAME := "infini.cloud/component-name"
  const COMP_INSTANCE := "infini.cloud/component-instance"
  const OPERATOR := "runtime-operator"

  /** A Go map: shared by reference. */
  class LabelMap {
    var entries: map<string, string>

    constructor (m: map<string, string>)
      ensures entries == m
    {
      entries := m;
    }
  }

  function SelectorLabels(instance: string, compType: string): map<string, string> {
    map[NAME := compType, INSTANCE := instance]
  }

  function CommonLabels(app: string, compType: string, instance: string): map<string, string> {
    map[MANAGED_BY := OPERATOR, NAME := compType, INSTANCE := instance,
        APP_NAME := app, COMP_NAME := compType, COMP_INSTANCE := instance]
  }

  /** The labels a StatefulSet's pods carry. */
  function PodLabels(app: string, compType: string, instance: string): map<string, string> {
    CommonLabels(app, compType, instance) + SelectorLabels(instance, compType)
  }

  /** A new map; the overriding side wins. */
  method MergeMaps(base: map<string, string>, override: map<string, string>) returns (merged: map<string, string>)
    ensures merged == base + override
  {
    merged := map[];
    var todo := base.Keys;
    while todo != {}
      invariant todo <= base.Keys
      invariant merged == map k | k in base && k !in todo :: base[k]
      decreases todo
    {
      var k :| k in todo;
      todo := todo - {k};
      merged := merged[k := base[k]];
    }
    assert merged == base;
    todo := override.Keys;
    while todo != {}
      invariant todo <= override.Keys
      invariant merged == base + (map k | k in override && k !in todo :: override[k])
      decreases todo
    {
      var k :| k in todo;
      todo := todo - {k};
      merged := merged[k := override[k]];
    }
  }

  /** One built object: the position of its component and the label map it points at. */
  datatype Handle = Handle(component: nat, labels: LabelMap)

  /** What the controller leaves in a component's map. */
  function Stamped(app: string, compType: string, instance: string): map<string, string> {
    CommonLabels(app, compType, instance)[APP_NAME := app][COMP_NAME := "operator"]
      [COMP_INSTANCE := instance][MANAGED_BY := OPERATOR]
  }

  function Total(counts: seq<nat>): nat {
    if counts == [] then 0 else Total(counts[..|counts| - 1]) + counts[|counts| - 1]
  }

  /** Objects of one component share a map, objects of different components do not. */
  ghost predicate SharedWithin(objects: seq<Handle>) {
    forall a, b :: 0 <= a < |objects| && 0 <= b < |objects| ==>
      (objects[a].labels == objects[b].labels <==> objects[a].component == objects[b].component)
  }

  /** counts[i] objects are built for component i and stamped in place. Writing through one
      object never reaches another component's, but it does reach the claim template of its own,
      which points at the same map; the pod labels, merged before the stamping, keep the original
      type and satisfy the selector. */
  method BuildAndStamp(app: string, names: seq<string>, types: seq<string>, counts: seq<nat>)
    returns (objects: seq<Handle>, claims: seq<LabelMap>, podLabels: seq<map<string, string>>)
    requires |names| == |types| == |counts|
    ensures |objects| == Total(counts) && SharedWithin(objects)
    ensures forall a :: 0 <= a < |objects| ==>
              && objects[a].component < |names|
              && objects[a].labels.entries == Stamped(app, types[objects[a].component], names[objects[a].component])
    ensures |claims| == |names| && forall a :: 0 <= a < |objects| ==> claims[objects[a].component] == objects[a].labels
    ensures |podLabels| == |names| && forall i :: 0 <= i < |names| ==>
              podLabels[i] == PodLabels(app, types[i], names[i])
  {
    hide Stamped, CommonLabels, SelectorLabels;
    objects, claims, podLabels := [], [], [];
    for i := 0 to |names|
      invariant |objects| == Total(counts[..i]) && SharedWithin(objects)
      invariant forall a :: 0 <= a < |objects| ==>
                  && fresh(objects[a].labels) && objects[a].component < i
                  && objects[a].labels.entries == Stamped(app, types[objects[a].component], names[objects[a].component])
      invariant |claims| == i && forall a :: 0 <= a < |objects| ==> claims[objects[a].component] == objects[a].labels
      invariant |podLabels| == i && forall j :: 0 <= j < i ==> podLabels[j] == PodLabels(app, types[j], names[j])
    {
      assert counts[..i + 1][..i] == counts[..i];
      var common := new LabelMap(CommonLabels(app, types[i], names[i]));
      var merged := MergeMaps(common.entries, SelectorLabels(names[i], types[i]));
      podLabels := podLabels + [merged];
      claims := claims + [common];
      var built := seq(counts[i], _ => Handle(i, common));
      StampComponent(app, types[i], names[i], built, common);
      objects := objects + built;
    }
    assert counts[..|names|] == counts;
  }

  /** The objects of one component are stamped one after the other, through the map they share. */
  method StampComponent(app: string, compType: string, instance: string, built: seq<Handle>, common: LabelMap)
    requires common.entries == CommonLabels(app, compType, instance)
    requires forall k :: 0 <= k < |built| ==> built[k].labels == common
    modifies common
    ensures common.entries == if built == [] then CommonLabels(app, compType, instance)
                              else Stamped(app, compType, instance)
  {
    for k := 0 to |built|
      invariant common.entries == if k == 0 then CommonLabels(app, compType, instance)
                                  else Stamped(app, compType, instance)
    {
      StampLabels(app, built[k], instance);
      RestampingIsIdle(app, compType, instance);
    }
  }

  method StampLabels(app: string, o: Handle, instance: string)
    modifies o.labels
    ensures o.labels.entries
            == old(o.labels.entries)[APP_NAME := app][COMP_NAME := "operator"]
                 [COMP_INSTANCE := instance][MANAGED_BY := OPERATOR]
  {
    o.labels.entries := o.labels.entries[APP_NAME := app];
    o.labels.entries := o.labels.entries[COMP_NAME := "operator"];
    o.labels.entries := o.labels.entries[COMP_INSTANCE := instance];
    o.labels.entries := o.labels.entries[MANAGED_BY := OPERATOR];
  }

  /** The second object of a component finds its labels already in place. */
  lemma RestampingIsIdle(app: string, compType: string, instance: string)
    ensures var s := Stamped(app, compType, instance);
            s[APP_NAME := app][COMP_NAME := "operator"][COMP_INSTANCE := instance][MANAGED_BY := OPERATOR] == s
  {
  }

  ghost predicate Selects(selector: map<string, string>, labels: map<string, string>) {
    forall k :: k in selector ==> k in labels && labels[k] == selector[k]
  }

  /** A StatefulSet's selector matches the pods of its own component, and of no other. */
  lemma SelectorMatchesPods(app: string, compType: string, instance: string, otherType: string, other: string)
    ensures Selects(SelectorLabels(instance, compType), PodLabels(app, otherType, other)) <==>
              instance == other && compType == otherType
  {
    var selector, labels := SelectorLabels(instance, compType), PodLabels(app, otherType, other);
    assert |NAME| != |INSTANCE|;
    assert NAME in selector && INSTANCE in selector;
    assert labels[NAME] == otherType && labels[INSTANCE] == other;
  }

  /** Stamping in place keeps the instance label and replaces the type label. */
  lemma StampedLabels(app: string, compType: string, instance: string)
    ensures var s := Stamped(app, compType, instance);
            s[COMP_INSTANCE] == instance && s[COMP_NAME] == "operator" && s[NAME] == compType
  {
    assert NAME[0] == 'a' && COMP_NAME[0] == 'i' && COMP_INSTANCE[0] == 'i' && APP_NAME[0] == 'i';
    assert |NAME| != |MANAGED_BY| && |COMP_INSTANCE| != |COMP_NAME|;
  }

  /** The six labels of every built object, as they are after stamping, and the two that select pods. */
  lemma LabelTexts(app: string, compType: string, instance: string)
    ensures Stamped(app, compType, instance) ==
            map["app.kubernetes.io/managed-by" := "runtime-operator", "app.kubernetes.io/name" := compType,
                "app.kubernetes.io/instance" := instance, "infini.cloud/application-name" := app,
                "infini.cloud/component-name" := "operator", "infini.cloud/component-instance" := instance]
    ensures CommonLabels(app, compType, instance)
         == Stamped(app, compType, instance)["infini.cloud/component-name" := compType]
    ensures SelectorLabels(instance, compType)
         == map["app.kubernetes.io/name" := compType, "app.kubernetes.io/instance" := instance]
    ensures PodLabels(app, compType, instance) == CommonLabels(app, compType, instance)
  {
  }
}
