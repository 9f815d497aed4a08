/** The status of an ApplicationDefinition (api/app/v1/applicationdefinition_types.go): phases,
    conditions and per-component entries. A human-readable text is the structured value it is
    printed from; texts are equal when those values are. */
module Status {
  import opened Text
  import opened Config
  import opened Health

  datatype Phase = Unset | Pending | Creating | Updating | Running | Degraded | Suspended | Deleting | Failed

  datatype ConditionType = Ready | OtherCondition(name: string)

  datatype Reason =
    | NoComponentsDefined | Processing | IntentionallySuspended | ComponentsReady
    | ComponentsDegraded | ComponentsCreating | ComponentsApplying
    | InitializationFailed | ProcessingFailed | ApplyFailed | HealthCheckFailed | ReconcileFailed

  /** The message of an error condition is the error; other reasons have one fixed message each. */
  datatype Condition = Condition(kind: ConditionType, isTrue: bool, reason: Reason, detail: Option<Error>)

  datatype Message =
    | Initializing | BeingProcessed | BuiltSuccessfully | AppliedAwaitingHealth | ResourceInfoMissing | ReadyAndHealthy
    | InvalidBuiltObject(component: string)
    | ApplyError(object: string, error: Error) | OverallReconcileError(error: Error) | K8sHealthCheckError(error: Error)
    | FromHealthCheck(unready: Unready)

  predicate TextMarked(s: string) {
    Contains(s, "Error:") || Contains(s, "Failed")
  }

  /** The message contains one of the two error markers the controller looks for. */
  predicate Marked(m: Message) {
    match m
    case ApplyError(_, _) => true
    case OverallReconcileError(_) => true
    case K8sHealthCheckError(_) => true
    case FromHealthCheck(unready) => unready.OtherKind? && TextMarked(unready.text)
    case InvalidBuiltObject(component) => TextMarked(component)
    case _ => false
  }

  datatype CompStatus = CompStatus(name: string, kind: string, apiVersion: string, resourceName: string,
                                   namespace: string, health: bool, message: Message)

  datatype AppStatus = AppStatus(
    observedGeneration: nat, phase: Phase, conditions: seq<Condition>, components: seq<CompStatus>,
    suspendedReplicas: map<string, int>, lastChangeID: string, annotations: map<string, ConfigHash>)

  const EMPTY_STATUS := AppStatus(0, Unset, [], [], map[], "", map[])

  /** meta.SetStatusCondition: replace the condition of that type, or append it. */
  function SetCondition(cs: seq<Condition>, c: Condition): seq<Condition> {
    if cs == [] then [c]
    else if cs[0].kind == c.kind then [c] + cs[1..]
    else [cs[0]] + SetCondition(cs[1..], c)
  }

  function WithCondition(st: AppStatus, phase: Phase, isTrue: bool, reason: Reason, detail: Option<Error>): AppStatus {
    st.(phase := phase, conditions := SetCondition(st.conditions, Condition(Ready, isTrue, reason, detail)))
  }

  /** Some Ready condition is True. */
  predicate ReadyTrue(cs: seq<Condition>) {
    exists i :: 0 <= i < |cs| && cs[i].kind == Ready && cs[i].isTrue
  }

  ghost predicate DistinctTypes(cs: seq<Condition>) {
    forall i, j :: 0 <= i < j < |cs| ==> cs[i].kind != cs[j].kind
  }

  lemma {:induction false} SetConditionSets(cs: seq<Condition>, c: Condition)
    requires DistinctTypes(cs)
    ensures DistinctTypes(SetCondition(cs, c)) && c in SetCondition(cs, c)
    ensures forall d :: d in SetCondition(cs, c) ==> d == c || (d in cs && d.kind != c.kind)
  {
    if cs != [] && cs[0].kind != c.kind {
      SetConditionSets(cs[1..], c);
      var rest := SetCondition(cs[1..], c);
      assert forall d :: d in rest ==> d.kind != cs[0].kind;
      assert forall i :: 0 <= i < |rest| ==> rest[i] in rest;
    } else if cs != [] {
      assert forall d :: d in cs[1..] ==> d.kind != c.kind;
    }
  }

  /** The first condition of that type is replaced where it stands, or the new one is appended. */
  lemma {:induction false} SetConditionInPlace(cs: seq<Condition>, c: Condition, i: nat)
    requires i <= |cs| && forall j :: 0 <= j < i ==> cs[j].kind != c.kind
    requires i < |cs| ==> cs[i].kind == c.kind
    ensures SetCondition(cs, c) == if i == |cs| then cs + [c] else cs[i := c]
  {
    if i == 0 {
    } else {
      SetConditionInPlace(cs[1..], c, i - 1);
      assert cs == [cs[0]] + cs[1..];
    }
  }

  /** Conditions of other types stay. */
  lemma {:induction false} SetConditionKeeps(cs: seq<Condition>, c: Condition, d: Condition)
    requires d.kind != c.kind
    ensures d in SetCondition(cs, c) <==> d in cs
  {
    if cs != [] {
      SetConditionKeeps(cs[1..], c, d);
      assert cs == [cs[0]] + cs[1..];
    }
  }

  /** Setting Ready decides it, whatever was there. */
  lemma SetReady(cs: seq<Condition>, isTrue: bool, reason: Reason, detail: Option<Error>)
    requires DistinctTypes(cs)
    ensures var r := SetCondition(cs, Condition(Ready, isTrue, reason, detail));
            DistinctTypes(r) && (ReadyTrue(r) <==> isTrue)
  {
    var c := Condition(Ready, isTrue, reason, detail);
    SetConditionSets(cs, c);
    var r := SetCondition(cs, c);
    var i :| 0 <= i < |r| && r[i] == c;
    forall j | 0 <= j < |r| && j != i ensures r[j].kind != Ready {
      assert if j < i then r[j].kind != r[i].kind else r[i].kind != r[j].kind;
    }
  }
}
