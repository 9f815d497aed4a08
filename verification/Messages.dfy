/** The texts behind the messages of component entries: the markers the controller searches them for
    are found exactly where the structured values say so. */
module Messages {
  import opened Text
  import opened Config
  import opened Health
  import opened Status
  import opened Reasons

  // Long texts are put together from short ones, whose characters are told more quickly.

  const INVALID_OBJECT :=
    "InvalidBuiltObject: " + "builder returned object " + "without name or namespace " + "for component "

  function VerdictText(v: Verdict): string {
    match v
    case Available => "StatefulSet available"
    case Unobserved(observed, generation) =>
      ("Waiting for rollout to be " + "observed (generation ") + Decimal(observed) + " < desired "
      + Decimal(generation) + ")"
    case RolloutInProgress(updated, desired) =>
      "Rollout in progress: " + Decimal(updated) + "/" + Decimal(desired) + " pods updated"
    case WaitingForReadiness(ready, desired) =>
      "Waiting for readiness: " + Decimal(ready) + "/" + Decimal(desired) + " ready replicas"
    case WaitingForStability(current, desired) =>
      "Waiting for stability: " + Decimal(current) + "/" + Decimal(desired) + " current replicas"
    case WaitingForPartition(updated, above, partition) =>
      "Waiting for partitioned rollout: " + Decimal(updated) + "/" + Decimal(above)
      + " updated replicas above partition " + Decimal(partition)
  }

  /** The text of a message; what stands before an error is shortened to the object's name. */
  function MessageText(m: Message): string {
    match m
    case Initializing => "Initializing"
    case BeingProcessed => "Processing"
    case BuiltSuccessfully => "Built successfully"
    case AppliedAwaitingHealth => "Applied successfully, " + "awaiting health check"
    case ResourceInfoMissing => "Resource Info Missing"
    case ReadyAndHealthy => "Component is ready and healthy"
    case InvalidBuiltObject(component) =>
      INVALID_OBJECT + component
    case ApplyError(target, error) => "ApplyFailed: " + ("ApplyError: Failed for " + target + ": " + Render(error))
    case OverallReconcileError(error) => "OverallReconcileError: " + Render(error)
    case K8sHealthCheckError(error) => "K8sHealthCheckError: " + Render(error)
    case FromHealthCheck(NotThere) => "Resource not found"
    case FromHealthCheck(NotRolledOut(verdict)) => VerdictText(verdict)
    case FromHealthCheck(OtherKind(text)) => text
  }

  /** No character with which a marker begins. */
  predicate Plain(text: string) {
    forall i :: 0 <= i < |text| ==> text[i] != 'E' && text[i] != 'F'
  }

  lemma PlainJoined(a: string, b: string)
    requires Plain(a) && Plain(b)
    ensures Plain(a + b)
  {
  }

  lemma PlainNumber(n: int)
    ensures Plain(Decimal(n))
  {
  }

  lemma ClearWithoutFirst(fixed: string, keyword: string)
    requires keyword != "" && forall i :: 0 <= i < |fixed| ==> fixed[i] != keyword[0]
    ensures StartsClear(fixed, keyword)
  {
    forall i, rest: string | 0 <= i < |fixed| ensures !(keyword <= (fixed + rest)[i..]) {
      assert (fixed + rest)[i..][0] == fixed[i];
    }
  }

  /** No marker begins in a plain text, so only what follows it can have one. */
  lemma PlainClear(fixed: string, rest: string)
    requires Plain(fixed)
    ensures TextMarked(fixed + rest) <==> TextMarked(rest)
  {
    hide Contains, StartsClear;
    ClearWithoutFirst(fixed, "Error:");
    ClearWithoutFirst(fixed, "Failed");
    OnlyTheRest(fixed, rest, "Error:");
    OnlyTheRest(fixed, rest, "Failed");
  }

  lemma PlainUnmarked(text: string)
    requires Plain(text)
    ensures !TextMarked(text)
  {
    PlainClear(text, "");
    assert text + "" == text;
  }

  /** A text made of two fixed parts and two numbers. */
  lemma PlainCounts(a: string, m: int, b: string, n: int, c: string)
    requires Plain(a) && Plain(b) && Plain(c)
    ensures Plain(a + Decimal(m) + b + Decimal(n) + c)
  {
    hide Plain, Decimal;
    PlainNumber(m);
    PlainNumber(n);
    PlainJoined(a, Decimal(m));
    PlainJoined(a + Decimal(m), b);
    PlainJoined(a + Decimal(m) + b, Decimal(n));
    PlainJoined(a + Decimal(m) + b + Decimal(n), c);
  }

  lemma VerdictPlain(v: Verdict)
    ensures Plain(VerdictText(v))
  {
    hide Plain, Decimal;
    FixedParts();
    match v
    case Available =>
    case Unobserved(m, n) =>
      PlainJoined("Waiting for rollout to be ", "observed (generation ");
      PlainCounts("Waiting for rollout to be " + "observed (generation ", m, " < desired ", n, ")");
    case RolloutInProgress(m, n) => PlainCounts("Rollout in progress: ", m, "/", n, " pods updated");
    case WaitingForReadiness(m, n) => PlainCounts("Waiting for readiness: ", m, "/", n, " ready replicas");
    case WaitingForStability(m, n) => PlainCounts("Waiting for stability: ", m, "/", n, " current replicas");
    case WaitingForPartition(m, n, p) =>
      PlainCounts("Waiting for partitioned rollout: ", m, "/", n, " updated replicas above partition ");
      PlainNumber(p);
      PlainJoined("Waiting for partitioned rollout: " + Decimal(m) + "/" + Decimal(n)
                  + " updated replicas above partition ", Decimal(p));
  }

  lemma FixedParts()
    ensures Plain("StatefulSet available")
    ensures Plain("Waiting for rollout to be ") && Plain("observed (generation ") && Plain(" < desired ") && Plain(")")
    ensures Plain("Rollout in progress: ") && Plain("/") && Plain(" pods updated")
    ensures Plain("Waiting for readiness: ") && Plain(" ready replicas")
    ensures Plain("Waiting for stability: ") && Plain(" current replicas")
    ensures Plain("Waiting for partitioned rollout: ") && Plain(" updated replicas above partition ")
  {
  }

  lemma FixedMessages()
    ensures Plain("Initializing") && Plain("Processing") && Plain("Built successfully")
    ensures Plain("Applied successfully, ") && Plain("awaiting health check") && Plain("Resource Info Missing")
    ensures Plain("Component is ready and healthy") && Plain("Resource not found")
  {
  }

  lemma InvalidObjectPlain()
    ensures Plain(INVALID_OBJECT)
  {
    assert Plain("InvalidBuiltObject: ") && Plain("builder returned object ");
    assert Plain("without name or namespace ") && Plain("for component ");
  }

  lemma MarkedAt(fixed: string, i: nat, marker: string, rest: string)
    requires i + |marker| <= |fixed| && fixed[i..i + |marker|] == marker
    ensures Contains(fixed + rest, marker)
  {
    assert (fixed + rest)[i..][..|marker|] == fixed[i..i + |marker|];
  }

  lemma ErrorsMarked(rest: string)
    ensures Contains("ApplyFailed: " + rest, "Failed")
    ensures Contains("OverallReconcileError: " + rest, "Error:")
    ensures Contains("K8sHealthCheckError: " + rest, "Error:")
  {
    hide Contains;
    MarkedAt("ApplyFailed: ", 5, "Failed", rest);
    MarkedAt("OverallReconcileError: ", 16, "Error:", rest);
    MarkedAt("K8sHealthCheckError: ", 14, "Error:", rest);
  }

  /** A message counts as marked exactly when its text has one of the two markers. */
  lemma MarkedByText(m: Message)
    ensures Marked(m) <==> Contains(MessageText(m), "Error:") || Contains(MessageText(m), "Failed")
  {
    hide Contains, Render, Plain;
    match m
    case ApplyError(target, error) => ErrorsMarked("ApplyError: Failed for " + target + ": " + Render(error));
    case OverallReconcileError(error) => ErrorsMarked(Render(error));
    case K8sHealthCheckError(error) => ErrorsMarked(Render(error));
    case InvalidBuiltObject(component) =>
      InvalidObjectPlain();
      PlainClear(INVALID_OBJECT, component);
    case FromHealthCheck(NotRolledOut(verdict)) =>
      VerdictPlain(verdict);
      PlainUnmarked(VerdictText(verdict));
    case FromHealthCheck(OtherKind(_)) =>
    case _ =>
      FixedMessages();
      PlainJoined("Applied successfully, ", "awaiting health check");
      PlainUnmarked(MessageText(m));
  }
}
