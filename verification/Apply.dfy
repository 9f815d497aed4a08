/** Applying one object (ApplyObjectV2 in internal/controller/common/kubeutil/apply.go). The
    reconciler library is reduced to the answers it gives. */
module Apply {
  import opened Text
  import opened Config
  import opened Builder

  datatype Operation = Created | Unchanged

  datatype ApplyResult = Applied(operation: Operation) | Failed(error: Error)

  /** The answer to CreateIfNotExist, and to the n-th ReconcileResource after it. */
  datatype CreateAnswer = WasCreated | AlreadyThere | CreateError(error: Error)
  datatype Answer = Fine | Refused(error: Error)
  datatype Script = Script(create: CreateAnswer, reconcile: nat -> Answer)

  const MAX_ATTEMPTS: nat := 3

  /** The first attempt that does not end in a conflict, or the last one allowed. */
  function Deciding(answers: nat -> Answer, n: nat): (r: nat)
    requires 1 <= n <= MAX_ATTEMPTS
    ensures n <= r <= MAX_ATTEMPTS
    ensures forall k :: n <= k < r ==> answers(k).Refused? && answers(k).error.conflict
    ensures r < MAX_ATTEMPTS ==> answers(r).Fine? || !answers(r).error.conflict
    decreases MAX_ATTEMPTS - n
  {
    if n < MAX_ATTEMPTS && answers(n).Refused? && answers(n).error.conflict then Deciding(answers, n + 1) else n
  }

  function MissingMetadata(o: Obj): bool {
    o.name == "" || o.namespace == ""
  }

  function ApplyObject(o: Obj, script: Script): ApplyResult {
    if MissingMetadata(o) then Failed(Error(ApplyMetadata, o.name, false))
    else match script.create
         case CreateError(e) => Failed(e)
         case WasCreated => Applied(Created)
         case AlreadyThere =>
           match script.reconcile(Deciding(script.reconcile, 1))
           case Fine => Applied(Unchanged)
           case Refused(e) => Failed(e)
  }

  method ApplyObjectV2(o: Obj, script: Script) returns (result: ApplyResult, attempts: nat)
    ensures result == ApplyObject(o, script)
    ensures attempts <= MAX_ATTEMPTS
    ensures attempts > 0 <==> !MissingMetadata(o) && script.create.AlreadyThere?
  {
    attempts := 0;
    if MissingMetadata(o) {
      return Failed(Error(ApplyMetadata, o.name, false)), 0;
    }
    match script.create {
      case CreateError(e) => return Failed(e), 0;
      case WasCreated => return Applied(Created), 0;
      case AlreadyThere =>
    }
    var attempt := 1;
    while attempt <= MAX_ATTEMPTS
      invariant 1 <= attempt <= MAX_ATTEMPTS
      invariant Deciding(script.reconcile, attempt) == Deciding(script.reconcile, 1)
      invariant attempts == attempt - 1
      decreases MAX_ATTEMPTS - attempt
    {
      attempts := attempts + 1;
      var answer := script.reconcile(attempt);
      if answer.Fine? {
        break;
      }
      if answer.error.conflict && attempt < MAX_ATTEMPTS {
        attempt := attempt + 1;
        continue;
      }
      return Failed(answer.error), attempts;
    }
    return Applied(Unchanged), attempts;
  }

  /** The answers one by one: nothing is sent without a name and a namespace; a creation decides at
      once, either way; an existing object gets a second and a third try after conflicts only. */
  lemma AnswersDecide(o: Obj, script: Script, first: Answer, second: Answer, third: Answer)
    requires script.reconcile(1) == first && script.reconcile(2) == second && script.reconcile(3) == third
    ensures var r := ApplyObject(o, script);
            if o.name == "" || o.namespace == "" then r == Failed(Error(ApplyMetadata, o.name, false))
            else match script.create
                 case WasCreated => r == Applied(Created)
                 case CreateError(e) => r == Failed(e)
                 case AlreadyThere =>
                   if first.Fine? then r == Applied(Unchanged)
                   else if !first.error.conflict then r == Failed(first.error)
                   else if second.Fine? then r == Applied(Unchanged)
                   else if !second.error.conflict then r == Failed(second.error)
                   else if third.Fine? then r == Applied(Unchanged) else r == Failed(third.error)
  {
    assert Deciding(script.reconcile, 3) == 3;
    assert Deciding(script.reconcile, 2) == if second.Refused? && second.error.conflict then 3 else 2;
  }

  /** An existing object is applied iff one of three attempts succeeds after nothing but conflicts. */
  lemma AppliedIff(o: Obj, script: Script)
    requires !MissingMetadata(o) && script.create.AlreadyThere?
    ensures ApplyObject(o, script).Applied? <==>
            exists n :: 1 <= n <= MAX_ATTEMPTS && script.reconcile(n).Fine?
                        && forall k :: 1 <= k < n ==> script.reconcile(k).Refused? && script.reconcile(k).error.conflict
  {
    var d := Deciding(script.reconcile, 1);
    if exists n :: 1 <= n <= MAX_ATTEMPTS && script.reconcile(n).Fine?
                   && forall k :: 1 <= k < n ==> script.reconcile(k).Refused? && script.reconcile(k).error.conflict {
      var n :| 1 <= n <= MAX_ATTEMPTS && script.reconcile(n).Fine?
               && forall k :: 1 <= k < n ==> script.reconcile(k).Refused? && script.reconcile(k).error.conflict;
      assert d == n;
    }
  }
}
