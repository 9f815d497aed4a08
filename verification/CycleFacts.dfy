/** What the loops of one cycle establish: builds, applies, health checks and the phase. */
module CycleFacts {
  import opened Text
  import opened Config
  import opened Builder
  import opened Status
  import opened StatusCompare
  import opened StatusOrder
  import opened PauseResume
  import opened Api
  import opened Cycle
  import Apply
  import Health

  // ----- health: the visiting order does not matter -----

  /** A list of distinct names with a status entry each. */
  ghost predicate Visitable(order: seq<string>, statuses: Statuses) {
    && (forall k :: 0 <= k < |order| ==> order[k] in statuses)
    && forall j, k :: 0 <= j < k < |order| ==> order[j] != order[k]
  }

  /** CheckFrom decides entry by entry, independently of the order. */
  lemma {:induction false} CheckFromEntries(app: App, order: seq<string>, i: nat, c: Checking, ans: Oracle)
    requires i <= |order| && Visitable(order, c.statuses)
    ensures var r := CheckFrom(app, order, i, c, ans);
            && r.statuses.Keys == c.statuses.Keys
            && (forall n :: n in c.statuses && n !in order[i..] ==> r.statuses[n] == c.statuses[n])
            && (forall k :: i <= k < |order| ==>
                  r.statuses[order[k]] == CheckOne(app, order[k], c.statuses[order[k]], ans).entry)
    decreases |order| - i
  {
    if i < |order| {
      var c' := CheckStep(app, order[i], c, ans);
      assert c'.statuses == c.statuses[order[i] := CheckOne(app, order[i], c.statuses[order[i]], ans).entry];
      CheckFromEntries(app, order, i + 1, c', ans);
      assert order[i..] == [order[i]] + order[i + 1..];
      assert forall k :: i < k < |order| ==> c'.statuses[order[k]] == c.statuses[order[k]];
      assert order[i] !in order[i + 1..];
    }
  }

  lemma {:induction false} CheckFromFlags(app: App, order: seq<string>, i: nat, c: Checking, ans: Oracle)
    requires i <= |order| && Visitable(order, c.statuses)
    ensures var r := CheckFrom(app, order, i, c, ans);
            && (r.allReady <==>
                c.allReady && forall k :: i <= k < |order| ==> CheckOne(app, order[k], c.statuses[order[k]], ans).ready)
            && (r.requeue <==>
                c.requeue || exists k :: i <= k < |order| && CheckOne(app, order[k], c.statuses[order[k]], ans).requeue)
    decreases |order| - i
  {
    if i < |order| {
      var c' := CheckStep(app, order[i], c, ans);
      assert forall k :: i < k < |order| ==> c'.statuses[order[k]] == c.statuses[order[k]];
      CheckFromFlags(app, order, i + 1, c', ans);
    }
  }

  lemma {:induction false} CheckFromError(app: App, order: seq<string>, i: nat, c: Checking, ans: Oracle)
    requires i <= |order| && Visitable(order, c.statuses)
    ensures var r := CheckFrom(app, order, i, c, ans);
            && (c.firstError.Some? ==> r.firstError == c.firstError)
            && (c.firstError.None? && r.firstError.Some? ==>
                  exists k :: i <= k < |order|
                    && CheckOne(app, order[k], c.statuses[order[k]], ans).error == r.firstError)
            && (r.firstError.None? ==>
                  forall k :: i <= k < |order| ==> CheckOne(app, order[k], c.statuses[order[k]], ans).error.None?)
    decreases |order| - i
  {
    if i < |order| {
      var c' := CheckStep(app, order[i], c, ans);
      CheckFromError(app, order, i + 1, c', ans);
      assert forall k :: i < k < |order| ==> c'.statuses[order[k]] == c.statuses[order[k]];
    }
  }

  lemma VisitCovers(ans: Oracle, statuses: Statuses)
    ensures var order := Visit(ans, statuses.Keys);
            Visitable(order, statuses) && forall n :: n in statuses ==> exists k :: 0 <= k < |order| && order[k] == n
  {
    var order := Visit(ans, statuses.Keys);
    forall k | 0 <= k < |order| ensures order[k] in statuses { assert order[k] in order; }
    forall n | n in statuses ensures exists k :: 0 <= k < |order| && order[k] == n { assert n in order; }
  }

  /** The whole health check: every entry is decided by its own probe, in any visiting order. */
  lemma CheckAllEntries(app: App, statuses: Statuses, ans: Oracle)
    ensures CheckAll(app, statuses, ans).statuses == map n | n in statuses :: CheckOne(app, n, statuses[n], ans).entry
  {
    var order := Visit(ans, statuses.Keys);
    VisitCovers(ans, statuses);
    CheckFromEntries(app, order, 0, Checking(statuses, true, false, None), ans);
  }

  lemma CheckAllReady(app: App, statuses: Statuses, ans: Oracle)
    ensures CheckAll(app, statuses, ans).allReady <==>
              forall n :: n in statuses ==> CheckOne(app, n, statuses[n], ans).ready
    ensures CheckAll(app, statuses, ans).requeue <==>
              exists n :: n in statuses && CheckOne(app, n, statuses[n], ans).requeue
  {
    var order := Visit(ans, statuses.Keys);
    VisitCovers(ans, statuses);
    CheckFromFlags(app, order, 0, Checking(statuses, true, false, None), ans);
  }

  lemma CheckAllErrors(app: App, statuses: Statuses, ans: Oracle)
    ensures var e := CheckAll(app, statuses, ans).firstError;
            && (e.None? ==> forall n :: n in statuses ==> CheckOne(app, n, statuses[n], ans).error.None?)
            && (e.Some? ==> exists n :: n in statuses && CheckOne(app, n, statuses[n], ans).error == e)
  {
    var order := Visit(ans, statuses.Keys);
    VisitCovers(ans, statuses);
    CheckFromError(app, order, 0, Checking(statuses, true, false, None), ans);
  }

  lemma {:induction false} CheckFromSame(app: App, app': App, order: seq<string>, i: nat, c: Checking, ans: Oracle)
    requires app'.spec == app.spec && app'.namespace == app.namespace
    requires i <= |order| && forall k :: 0 <= k < |order| ==> order[k] in c.statuses
    ensures CheckFrom(app', order, i, c, ans) == CheckFrom(app, order, i, c, ans)
    decreases |order| - i
  {
    if i < |order| {
      assert CheckOne(app', order[i], c.statuses[order[i]], ans) == CheckOne(app, order[i], c.statuses[order[i]], ans);
      CheckFromSame(app, app', order, i + 1, CheckStep(app, order[i], c, ans), ans);
    }
  }

  /** Checks look at specification and namespace, not at the status. */
  lemma CheckAllSame(app: App, app': App, statuses: Statuses, ans: Oracle)
    requires app'.spec == app.spec && app'.namespace == app.namespace
    ensures CheckAll(app', statuses, ans) == CheckAll(app, statuses, ans)
  {
    hide CheckFrom;
    CheckFromSame(app, app', Visit(ans, statuses.Keys), 0, Checking(statuses, true, false, None), ans);
  }

  // ----- applying -----

  /** The object would be applied: no lookup or owner-reference failure, and ApplyObject succeeds. */
  predicate Applies(o: Obj, ans: Oracle) {
    && !(o.kind == Service && ans.lookupFault(KeyOf(o)).Some?)
    && ans.ownerFault(KeyOf(o)).None?
    && Apply.ApplyObject(o, ans.applies(KeyOf(o))).Applied?
  }

  lemma {:induction false} ApplyFromClean(objs: seq<Obj>, i: nat, a: Applying, ans: Oracle)
    requires i <= |objs| && !a.stopped
    ensures var r := ApplyFrom(objs, i, a, ans);
            && (r.firstError.None? <==> a.firstError.None? && forall k :: i <= k < |objs| ==> Applies(objs[k], ans))
            && (r.firstError.None? ==> r.applied == a.applied + objs[i..] && r.statuses == a.statuses && !r.stopped)
    decreases |objs| - i
  {
    if i < |objs| {
      var a' := ApplyStep(objs[i], a, ans);
      if a'.stopped {
        assert a'.firstError.Some? && !Applies(objs[i], ans);
        assert ApplyFrom(objs, i + 1, a', ans) == a';
      } else {
        ApplyFromClean(objs, i + 1, a', ans);
        assert objs[i..] == [objs[i]] + objs[i + 1..];
        var r := ApplyFrom(objs, i + 1, a', ans);
        if r.firstError.None? {
          assert a'.applied == a.applied + [objs[i]];
        }
      }
    } else {
      assert objs[i..] == [];
    }
  }

  lemma ApplyAllClean(objs: seq<Obj>, statuses: Statuses, ans: Oracle)
    ensures var a := ApplyAll(objs, statuses, ans);
            && (a.firstError.None? <==> forall k :: 0 <= k < |objs| ==> Applies(objs[k], ans))
            && (a.firstError.None? ==> a.applied == objs && a.statuses.Keys == statuses.Keys)
            && (a.firstError.None? ==> forall n :: n in statuses ==>
                  a.statuses[n] == statuses[n] || a.statuses[n] == statuses[n].(message := AppliedAwaitingHealth))
  {
    ApplyFromClean(objs, 0, Applying(map[], statuses, [], [], None, false), ans);
    assert objs[0..] == objs;
  }

  ghost predicate DistinctObjectKeys(objs: seq<Obj>) {
    forall i, j :: 0 <= i < j < |objs| ==> KeyOf(objs[i]) != KeyOf(objs[j])
  }

  ghost predicate EntryClean(results: map<Identity, Apply.ApplyResult>, o: Obj) {
    KeyOf(o) in results && results[KeyOf(o)].Applied?
  }

  /** One step writes at most the entry of its own object, and writes it clean iff it applied. */
  lemma ApplyStepEntry(o: Obj, a: Applying, ans: Oracle)
    ensures var r := ApplyStep(o, a, ans);
            && (forall key :: key != KeyOf(o) ==>
                  (key in r.results <==> key in a.results) && (key in a.results ==> r.results[key] == a.results[key]))
            && (KeyOf(o) !in a.results ==> (EntryClean(r.results, o) <==> Applies(o, ans)))
            && (r.stopped ==> a.stopped || !Applies(o, ans))
            && (Applies(o, ans) ==> r.firstError == a.firstError) && (!Applies(o, ans) ==> r.firstError.Some?)
  {
  }

  lemma {:induction false} ApplyFromEntries(objs: seq<Obj>, i: nat, a: Applying, ans: Oracle)
    requires i <= |objs| && !a.stopped && DistinctObjectKeys(objs)
    requires forall k :: i <= k < |objs| ==> KeyOf(objs[k]) !in a.results
    ensures var r := ApplyFrom(objs, i, a, ans);
            && (forall k :: 0 <= k < i ==> (EntryClean(r.results, objs[k]) <==> EntryClean(a.results, objs[k])))
            && (forall k :: i <= k < |objs| && EntryClean(r.results, objs[k]) ==> Applies(objs[k], ans))
            && (!r.stopped ==> forall k :: i <= k < |objs| && Applies(objs[k], ans) ==> EntryClean(r.results, objs[k]))
            && (a.firstError.None? && r.firstError.Some? ==> exists k :: i <= k < |objs| && !Applies(objs[k], ans))
            && (r.stopped ==> r.firstError.Some?)
    decreases |objs| - i
  {
    if i < |objs| {
      var a' := ApplyStep(objs[i], a, ans);
      ApplyStepEntry(objs[i], a, ans);
      if a'.stopped {
        assert ApplyFrom(objs, i + 1, a', ans) == a';
      } else {
        ApplyFromEntries(objs, i + 1, a', ans);
      }
    }
  }

  /** applyResources returns nil iff every desired object has an error-free entry. */
  lemma ApplyNilIffAllEntriesClean(objs: seq<Obj>, statuses: Statuses, ans: Oracle)
    requires DistinctObjectKeys(objs)
    ensures var a := ApplyAll(objs, statuses, ans);
            a.firstError.None? <==> forall k :: 0 <= k < |objs| ==> EntryClean(a.results, objs[k])
  {
    var start := Applying(map[], statuses, [], [], None, false);
    ApplyFromEntries(objs, 0, start, ans);
    ApplyFromClean(objs, 0, start, ans);
    var r := ApplyFrom(objs, 0, start, ans);
    if r.firstError.Some? {
      var k :| 0 <= k < |objs| && !Applies(objs[k], ans);
      assert !EntryClean(r.results, objs[k]);
    }
  }

  /** Errors of other components' objects leave a component's entry alone. */
  lemma {:induction false} ApplyKeepsEntry(objs: seq<Obj>, i: nat, a: Applying, ans: Oracle, n: string)
    requires i <= |objs| && n in a.statuses
    requires forall k :: i <= k < |objs| && objs[k].instance == n ==> Applies(objs[k], ans)
    ensures var r := ApplyFrom(objs, i, a, ans); n in r.statuses && r.statuses[n] == a.statuses[n]
    decreases |objs| - i
  {
    if i < |objs| && !a.stopped {
      ApplyKeepsEntry(objs, i + 1, ApplyStep(objs[i], a, ans), ans, n);
    }
  }

  /** When the loop ran to its end, a component that no error has reached is marked applied iff all
      of its objects were. */
  lemma MarkedAppliedIff(objs: seq<Obj>, statuses: Statuses, ans: Oracle, n: string)
    requires DistinctObjectKeys(objs) && objs != [] && n != ""
    requires n in statuses && statuses[n].message in {Initializing, BeingProcessed, BuiltSuccessfully}
    requires !ApplyAll(objs, statuses, ans).stopped
    ensures var a := ApplyAll(objs, statuses, ans);
            n in a.statuses ==>
              (a.statuses[n].message == AppliedAwaitingHealth <==>
               forall k :: 0 <= k < |objs| && objs[k].instance == n ==> Applies(objs[k], ans))
  {
    var start := Applying(map[], statuses, [], [], None, false);
    var r := ApplyFrom(objs, 0, start, ans);
    ApplyFromEntries(objs, 0, start, ans);
    if forall k :: 0 <= k < |objs| && objs[k].instance == n ==> Applies(objs[k], ans) {
      ApplyKeepsEntry(objs, 0, start, ans, n);
      assert !ApplyFailedFor(objs, r.results, n);
    } else {
      var k :| 0 <= k < |objs| && objs[k].instance == n && !Applies(objs[k], ans);
      assert !EntryClean(r.results, objs[k]);
      assert ApplyFailedFor(objs, r.results, n);
      ApplyNeverMarks(objs, 0, start, ans, n);
    }
  }

  lemma {:induction false} ApplyNeverMarks(objs: seq<Obj>, i: nat, a: Applying, ans: Oracle, n: string)
    requires i <= |objs| && n in a.statuses && a.statuses[n].message != AppliedAwaitingHealth
    ensures var r := ApplyFrom(objs, i, a, ans); n in r.statuses && r.statuses[n].message != AppliedAwaitingHealth
    decreases |objs| - i
  {
    if i < |objs| && !a.stopped {
      ApplyNeverMarks(objs, i + 1, ApplyStep(objs[i], a, ans), ans, n);
    }
  }

  // ----- entries keep their names -----

  lemma CheckKeepsName(app: App, name: string, prior: CompStatus, ans: Oracle)
    ensures CheckOne(app, name, prior, ans).entry.name == prior.name
  {
  }

  lemma {:induction false} ApplyFromKeepsNames(objs: seq<Obj>, i: nat, a: Applying, ans: Oracle)
    requires i <= |objs| && KeyedByName(a.statuses)
    ensures var r := ApplyFrom(objs, i, a, ans).statuses; KeyedByName(r) && r.Keys == a.statuses.Keys
    decreases |objs| - i
  {
    if i < |objs| && !a.stopped {
      ApplyFromKeepsNames(objs, i + 1, ApplyStep(objs[i], a, ans), ans);
    }
  }

  lemma ApplyKeepsNames(objs: seq<Obj>, statuses: Statuses, ans: Oracle)
    requires KeyedByName(statuses)
    ensures var r := ApplyAll(objs, statuses, ans).statuses; KeyedByName(r) && r.Keys == statuses.Keys
  {
    ApplyFromKeepsNames(objs, 0, Applying(map[], statuses, [], [], None, false), ans);
  }

  lemma MarkKeepsNames(statuses: Statuses, e: Error)
    ensures KeyedByName(statuses) ==> KeyedByName(MarkAll(statuses, e))
    ensures MarkAll(statuses, e).Keys == statuses.Keys
  {
  }

  lemma CheckAllKeepsNames(app: App, statuses: Statuses, ans: Oracle)
    requires KeyedByName(statuses)
    ensures var r := CheckAll(app, statuses, ans).statuses; KeyedByName(r) && r.Keys == statuses.Keys
  {
    hide CheckAll, CheckOne;
    CheckAllEntries(app, statuses, ans);
    forall n | n in statuses ensures CheckOne(app, n, statuses[n], ans).entry.name == n {
      CheckKeepsName(app, n, statuses[n], ans);
    }
  }
}
