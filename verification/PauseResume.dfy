/** Suspending and resuming (internal/controller/app/pause_resume.go): replica counts are
    recorded and zeroed, and later restored and forgotten. */
module PauseResume {
  import opened Builder

  predicate IsWorkload(o: Obj) {
    o.kind == StatefulSet && o.body.Workload? && o.instance != ""
  }

  function WithReplicas(o: Obj, n: int): Obj
    requires IsWorkload(o)
  {
    o.(body := o.body.(replicas := n))
  }

  type Record = map<string, int>

  function PauseObject(o: Obj, suspended: bool, record: Record): Obj {
    if !IsWorkload(o) then o
    else if suspended then WithReplicas(o, 0)
    else if o.instance in record then WithReplicas(o, record[o.instance])
    else o
  }

  function PauseRecord(o: Obj, suspended: bool, record: Record): Record {
    if !IsWorkload(o) then record
    else if suspended then if o.instance in record then record else record[o.instance := o.body.replicas]
    else record - {o.instance}
  }

  /** The loop over the desired objects, from position i on. */
  function PauseFrom(objs: seq<Obj>, i: nat, suspended: bool, record: Record): (r: (seq<Obj>, Record))
    requires i <= |objs|
    ensures |r.0| == |objs|
    decreases |objs| - i
  {
    if i == |objs| then (objs, record)
    else PauseFrom(objs[i := PauseObject(objs[i], suspended, record)], i + 1, suspended,
                   PauseRecord(objs[i], suspended, record))
  }

  function Instances(objs: seq<Obj>): set<string> {
    set o | o in objs && IsWorkload(o) :: o.instance
  }

  /** At most one workload per component. */
  ghost predicate OneWorkloadEach(objs: seq<Obj>) {
    forall i, j :: 0 <= i < j < |objs| && IsWorkload(objs[i]) && IsWorkload(objs[j]) ==>
      objs[i].instance != objs[j].instance
  }

  /** Only replica counts of workloads change. */
  lemma {:induction false} PauseKeepsObjects(objs: seq<Obj>, i: nat, suspended: bool, record: Record)
    requires i <= |objs|
    ensures var r := PauseFrom(objs, i, suspended, record).0;
            && |r| == |objs|
            && (forall k :: 0 <= k < i ==> r[k] == objs[k])
            && forall k :: 0 <= k < |objs| ==>
                 && r[k].kind == objs[k].kind && r[k].name == objs[k].name
                 && r[k].namespace == objs[k].namespace && r[k].instance == objs[k].instance
                 && (!IsWorkload(objs[k]) ==> r[k] == objs[k])
                 && (IsWorkload(objs[k]) ==> IsWorkload(r[k]) && r[k] == WithReplicas(objs[k], r[k].body.replicas))
    decreases |objs| - i
  {
    if i < |objs| {
      PauseKeepsObjects(objs[i := PauseObject(objs[i], suspended, record)], i + 1, suspended,
                        PauseRecord(objs[i], suspended, record));
    }
  }

  /** Suspending zeroes every workload; a count already on record stays, a new one is the count
      the object was built with, never the zero. */
  lemma {:induction false} Suspending(objs: seq<Obj>, i: nat, record: Record)
    requires i <= |objs|
    ensures var (r, rec) := PauseFrom(objs, i, true, record);
            && |r| == |objs|
            && (forall k :: i <= k < |objs| && IsWorkload(objs[k]) ==> IsWorkload(r[k]) && r[k].body.replicas == 0)
            && (forall n :: n in record ==> n in rec && rec[n] == record[n])
            && (forall n :: n in rec && n !in record ==>
                  exists k :: i <= k < |objs| && IsWorkload(objs[k]) && objs[k].instance == n
                    && rec[n] == objs[k].body.replicas)
            && (forall k :: i <= k < |objs| && IsWorkload(objs[k]) ==> objs[k].instance in rec)
    decreases |objs| - i
  {
    if i < |objs| {
      var objs' := objs[i := PauseObject(objs[i], true, record)];
      var record' := PauseRecord(objs[i], true, record);
      Suspending(objs', i + 1, record');
      PauseKeepsObjects(objs', i + 1, true, record');
      var rec := PauseFrom(objs, i, true, record).1;
      forall n | n in rec && n !in record
        ensures exists k :: i <= k < |objs| && IsWorkload(objs[k]) && objs[k].instance == n
                  && rec[n] == objs[k].body.replicas
      {
        if n in record' {
          assert IsWorkload(objs[i]) && objs[i].instance == n;
        } else {
          var k :| i + 1 <= k < |objs'| && IsWorkload(objs'[k]) && objs'[k].instance == n
                   && rec[n] == objs'[k].body.replicas;
          assert objs[k] == objs'[k];
        }
      }
    }
  }

  /** Resuming restores the recorded counts, forgets exactly the current workloads and leaves
      other entries alone; a workload without a record keeps the count it was built with. */
  lemma {:induction false} Resuming(objs: seq<Obj>, i: nat, record: Record)
    requires i <= |objs| && OneWorkloadEach(objs)
    ensures var (r, rec) := PauseFrom(objs, i, false, record);
            && |r| == |objs|
            && (forall k :: i <= k < |objs| && IsWorkload(objs[k]) ==>
                  && IsWorkload(r[k])
                  && r[k].body.replicas == if objs[k].instance in record then record[objs[k].instance]
                                           else objs[k].body.replicas)
            && rec == record - Instances(objs[i..])
    decreases |objs| - i
  {
    if i < |objs| {
      var objs' := objs[i := PauseObject(objs[i], false, record)];
      var record' := PauseRecord(objs[i], false, record);
      Resuming(objs', i + 1, record');
      PauseKeepsObjects(objs', i + 1, false, record');
      assert objs'[i + 1..] == objs[i + 1..];
      assert objs[i..] == [objs[i]] + objs[i + 1..];
      assert Instances(objs[i..])
             == Instances(objs[i + 1..]) + (if IsWorkload(objs[i]) then {objs[i].instance} else {});
    } else {
      assert objs[i..] == [];
    }
  }

  /** Suspend then resume restores what was built, for any record that holds no current workload. */
  lemma SuspendResumeRoundTrip(objs: seq<Obj>, record: Record, k: nat)
    requires OneWorkloadEach(objs) && k < |objs| && IsWorkload(objs[k])
    requires Instances(objs) !! record.Keys
    ensures var (_, suspended) := PauseFrom(objs, 0, true, record);
            var (resumed, rec) := PauseFrom(objs, 0, false, suspended);
            resumed[k] == objs[k] && rec == record
  {
    var (_, suspended) := PauseFrom(objs, 0, true, record);
    var (resumed, rec) := PauseFrom(objs, 0, false, suspended);
    Suspending(objs, 0, record);
    Resuming(objs, 0, suspended);
    PauseKeepsObjects(objs, 0, false, suspended);
    assert objs[0..] == objs;
    var n := objs[k].instance;
    assert objs[k] in objs && n in Instances(objs);
    var j :| 0 <= j < |objs| && IsWorkload(objs[j]) && objs[j].instance == n && suspended[n] == objs[j].body.replicas;
    assert j == k;
    forall m | m in suspended && m !in record ensures m in Instances(objs) {
      var j :| 0 <= j < |objs| && IsWorkload(objs[j]) && objs[j].instance == m;
      assert objs[j] in objs;
    }
    assert rec == record;
  }
}
