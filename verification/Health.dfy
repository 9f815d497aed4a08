/** Workload health (internal/controller/common/kubeutil/health.go). */
module Health {
  import opened Text
  import opened Config

  /** The StatefulSet fields the check reads; partition is the rolling-update partition. */
  datatype StatefulSetView = StatefulSetView(
    generation: int, observedGeneration: int, replicas: Option<int>,
    ready: int, current: int, updated: int, partition: Option<int>)

  /** The text of a verdict shows the numbers it was reached from. */
  datatype Verdict =
    | Available
    | Unobserved(observed: int, generation: int)
    | RolloutInProgress(updated: int, desired: int)
    | WaitingForReadiness(ready: int, desired: int)
    | WaitingForStability(current: int, desired: int)
    | WaitingForPartition(updated: int, above: int, partition: int)

  function Desired(s: StatefulSetView): int {
    if s.replicas.Some? then s.replicas.value else 1
  }

  function CheckStatefulSet(s: StatefulSetView): Verdict {
    if s.observedGeneration < s.generation then Unobserved(s.observedGeneration, s.generation)
    else if s.updated < Desired(s) then RolloutInProgress(s.updated, Desired(s))
    else if s.ready < Desired(s) then WaitingForReadiness(s.ready, Desired(s))
    else if s.current < Desired(s) then WaitingForStability(s.current, Desired(s))
    else if s.partition.Some? && s.updated < Desired(s) - s.partition.value then
      WaitingForPartition(s.updated, Desired(s) - s.partition.value, s.partition.value)
    else Available
  }

  /** Observed, and enough updated, ready and current replicas. */
  predicate RolledOut(s: StatefulSetView) {
    var wanted := if s.replicas.Some? then s.replicas.value else 1;
    s.observedGeneration >= s.generation && s.updated >= wanted && s.ready >= wanted && s.current >= wanted
  }

  /** Available means rolled out and nothing else: the partition test can only fail after the
      updated-replica test has, unless the partition is negative. */
  lemma AvailableIffRolledOut(s: StatefulSetView)
    requires s.partition.Some? ==> s.partition.value >= 0
    ensures CheckStatefulSet(s) == Available <==> RolledOut(s)
  {
  }

  /** What a lookup returns: for kinds other than StatefulSet only the verdict and its text. */
  datatype Probe =
    | Missing
    | Broken(text: string)
    | Found(sts: StatefulSetView, otherHealthy: bool, otherText: string)

  /** Why a resource is not healthy yet. */
  datatype Unready = NotThere | NotRolledOut(verdict: Verdict) | OtherKind(text: string)

  datatype Outcome = Healthy | Unhealthy(unready: Unready) | CheckFailed(error: Error)

  predicate IsStatefulSet(apiVersion: string, kind: string) {
    apiVersion == "apps/v1" && kind == "StatefulSet"
  }

  /** CheckHealth: a missing object is unhealthy, a failed lookup is an error. */
  function CheckHealth(apiVersion: string, kind: string, p: Probe): Outcome {
    match p
    case Missing => Unhealthy(NotThere)
    case Broken(text) => CheckFailed(Error(HealthLookup, text, false))
    case Found(sts, ok, text) =>
      if IsStatefulSet(apiVersion, kind) then
        var v := CheckStatefulSet(sts);
        if v == Available then Healthy else Unhealthy(NotRolledOut(v))
      else if ok then Healthy else Unhealthy(OtherKind(text))
  }

  /** A StatefulSet that is found is healthy if and only if it is rolled out; a negative partition,
      which Kubernetes does not admit, would ask for more updated replicas than wanted. */
  lemma StatefulSetHealthyIff(sts: StatefulSetView, otherHealthy: bool, otherText: string)
    ensures CheckHealth("apps/v1", "StatefulSet", Found(sts, otherHealthy, otherText)) == Healthy <==>
              && RolledOut(sts)
              && (sts.partition.Some? ==>
                    sts.updated >= (if sts.replicas.Some? then sts.replicas.value else 1) - sts.partition.value)
  {
  }

  /** What a StatefulSet that is not healthy is said to wait for: the first demand it does not
      meet, of observed generation, updated, ready and current replicas, with the numbers. */
  lemma UnreadyTold(sts: StatefulSetView, otherHealthy: bool, otherText: string)
    ensures var told := CheckHealth("apps/v1", "StatefulSet", Found(sts, otherHealthy, otherText));
            var wanted := if sts.replicas.Some? then sts.replicas.value else 1;
            && !told.CheckFailed?
            && (told.Unhealthy? ==>
                  && told.unready.NotRolledOut?
                  && match told.unready.verdict
                     case Available => false
                     case Unobserved(o, g) => o == sts.observedGeneration && g == sts.generation && o < g
                     case RolloutInProgress(u, d) =>
                       u == sts.updated && d == wanted && u < d && sts.observedGeneration >= sts.generation
                     case WaitingForReadiness(r, d) => r == sts.ready && d == wanted && r < d && sts.updated >= d
                     case WaitingForStability(c, d) => c == sts.current && d == wanted && c < d && sts.ready >= d
                     case WaitingForPartition(u, above, p) =>
                       && u == sts.updated && sts.partition == Some(p) && above == wanted - p
                       && u < above && sts.current >= wanted)
  {
  }

  /** Other answers: an object that is not there is waited for, a lookup that fails is an error, and
      any other kind is as healthy as its own check says. */
  lemma OtherAnswers(apiVersion: string, kind: string, sts: StatefulSetView, ok: bool, text: string)
    ensures CheckHealth(apiVersion, kind, Missing) == Unhealthy(NotThere)
    ensures CheckHealth(apiVersion, kind, Broken(text)) == CheckFailed(Error(HealthLookup, text, false))
    ensures apiVersion != "apps/v1" || kind != "StatefulSet" ==>
              CheckHealth(apiVersion, kind, Found(sts, ok, text)) == if ok then Healthy else Unhealthy(OtherKind(text))
  {
  }
}
