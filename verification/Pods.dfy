/** Pods as the plugin sees them (internal/pods, internal/alloc/resource.go). */
module Pods {
  import opened Resources

  datatype Option<+T> = None | Some(value: T)

  type UID = string
  type Labels = map<string, string>

  const LABEL_KEY_QUEUE := "scheduling.kaschnit.github.io/queue"

  /** The part of a pod that is fixed for the life of its UID. */
  datatype PodSpec = PodSpec(
    namespace: string,
    name: string,
    labels: Labels,
    priority: Option<int>,
    startTime: int,
    requests: map<ResourceName, nat>,
    preemptionPolicy: Option<string>)

  datatype Phase = Pending | Running | Succeeded | Failed | OtherPhase

  datatype Condition = Condition(typ: string, status: string, reason: string)

  datatype Pod = Pod(
    uid: UID,
    spec: PodSpec,
    phase: Phase,
    nominatedNodeName: string,
    deletionTimestamp: Option<int>,
    conditions: seq<Condition>)

  /** The specification behind every UID.  Two objects for one UID, such as the pod in a ledger and
      a later copy on a node, agree on it. */
  type World = UID -> PodSpec

  ghost predicate Known(world: World, pod: Pod) {
    pod.spec == world(pod.uid)
  }

  ghost predicate AllKnown(world: World, pods: seq<Pod>) {
    forall i :: 0 <= i < |pods| ==> Known(world, pods[i])
  }

  predicate UniqueUids(pods: seq<Pod>) {
    forall i, j :: 0 <= i < j < |pods| ==> pods[i].uid != pods[j].uid
  }

  function ToSet(pods: seq<Pod>): set<Pod> {
    set pod | pod in pods
  }

  function Uids(pods: set<Pod>): set<UID> {
    set pod | pod in pods :: pod.uid
  }

  function Priority(spec: PodSpec): int {
    if spec.priority.Some? then spec.priority.value else 0
  }

  function QueueLabel(spec: PodSpec): Option<string> {
    if LABEL_KEY_QUEUE in spec.labels then Some(spec.labels[LABEL_KEY_QUEUE]) else None
  }

  /** Labels are read under the key that the scheduler documents. */
  lemma QueueLabelMeaning(spec: PodSpec, name: string)
    ensures QueueLabel(spec) == Some(name)
       <==>
         && "scheduling.kaschnit.github.io/queue" in spec.labels
         && spec.labels["scheduling.kaschnit.github.io/queue"] == name
  {
  }

  /** Priorities compare as the numbers they are, and a pod without one counts as zero. */
  lemma PriorityMeaning(a: PodSpec, b: PodSpec)
    ensures a.priority.Some? && b.priority.Some? ==>
      (Priority(a) < Priority(b) <==> a.priority.value < b.priority.value)
    ensures a.priority.None? && b.priority.Some? ==>
      (Priority(a) < Priority(b) <==> 0 < b.priority.value) && (Priority(b) < Priority(a) <==> b.priority.value < 0)
    ensures a.priority.None? && b.priority.None? ==> Priority(a) == Priority(b)
  {
  }

  /** The pod's requests, with one unit of the "pods" resource. */
  function Request(spec: PodSpec): Resources {
    spec.requests[PODS := 1]
  }

  predicate IsTerminal(pod: Pod) {
    pod.phase.Succeeded? || pod.phase.Failed?
  }

  predicate IsNonTerminal(pod: Pod) {
    pod.phase.Pending? || pod.phase.Running?
  }

  predicate PolicyAllowsPreemption(spec: PodSpec) {
    match spec.preemptionPolicy
    case None => true
    case Some(policy) => policy == "PreemptLowerPriority" || policy == ""
  }

  predicate TerminatingByPreemption(pod: Pod) {
    && pod.deletionTimestamp.Some?
    && Condition("DisruptionTarget", "True", "PreemptionByScheduler") in pod.conditions
  }

  /** The library order on pods: higher priority first, then earlier start. */
  predicate MoreImportant(a: PodSpec, b: PodSpec) {
    || Priority(a) > Priority(b)
    || (Priority(a) == Priority(b) && a.startTime < b.startTime)
  }

  function CompareImportanceDesc(a: Pod, b: Pod): int {
    if MoreImportant(a.spec, b.spec) then -1
    else if MoreImportant(b.spec, a.spec) then 1
    else 0
  }

  predicate SortedByImportance(pods: seq<Pod>) {
    forall i, j :: 0 <= i < j < |pods| ==> CompareImportanceDesc(pods[i], pods[j]) <= 0
  }

  /** Higher priority comes first, and for equal priority the earlier start. */
  lemma SortedMeaning(pods: seq<Pod>, i: nat, j: nat)
    requires SortedByImportance(pods) && i < j < |pods|
    ensures Priority(pods[i].spec) >= Priority(pods[j].spec)
    ensures Priority(pods[i].spec) == Priority(pods[j].spec) ==> pods[i].spec.startTime <= pods[j].spec.startTime
  {
    assert CompareImportanceDesc(pods[i], pods[j]) <= 0;
  }

  /** The library sort, which is not stable.  Callers know only that the result is a sorted
      permutation, so the order of equally important pods stays open. */
  method SortByImportance(pods: seq<Pod>) returns (sorted: seq<Pod>)
    ensures multiset(sorted) == multiset(pods)
    ensures SortedByImportance(sorted)
    ensures forall i, j :: 0 <= i < j < |sorted| ==>
      var a, b := sorted[i].spec, sorted[j].spec;
      Priority(a) > Priority(b) || (Priority(a) == Priority(b) && a.startTime <= b.startTime)
  {
    sorted := [];
    for i := 0 to |pods|
      invariant multiset(sorted) == multiset(pods[..i])
      invariant SortedByImportance(sorted)
    {
      assert pods[..i + 1] == pods[..i] + [pods[i]];
      sorted := InsertByImportance(sorted, pods[i]);
    }
    assert pods[..|pods|] == pods;
    forall i, j | 0 <= i < j < |sorted| {
      SortedMeaning(sorted, i, j);
    }
  }

  method InsertByImportance(pods: seq<Pod>, pod: Pod) returns (result: seq<Pod>)
    requires SortedByImportance(pods)
    ensures multiset(result) == multiset(pods) + multiset{pod}
    ensures SortedByImportance(result)
  {
    var k := 0;
    while k < |pods| && CompareImportanceDesc(pods[k], pod) <= 0
      invariant 0 <= k <= |pods|
      invariant forall j :: 0 <= j < k ==> CompareImportanceDesc(pods[j], pod) <= 0
    {
      k := k + 1;
    }
    result := pods[..k] + [pod] + pods[k..];
    assert pods == pods[..k] + pods[k..];
    InsertSorted(pods, pod, k);
  }

  lemma InsertSorted(pods: seq<Pod>, pod: Pod, k: nat)
    requires SortedByImportance(pods) && k <= |pods|
    requires forall j :: 0 <= j < k ==> CompareImportanceDesc(pods[j], pod) <= 0
    requires k < |pods| ==> CompareImportanceDesc(pods[k], pod) > 0
    ensures SortedByImportance(pods[..k] + [pod] + pods[k..])
  {
  }

  lemma PermutationFacts(pods: seq<Pod>, pods': seq<Pod>)
    requires multiset(pods) == multiset(pods')
    ensures ToSet(pods) == ToSet(pods')
    ensures |pods| == |pods'|
    ensures UniqueUids(pods) ==> UniqueUids(pods')
  {
    forall pod
      ensures pod in pods <==> pod in pods'
    {
      assert pod in pods <==> pod in multiset(pods);
      assert pod in pods' <==> pod in multiset(pods');
    }
    assert |multiset(pods)| == |pods| && |multiset(pods')| == |pods'|;
    if UniqueUids(pods) {
      forall i, j | 0 <= i < j < |pods'|
        ensures pods'[i].uid != pods'[j].uid
      {
        if pods'[i].uid == pods'[j].uid {
          assert pods'[i] in pods && pods'[j] in pods;
          assert pods'[i] == pods'[j];
          TwiceInMultiset(pods', i, j);
          UniqueOnce(pods, pods'[i]);
        }
      }
    }
  }

  lemma TwiceInMultiset(pods: seq<Pod>, i: int, j: int)
    requires 0 <= i < j < |pods| && pods[i] == pods[j]
    ensures multiset(pods)[pods[i]] >= 2
  {
    assert pods == pods[..j] + [pods[j]] + pods[j + 1..];
    assert pods[..j][i] == pods[i];
    assert pods[i] in multiset(pods[..j]);
  }

  lemma UniqueOnce(pods: seq<Pod>, pod: Pod)
    requires UniqueUids(pods)
    ensures multiset(pods)[pod] <= 1
  {
    if pod in pods {
      var k :| 0 <= k < |pods| && pods[k] == pod;
      assert pods == pods[..k] + [pods[k]] + pods[k + 1..];
      assert pod !in pods[..k] && pod !in pods[k + 1..];
      assert pod !in multiset(pods[..k]) && pod !in multiset(pods[k + 1..]);
    }
  }

  lemma AppendUnique(pods: seq<Pod>, pod: Pod)
    requires UniqueUids(pods) && forall p :: p in pods ==> p.uid != pod.uid
    ensures UniqueUids(pods + [pod])
  {
  }

  lemma AppendToSet(pods: seq<Pod>, pod: Pod)
    ensures ToSet(pods + [pod]) == ToSet(pods) + {pod}
  {
  }

  // ---- Usage of a set of pods -------------------------------------------------------------

  /** The sum of one resource over the pods of a set. */
  ghost function Usage(world: World, uids: set<UID>, name: ResourceName): int {
    if uids == {} then 0
    else
      var uid :| uid in uids;
      Qty(Request(world(uid)), name) + Usage(world, uids - {uid}, name)
  }

  lemma {:induction false} UsageRemove(world: World, uids: set<UID>, uid: UID, name: ResourceName)
    requires uid in uids
    ensures Usage(world, uids, name) == Qty(Request(world(uid)), name) + Usage(world, uids - {uid}, name)
  {
    var first :| first in uids
      && Usage(world, uids, name) == Qty(Request(world(first)), name) + Usage(world, uids - {first}, name);
    if first != uid {
      UsageRemove(world, uids - {first}, uid, name);
      UsageRemove(world, uids - {uid}, first, name);
      assert uids - {first} - {uid} == uids - {uid} - {first};
    }
  }

  lemma UsageAdd(world: World, uids: set<UID>, uid: UID, name: ResourceName)
    ensures Usage(world, uids + {uid}, name)
         == Usage(world, uids, name) + if uid in uids then 0 else Qty(Request(world(uid)), name)
  {
    if uid in uids {
      assert uids + {uid} == uids;
    } else {
      UsageRemove(world, uids + {uid}, uid, name);
      assert uids + {uid} - {uid} == uids;
    }
  }

  /** Counting more pods never lowers a usage. */
  lemma {:induction false} UsageMonotone(world: World, fewer: set<UID>, more: set<UID>, name: ResourceName)
    requires fewer <= more
    ensures 0 <= Usage(world, fewer, name) <= Usage(world, more, name)
    decreases more
  {
    if more != {} {
      var uid :| uid in more;
      UsageRemove(world, more, uid, name);
      if uid in fewer {
        UsageRemove(world, fewer, uid, name);
        UsageMonotone(world, fewer - {uid}, more - {uid}, name);
      } else {
        UsageMonotone(world, fewer, more - {uid}, name);
      }
    }
  }

  /** The "pods" resource counts pods. */
  lemma {:induction false} UsageOfPods(world: World, uids: set<UID>)
    ensures Usage(world, uids, PODS) == |uids|
  {
    if uids != {} {
      var uid :| uid in uids;
      UsageRemove(world, uids, uid, PODS);
      UsageOfPods(world, uids - {uid});
      assert |uids| == |uids - {uid}| + 1;
    }
  }

  /** What the pods of a listing request of a resource, by their specifications. */
  function RequestedTotal(world: World, order: seq<UID>, name: ResourceName): int {
    if order == [] then 0
    else
      var requests := world(order[|order| - 1]).requests;
      RequestedTotal(world, order[..|order| - 1], name) + if name in requests then requests[name] else 0
  }

  ghost predicate Lists(order: seq<UID>, uids: set<UID>) {
    && (forall i, j :: 0 <= i < j < |order| ==> order[i] != order[j])
    && (forall uid :: uid in order <==> uid in uids)
  }

  /** Usage is what is requested: of every resource but "pods", the pods of a set use the sum of the
      amounts in their specifications, in whatever order they are listed. */
  lemma {:induction false} UsageIsRequested(world: World, uids: set<UID>, order: seq<UID>, name: ResourceName)
    requires Lists(order, uids) && name != "pods"
    ensures Usage(world, uids, name) == RequestedTotal(world, order, name)
  {
    if order != [] {
      var front, last := order[..|order| - 1], order[|order| - 1];
      assert forall uid :: uid in order <==> uid in front || uid == last;
      assert Lists(front, uids - {last});
      UsageIsRequested(world, uids - {last}, front, name);
      UsageRemove(world, uids, last, name);
    } else {
      assert uids == {};
    }
  }
}
