/** The scheduling plugin and its cycle state (internal/plugin/quotaawarepreempt/plugin.go,
    internal/plugin/quotaawarepreempt/state.go). */
module Plugins {
  import opened Resources
  import opened Pods
  import opened Ledgers
  import opened Queues

  datatype Status = Success | Error | Unschedulable | UnschedulableAndUnresolvable | RejectedByFilter

  // ---- Nominated pods ---------------------------------------------------------------------

  /** A nominated pod that counts against the quota of `pod`: another pod of the same queue, of the
      same or a higher priority. */
  predicate IsAhead(pod: Pod, nominated: Pod) {
    && nominated.uid != pod.uid
    && Priority(nominated.spec) >= Priority(pod.spec)
    && QueueLabel(nominated.spec) == QueueLabel(pod.spec)
  }

  function CountNode(m: ManagerView, pod: Pod, nominated: seq<Pod>): ManagerView {
    if nominated == [] then m
    else
      var before := CountNode(m, pod, nominated[..|nominated| - 1]);
      var last := nominated[|nominated| - 1];
      if IsAhead(pod, last) then CountPod(before, last) else before
  }

  function CountNodes(m: ManagerView, pod: Pod, nodes: seq<seq<Pod>>): ManagerView {
    if nodes == [] then m
    else CountNode(CountNodes(m, pod, nodes[..|nodes| - 1]), pod, nodes[|nodes| - 1])
  }

  lemma CountNodeStep(m: ManagerView, pod: Pod, nominated: seq<Pod>, j: nat)
    requires j < |nominated|
    ensures var before := CountNode(m, pod, nominated[..j]);
      CountNode(m, pod, nominated[..j + 1])
        == if IsAhead(pod, nominated[j]) then CountPod(before, nominated[j]) else before
  {
    assert nominated[..j + 1][..j] == nominated[..j];
  }

  lemma CountNodesStep(m: ManagerView, pod: Pod, nodes: seq<seq<Pod>>, i: nat)
    requires i < |nodes|
    ensures CountNodes(m, pod, nodes[..i + 1]) == CountNode(CountNodes(m, pod, nodes[..i]), pod, nodes[i])
  {
    assert nodes[..i + 1][..i] == nodes[..i];
  }

  /** The snapshot of a scheduling cycle: the live queues, with the nominated pods that are ahead
      counted into the pod's queue.  `nodes` lists the nominated pods node by node. */
  function Snapshot(live: ManagerView, pod: Pod, nodes: seq<seq<Pod>>): ManagerView {
    if QueueOf(live, pod.spec).None? then live else CountNodes(live, pod, nodes)
  }

  /** The quota gate: a pod outside every queue passes. */
  predicate PassesGate(m: ManagerView, pod: PodSpec) {
    var q := QueueOf(m, pod);
    q.None? || !OverMax(q.value.ledger.used, Request(pod), q.value.ledger.max)
  }

  /** What the gate answers: listing the nodes must succeed for a pod of a queue. */
  function GateStatus(m: ManagerView, pod: PodSpec, nodesListed: bool): Status {
    if QueueOf(m, pod).None? then Success
    else if !nodesListed then Error
    else if PassesGate(m, pod) then Success
    else Unschedulable
  }

  ghost function AheadUids(pod: Pod, nodes: seq<seq<Pod>>): set<UID> {
    set i, j | 0 <= i < |nodes| && 0 <= j < |nodes[i]| && IsAhead(pod, nodes[i][j]) :: nodes[i][j].uid
  }

  ghost predicate NodesKnown(world: World, nodes: seq<seq<Pod>>) {
    forall i :: 0 <= i < |nodes| ==> AllKnown(world, nodes[i])
  }

  function AheadOnNode(pod: Pod, nominated: seq<Pod>): set<UID> {
    set nom | nom in nominated && IsAhead(pod, nom) :: nom.uid
  }

  /** `m'` is `m` with `more` counted into the queue `name` and everything else as it was. */
  ghost predicate CountedInto(world: World, m: ManagerView, m': ManagerView, name: string, more: set<UID>) {
    && ManagerInv(world, m') && SameConfig(m, m')
    && Counted(m', name) == Counted(m, name) + more
    && forall other :: other in m && other != name ==> m'[other] == m[other]
  }

  lemma CountedIntoTwice(world: World, m: ManagerView, m': ManagerView, m'': ManagerView, name: string,
                         first: set<UID>, second: set<UID>)
    ensures CountedInto(world, m, m', name, first) && CountedInto(world, m', m'', name, second) ==>
      CountedInto(world, m, m'', name, first + second)
  {
  }

  lemma CountsOne(world: World, m: ManagerView, pod: Pod, name: string)
    requires ManagerInv(world, m) && Known(world, pod) && name in m && QueueLabel(pod.spec) == Some(name)
    ensures CountedInto(world, m, CountPod(m, pod), name, {pod.uid})
  {
    CountKeepsInv(world, m, pod);
  }

  lemma {:induction false} CountNodeMeaning(world: World, m: ManagerView, pod: Pod, nominated: seq<Pod>)
    requires ManagerInv(world, m) && AllKnown(world, nominated) && QueueOf(m, pod.spec).Some?
    ensures CountedInto(world, m, CountNode(m, pod, nominated), QueueLabel(pod.spec).value, AheadOnNode(pod, nominated))
  {
    if nominated != [] {
      var front, last := nominated[..|nominated| - 1], nominated[|nominated| - 1];
      CountNodeMeaning(world, m, pod, front);
      AheadOnNodeStep(pod, nominated);
      var m' := CountNode(m, pod, front);
      if IsAhead(pod, last) {
        var name := QueueLabel(pod.spec).value;
        CountsOne(world, m', last, name);
        CountedIntoTwice(world, m, m', CountPod(m', last), name, AheadOnNode(pod, front), {last.uid});
      } else {
        assert CountNode(m, pod, nominated) == m';
      }
    }
  }

  lemma AheadOnNodeStep(pod: Pod, nominated: seq<Pod>)
    requires nominated != []
    ensures var front, last := nominated[..|nominated| - 1], nominated[|nominated| - 1];
      AheadOnNode(pod, nominated) == AheadOnNode(pod, front) + if IsAhead(pod, last) then {last.uid} else {}
  {
  }

  lemma {:induction false} CountNodesMeaning(world: World, m: ManagerView, pod: Pod, nodes: seq<seq<Pod>>)
    requires ManagerInv(world, m) && NodesKnown(world, nodes) && QueueOf(m, pod.spec).Some?
    ensures CountedInto(world, m, CountNodes(m, pod, nodes), QueueLabel(pod.spec).value, AheadUids(pod, nodes))
  {
    if nodes == [] {
      assert AheadUids(pod, nodes) == {};
    } else {
      var front, last := nodes[..|nodes| - 1], nodes[|nodes| - 1];
      CountNodesMeaning(world, m, pod, front);
      AheadUidsStep(pod, nodes);
      var m' := CountNodes(m, pod, front);
      CountNodeMeaning(world, m', pod, last);
      CountedIntoTwice(world, m, m', CountNode(m', pod, last), QueueLabel(pod.spec).value,
                       AheadUids(pod, front), AheadOnNode(pod, last));
    }
  }

  lemma AheadUidsStep(pod: Pod, nodes: seq<seq<Pod>>)
    requires nodes != []
    ensures AheadUids(pod, nodes) == AheadUids(pod, nodes[..|nodes| - 1]) + AheadOnNode(pod, nodes[|nodes| - 1])
  {
  }

  /** The snapshot counts, in the pod's queue, the live pods and every nominated pod that is ahead,
      each once, whatever the order of nodes and however often a pod is nominated or already
      counted.  All other queues are as they were. */
  lemma SnapshotMeaning(world: World, live: ManagerView, pod: Pod, nodes: seq<seq<Pod>>)
    requires ManagerInv(world, live) && NodesKnown(world, nodes)
    ensures ManagerInv(world, Snapshot(live, pod, nodes)) && SameConfig(live, Snapshot(live, pod, nodes))
    ensures QueueOf(live, pod.spec).None? ==> Snapshot(live, pod, nodes) == live
    ensures QueueOf(live, pod.spec).Some? ==>
      CountedInto(world, live, Snapshot(live, pod, nodes), QueueLabel(pod.spec).value, AheadUids(pod, nodes))
  {
    if QueueOf(live, pod.spec).Some? {
      CountNodesMeaning(world, live, pod, nodes);
    }
  }

  /** The gate of a cycle in terms of the pods it counts. */
  lemma GateMeaning(world: World, live: ManagerView, pod: Pod, nodes: seq<seq<Pod>>)
    requires ManagerInv(world, live) && NodesKnown(world, nodes)
    requires QueueOf(live, pod.spec).Some? && NonNegative(QueueOf(live, pod.spec).value.ledger.max)
    ensures PassesGate(Snapshot(live, pod, nodes), pod.spec) <==>
      Admits(world, QueueOf(live, pod.spec).value.ledger.max,
             Counted(live, QueueLabel(pod.spec).value) + AheadUids(pod, nodes), Request(pod.spec))
  {
    SnapshotMeaning(world, live, pod, nodes);
    var name := QueueLabel(pod.spec).value;
    OverMaxReadsCounted(world, Snapshot(live, pod, nodes)[name].ledger, Request(pod.spec));
  }

  /** The pods that a cycle counts against the quota of `pod`: those its queue counts, and every other
      pod nominated to some node, of that queue and of no lower priority. */
  ghost predicate CountsInCycle(live: ManagerView, pod: Pod, nodes: seq<seq<Pod>>, uid: UID) {
    || uid in CountedBeside(live, pod.spec)
    || (uid != pod.uid && exists i, j :: (
          && 0 <= i < |nodes| && 0 <= j < |nodes[i]| && nodes[i][j].uid == uid
          && QueueLabel(nodes[i][j].spec) == QueueLabel(pod.spec)
          && Priority(nodes[i][j].spec) >= Priority(pod.spec)))
  }

  lemma CountedInCycle(live: ManagerView, pod: Pod, nodes: seq<seq<Pod>>, counted: set<UID>)
    requires forall uid :: uid in counted <==> CountsInCycle(live, pod, nodes, uid)
    ensures counted == CountedBeside(live, pod.spec) + AheadUids(pod, nodes)
  {
    forall uid
      ensures uid in AheadUids(pod, nodes) <==> uid != pod.uid && exists i, j :: (
                && 0 <= i < |nodes| && 0 <= j < |nodes[i]| && nodes[i][j].uid == uid
                && QueueLabel(nodes[i][j].spec) == QueueLabel(pod.spec)
                && Priority(nodes[i][j].spec) >= Priority(pod.spec))
    {
    }
  }

  lemma RoomInRequests(world: World, max: Resources, counted: set<UID>, spec: PodSpec)
    ensures Admits(world, max, counted, Request(spec)) <==>
      forall n :: n in max ==>
        Usage(world, counted, n) + (if n == "pods" then 1 else if n in spec.requests then spec.requests[n] else 0)
          <= max[n]
  {
  }

  /** What the gate answers, in terms of pods and requests.  A pod without a queue passes; with one,
      an unlisted node list is an error, and else the pod passes exactly if, for every limit, it and
      the pods that the cycle counts request no more.  Otherwise it is unschedulable. */
  lemma GateStatusMeaning(world: World, live: ManagerView, pod: Pod, nodes: seq<seq<Pod>>, counted: set<UID>)
    requires ManagerInv(world, live) && NodesKnown(world, nodes)
    requires forall uid :: uid in counted <==> CountsInCycle(live, pod, nodes, uid)
    ensures QueueOf(live, pod.spec).None? ==>
      GateStatus(Snapshot(live, pod, nodes), pod.spec, true) == GateStatus(live, pod.spec, false) == Success
    ensures QueueOf(live, pod.spec).Some? ==> GateStatus(live, pod.spec, false) == Error
    ensures QueueOf(live, pod.spec).Some? && NonNegative(QueueOf(live, pod.spec).value.ledger.max) ==>
      var max := QueueOf(live, pod.spec).value.ledger.max;
      GateStatus(Snapshot(live, pod, nodes), pod.spec, true)
        == if forall n :: n in max ==>
                Usage(world, counted, n)
                  + (if n == "pods" then 1 else if n in pod.spec.requests then pod.spec.requests[n] else 0) <= max[n]
           then Success else Unschedulable
  {
    SnapshotMeaning(world, live, pod, nodes);
    if QueueOf(live, pod.spec).Some? && NonNegative(QueueOf(live, pod.spec).value.ledger.max) {
      GateMeaning(world, live, pod, nodes);
      CountedInCycle(live, pod, nodes, counted);
      RoomInRequests(world, QueueOf(live, pod.spec).value.ledger.max, counted, pod.spec);
    }
  }

  /** A pod that requests more than a limit of its queue never passes, whatever is counted. */
  lemma OversizedPodNeverPasses(world: World, live: ManagerView, pod: Pod, nodes: seq<seq<Pod>>, listed: bool,
                                name: ResourceName)
    requires ManagerInv(world, live) && NodesKnown(world, nodes) && QueueOf(live, pod.spec).Some?
    requires name in QueueOf(live, pod.spec).value.ledger.max && name in pod.spec.requests && name != "pods"
    requires pod.spec.requests[name] > QueueOf(live, pod.spec).value.ledger.max[name]
    ensures GateStatus(Snapshot(live, pod, nodes), pod.spec, listed) != Success
  {
    SnapshotMeaning(world, live, pod, nodes);
    var l := QueueOf(Snapshot(live, pod, nodes), pod.spec).value.ledger;
    UsageMonotone(world, {}, l.pods.Keys, name);
    assert Sum(l.used, Request(pod.spec))[name] > l.max[name];
  }

  // ---- Cycle state ------------------------------------------------------------------------

  class QueueSnapshotState {
    const QueueMgr: Manager

    constructor (queueMgr: Manager)
      ensures this.QueueMgr == queueMgr
    {
      QueueMgr := queueMgr;
    }

    method Clone() returns (copy: QueueSnapshotState)
      requires QueueMgr.Valid()
      ensures fresh(copy) && copy.QueueMgr.Valid() && fresh(copy.QueueMgr.Repr)
      ensures copy.QueueMgr.Contents == QueueMgr.Contents
    {
      var mgr := QueueMgr.Clone();
      copy := new QueueSnapshotState(mgr);
    }
  }

  /** A snapshot of the manager; of a missing manager, an empty one. */
  method NewQueueSnapshotState(queueMgr: Manager?) returns (state: QueueSnapshotState)
    requires queueMgr != null ==> queueMgr.Valid()
    ensures fresh(state) && state.QueueMgr.Valid() && fresh(state.QueueMgr.Repr)
    ensures state.QueueMgr.Contents == if queueMgr == null then map[] else queueMgr.Contents
  {
    var mgr: Manager;
    if queueMgr == null {
      mgr := new Manager();
    } else {
      mgr := queueMgr.Clone();
    }
    state := new QueueSnapshotState(mgr);
  }

  /** The plugin's entry in the state of a scheduling cycle. */
  class CycleState {
    var queueSnapshot: QueueSnapshotState?

    constructor (queueSnapshot: QueueSnapshotState?)
      ensures this.queueSnapshot == queueSnapshot
    {
      this.queueSnapshot := queueSnapshot;
    }

    ghost predicate Valid()
      reads this, if queueSnapshot == null then {} else {queueSnapshot.QueueMgr}
      reads if queueSnapshot == null then {} else queueSnapshot.QueueMgr.Repr
    {
      queueSnapshot != null ==> queueSnapshot.QueueMgr.Valid() && this !in queueSnapshot.QueueMgr.Repr
    }

    method Clone() returns (copy: CycleState)
      requires Valid()
      ensures fresh(copy) && copy.Valid()
      ensures copy.queueSnapshot == null <==> queueSnapshot == null
      ensures queueSnapshot != null ==>
        && fresh(copy.queueSnapshot.QueueMgr) && fresh(copy.queueSnapshot.QueueMgr.Repr)
        && copy.queueSnapshot.QueueMgr.Contents == queueSnapshot.QueueMgr.Contents
    {
      var snapshot: QueueSnapshotState? := null;
      if queueSnapshot != null {
        snapshot := queueSnapshot.Clone();
      }
      copy := new CycleState(snapshot);
    }
  }

  // ---- Plugin -----------------------------------------------------------------------------

  class Plugin {
    const queueMgr: Manager

    constructor (queueMgr: Manager)
      ensures this.queueMgr == queueMgr
    {
      this.queueMgr := queueMgr;
    }

    /** Takes the snapshot of the cycle and applies the quota gate.  `nodes` holds the pods
        nominated to each node, or nothing when listing the nodes fails.  Whatever the outcome, the
        snapshot is written to the cycle state. */
    method PreFilter(state: CycleState, pod: Pod, nodes: Option<seq<seq<Pod>>>) returns (status: Status)
      requires queueMgr.Valid() && state !in queueMgr.Repr
      modifies state
      ensures state.Valid() && state.queueSnapshot != null
      ensures fresh(state.queueSnapshot) && fresh(state.queueSnapshot.QueueMgr.Repr)
      ensures queueMgr.Valid() && queueMgr.Contents == old(queueMgr.Contents)
      ensures state.queueSnapshot.QueueMgr.Contents
        == if nodes.None? then queueMgr.Contents else Snapshot(queueMgr.Contents, pod, nodes.value)
      ensures status == GateStatus(state.queueSnapshot.QueueMgr.Contents, pod.spec, nodes.Some?)
    {
      var qSnapshot;
      qSnapshot, status := Evaluate(pod, nodes);
      state.queueSnapshot := qSnapshot;
    }

    method Evaluate(pod: Pod, nodes: Option<seq<seq<Pod>>>) returns (qSnapshot: QueueSnapshotState, status: Status)
      requires queueMgr.Valid()
      ensures fresh(qSnapshot) && qSnapshot.QueueMgr.Valid() && fresh(qSnapshot.QueueMgr.Repr)
      ensures qSnapshot.QueueMgr.Contents
        == if nodes.None? then old(queueMgr.Contents) else Snapshot(old(queueMgr.Contents), pod, nodes.value)
      ensures status == GateStatus(qSnapshot.QueueMgr.Contents, pod.spec, nodes.Some?)
    {
      qSnapshot := NewQueueSnapshotState(queueMgr);
      var podQ := qSnapshot.QueueMgr.Get(pod);
      if podQ == null {
        return qSnapshot, Success;
      }
      if nodes.None? {
        return qSnapshot, Error;
      }
      CountNominatedPods(qSnapshot.QueueMgr, podQ, pod, nodes.value);
      var over := podQ.quota.WouldPutOverMax(Request(pod.spec));
      status := if over then Unschedulable else Success;
    }

    /** Counts the nominated pods that are ahead of `pod` into its queue, node by node. */
    static method CountNominatedPods(mgr: Manager, podQ: Queue, pod: Pod, nodeList: seq<seq<Pod>>)
      requires mgr.Valid() && podQ == mgr.Get(pod)
      modifies podQ.quota, podQ.quota.used, mgr`Contents
      ensures mgr.Valid() && podQ == mgr.Get(pod)
      ensures mgr.Contents == CountNodes(old(mgr.Contents), pod, nodeList)
    {
      ghost var start := mgr.Contents;
      for i := 0 to |nodeList|
        invariant mgr.Valid() && podQ == mgr.Get(pod)
        invariant mgr.Contents == CountNodes(start, pod, nodeList[..i])
      {
        CountNominatedOn(mgr, podQ, pod, nodeList[i]);
        CountNodesStep(start, pod, nodeList, i);
      }
      assert nodeList[..|nodeList|] == nodeList;
    }

    static method CountNominatedOn(mgr: Manager, podQ: Queue, pod: Pod, nominatedPods: seq<Pod>)
      requires mgr.Valid() && podQ == mgr.Get(pod)
      modifies podQ.quota, podQ.quota.used, mgr`Contents
      ensures mgr.Valid() && podQ == mgr.Get(pod)
      ensures mgr.Contents == CountNode(old(mgr.Contents), pod, nominatedPods)
    {
      ghost var start := mgr.Contents;
      for j := 0 to |nominatedPods|
        invariant mgr.Valid() && podQ == mgr.Get(pod)
        invariant mgr.Contents == CountNode(start, pod, nominatedPods[..j])
      {
        CountIfAhead(mgr, podQ, pod, nominatedPods[j]);
        CountNodeStep(start, pod, nominatedPods, j);
      }
      assert nominatedPods[..|nominatedPods|] == nominatedPods;
    }

    /** Counts a nominated pod unless it is the pod itself, of lower priority, or of another queue. */
    static method CountIfAhead(mgr: Manager, podQ: Queue, pod: Pod, nominated: Pod)
      requires mgr.Valid() && podQ == mgr.Get(pod)
      modifies podQ.quota, podQ.quota.used, mgr`Contents
      ensures mgr.Valid() && podQ == mgr.Get(pod)
      ensures mgr.Contents
        == if IsAhead(pod, nominated) then CountPod(old(mgr.Contents), nominated) else old(mgr.Contents)
    {
      if nominated.uid == pod.uid {
        return;
      }
      if Priority(nominated.spec) < Priority(pod.spec) {
        return;
      }
      var nominatedQ := mgr.Get(nominated);
      if nominatedQ == null || nominatedQ.name != podQ.name {
        return;
      }
      mgr.CountInto(podQ, nominated);
    }

    /** Counts a pod that the simulation puts on a node. */
    method AddPod(state: CycleState, pod: Pod) returns (status: Status)
      requires state.Valid()
      modifies if state.queueSnapshot == null then {} else state.queueSnapshot.QueueMgr.Repr
      ensures state.Valid() && state.queueSnapshot == old(state.queueSnapshot)
      ensures state.queueSnapshot == null <==> status == Error
      ensures state.queueSnapshot != null ==> status == Success
      ensures state.queueSnapshot != null ==> var mgr := state.queueSnapshot.QueueMgr;
        && unchanged(mgr`Repr, mgr`queueByName)
        && mgr.Contents == CountPod(old(mgr.Contents), pod)
    {
      if state.queueSnapshot == null {
        return Error;
      }
      var _ := state.queueSnapshot.QueueMgr.AddPodIfNotPresent(Some(pod));
      return Success;
    }

    /** Uncounts a pod that the simulation takes off a node. */
    method RemovePod(state: CycleState, pod: Pod) returns (status: Status)
      requires state.Valid()
      modifies if state.queueSnapshot == null then {} else state.queueSnapshot.QueueMgr.Repr
      ensures state.Valid() && state.queueSnapshot == old(state.queueSnapshot)
      ensures state.queueSnapshot == null <==> status == Error
      ensures state.queueSnapshot != null ==> status == Success
      ensures state.queueSnapshot != null ==> var mgr := state.queueSnapshot.QueueMgr;
        && unchanged(mgr`Repr, mgr`queueByName)
        && mgr.Contents == UncountPod(old(mgr.Contents), pod)
    {
      if state.queueSnapshot == null {
        return Error;
      }
      var _ := state.queueSnapshot.QueueMgr.DeletePodIfPresent(Some(pod));
      return Success;
    }

    /** Counts an admitted pod in the live manager. */
    method Reserve(pod: Pod) returns (status: Status)
      requires queueMgr.Valid()
      modifies queueMgr.Repr
      ensures queueMgr.Valid() && unchanged(queueMgr`Repr)
      ensures queueMgr.Contents == CountPod(old(queueMgr.Contents), pod)
      ensures status == Error <==>
        LABEL_KEY_QUEUE in pod.spec.labels && pod.spec.labels[LABEL_KEY_QUEUE] !in old(queueMgr.Contents)
      ensures status == Error || status == Success
    {
      var err := queueMgr.AddPodIfNotPresent(Some(pod));
      status := if err.NoError? then Success else Error;
    }

    method Unreserve(pod: Pod)
      requires queueMgr.Valid()
      modifies queueMgr.Repr
      ensures queueMgr.Valid() && unchanged(queueMgr`Repr)
      ensures queueMgr.Contents == UncountPod(old(queueMgr.Contents), pod)
    {
      var _ := queueMgr.DeletePodIfPresent(Some(pod));
    }
  }
}
