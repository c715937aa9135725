/** Quota ledgers (internal/queue/quota.go). */
module Ledgers {
  import opened Resources
  import opened Pods

  /** The abstract state of a quota. */
  datatype Ledger = Ledger(max: Resources, used: Resources, pods: map<UID, Pod>)

  function NewLedger(max: Resources): Ledger {
    Ledger(max, map[], map[])
  }

  function LedgerAdd(l: Ledger, pod: Pod): Ledger {
    if pod.uid in l.pods then l
    else l.(pods := l.pods[pod.uid := pod], used := Sum(l.used, Request(pod.spec)))
  }

  /** The amount taken off is the one of the pod passed in, not of the pod that was counted. */
  function LedgerDelete(l: Ledger, pod: Pod): Ledger {
    if pod.uid in l.pods then
      l.(pods := l.pods - {pod.uid}, used := Difference(l.used, Request(pod.spec)))
    else l
  }

  function LedgerAddAll(l: Ledger, pods: seq<Option<Pod>>): Ledger {
    if pods == [] then l
    else
      var before := LedgerAddAll(l, pods[..|pods| - 1]);
      var last := pods[|pods| - 1];
      if last.None? then before else LedgerAdd(before, last.value)
  }

  function LedgerDeleteAll(l: Ledger, pods: seq<Option<Pod>>): Ledger {
    if pods == [] then l
    else
      var before := LedgerDeleteAll(l, pods[..|pods| - 1]);
      var last := pods[|pods| - 1];
      if last.None? then before else LedgerDelete(before, last.value)
  }

  lemma SinglePod(l: Ledger, pod: Pod)
    ensures LedgerAddAll(l, [Some(pod)]) == LedgerAdd(l, pod)
    ensures LedgerDeleteAll(l, [Some(pod)]) == LedgerDelete(l, pod)
  {
  }

  /** The usage is the sum over the counted pods, each counted under its own UID, and every name a
      counted pod requests has an entry. */
  ghost predicate LedgerInv(world: World, l: Ledger) {
    && (forall uid :: uid in l.pods ==> l.pods[uid].uid == uid && Known(world, l.pods[uid]))
    && (forall name :: Qty(l.used, name) == Usage(world, l.pods.Keys, name))
    && (forall uid, name :: uid in l.pods && name in Request(world(uid)) ==> name in l.used)
  }

  /** Every limited resource is within its limit. */
  ghost predicate WithinMax(l: Ledger) {
    forall name :: name in l.max ==> Qty(l.used, name) <= l.max[name]
  }

  /** The queue admits a request on top of a set of pods. */
  ghost predicate Admits(world: World, max: Resources, uids: set<UID>, request: Resources) {
    forall name :: name in max ==> Usage(world, uids, name) + Qty(request, name) <= max[name]
  }

  /** The pods of a set together stay within every limit. */
  ghost predicate Within(world: World, uids: set<UID>, max: Resources) {
    forall name :: name in max ==> Usage(world, uids, name) <= max[name]
  }

  /** Limits that only grow or disappear. */
  predicate Relaxes(max: Resources, max': Resources) {
    forall name :: name in max' ==> name in max && max[name] <= max'[name]
  }

  lemma NewLedgerInv(world: World, max: Resources)
    ensures LedgerInv(world, NewLedger(max))
  {
  }

  lemma AddKeepsInv(world: World, l: Ledger, pod: Pod)
    requires LedgerInv(world, l) && Known(world, pod)
    ensures LedgerInv(world, LedgerAdd(l, pod))
    ensures LedgerAdd(l, pod).pods.Keys == l.pods.Keys + {pod.uid}
    ensures LedgerAdd(l, pod).max == l.max
  {
    if pod.uid !in l.pods {
      var l' := LedgerAdd(l, pod);
      assert l'.pods.Keys == l.pods.Keys + {pod.uid};
      forall name
        ensures Qty(l'.used, name) == Usage(world, l'.pods.Keys, name)
      {
        UsageAdd(world, l.pods.Keys, pod.uid, name);
        assert Qty(l.used, name) == Usage(world, l.pods.Keys, name);
      }
    }
  }

  /** Counting a missing pod adds what its specification requests, one of "pods", and nothing else;
      counting it again adds nothing. */
  lemma CountingAddsRequests(l: Ledger, pod: Pod, name: ResourceName)
    ensures pod.uid in l.pods ==> LedgerAdd(l, pod) == l
    ensures pod.uid !in l.pods ==> LedgerAdd(l, pod).pods == l.pods[pod.uid := pod]
    ensures pod.uid !in l.pods ==>
      Qty(LedgerAdd(l, pod).used, name) - Qty(l.used, name)
        == if name == "pods" then 1 else if name in pod.spec.requests then pod.spec.requests[name] else 0
  {
  }

  /** Deleting a pod with the specification it was counted with keeps the ledger exact, and the
      subtraction never meets a name the usage does not hold. */
  lemma DeleteKeepsInv(world: World, l: Ledger, pod: Pod)
    requires LedgerInv(world, l) && Known(world, pod)
    ensures LedgerInv(world, LedgerDelete(l, pod))
    ensures LedgerDelete(l, pod).pods.Keys == l.pods.Keys - {pod.uid}
    ensures pod.uid in l.pods ==> Request(pod.spec).Keys <= l.used.Keys
    ensures LedgerDelete(l, pod).max == l.max
  {
    if pod.uid in l.pods {
      DeleteIsExactIff(world, l, pod);
    }
  }

  /** Deleting a counted pod through some object of its UID keeps the ledger exact if and only if
      that object's requests are equivalent to those it was counted with. */
  lemma DeleteIsExactIff(world: World, l: Ledger, pod: Pod)
    requires LedgerInv(world, l) && pod.uid in l.pods
    ensures LedgerInv(world, LedgerDelete(l, pod)) <==> Equivalent(Request(pod.spec), Request(world(pod.uid)))
  {
    var l' := LedgerDelete(l, pod);
    var counted, passed := Request(world(pod.uid)), Request(pod.spec);
    assert l'.pods.Keys == l.pods.Keys - {pod.uid};
    forall name
      ensures Usage(world, l.pods.Keys, name) == Usage(world, l'.pods.Keys, name) + Qty(counted, name)
      ensures Qty(l.used, name) == Usage(world, l.pods.Keys, name)
      ensures name in counted ==> name in l.used
    {
      UsageRemove(world, l.pods.Keys, pod.uid, name);
    }
    if Equivalent(passed, counted) {
      EquivalentQuantities(passed, counted);
      forall name
        ensures Qty(l'.used, name) == Usage(world, l'.pods.Keys, name)
      {
        assert Qty(passed, name) == Qty(counted, name);
      }
    }
    if LedgerInv(world, l') {
      forall name | name in passed.Keys + counted.Keys
        ensures Qty(passed, name) == Qty(counted, name)
      {
        assert Qty(l'.used, name) == Usage(world, l'.pods.Keys, name);
      }
    }
  }

  /** On an exact ledger with non-negative limits the admission test is a statement about the set
      of counted pods. */
  lemma OverMaxReadsCounted(world: World, l: Ledger, request: Resources)
    requires LedgerInv(world, l) && NonNegative(l.max)
    ensures OverMax(l.used, request, l.max) <==> !Admits(world, l.max, l.pods.Keys, request)
  {
  }

  /** What a larger set of pods admits, a smaller one admits. */
  lemma AdmitsMonotone(world: World, max: Resources, fewer: set<UID>, more: set<UID>, request: Resources)
    requires fewer <= more && Admits(world, max, more, request)
    ensures Admits(world, max, fewer, request)
  {
    forall name | name in max
      ensures Usage(world, fewer, name) + Qty(request, name) <= max[name]
    {
      UsageMonotone(world, fewer, more, name);
    }
  }

  /** What is admitted is admitted under relaxed limits, and limits that admit are not negative. */
  lemma AdmitsRelaxed(world: World, max: Resources, max': Resources, uids: set<UID>, spec: PodSpec)
    requires Admits(world, max, uids, Request(spec)) && Relaxes(max, max')
    ensures Admits(world, max', uids, Request(spec)) && NonNegative(max')
  {
    forall name | name in max'
      ensures Usage(world, uids, name) + Qty(Request(spec), name) <= max'[name] && max'[name] >= 0
    {
      UsageMonotone(world, uids, uids, name);
    }
  }

  lemma WithinMonotone(world: World, fewer: set<UID>, more: set<UID>, max: Resources)
    requires fewer <= more && Within(world, more, max)
    ensures Within(world, fewer, max) && NonNegative(max)
  {
    forall name | name in max
      ensures 0 <= Usage(world, fewer, name) <= max[name]
    {
      UsageMonotone(world, fewer, more, name);
    }
  }

  /** Admitting a pod that is not in the set is staying within the limits together with it. */
  lemma AdmitsIsWithin(world: World, max: Resources, uids: set<UID>, uid: UID)
    ensures Admits(world, max, uids, Request(world(uid))) ==> Within(world, uids + {uid}, max)
    ensures uid !in uids && Within(world, uids + {uid}, max) ==> Admits(world, max, uids, Request(world(uid)))
  {
    forall name | name in max
      ensures Usage(world, uids + {uid}, name)
           == Usage(world, uids, name) + if uid in uids then 0 else Qty(Request(world(uid)), name)
    {
      UsageAdd(world, uids, uid, name);
    }
  }

  lemma WithinIsWithinMax(world: World, l: Ledger)
    requires LedgerInv(world, l)
    ensures Within(world, l.pods.Keys, l.max) <==> WithinMax(l)
  {
  }

  // ---- Lists of pods ----------------------------------------------------------------------

  ghost predicate AllSomeKnown(world: World, pods: seq<Option<Pod>>) {
    forall i :: 0 <= i < |pods| && pods[i].Some? ==> Known(world, pods[i].value)
  }

  function SomeUids(pods: seq<Option<Pod>>): set<UID> {
    set pod | pod in pods && pod.Some? :: pod.value.uid
  }

  lemma SomeUidsStep(pods: seq<Option<Pod>>)
    requires pods != []
    ensures var front, last := pods[..|pods| - 1], pods[|pods| - 1];
      SomeUids(pods) == SomeUids(front) + if last.Some? then {last.value.uid} else {}
  {
    assert pods == pods[..|pods| - 1] + [pods[|pods| - 1]];
  }

  lemma {:induction false} AddAllKeepsInv(world: World, l: Ledger, pods: seq<Option<Pod>>)
    requires LedgerInv(world, l) && AllSomeKnown(world, pods)
    ensures LedgerInv(world, LedgerAddAll(l, pods))
    ensures LedgerAddAll(l, pods).pods.Keys == l.pods.Keys + SomeUids(pods)
  {
    if pods != [] {
      var front, last := pods[..|pods| - 1], pods[|pods| - 1];
      AddAllKeepsInv(world, l, front);
      SomeUidsStep(pods);
      if last.Some? {
        AddKeepsInv(world, LedgerAddAll(l, front), last.value);
      }
    }
  }

  lemma {:induction false} DeleteAllKeepsInv(world: World, l: Ledger, pods: seq<Option<Pod>>)
    requires LedgerInv(world, l) && AllSomeKnown(world, pods)
    ensures LedgerInv(world, LedgerDeleteAll(l, pods))
  {
    if pods != [] {
      var front, last := pods[..|pods| - 1], pods[|pods| - 1];
      DeleteAllKeepsInv(world, l, front);
      if last.Some? {
        DeleteKeepsInv(world, LedgerDeleteAll(l, front), last.value);
      }
    }
  }

  /** Which pods go does not depend on what the usage was. */
  lemma {:induction false} DeleteAllRemaining(l: Ledger, pods: seq<Option<Pod>>)
    ensures LedgerDeleteAll(l, pods).pods == l.pods - SomeUids(pods)
    ensures LedgerDeleteAll(l, pods).max == l.max
  {
    if pods != [] {
      DeleteAllRemaining(l, pods[..|pods| - 1]);
      SomeUidsStep(pods);
    }
  }

  // ---- Deleting by predicate --------------------------------------------------------------

  /** Each counted pod is filed under its own UID. */
  predicate FiledByUid(l: Ledger) {
    forall uid :: uid in l.pods ==> l.pods[uid].uid == uid
  }

  /** The list holds the counted pods that match, in some order, and no other. */
  ghost predicate Enumerates(l: Ledger, matching: Pod -> bool, victims: seq<Option<Pod>>) {
    && (forall i :: 0 <= i < |victims| ==>
          victims[i].Some? && exists uid :: uid in l.pods && l.pods[uid] == victims[i].value && matching(l.pods[uid]))
    && (forall uid :: uid in l.pods && matching(l.pods[uid]) ==> Some(l.pods[uid]) in victims)
  }

  lemma DeletesTheMatching(l: Ledger, matching: Pod -> bool, victims: seq<Option<Pod>>)
    requires FiledByUid(l) && Enumerates(l, matching, victims)
    ensures LedgerDeleteAll(l, victims).pods == map uid | uid in l.pods && !matching(l.pods[uid]) :: l.pods[uid]
  {
    DeleteAllRemaining(l, victims);
    forall uid | uid in l.pods
      ensures uid in SomeUids(victims) <==> matching(l.pods[uid])
    {
      if matching(l.pods[uid]) {
        assert Some(l.pods[uid]) in victims;
      }
    }
  }

  // ---- Runs of one ledger -----------------------------------------------------------------

  /** What can happen to a ledger.  A predicate delete names the list it came to. */
  datatype LedgerOp =
    | AddPods(pods: seq<Option<Pod>>)
    | DeletePods(pods: seq<Option<Pod>>)
    | DeleteMatching(matching: Pod -> bool, victims: seq<Option<Pod>>)
    | SetMax(max: Resources)
    | Clone

  function LedgerStep(l: Ledger, op: LedgerOp): Ledger {
    match op
    case AddPods(pods) => LedgerAddAll(l, pods)
    case DeletePods(pods) => LedgerDeleteAll(l, pods)
    case DeleteMatching(_, victims) => LedgerDeleteAll(l, victims)
    case SetMax(max) => l.(max := max)
    case Clone => l
  }

  function LedgerRun(l: Ledger, ops: seq<LedgerOp>): Ledger {
    if |ops| == 0 then l else LedgerStep(LedgerRun(l, ops[..|ops| - 1]), ops[|ops| - 1])
  }

  ghost predicate OpFits(world: World, l: Ledger, op: LedgerOp) {
    match op
    case AddPods(pods) => AllSomeKnown(world, pods)
    case DeletePods(pods) => AllSomeKnown(world, pods)
    case DeleteMatching(matching, victims) => Enumerates(l, matching, victims)
    case _ => true
  }

  lemma StepKeepsInv(world: World, l: Ledger, op: LedgerOp)
    requires LedgerInv(world, l) && OpFits(world, l, op)
    ensures LedgerInv(world, LedgerStep(l, op))
  {
    match op
    case AddPods(pods) => AddAllKeepsInv(world, l, pods);
    case DeletePods(pods) => DeleteAllKeepsInv(world, l, pods);
    case DeleteMatching(_, victims) => DeleteAllKeepsInv(world, l, victims);
    case SetMax(_) =>
    case Clone =>
  }

  /** Neither a new limit nor a clone touches what is counted. */
  lemma ConfiguringKeepsUsage(l: Ledger, max: Resources)
    ensures LedgerStep(l, SetMax(max)) == Ledger(max, l.used, l.pods)
    ensures LedgerStep(l, Clone) == l
  {
  }

  /** Over any run of adds, deletes, predicate deletes, limit changes and clones, the usage is the
      sum over the counted pods and its "pods" entry is their number. */
  lemma {:induction false} LedgerRunInv(world: World, max: Resources, ops: seq<LedgerOp>)
    requires forall i :: 0 <= i < |ops| ==> OpFits(world, LedgerRun(NewLedger(max), ops[..i]), ops[i])
    ensures LedgerInv(world, LedgerRun(NewLedger(max), ops))
    ensures Qty(LedgerRun(NewLedger(max), ops).used, PODS) == |LedgerRun(NewLedger(max), ops).pods|
  {
    if |ops| == 0 {
      NewLedgerInv(world, max);
    } else {
      var front := ops[..|ops| - 1];
      assert forall i :: 0 <= i < |front| ==> front[i] == ops[i] && front[..i] == ops[..i];
      LedgerRunInv(world, max, front);
      StepKeepsInv(world, LedgerRun(NewLedger(max), front), ops[|ops| - 1]);
    }
    var l := LedgerRun(NewLedger(max), ops);
    UsageOfPods(world, l.pods.Keys);
    assert |l.pods.Keys| == |l.pods|;
  }

  /** In terms of specifications: over such a run, the usage of a resource other than "pods" is the sum
      of what the counted pods request of it. */
  lemma LedgerRunRequests(world: World, max: Resources, ops: seq<LedgerOp>, order: seq<UID>, name: ResourceName)
    requires forall i :: 0 <= i < |ops| ==> OpFits(world, LedgerRun(NewLedger(max), ops[..i]), ops[i])
    requires Lists(order, LedgerRun(NewLedger(max), ops).pods.Keys) && name != "pods"
    ensures Qty(LedgerRun(NewLedger(max), ops).used, name) == RequestedTotal(world, order, name)
  {
    LedgerRunInv(world, max, ops);
    UsageIsRequested(world, LedgerRun(NewLedger(max), ops).pods.Keys, order, name);
  }

  // ---- Quota ------------------------------------------------------------------------------

  /** A quota: limits, usage and the pods that are counted.  The usage vector is an object of its
      own and changed in place; limits are only ever replaced. */
  class Quota {
    ghost const owner: string  // the queue this quota belongs to
    var max: Resources
    const used: Vector
    var podsByID: map<UID, Pod>

    function State(): Ledger
      reads this, used
    {
      Ledger(max, used.entries, podsByID)
    }

    constructor (max: Resources, ghost owner: string)
      ensures State() == NewLedger(max) && this.owner == owner
      ensures fresh(used) && used.owner == owner
    {
      this.owner := owner;
      this.max, podsByID := max, map[];
      used := new Vector(map[], owner);
    }

    constructor Copy(source: Quota)
      ensures State() == source.State() && owner == source.owner
      ensures fresh(used) && used.owner == source.used.owner
    {
      owner := source.owner;
      max, podsByID := source.max, source.podsByID;
      used := new Vector(source.used.entries, source.used.owner);
    }

    method AddPodIfNotPresent(pods: seq<Option<Pod>>)
      modifies this, used
      ensures State() == LedgerAddAll(old(State()), pods)
    {
      for i := 0 to |pods|
        invariant State() == LedgerAddAll(old(State()), pods[..i])
      {
        assert pods[..i + 1][..i] == pods[..i];
        if pods[i].None? {
          continue;
        }
        var pod := pods[i].value;
        if pod.uid !in podsByID {
          podsByID := podsByID[pod.uid := pod];
          used.Add(Request(pod.spec));
        }
      }
      assert pods[..|pods|] == pods;
    }

    method DeletePodIfPresent(pods: seq<Option<Pod>>)
      modifies this, used
      ensures State() == LedgerDeleteAll(old(State()), pods)
    {
      for i := 0 to |pods|
        invariant State() == LedgerDeleteAll(old(State()), pods[..i])
      {
        assert pods[..i + 1][..i] == pods[..i];
        if pods[i].None? {
          continue;
        }
        var pod := pods[i].value;
        if pod.uid in podsByID {
          podsByID := podsByID - {pod.uid};
          used.Sub(Request(pod.spec));
        }
      }
      assert pods[..|pods|] == pods;
    }

    /** Deletes the counted pods that match, in whatever order the map is iterated.  The rest stays
        counted, and the usage is what deleting some enumeration of the matching pods leaves. */
    method DeletePodsFunc(matching: Pod -> bool) returns (ghost victims: seq<Option<Pod>>)
      modifies this, used
      ensures Enumerates(old(State()), matching, victims) && State() == LedgerDeleteAll(old(State()), victims)
      ensures old(FiledByUid(State())) ==>
        podsByID == map uid | uid in old(podsByID) && !matching(old(podsByID)[uid]) :: old(podsByID)[uid]
    {
      var found: seq<Option<Pod>> := [];
      var todo := podsByID.Keys;
      while todo != {}
        invariant todo <= podsByID.Keys
        invariant forall i :: 0 <= i < |found| ==>
          found[i].Some? && exists uid :: uid in podsByID && podsByID[uid] == found[i].value && matching(podsByID[uid])
        invariant forall uid :: uid in podsByID && uid !in todo && matching(podsByID[uid]) ==>
          Some(podsByID[uid]) in found
        modifies {}
        decreases todo
      {
        var uid :| uid in todo;
        ghost var before := found;
        if matching(podsByID[uid]) {
          found := found + [Some(podsByID[uid])];
        }
        assert forall pod :: pod in found <==> pod in before || (matching(podsByID[uid]) && pod == Some(podsByID[uid]));
        todo := todo - {uid};
      }
      ghost var before := State();
      DeletePodIfPresent(found);
      victims := found;
      if FiledByUid(before) {
        DeletesTheMatching(before, matching, victims);
      }
    }

    method SetMax(max: Resources)
      modifies `max
      ensures State() == old(State()).(max := max)
    {
      this.max := max;
    }

    method WouldPutOverMax(request: Resources) returns (over: bool)
      ensures over == OverMax(State().used, request, State().max)
    {
      var total := used.Plus(request);
      over := AnyGreaterIntersecting(total.entries, max);
    }

    /** The copy has a usage vector of its own. */
    method Clone() returns (copy: Quota)
      ensures fresh(copy) && fresh(copy.used) && copy.State() == State()
      ensures copy.owner == owner && copy.used.owner == used.owner
    {
      copy := new Quota.Copy(this);
    }
  }
}
