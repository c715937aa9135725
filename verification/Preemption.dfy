/** Victim selection (internal/plugin/quotaawarepreempt/preemption.go). */
module Preemption {
  import opened Resources
  import opened Pods
  import opened Ledgers
  import opened Queues
  import opened DisruptionBudgets
  import opened Selection
  import opened Plugins

  // ---- Candidates -------------------------------------------------------------------------

  /** A pod on the node that the preemptor may evict.  A preemptor outside every queue competes
      only with such pods. */
  ghost predicate IsCandidate(m: ManagerView, preemptor: PodSpec, victim: PodSpec) {
    if QueueOf(m, preemptor).Some? then Consent(m, preemptor, victim)
    else QueueOf(m, victim).None? && Priority(victim) < Priority(preemptor)
  }

  ghost function CandidateList(m: ManagerView, pod: Pod, pods: seq<Pod>): seq<Pod> {
    if pods == [] then []
    else
      CandidateList(m, pod, pods[..|pods| - 1])
        + if IsCandidate(m, pod.spec, pods[|pods| - 1].spec) then [pods[|pods| - 1]] else []
  }

  ghost function Candidates(m: ManagerView, pod: Pod, pods: set<Pod>): set<Pod> {
    set victim | victim in pods && IsCandidate(m, pod.spec, victim.spec)
  }

  lemma {:induction false} CandidateListMeaning(m: ManagerView, pod: Pod, pods: seq<Pod>)
    requires UniqueUids(pods)
    ensures ToSet(CandidateList(m, pod, pods)) == Candidates(m, pod, ToSet(pods))
    ensures UniqueUids(CandidateList(m, pod, pods))
  {
    if pods != [] {
      var front, last := pods[..|pods| - 1], pods[|pods| - 1];
      UniqueLast(pods);
      CandidateListMeaning(m, pod, front);
      var list := CandidateList(m, pod, front);
      if IsCandidate(m, pod.spec, last.spec) {
        assert CandidateList(m, pod, pods) == list + [last];
        assert forall p :: p in list ==> p in ToSet(list);
        assert forall p :: p in ToSet(front) ==> p in front;
        AppendUnique(list, last);
        AppendToSet(list, last);
      } else {
        assert CandidateList(m, pod, pods) == list;
      }
      assert Candidates(m, pod, ToSet(pods))
          == Candidates(m, pod, ToSet(front)) + if IsCandidate(m, pod.spec, last.spec) then {last} else {};
    }
  }

  /** Who is a candidate: for a preemptor of a queue, exactly the pods on the node whose queue and its
      own consent; for one outside every queue, exactly those outside every queue of lower priority. */
  lemma {:induction false} WhoIsCandidate(m: ManagerView, pod: Pod, pods: seq<Pod>, victim: Pod)
    ensures QueueOf(m, pod.spec).Some? ==>
      (victim in CandidateList(m, pod, pods) <==> victim in pods && Consent(m, pod.spec, victim.spec))
    ensures QueueOf(m, pod.spec).None? ==>
      (victim in CandidateList(m, pod, pods) <==>
        victim in pods && QueueOf(m, victim.spec).None? && Priority(victim.spec) < Priority(pod.spec))
  {
    if pods != [] {
      var front := pods[..|pods| - 1];
      WhoIsCandidate(m, pod, front, victim);
      assert pods == front + [pods[|pods| - 1]];
    }
  }

  /** Every candidate has strictly lower priority than the preemptor. */
  lemma CandidatesAreLower(m: ManagerView, preemptor: PodSpec, victim: PodSpec)
    requires IsCandidate(m, preemptor, victim)
    ensures Priority(victim) < Priority(preemptor)
  {
  }

  // ---- The search on a node ---------------------------------------------------------------

  /** The search that selecting victims for `pod` among `pods` amounts to. */
  ghost function SearchOf(world: World, m: ManagerView, pod: Pod, pods: set<Pod>, filter: set<Pod> -> bool): Search {
    var candidates := Candidates(m, pod, pods);
    var q := QueueOf(m, pod.spec);
    if q.None? then
      Search(world, filter, pods - candidates, {}, None, Request(pod.spec))
    else
      var name := QueueLabel(pod.spec).value;
      Search(world, filter, pods - candidates, Counted(m, name) - Uids(candidates),
             Some(QuotaLimit(name, q.value.ledger.max)), Request(pod.spec))
  }

  /** One selection: the snapshot and the pods of the node as they were at its start. */
  datatype Trial = Trial(world: World, start: ManagerView, pod: Pod, pods: set<Pod>, filter: set<Pod> -> bool) {
    ghost function Victims(): set<Pod> {
      Candidates(start, pod, pods)
    }

    ghost function Problem(): Search {
      SearchOf(world, start, pod, pods, filter)
    }

    ghost predicate WellFormed() {
      && DistinctUids(pods) && (forall p :: p in pods ==> Known(world, p))
      && LimitsNonNegative(start, pod.spec)
    }
  }

  /** The limits of the preemptor's queue are not negative. */
  predicate LimitsNonNegative(m: ManagerView, pod: PodSpec) {
    QueueOf(m, pod).Some? ==> NonNegative(QueueOf(m, pod).value.ledger.max)
  }

  /** Candidates in the order of reprieve: those that break a disruption budget first, each group
      by importance. */
  function ReprieveOrder(sorted: seq<Pod>, budgets: seq<Budget>): seq<Pod> {
    Group(sorted, budgets, true) + Group(sorted, budgets, false)
  }

  ghost predicate DistinctUids(pods: set<Pod>) {
    forall p, q :: p in pods && q in pods && p.uid == q.uid ==> p == q
  }

  /** `m` is `m0` with all candidates uncounted and then those in `kept` counted again. */
  ghost predicate Simulates(world: World, m0: ManagerView, candidates: set<Pod>, m: ManagerView, kept: set<Pod>) {
    && ManagerInv(world, m) && SameConfig(m0, m)
    && forall name :: Counted(m, name) == Counted(m0, name) - Uids(candidates) + PutBackUids(m0, kept, name)
  }

  ghost function PutBackUids(m0: ManagerView, kept: set<Pod>, name: string): set<UID> {
    if name in m0 then QueueUids(kept, name) else {}
  }

  lemma QueueUidsAdd(kept: set<Pod>, pod: Pod, name: string)
    ensures QueueUids(kept + {pod}, name)
         == QueueUids(kept, name) + if QueueLabel(pod.spec) == Some(name) then {pod.uid} else {}
  {
  }

  lemma PutBack(world: World, m0: ManagerView, candidates: set<Pod>, m: ManagerView, kept: set<Pod>, pod: Pod)
    requires Simulates(world, m0, candidates, m, kept) && Known(world, pod)
    ensures Simulates(world, m0, candidates, CountPod(m, pod), kept + {pod})
  {
    CountKeepsInv(world, m, pod);
    SameConfigTransitive(m0, m, CountPod(m, pod));
    forall name
      ensures Counted(CountPod(m, pod), name)
           == Counted(m0, name) - Uids(candidates) + PutBackUids(m0, kept + {pod}, name)
    {
      PutBackAt(m0, m, candidates, kept, pod, name, Counted(CountPod(m, pod), name));
    }
  }

  lemma PutBackAt(m0: ManagerView, m: ManagerView, candidates: set<Pod>, kept: set<Pod>, pod: Pod, name: string,
                  counted: set<UID>)
    requires name in m0 <==> name in m
    requires Counted(m, name) == Counted(m0, name) - Uids(candidates) + PutBackUids(m0, kept, name)
    requires counted == Counted(m, name) + if name in m && QueueLabel(pod.spec) == Some(name) then {pod.uid} else {}
    ensures counted == Counted(m0, name) - Uids(candidates) + PutBackUids(m0, kept + {pod}, name)
  {
  }

  /** A failed reprieve restores what every queue counts. */
  lemma TakeOut(world: World, m0: ManagerView, candidates: set<Pod>, m: ManagerView, kept: set<Pod>, pod: Pod)
    requires Simulates(world, m0, candidates, m, kept + {pod}) && Known(world, pod)
    requires kept <= candidates && pod in candidates && pod !in kept && DistinctUids(candidates)
    ensures Simulates(world, m0, candidates, UncountPod(m, pod), kept)
  {
    UncountKeepsInv(world, m, pod);
    var m' := UncountPod(m, pod);
    assert pod.uid in Uids(candidates);
    forall name
      ensures Counted(m', name) == Counted(m0, name) - Uids(candidates) + PutBackUids(m0, kept, name)
    {
      QueueUidsAdd(kept, pod, name);
      assert Counted(m, name) == Counted(m0, name) - Uids(candidates) + PutBackUids(m0, kept + {pod}, name);
      assert Counted(m', name) == Counted(m, name) - {pod.uid};
      assert pod.uid !in QueueUids(kept, name);
    }
  }

  /** `m` is `m0` with the pods of `gone` uncounted. */
  ghost predicate Removes(world: World, m0: ManagerView, gone: set<Pod>, m: ManagerView) {
    && ManagerInv(world, m) && SameConfig(m0, m)
    && forall name :: Counted(m, name) == Counted(m0, name) - Uids(gone)
  }

  lemma UncountOneMore(world: World, m0: ManagerView, gone: set<Pod>, m: ManagerView, pod: Pod)
    requires Removes(world, m0, gone, m) && Known(world, pod)
    ensures Removes(world, m0, gone + {pod}, UncountPod(m, pod))
  {
    UncountKeepsInv(world, m, pod);
    SameConfigTransitive(m0, m, UncountPod(m, pod));
    assert Uids(gone + {pod}) == Uids(gone) + {pod.uid};
  }

  lemma AllUncounted(world: World, m0: ManagerView, candidates: set<Pod>, m: ManagerView)
    requires Removes(world, m0, candidates, m)
    ensures Simulates(world, m0, candidates, m, {})
  {
  }

  /** The pods that are put back determine the usage of every queue, so that taking a pod back
      restores it up to names held at zero. */
  lemma KeptDeterminesUsage(world: World, m0: ManagerView, candidates: set<Pod>, m: ManagerView, m': ManagerView,
                            kept: set<Pod>, name: string)
    requires Simulates(world, m0, candidates, m, kept) && Simulates(world, m0, candidates, m', kept)
    requires name in m0
    ensures Counted(m, name) == Counted(m', name)
    ensures Equivalent(m[name].ledger.used, m'[name].ledger.used)
  {
  }

  /** The quota check of the simulation is the one of the search. */
  lemma QuotaCheckIsSearch(world: World, m0: ManagerView, pod: Pod, pods: set<Pod>, filter: set<Pod> -> bool,
                           m: ManagerView, kept: set<Pod>)
    requires Simulates(world, m0, Candidates(m0, pod, pods), m, kept)
    requires QueueOf(m0, pod.spec).Some? && NonNegative(QueueOf(m0, pod.spec).value.ledger.max)
    ensures QueueOf(m, pod.spec).Some?
    ensures PassesGate(m, pod.spec) <==> SearchOf(world, m0, pod, pods, filter).FitsQuota(kept)
  {
    var name := QueueLabel(pod.spec).value;
    assert m0[name].ledger.max == m[name].ledger.max;
    assert Counted(m, name) == Counted(m0, name) - Uids(Candidates(m0, pod, pods)) + QueueUids(kept, name);
    OverMaxReadsCounted(world, m[name].ledger, Request(pod.spec));
  }

  // ---- Node -------------------------------------------------------------------------------

  /** The scheduler's view of a node: the pods on it. */
  class NodeInfo {
    var pods: seq<Pod>

    constructor (pods: seq<Pod>)
      ensures this.pods == pods
    {
      this.pods := pods;
    }

    /** Removes the pod of that UID; the last pod takes its place. */
    method RemovePod(pod: Pod)
      requires UniqueUids(pods) && pod in pods
      modifies this
      ensures UniqueUids(pods) && ToSet(pods) == ToSet(old(pods)) - {pod}
    {
      var i := 0;
      while pods[i].uid != pod.uid
        invariant 0 <= i < |pods| && pods == old(pods)
        invariant forall j :: 0 <= j < i ==> pods[j] != pod
        decreases |pods| - i
      {
        i := i + 1;
      }
      var n := |pods| - 1;
      pods := pods[i := pods[n]][..n];
      forall p
        ensures p in pods <==> p in old(pods) && p != pod
      {
        if p in old(pods) && p != pod {
          var j :| 0 <= j <= n && old(pods)[j] == p;
          assert pods[if j == n then i else j] == p;
        }
      }
    }

    method AddPodInfo(pod: Pod)
      requires UniqueUids(pods) && forall p :: p in pods ==> p.uid != pod.uid
      modifies this
      ensures UniqueUids(pods) && ToSet(pods) == ToSet(old(pods)) + {pod}
    {
      pods := pods + [pod];
    }
  }

  // ---- Victim selection -------------------------------------------------------------------

  /** A successful selection: what it was about, the candidates by importance, and what it returned. */
  datatype Choice = Choice(
    t: Trial,
    pods: seq<Pod>,  // those of the node, in its order
    budgets: seq<Budget>,
    sorted: seq<Pod>,
    victims: seq<Pod>,
    violations: nat)
  {
    function Order(): seq<Pod> {
      ReprieveOrder(sorted, budgets)
    }

    ghost function Reprieved(): set<Pod> {
      Kept(t.Problem(), Order())
    }

    /** The victims are the candidates that the search rejects, by importance, together with how
        many of them break a disruption budget. */
    ghost predicate Valid() {
      && UniqueUids(pods) && t.pods == ToSet(pods)
      && multiset(sorted) == multiset(CandidateList(t.start, t.pod, pods)) && SortedByImportance(sorted)
      && IsOutcomeOf(t.Problem())
    }

    ghost predicate IsOutcomeOf(s: Search) {
      && s.Feasible({})
      && multiset(victims) == multiset(Rejected(s, Order())) && SortedByImportance(victims)
      && violations == |Rejected(s, Group(sorted, budgets, true))|
    }
  }

  lemma ReprieveOrderFacts(m: ManagerView, pod: Pod, pods: seq<Pod>, budgets: seq<Budget>, sorted: seq<Pod>)
    requires UniqueUids(pods) && multiset(sorted) == multiset(CandidateList(m, pod, pods))
    ensures UniqueUids(ReprieveOrder(sorted, budgets))
    ensures ToSet(ReprieveOrder(sorted, budgets)) == Candidates(m, pod, ToSet(pods))
  {
    var order := ReprieveOrder(sorted, budgets);
    CandidateListMeaning(m, pod, pods);
    SplitIsStablePartition(sorted, budgets);
    assert multiset(order) == multiset(CandidateList(m, pod, pods));
    PermutationFacts(CandidateList(m, pod, pods), order);
  }

  /** Both groups hold candidates, none of them twice. */
  lemma CandidateGroups(t: Trial, pods: seq<Pod>, budgets: seq<Budget>, sorted: seq<Pod>)
    requires UniqueUids(pods) && t.pods == ToSet(pods)
    requires multiset(sorted) == multiset(CandidateList(t.start, t.pod, pods))
    ensures var violating, nonViolating := Group(sorted, budgets, true), Group(sorted, budgets, false);
      && UniqueUids(violating + nonViolating)
      && ToSet(violating) <= t.Victims() && ToSet(nonViolating) <= t.Victims()
  {
    ReprieveOrderFacts(t.start, t.pod, pods, budgets, sorted);
    UniquePrefix(Group(sorted, budgets, true), Group(sorted, budgets, false));
  }

  class Preemptor {
    const plugin: Plugin

    constructor (plugin: Plugin)
      ensures this.plugin == plugin
    {
      this.plugin := plugin;
    }

    method FindPotentialVictims(pod: Pod, mgr: Manager, node: NodeInfo) returns (candidates: seq<Pod>)
      requires mgr.Valid()
      ensures candidates == CandidateList(mgr.Contents, pod, node.pods)
    {
      candidates := [];
      var evaluator := NewPreemptionEvaluator(mgr, pod);
      if evaluator.IsConfiguredForPreemption() {
        for i := 0 to |node.pods|
          invariant candidates == CandidateList(mgr.Contents, pod, node.pods[..i])
        {
          assert node.pods[..i + 1][..i] == node.pods[..i];
          if !evaluator.IsPreemptionAllowed(node.pods[i]) {
            continue;
          }
          candidates := candidates + [node.pods[i]];
        }
      } else {
        for i := 0 to |node.pods|
          invariant candidates == CandidateList(mgr.Contents, pod, node.pods[..i])
        {
          assert node.pods[..i + 1][..i] == node.pods[..i];
          if mgr.Get(node.pods[i]) != null {
            continue;
          }
          if Priority(node.pods[i].spec) >= Priority(pod.spec) {
            continue;
          }
          candidates := candidates + [node.pods[i]];
        }
      }
      assert node.pods[..|node.pods|] == node.pods;
    }

    /** The node and the snapshot in the middle of a simulation, with the pods of `kept` put back. */
    ghost predicate Simulating(state: CycleState, node: NodeInfo, t: Trial, kept: set<Pod>)
      reads state, node
      reads if state.queueSnapshot == null then {} else {state.queueSnapshot.QueueMgr}
      reads if state.queueSnapshot == null then {} else state.queueSnapshot.QueueMgr.Repr
    {
      && state.queueSnapshot != null && state.Valid()
      && node !in state.queueSnapshot.QueueMgr.Repr
      && UniqueUids(node.pods) && ToSet(node.pods) == t.pods - t.Victims() + kept
      && kept <= t.Victims()
      && Simulates(t.world, t.start, t.Victims(), state.queueSnapshot.QueueMgr.Contents, kept)
    }

    /** Puts a candidate back on the node. */
    method GiveBack(state: CycleState, node: NodeInfo, pi: Pod, ghost t: Trial, ghost kept: set<Pod>)
      requires Simulating(state, node, t, kept)
      requires t.WellFormed() && pi in t.Victims() && pi !in kept
      modifies node, state.queueSnapshot.QueueMgr.Repr
      ensures state.queueSnapshot == old(state.queueSnapshot)
      ensures unchanged(state.queueSnapshot.QueueMgr`Repr, state.queueSnapshot.QueueMgr`queueByName)
      ensures Simulating(state, node, t, kept + {pi})
    {
      PutBack(t.world, t.start, t.Victims(), state.queueSnapshot.QueueMgr.Contents, kept, pi);
      NotOnNode(t.pods, t.Victims(), kept, pi);
      assert t.pods - t.Victims() + kept + {pi} == t.pods - t.Victims() + (kept + {pi});
      node.AddPodInfo(pi);
      var _ := plugin.AddPod(state, pi);
    }

    /** Takes a candidate that was put back off the node again. */
    method TakeBack(state: CycleState, node: NodeInfo, pi: Pod, ghost t: Trial, ghost kept: set<Pod>)
      requires Simulating(state, node, t, kept + {pi})
      requires t.WellFormed() && pi in t.Victims() && pi !in kept
      modifies node, state.queueSnapshot.QueueMgr.Repr
      ensures state.queueSnapshot == old(state.queueSnapshot)
      ensures unchanged(state.queueSnapshot.QueueMgr`Repr, state.queueSnapshot.QueueMgr`queueByName)
      ensures Simulating(state, node, t, kept)
    {
      TakeOut(t.world, t.start, t.Victims(), state.queueSnapshot.QueueMgr.Contents, kept, pi);
      assert t.pods - t.Victims() + (kept + {pi}) - {pi} == t.pods - t.Victims() + kept;
      node.RemovePod(pi);
      var _ := plugin.RemovePod(state, pi);
    }

    /** The quota check of the simulation: no queue, no quota. */
    method QuotaExceeded(state: CycleState, node: NodeInfo, preemptorQ: Queue?, request: Resources, ghost t: Trial,
                         ghost kept: set<Pod>)
      returns (over: bool)
      requires Simulating(state, node, t, kept) && t.WellFormed()
      requires preemptorQ == state.queueSnapshot.QueueMgr.Lookup(t.pod) && request == Request(t.pod.spec)
      ensures over <==> !t.Problem().FitsQuota(kept)
    {
      assert preemptorQ == state.queueSnapshot.QueueMgr.Get(t.pod);
      if preemptorQ == null {
        return false;
      }
      QuotaCheckIsSearch(t.world, t.start, t.pod, t.pods, t.filter, state.queueSnapshot.QueueMgr.Contents, kept);
      over := preemptorQ.quota.WouldPutOverMax(request);
    }

    /** Whether the preemptor fits the node, and then its quota, as they are simulated. */
    method StillFits(state: CycleState, node: NodeInfo, preemptorQ: Queue?, request: Resources,
                     filter: set<Pod> -> bool, ghost t: Trial, ghost kept: set<Pod>)
      returns (fits: bool)
      requires Simulating(state, node, t, kept) && t.WellFormed() && t.filter == filter
      requires preemptorQ == state.queueSnapshot.QueueMgr.Lookup(t.pod) && request == Request(t.pod.spec)
      ensures fits <==> t.Problem().Feasible(kept)
    {
      if !filter(ToSet(node.pods)) {
        return false;
      }
      var over := QuotaExceeded(state, node, preemptorQ, request, t, kept);
      fits := !over;
    }

    /** Puts a candidate back and keeps it there if the preemptor still fits. */
    method MaybeReprieve(state: CycleState, node: NodeInfo, pi: Pod, preemptorQ: Queue?, request: Resources,
                         filter: set<Pod> -> bool, ghost t: Trial, ghost kept: set<Pod>)
      returns (reprieved: bool)
      requires Simulating(state, node, t, kept)
      requires t.WellFormed() && t.filter == filter && pi in t.Victims() && pi !in kept
      requires preemptorQ == state.queueSnapshot.QueueMgr.Lookup(t.pod) && request == Request(t.pod.spec)
      modifies node, state.queueSnapshot.QueueMgr.Repr
      ensures state.queueSnapshot == old(state.queueSnapshot)
      ensures unchanged(state.queueSnapshot.QueueMgr`Repr, state.queueSnapshot.QueueMgr`queueByName)
      ensures reprieved <==> t.Problem().Feasible(kept + {pi})
      ensures Simulating(state, node, t, if reprieved then kept + {pi} else kept)
    {
      GiveBack(state, node, pi, t, kept);
      reprieved := StillFits(state, node, preemptorQ, request, filter, t, kept + {pi});
      if !reprieved {
        TakeBack(state, node, pi, t, kept);
      }
    }

    /** Takes every candidate off the node. */
    method RemoveCandidates(state: CycleState, node: NodeInfo, candidates: seq<Pod>, ghost t: Trial)
      requires state.queueSnapshot != null && state.Valid() && node !in state.queueSnapshot.QueueMgr.Repr
      requires t.WellFormed() && t.start == state.queueSnapshot.QueueMgr.Contents && ManagerInv(t.world, t.start)
      requires UniqueUids(node.pods) && t.pods == ToSet(node.pods)
      requires UniqueUids(candidates) && ToSet(candidates) == t.Victims()
      modifies node, state.queueSnapshot.QueueMgr.Repr
      ensures state.queueSnapshot == old(state.queueSnapshot)
      ensures unchanged(state.queueSnapshot.QueueMgr`Repr, state.queueSnapshot.QueueMgr`queueByName)
      ensures Simulating(state, node, t, {})
    {
      var mgr: Manager := state.queueSnapshot.QueueMgr;
      for i := 0 to |candidates|
        invariant state.queueSnapshot == old(state.queueSnapshot) && state.Valid()
        invariant unchanged(mgr`Repr, mgr`queueByName)
        invariant UniqueUids(node.pods) && ToSet(node.pods) == t.pods - ToSet(candidates[..i])
        invariant Removes(t.world, t.start, ToSet(candidates[..i]), mgr.Contents)
      {
        ghost var gone := ToSet(candidates[..i]);
        TakeOneMore(candidates, i);
        assert candidates[i] in t.Victims() && candidates[i] in t.pods - gone;
        assert candidates[i] in ToSet(node.pods);
        UncountOneMore(t.world, t.start, gone, mgr.Contents, candidates[i]);
        node.RemovePod(candidates[i]);
        var _ := plugin.RemovePod(state, candidates[i]);
      }
      assert candidates[..|candidates|] == candidates;
      AllUncounted(t.world, t.start, t.Victims(), mgr.Contents);
    }

    /** Tries to reprieve a group of candidates after those of `done`, in order.  Returns those that
        stay victims, and their number. */
    method ReprieveGroup(state: CycleState, node: NodeInfo, group: seq<Pod>, preemptorQ: Queue?, request: Resources,
                         filter: set<Pod> -> bool, ghost t: Trial, ghost done: seq<Pod>)
      returns (victims: seq<Pod>, count: nat)
      requires Simulating(state, node, t, Kept(t.Problem(), done))
      requires t.WellFormed() && t.filter == filter && UniqueUids(done + group) && ToSet(group) <= t.Victims()
      requires preemptorQ == state.queueSnapshot.QueueMgr.Lookup(t.pod) && request == Request(t.pod.spec)
      modifies node, state.queueSnapshot.QueueMgr.Repr
      ensures state.queueSnapshot == old(state.queueSnapshot)
      ensures unchanged(state.queueSnapshot.QueueMgr`Repr, state.queueSnapshot.QueueMgr`queueByName)
      ensures Simulating(state, node, t, Kept(t.Problem(), done + group))
      ensures Rejected(t.Problem(), done) + victims == Rejected(t.Problem(), done + group)
      ensures count == |victims|
    {
      ghost var s, order := t.Problem(), done;
      ghost var kept, before := Kept(s, done), Rejected(s, done);
      var mgr: Manager := state.queueSnapshot.QueueMgr;
      victims, count := [], 0;
      for i := 0 to |group|
        invariant state.queueSnapshot == old(state.queueSnapshot)
        invariant unchanged(mgr`Repr, mgr`queueByName)
        invariant order == done + group[..i]
        invariant Simulating(state, node, t, kept)
        invariant kept == Kept(s, order) && before + victims == Rejected(s, order)
        invariant count == |victims|
      {
        NextIsNew(s, done, group, i);
        StepOfSearch(s, order, group[i]);
        var reprieved := MaybeReprieve(state, node, group[i], preemptorQ, request, filter, t, kept);
        if reprieved {
          kept := kept + {group[i]};
        } else {
          victims := victims + [group[i]];
          count := count + 1;
        }
        order := order + [group[i]];
      }
      assert group[..|group|] == group;
    }

    /** Selects the victims whose eviction from the node lets the preemptor fit it and its quota. */
    method SelectVictimsOnNode(state: CycleState, pod: Pod, node: NodeInfo, budgets: seq<Budget>,
                               filter: set<Pod> -> bool, ghost world: World)
      returns (victims: seq<Pod>, violations: nat, status: Status, ghost sorted: seq<Pod>)
      requires state.Valid() && UniqueUids(node.pods) && AllKnown(world, node.pods)
      requires state.queueSnapshot != null ==>
        && node !in state.queueSnapshot.QueueMgr.Repr
        && ManagerInv(world, state.queueSnapshot.QueueMgr.Contents)
        && LimitsNonNegative(state.queueSnapshot.QueueMgr.Contents, pod.spec)
      modifies node, if state.queueSnapshot == null then {} else state.queueSnapshot.QueueMgr.Repr
      ensures state.queueSnapshot == old(state.queueSnapshot)
      ensures state.queueSnapshot == null ==> status == Unschedulable
      ensures state.queueSnapshot != null ==>
        status == Outcome(Trial(world, old(state.queueSnapshot.QueueMgr.Contents), pod, ToSet(old(node.pods)), filter))
      ensures status != Success ==> victims == [] && violations == 0
      ensures status == Success ==>
        var t := Trial(world, old(state.queueSnapshot.QueueMgr.Contents), pod, ToSet(old(node.pods)), filter);
        var c := Choice(t, old(node.pods), budgets, sorted, victims, violations);
        c.Valid() && Simulating(state, node, t, c.Reprieved())
    {
      if state.queueSnapshot == null {
        return [], 0, Unschedulable, [];
      }
      ghost var t := Trial(world, state.queueSnapshot.QueueMgr.Contents, pod, ToSet(node.pods), filter);
      victims, violations, status, sorted := SelectOnSnapshot(state, pod, node, budgets, filter, t);
    }

    method SelectOnSnapshot(state: CycleState, pod: Pod, node: NodeInfo, budgets: seq<Budget>,
                            filter: set<Pod> -> bool, ghost t: Trial)
      returns (victims: seq<Pod>, violations: nat, status: Status, ghost sorted: seq<Pod>)
      requires state.queueSnapshot != null && state.Valid() && node !in state.queueSnapshot.QueueMgr.Repr
      requires t.pod == pod && t.filter == filter && t.WellFormed()
      requires UniqueUids(node.pods) && t.pods == ToSet(node.pods)
      requires t.start == state.queueSnapshot.QueueMgr.Contents && ManagerInv(t.world, t.start)
      modifies node, state.queueSnapshot.QueueMgr.Repr
      ensures state.queueSnapshot == old(state.queueSnapshot)
      ensures status == Outcome(t)
      ensures status != Success ==> victims == [] && violations == 0
      ensures status == Success ==>
        var c := Choice(t, old(node.pods), budgets, sorted, victims, violations);
        c.Valid() && Simulating(state, node, t, c.Reprieved())
    {
      victims, violations, sorted := [], 0, [];
      var mgr: Manager := state.queueSnapshot.QueueMgr;
      var candidates := FindPotentialVictims(pod, mgr, node);
      CandidateListMeaning(t.start, pod, node.pods);
      if |candidates| == 0 {
        assert ToSet(candidates) == {};
        status := UnschedulableAndUnresolvable;
        return;
      }
      assert candidates[0] in ToSet(candidates);
      RemoveCandidates(state, node, candidates, t);
      var inOrder;
      victims, violations, status, inOrder :=
        SelectAmong(state, pod, node, candidates, budgets, filter, t, old(node.pods));
      sorted := inOrder;
    }

    /** The selection after all candidates were taken off the node. */
    method SelectAmong(state: CycleState, pod: Pod, node: NodeInfo, candidates: seq<Pod>, budgets: seq<Budget>,
                       filter: set<Pod> -> bool, ghost t: Trial, ghost pods: seq<Pod>)
      returns (victims: seq<Pod>, violations: nat, status: Status, sorted: seq<Pod>)
      requires Simulating(state, node, t, {}) && t.Victims() != {}
      requires t.pod == pod && t.filter == filter && t.WellFormed()
      requires UniqueUids(pods) && t.pods == ToSet(pods) && candidates == CandidateList(t.start, t.pod, pods)
      modifies node, state.queueSnapshot.QueueMgr.Repr
      ensures state.queueSnapshot == old(state.queueSnapshot)
      ensures status == Outcome(t)
      ensures status != Success ==> victims == [] && violations == 0
      ensures status == Success ==>
        var c := Choice(t, pods, budgets, sorted, victims, violations);
        c.Valid() && Simulating(state, node, t, c.Reprieved())
    {
      assert ToSet(node.pods) == t.Problem().base && t.Problem().base + {} == t.Problem().base;
      if !filter(ToSet(node.pods)) {
        return [], 0, RejectedByFilter, [];
      }
      var preemptorQ := state.queueSnapshot.QueueMgr.Get(pod);
      var request := Request(pod.spec);
      var over := QuotaExceeded(state, node, preemptorQ, request, t, {});
      if over {
        return [], 0, Unschedulable, [];
      }
      victims, violations, sorted :=
        ReprieveAll(state, node, candidates, budgets, preemptorQ, request, filter, t, pods);
      status := Success;
    }

    /** Tries to reprieve all candidates by importance: first those that break a disruption budget,
        then the others. */
    method ReprieveAll(state: CycleState, node: NodeInfo, candidates: seq<Pod>, budgets: seq<Budget>,
                       preemptorQ: Queue?, request: Resources, filter: set<Pod> -> bool, ghost t: Trial,
                       ghost pods: seq<Pod>)
      returns (victims: seq<Pod>, violations: nat, sorted: seq<Pod>)
      requires Simulating(state, node, t, {}) && t.WellFormed() && t.filter == filter && t.Problem().Feasible({})
      requires UniqueUids(pods) && t.pods == ToSet(pods) && candidates == CandidateList(t.start, t.pod, pods)
      requires preemptorQ == state.queueSnapshot.QueueMgr.Lookup(t.pod) && request == Request(t.pod.spec)
      modifies node, state.queueSnapshot.QueueMgr.Repr
      ensures state.queueSnapshot == old(state.queueSnapshot)
      ensures var c := Choice(t, pods, budgets, sorted, victims, violations);
        c.Valid() && Simulating(state, node, t, c.Reprieved())
    {
      sorted := SortByImportance(candidates);
      var violating, nonViolating := CheckPodRemovalViolations(sorted, budgets);
      CandidateGroups(t, pods, budgets, sorted);
      var rejected;
      rejected, violations :=
        ReprieveInTurn(state, node, violating, nonViolating, preemptorQ, request, filter, t);
      victims := SortByImportance(rejected);
    }

    /** Tries one group after the other. */
    method ReprieveInTurn(state: CycleState, node: NodeInfo, violating: seq<Pod>, nonViolating: seq<Pod>,
                          preemptorQ: Queue?, request: Resources, filter: set<Pod> -> bool, ghost t: Trial)
      returns (victims: seq<Pod>, violations: nat)
      requires Simulating(state, node, t, {}) && t.WellFormed() && t.filter == filter
      requires UniqueUids(violating + nonViolating)
      requires ToSet(violating) <= t.Victims() && ToSet(nonViolating) <= t.Victims()
      requires preemptorQ == state.queueSnapshot.QueueMgr.Lookup(t.pod) && request == Request(t.pod.spec)
      modifies node, state.queueSnapshot.QueueMgr.Repr
      ensures state.queueSnapshot == old(state.queueSnapshot)
      ensures Simulating(state, node, t, Kept(t.Problem(), violating + nonViolating))
      ensures victims == Rejected(t.Problem(), violating + nonViolating)
      ensures violations == |Rejected(t.Problem(), violating)|
    {
      UniquePrefix(violating, nonViolating);
      assert [] + violating == violating;
      var first, second, others;
      first, violations := ReprieveGroup(state, node, violating, preemptorQ, request, filter, t, []);
      assert Rejected(t.Problem(), []) + first == first;
      second, others := ReprieveGroup(state, node, nonViolating, preemptorQ, request, filter, t, violating);
      victims := first + second;
    }

    /** Whether to select victims for the pod at all.  Without a queue the answer is no, so the part
        of the source for preemptors outside every queue is never reached. */
    method PodEligibleToPreemptOthers(state: CycleState, pod: Pod, nominatedNodeStatus: Status,
                                      node: NodeInfo?) returns (eligible: bool)
      requires state.Valid()
      ensures eligible <==>
        && state.queueSnapshot != null
        && Eligible(state.queueSnapshot.QueueMgr.Contents, pod, nominatedNodeStatus,
                    if node == null then None else Some(node.pods))
      ensures pod.spec.preemptionPolicy == Some("Never") ==> !eligible
      ensures
        && state.queueSnapshot != null && MayPreempt(state.queueSnapshot.QueueMgr.Contents, pod.spec)
        && pod.spec.preemptionPolicy in {None, Some(""), Some("PreemptLowerPriority")}
        && (pod.nominatedNodeName == "" || nominatedNodeStatus == UnschedulableAndUnresolvable)
        ==> eligible
    {
      if !PolicyAllowsPreemption(pod.spec) {
        return false;
      }
      if state.queueSnapshot == null {
        return false;
      }
      var mgr: Manager := state.queueSnapshot.QueueMgr;
      var evaluator := NewPreemptionEvaluator(mgr, pod);
      if !evaluator.CanPodPreemptOthers() {
        return false;
      }
      if |pod.nominatedNodeName| == 0 {
        return true;
      }
      if nominatedNodeStatus == UnschedulableAndUnresolvable {
        return true;
      }
      if node == null {
        return false;
      }
      var makesRoom := SomePodMakesRoom(mgr, pod, node.pods);
      return !makesRoom;
    }

    /** Whether some pod of a node is on its way out and will make room for the preemptor. */
    method SomePodMakesRoom(mgr: Manager, pod: Pod, pods: seq<Pod>) returns (makesRoom: bool)
      requires mgr.Valid() && QueueOf(mgr.Contents, pod.spec).Some?
      ensures makesRoom <==> exists victim :: victim in pods && WillMakeRoom(mgr.Contents, pod.spec, victim)
    {
      var request := Request(pod.spec);
      var preemptorQ := mgr.Get(pod);
      var wouldBeOverQuota := preemptorQ.quota.WouldPutOverMax(request);
      for i := 0 to |pods|
        invariant forall j :: 0 <= j < i ==> !WillMakeRoom(mgr.Contents, pod.spec, pods[j])
      {
        var victim := pods[i];
        if !TerminatingByPreemption(victim) {
          continue;
        }
        if Priority(victim.spec) >= Priority(pod.spec) {
          continue;
        }
        var victimQ := mgr.Get(victim);
        if victimQ == null {
          continue;
        }
        if !victimQ.CanPodBePreemptedByOthers(victim) {
          continue;
        }
        assert victim in pods;
        if preemptorQ.name == victimQ.name {
          return true;
        }
        if preemptorQ.name != victimQ.name && !wouldBeOverQuota {
          return true;
        }
      }
      return false;
    }
  }

  // ---- Eligibility ------------------------------------------------------------------------

  /** A pod on the nominated node that is being evicted and will make room for the preemptor: it
      shares the preemptor's quota, or the preemptor is within its quota anyway. */
  ghost predicate WillMakeRoom(m: ManagerView, preemptor: PodSpec, victim: Pod)
    requires QueueOf(m, preemptor).Some?
  {
    var victimQ := QueueOf(m, victim.spec);
    && TerminatingByPreemption(victim)
    && Priority(victim.spec) < Priority(preemptor)
    && victimQ.Some? && MayBePreempted(victimQ.value, victim.spec)
    && (QueueOf(m, preemptor).value.name == victimQ.value.name || PassesGate(m, preemptor))
  }

  /** The pod may look for victims: its policy and its queue let it preempt, and no earlier
      preemption is still under way on its nominated node.  `node` holds the pods of that node, or
      nothing when it cannot be found. */
  ghost predicate Eligible(m: ManagerView, pod: Pod, nominatedNodeStatus: Status, node: Option<seq<Pod>>) {
    && PolicyAllowsPreemption(pod.spec)
    && MayPreempt(m, pod.spec)
    && (|| pod.nominatedNodeName == ""
        || nominatedNodeStatus == UnschedulableAndUnresolvable
        || (node.Some? && forall victim :: victim in node.value ==> !WillMakeRoom(m, pod.spec, victim)))
  }

  /** A preemption policy other than the two that allow it, a queue that does not let the pod preempt, and
      a nominated node that is gone each keep the pod from preempting. */
  lemma NotEligible(m: ManagerView, pod: Pod, nominatedNodeStatus: Status, node: Option<seq<Pod>>)
    ensures pod.spec.preemptionPolicy !in {None, Some(""), Some("PreemptLowerPriority")} ==>
      !Eligible(m, pod, nominatedNodeStatus, node)
    ensures !MayPreempt(m, pod.spec) ==> !Eligible(m, pod, nominatedNodeStatus, node)
    ensures pod.nominatedNodeName != "" && nominatedNodeStatus != UnschedulableAndUnresolvable && node.None? ==>
      !Eligible(m, pod, nominatedNodeStatus, node)
  {
  }

  /** Nothing on its nominated node keeps a pod that may preempt from being eligible again, but a pod of
      lower priority that is being deleted by preemption, that its queue lets be preempted, and that
      shares the preemptor's quota unless the preemptor is within it. */
  lemma EligibleUnlessRoomIsComing(m: ManagerView, pod: Pod, nominatedNodeStatus: Status, pods: seq<Pod>)
    requires MayPreempt(m, pod.spec) && pod.spec.preemptionPolicy in {None, Some(""), Some("PreemptLowerPriority")}
    requires KeyIsName(m)
    requires forall victim :: victim in pods ==>
      || Priority(victim.spec) >= Priority(pod.spec)
      || victim.deletionTimestamp.None?
      || Condition("DisruptionTarget", "True", "PreemptionByScheduler") !in victim.conditions
      || QueueOf(m, victim.spec).None?
      || !MayBePreempted(QueueOf(m, victim.spec).value, victim.spec)
      || (QueueLabel(victim.spec) != QueueLabel(pod.spec) && !PassesGate(m, pod.spec))
    ensures Eligible(m, pod, nominatedNodeStatus, Some(pods))
  {
    forall victim | victim in pods
      ensures !WillMakeRoom(m, pod.spec, victim)
    {
    }
  }

  /** Preemption resumes: a pod that may preempt is eligible again once its nominated node holds no pod of
      lower priority that is being deleted by preemption. */
  lemma EligibleOnceVictimsAreGone(m: ManagerView, pod: Pod, nominatedNodeStatus: Status, pods: seq<Pod>)
    requires MayPreempt(m, pod.spec) && pod.spec.preemptionPolicy in {None, Some(""), Some("PreemptLowerPriority")}
    requires KeyIsName(m)
    requires forall victim :: victim in pods && Priority(victim.spec) < Priority(pod.spec) ==>
      victim.deletionTimestamp.None?
        || Condition("DisruptionTarget", "True", "PreemptionByScheduler") !in victim.conditions
    ensures Eligible(m, pod, nominatedNodeStatus, Some(pods))
  {
    EligibleUnlessRoomIsComing(m, pod, nominatedNodeStatus, pods);
  }

  /** The status of a selection, decided before any reprieve. */
  ghost function Outcome(t: Trial): Status {
    if t.Victims() == {} then UnschedulableAndUnresolvable
    else if !t.filter(t.Problem().base) then RejectedByFilter
    else if !t.Problem().FitsQuota({}) then Unschedulable
    else Success
  }

  lemma TakeOneMore(pods: seq<Pod>, i: nat)
    requires i < |pods| && UniqueUids(pods)
    ensures ToSet(pods[..i + 1]) == ToSet(pods[..i]) + {pods[i]}
    ensures pods[i] !in ToSet(pods[..i])
  {
  }

  lemma NextIsNew(s: Search, done: seq<Pod>, group: seq<Pod>, i: nat)
    requires i < |group| && UniqueUids(done + group)
    ensures group[i] !in Kept(s, done + group[..i])
    ensures group[i] in ToSet(group)
    ensures done + group[..i] + [group[i]] == done + group[..i + 1]
  {
    var order, before := done + group, done + group[..i];
    assert order[..|before|] == before && order[|before|] == group[i];
    KeptWithin(s, before);
    TakeOneMore(order, |before|);
  }

  lemma UniquePrefix(front: seq<Pod>, back: seq<Pod>)
    requires UniqueUids(front + back)
    ensures UniqueUids(front)
    ensures ToSet(front) <= ToSet(front + back) && ToSet(back) <= ToSet(front + back)
  {
    assert forall i :: 0 <= i < |front| ==> (front + back)[i] == front[i];
  }

  lemma NotOnNode(pods: set<Pod>, candidates: set<Pod>, kept: set<Pod>, pi: Pod)
    requires DistinctUids(pods) && candidates <= pods && kept <= candidates && pi in candidates && pi !in kept
    ensures forall p :: p in pods - candidates + kept ==> p.uid != pi.uid
  {
  }
}
