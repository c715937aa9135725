/** What a selection means for the cycles that follow it. */
module Progress {
  import opened Pods
  import opened Ledgers
  import opened Queues
  import opened DisruptionBudgets
  import opened Selection
  import opened Plugins
  import opened Preemption
  import opened Synchronization

  /** The outcome of a selection.  Victims and reprieved pods partition the candidates, and the
      preemptor fits the node without the victims and, with the reprieved pods counted, its quota. */
  lemma SelectionMeaning(c: Choice)
    requires c.Valid()
    ensures c.Reprieved() <= c.t.Victims() && ToSet(c.victims) == c.t.Victims() - c.Reprieved()
    ensures c.t.filter(c.t.pods - ToSet(c.victims)) && c.t.Problem().FitsQuota(c.Reprieved())
  {
    var s, rejected := c.t.Problem(), Rejected(c.t.Problem(), c.Order());
    ReprieveOrderFacts(c.t.start, c.t.pod, c.pods, c.budgets, c.sorted);
    KeptIsFeasible(s, c.Order());
    RejectedIsTheRest(s, c.Order());
    PermutationFacts(rejected, c.victims);
    assert ToSet(rejected) == c.t.Victims() - c.Reprieved();
    assert c.t.pods - ToSet(c.victims) == s.base + c.Reprieved();
  }

  /** The accounts of a selection: no pod is a victim twice, victims and reprieved pods add up to the
      candidates, and the victims that break a budget are counted among the victims. */
  lemma SelectionCounts(c: Choice)
    requires c.Valid()
    ensures UniqueUids(c.victims) && SortedByImportance(c.victims)
    ensures |c.victims| + |c.Reprieved()| == |CandidateList(c.t.start, c.t.pod, c.pods)|
    ensures c.violations == |ToSet(c.victims) * ToSet(Group(c.sorted, c.budgets, true))|
  {
    var s, order := c.t.Problem(), c.Order();
    ReprieveOrderFacts(c.t.start, c.t.pod, c.pods, c.budgets, c.sorted);
    RejectedUnique(s, order);
    RejectedCount(s, order);
    PermutationFacts(Rejected(s, order), c.victims);
    PermutationFacts(CandidateList(c.t.start, c.t.pod, c.pods), c.sorted);
    OrderLength(c.sorted, c.budgets);
    ViolationsAreVictims(s, Group(c.sorted, c.budgets, true), Group(c.sorted, c.budgets, false));
    assert ToSet(c.victims) == ToSet(Rejected(s, order));
  }

  lemma ViolationsAreVictims(s: Search, violating: seq<Pod>, others: seq<Pod>)
    requires UniqueUids(violating + others)
    ensures |Rejected(s, violating)| == |ToSet(Rejected(s, violating + others)) * ToSet(violating)|
  {
    var order := violating + others;
    UniquePrefix(violating, others);
    RejectedUnique(s, violating);
    RejectedIsTheRest(s, violating);
    RejectedIsTheRest(s, order);
    forall pod | pod in violating
      ensures pod in Kept(s, order) <==> pod in Kept(s, violating)
    {
      LaterTurns(s, violating, others, pod);
    }
    assert ToSet(Rejected(s, order)) * ToSet(violating) == ToSet(Rejected(s, violating));
    UniqueCardinality(Rejected(s, violating));
  }

  lemma {:induction false} UniqueCardinality(pods: seq<Pod>)
    requires UniqueUids(pods)
    ensures |ToSet(pods)| == |pods|
  {
    if pods != [] {
      UniqueLast(pods);
      UniqueCardinality(pods[..|pods| - 1]);
    }
  }

  lemma OrderLength(sorted: seq<Pod>, budgets: seq<Budget>)
    ensures |ReprieveOrder(sorted, budgets)| == |sorted|
  {
    SplitIsStablePartition(sorted, budgets);
    var a, b := Group(sorted, budgets, true), Group(sorted, budgets, false);
    assert |multiset(a)| == |a| && |multiset(b)| == |b| && |multiset(sorted)| == |sorted|;
    assert |multiset(a) + multiset(b)| == |a| + |b|;
  }

  lemma {:induction false} RejectedUnique(s: Search, order: seq<Pod>)
    requires UniqueUids(order)
    ensures UniqueUids(Rejected(s, order))
  {
    if order != [] {
      var front, last := order[..|order| - 1], order[|order| - 1];
      UniqueLast(order);
      RejectedUnique(s, front);
      RejectedIsTheRest(s, front);
      var rejected := Rejected(s, front);
      if !s.Feasible(Kept(s, front) + {last}) {
        AppendUnique(rejected, last);
        assert Rejected(s, order) == rejected + [last];
      }
    }
  }

  /** Every victim of a queued preemptor is of a queue that consents: both queues' rules accept both
      pods, and the victim has lower priority.  So the checks of the preemptor alone and of the
      victim alone, which later cycles make, agree with the selection. */
  lemma VictimsConsent(c: Choice, victim: Pod)
    requires c.Valid() && KeyIsName(c.t.start)
    ensures victim in c.victims ==> Priority(victim.spec) < Priority(c.t.pod.spec)
    ensures victim in c.victims && QueueOf(c.t.start, c.t.pod.spec).Some? ==>
      && MayPreempt(c.t.start, c.t.pod.spec)
      && QueueOf(c.t.start, victim.spec).Some?
      && MayBePreempted(QueueOf(c.t.start, victim.spec).value, victim.spec)
      && QueueOf(c.t.start, c.t.pod.spec).value.config.preempts.AcceptsTo(victim.spec.labels)
      && QueueOf(c.t.start, victim.spec).value.config.preemptedBy.AcceptsFrom(c.t.pod.spec.labels)
    ensures victim in c.victims && QueueOf(c.t.start, c.t.pod.spec).None? ==> QueueOf(c.t.start, victim.spec).None?
  {
    SelectionMeaning(c);
    assert victim in c.victims <==> victim in ToSet(c.victims);
    ConsentAgrees(c.t.start, c.t.pod.spec, victim.spec);
  }

  /** Victims have lower priority than the preemptor, as numbers; a pod without one counts as zero. */
  lemma VictimsAreLower(c: Choice, victim: Pod)
    requires c.Valid() && KeyIsName(c.t.start)
    ensures victim in c.victims ==>
      match (victim.spec.priority, c.t.pod.spec.priority)
      case (Some(its), Some(own)) => its < own
      case (Some(its), None) => its < 0
      case (None, Some(own)) => 0 < own
      case (None, None) => false
  {
    VictimsConsent(c, victim);
    PriorityMeaning(victim.spec, c.t.pod.spec);
    PriorityMeaning(c.t.pod.spec, victim.spec);
  }

  /** With a downward-closed filter no victim can be spared: put back alone, it breaks the filter or
      the quota. */
  lemma EveryVictimIsNeeded(c: Choice, victim: Pod)
    requires c.Valid() && DownwardClosed(c.t.filter)
    ensures victim in c.victims ==> !c.t.Problem().Feasible(c.Reprieved() + {victim})
  {
    SelectionMeaning(c);
    ReprieveOrderFacts(c.t.start, c.t.pod, c.pods, c.budgets, c.sorted);
    if victim in c.victims {
      assert victim in ToSet(c.victims);
      assert c.Reprieved() < c.Reprieved() + {victim} <= ToSet(c.Order());
      VictimsAreIrreducible(c.t.Problem(), c.Order(), c.Reprieved() + {victim});
    }
  }

  /** The reprieved pods are the best choice: compare them with any other set of candidates that
      could stay.  At the first candidate in the order of reprieve on which they differ, the
      selection reprieves it and the other choice does not. */
  lemma SelectionIsOptimal(c: Choice, other: set<Pod>)
    requires c.Valid() && DownwardClosed(c.t.filter)
    requires other <= c.t.Victims() && c.t.Problem().Feasible(other) && other != c.t.Victims() - ToSet(c.victims)
    ensures var order := c.Order();
      exists i :: (
        && 0 <= i < |order|
        && order[i] !in c.victims && order[i] !in other
        && forall j :: 0 <= j < i ==> (order[j] !in c.victims <==> order[j] in other))
  {
    SelectionMeaning(c);
    ReprieveOrderFacts(c.t.start, c.t.pod, c.pods, c.budgets, c.sorted);
    assert c.t.Victims() - ToSet(c.victims) == c.Reprieved();
    GreedyIsLexicographicallyGreatest(c.t.Problem(), c.Order(), other);
    VictimsAreNotKept(c);
  }

  lemma VictimsAreNotKept(c: Choice)
    requires c.Valid()
    ensures var order := c.Order();
      forall i :: 0 <= i < |order| ==> (order[i] in c.victims <==> order[i] !in c.Reprieved())
  {
    var s, order := c.t.Problem(), c.Order();
    ReprieveOrderFacts(c.t.start, c.t.pod, c.pods, c.budgets, c.sorted);
    RejectedIsTheRest(s, order);
    PermutationFacts(Rejected(s, order), c.victims);
    assert forall pod :: pod in c.victims <==> pod in ToSet(c.victims);
    assert forall pod :: pod in Rejected(s, order) <==> pod in ToSet(Rejected(s, order));
  }

  // ---- Who is spared first ----------------------------------------------------------------

  /** At least as important: of higher priority, or of the same and started no later. */
  predicate NoLessImportant(a: Pod, b: Pod) {
    || Priority(a.spec) > Priority(b.spec)
    || (Priority(a.spec) == Priority(b.spec) && a.spec.startTime <= b.spec.startTime)
  }

  /** Victims are returned most important first. */
  lemma VictimsInOrder(c: Choice, i: nat, j: nat)
    requires c.Valid() && i < j < |c.victims|
    ensures NoLessImportant(c.victims[i], c.victims[j])
  {
    SortedMeaning(c.victims, i, j);
  }

  /** Within the pods that break a budget, and within the others, the most important is tried first. */
  lemma GroupsInOrder(sorted: seq<Pod>, budgets: seq<Budget>, violating: bool, i: nat, j: nat)
    requires SortedByImportance(sorted) && i < j < |Group(sorted, budgets, violating)|
    ensures NoLessImportant(Group(sorted, budgets, violating)[i], Group(sorted, budgets, violating)[j])
  {
    GroupKeeps(sorted, budgets, violating);
    var at := GroupIndexes(sorted, budgets, violating);
    SortedMeaning(sorted, at[i], at[j]);
  }

  /** Of some pods, those that come before a candidate: those that break a budget, if it does not, and
      those of its own kind that are no less important. */
  ghost function Before(sorted: seq<Pod>, budgets: seq<Budget>, pods: set<Pod>, victim: Pod): set<Pod> {
    var violating, others := Group(sorted, budgets, true), Group(sorted, budgets, false);
    set pod | pod in pods && (
      || (pod in violating && victim in others)
      || (pod in violating && victim in violating && NoLessImportant(pod, victim))
      || (pod in others && victim in others && NoLessImportant(pod, victim)))
  }

  lemma TriedBefore(sorted: seq<Pod>, budgets: seq<Budget>, pods: set<Pod>, i: nat, j: nat)
    requires SortedByImportance(sorted) && j < i < |ReprieveOrder(sorted, budgets)|
    requires ReprieveOrder(sorted, budgets)[j] in pods
    ensures ReprieveOrder(sorted, budgets)[j] in Before(sorted, budgets, pods, ReprieveOrder(sorted, budgets)[i])
  {
    var violating, others := Group(sorted, budgets, true), Group(sorted, budgets, false);
    PlaceInGroups(violating, others, i);
    PlaceInGroups(violating, others, j);
    if i < |violating| {
      GroupsInOrder(sorted, budgets, true, j, i);
    } else if j >= |violating| {
      GroupsInOrder(sorted, budgets, false, j - |violating|, i - |violating|);
    }
  }

  lemma PlaceInGroups(violating: seq<Pod>, others: seq<Pod>, i: nat)
    requires i < |violating| + |others|
    ensures i < |violating| ==> (violating + others)[i] == violating[i] && violating[i] in violating
    ensures i >= |violating| ==>
      (violating + others)[i] == others[i - |violating|] && others[i - |violating|] in others
  {
  }

  /** The most important pods are spared: with a downward-closed filter, a victim could not have been put
      back even if of all reprieved pods only those had been that come before it. */
  lemma VictimsYieldToMoreImportant(c: Choice, victim: Pod)
    requires c.Valid() && DownwardClosed(c.t.filter)
    ensures victim in c.victims ==>
      !c.t.Problem().Feasible(Before(c.sorted, c.budgets, c.Reprieved(), victim) + {victim})
  {
    if victim in c.victims {
      var s, order := c.t.Problem(), c.Order();
      SelectionMeaning(c);
      ReprieveOrderFacts(c.t.start, c.t.pod, c.pods, c.budgets, c.sorted);
      assert victim in ToSet(c.victims) && victim in ToSet(order);
      var i :| 0 <= i < |order| && order[i] == victim;
      var before := Before(c.sorted, c.budgets, c.Reprieved(), victim);
      KeptAtTurn(s, order, i);
      KeptWithin(s, order[..i]);
      forall pod | pod in Kept(s, order[..i])
        ensures pod in before
      {
        assert pod in ToSet(order[..i]);
        var j :| 0 <= j < i && order[j] == pod;
        TriedBefore(c.sorted, c.budgets, c.Reprieved(), i, j);
      }
      if s.Feasible(before + {victim}) {
        FeasibleIsDownwardClosed(s, Kept(s, order[..i]) + {victim}, before + {victim});
      }
    }
  }

  // ---- When selection succeeds ------------------------------------------------------------

  /** Which status a selection has: no candidate at all, no room on the node without any of them, no
      quota without any of them, or success. */
  lemma OutcomeMeaning(t: Trial)
    ensures Outcome(t) == UnschedulableAndUnresolvable <==>
      forall p :: p in t.pods ==> !IsCandidate(t.start, t.pod.spec, p.spec)
    ensures Outcome(t) == RejectedByFilter <==> t.Victims() != {} && !t.filter(t.pods - t.Victims())
    ensures Outcome(t) == Unschedulable <==>
      t.Victims() != {} && t.filter(t.pods - t.Victims()) && !t.Problem().FitsQuota({})
    ensures Outcome(t) == Success <==>
      t.Victims() != {} && t.filter(t.pods - t.Victims()) && t.Problem().FitsQuota({})
  {
    assert t.Victims() == {} <==> forall p :: p in t.pods ==> !IsCandidate(t.start, t.pod.spec, p.spec) by {
      if p :| p in t.pods && IsCandidate(t.start, t.pod.spec, p.spec) {
        assert p in t.Victims();
      }
    }
    assert t.Problem().base == t.pods - t.Victims();
  }

  /** Selection is complete: with a downward-closed filter and some candidate, it succeeds if and only if
      evicting some set of candidates lets the preemptor fit the node and its quota. */
  lemma SelectionIsComplete(t: Trial)
    requires DownwardClosed(t.filter)
    ensures Outcome(t) == Success <==> t.Victims() != {} && exists evicted :: (
      && evicted <= t.Victims() && t.filter(t.pods - evicted) && t.Problem().FitsQuota(t.Victims() - evicted))
  {
    var s := t.Problem();
    OutcomeMeaning(t);
    if Outcome(t) == Success {
      assert t.Victims() - t.Victims() == {};
    }
    if evicted :| evicted <= t.Victims() && t.filter(t.pods - evicted) && s.FitsQuota(t.Victims() - evicted) {
      assert t.pods - evicted == s.base + (t.Victims() - evicted);
      FeasibleIsDownwardClosed(s, {}, t.Victims() - evicted);
      assert s.base + {} == t.pods - t.Victims();
    }
  }

  /** Exactly when nobody is evicted: with a downward-closed filter, the victims are none if and only
      if the preemptor fits the untouched node, and its quota with every candidate counted. */
  lemma NoVictimsIff(c: Choice)
    requires c.Valid() && DownwardClosed(c.t.filter)
    ensures c.victims == [] <==> c.t.filter(c.t.pods) && c.t.Problem().FitsQuota(c.t.Victims())
  {
    var s, order := c.t.Problem(), c.Order();
    ReprieveOrderFacts(c.t.start, c.t.pod, c.pods, c.budgets, c.sorted);
    PermutationFacts(Rejected(s, order), c.victims);
    NoVictimsMeansFits(s, order);
    assert s.base + c.t.Victims() == c.t.pods;
    if s.Feasible(c.t.Victims()) {
      FittingMeansNoVictims(s, order);
    }
  }

  /** Whatever the filter, a preemptor that does not fit the untouched node, or its quota as it was,
      gets at least one victim. */
  lemma NotFittingGetsVictims(c: Choice)
    requires c.Valid() && ManagerInv(c.t.world, c.t.start) && c.t.WellFormed()
    ensures c.victims == [] ==> c.t.filter(c.t.pods) && PassesGate(c.t.start, c.t.pod.spec)
  {
    var t := c.t;
    SelectionMeaning(c);
    if c.victims == [] {
      assert ToSet(c.victims) == {};
      assert c.Reprieved() == t.Victims();
      assert t.pods - ToSet(c.victims) == t.pods;
      if QueueOf(t.start, t.pod.spec).Some? {
        var name := QueueLabel(t.pod.spec).value;
        CountedAreKept(t, name);
        AdmitsMonotone(t.world, t.start[name].ledger.max, Counted(t.start, name),
                       t.Problem().counted + QueueUids(c.Reprieved(), name), Request(t.pod.spec));
        OverMaxReadsCounted(t.world, t.start[name].ledger, Request(t.pod.spec));
      }
    }
  }

  lemma CountedAreKept(t: Trial, name: string)
    requires ManagerInv(t.world, t.start) && t.WellFormed()
    ensures Counted(t.start, name) <= Counted(t.start, name) - Uids(t.Victims()) + QueueUids(t.Victims(), name)
  {
  }

  // ---- Preemption is effective ------------------------------------------------------------

  /** A cycle that selected victims: the live queues, the pods nominated to each node, and the
      selection on the snapshot of both. */
  datatype Cycle = Cycle(live: ManagerView, nodes: seq<seq<Pod>>, c: Choice) {
    ghost predicate Valid() {
      && c.Valid()
      && ManagerInv(c.t.world, live) && NodesKnown(c.t.world, nodes) && AllKnown(c.t.world, c.pods)
      && LimitsNonNegative(live, c.t.pod.spec)
      && c.t.start == Snapshot(live, c.t.pod, nodes)
    }
  }

  /** A later cycle of the preemptor: the live queues, the nominated pods, and the preemptor itself
      as they then are. */
  datatype Later = Later(live: ManagerView, nodes: seq<seq<Pod>>, pod: Pod) {
    ghost function Start(): ManagerView {
      Snapshot(live, pod, nodes)
    }

    /** The same pod, and if its queue exists it existed before.  Nothing is said of other queues. */
    ghost predicate Follows(cycle: Cycle) {
      && ManagerInv(cycle.c.t.world, live) && NodesKnown(cycle.c.t.world, nodes)
      && pod.uid == cycle.c.t.pod.uid && pod.spec == cycle.c.t.pod.spec
      && (QueueOf(live, pod.spec).Some? ==> QueueOf(cycle.live, pod.spec).Some?)
    }

    /** Limits of the pod's queue were at most relaxed, and nothing new is counted in it or nominated
        ahead of the pod. */
    ghost predicate AddsNothing(cycle: Cycle) {
      && AheadUids(pod, nodes) <= AheadUids(cycle.c.t.pod, cycle.nodes)
      && (QueueOf(live, pod.spec).Some? && QueueOf(cycle.live, pod.spec).Some? ==>
            && Relaxes(QueueOf(cycle.live, pod.spec).value.ledger.max, QueueOf(live, pod.spec).value.ledger.max)
            && CountedBeside(live, pod.spec) <= CountedBeside(cycle.live, pod.spec))
    }

    /** The pod's queue admits the pod once certain pods are gone. */
    ghost predicate RoomOnceGone(world: World, gone: set<UID>) {
      QueueOf(live, pod.spec).Some? ==>
        Admits(world, QueueOf(live, pod.spec).value.ledger.max,
               CountedBeside(live, pod.spec) + AheadUids(pod, nodes) - gone, Request(pod.spec))
    }
  }

  /** The victims of a selection that share the preemptor's quota. */
  ghost function QuotaVictims(c: Choice): set<UID> {
    if QueueLabel(c.t.pod.spec).None? then {} else QueueUids(ToSet(c.victims), QueueLabel(c.t.pod.spec).value)
  }

  /** A nominated pod that is ahead of the preemptor is never a candidate. */
  lemma AheadIsNoCandidate(cycle: Cycle, pod: Pod, nodes: seq<seq<Pod>>, uid: UID)
    requires cycle.Valid() && NodesKnown(cycle.c.t.world, nodes) && pod.spec == cycle.c.t.pod.spec
    requires uid in AheadUids(pod, nodes)
    ensures uid !in Uids(cycle.c.t.Victims())
  {
    assert forall p :: p in cycle.c.t.pods ==> Known(cycle.c.t.world, p);
  }

  /** Once the victims that share the preemptor's quota are gone, no live pod or nomination is left
      that the search did not count. */
  lemma LeftIsCounted(cycle: Cycle, name: string, uid: UID)
    requires cycle.Valid() && QueueLabel(cycle.c.t.pod.spec) == Some(name)
    ensures
      && name in cycle.live && uid in Counted(cycle.live, name) + AheadUids(cycle.c.t.pod, cycle.nodes)
      && uid !in QuotaVictims(cycle.c)
      ==> uid in cycle.c.t.Problem().counted + QueueUids(cycle.c.Reprieved(), name)
  {
    var c, t := cycle.c, cycle.c.t;
    SnapshotMeaning(t.world, cycle.live, t.pod, cycle.nodes);
    SelectionMeaning(c);
    if && name in cycle.live && uid in Counted(cycle.live, name) + AheadUids(t.pod, cycle.nodes)
       && uid !in QuotaVictims(c) && uid in Uids(t.Victims())
    {
      assert uid in Counted(t.start, name);
      var candidate :| candidate in t.Victims() && candidate.uid == uid;
      assert Known(t.world, candidate);
      assert QueueLabel(candidate.spec) == Some(name);
      assert candidate in ToSet(c.victims) ==> uid in QuotaVictims(c);
      assert candidate in c.Reprieved();
    }
  }

  /** Selecting victims finds room for the preemptor, once those that share its quota are gone. */
  lemma SelectionMakesRoom(cycle: Cycle)
    requires cycle.Valid()
    ensures Later(cycle.live, cycle.nodes, cycle.c.t.pod).RoomOnceGone(cycle.c.t.world, QuotaVictims(cycle.c))
  {
    var c, t := cycle.c, cycle.c.t;
    SnapshotMeaning(t.world, cycle.live, t.pod, cycle.nodes);
    if QueueOf(cycle.live, t.pod.spec).Some? {
      var name, s := QueueLabel(t.pod.spec).value, t.Problem();
      SelectionMeaning(c);
      var left := Counted(cycle.live, name) + AheadUids(t.pod, cycle.nodes) - QuotaVictims(c);
      forall uid | uid in left
        ensures uid in s.counted + QueueUids(c.Reprieved(), name)
      {
        LeftIsCounted(cycle, name, uid);
      }
      AdmitsMonotone(t.world, s.quota.value.max, left, s.counted + QueueUids(c.Reprieved(), name), s.request);
    }
  }

  /** The room stays where nothing new takes it. */
  lemma RoomIsKept(cycle: Cycle, later: Later)
    requires cycle.Valid() && later.Follows(cycle) && later.AddsNothing(cycle)
    ensures later.RoomOnceGone(cycle.c.t.world, QuotaVictims(cycle.c))
  {
    var t := cycle.c.t;
    SelectionMakesRoom(cycle);
    if QueueOf(later.live, later.pod.spec).Some? {
      var name, gone := QueueLabel(t.pod.spec).value, QuotaVictims(cycle.c);
      var left := Counted(later.live, name) + AheadUids(later.pod, later.nodes) - gone;
      AdmitsMonotone(t.world, cycle.live[name].ledger.max, left,
                     Counted(cycle.live, name) + AheadUids(t.pod, cycle.nodes) - gone, Request(t.pod.spec));
      AdmitsRelaxed(t.world, cycle.live[name].ledger.max, later.live[name].ledger.max, left, t.pod.spec);
    }
  }

  /** Where there is room once certain pods are gone, and the queue no longer counts any of them, the
      quota gate lets the preemptor pass. */
  lemma RoomPassesGate(cycle: Cycle, later: Later)
    requires cycle.Valid() && later.Follows(cycle)
    requires later.RoomOnceGone(cycle.c.t.world, QuotaVictims(cycle.c))
    requires CountedBeside(later.live, later.pod.spec) !! QuotaVictims(cycle.c)
    ensures PassesGate(later.Start(), later.pod.spec)
  {
    var t, gone := cycle.c.t, QuotaVictims(cycle.c);
    SnapshotMeaning(t.world, later.live, later.pod, later.nodes);
    if QueueOf(later.live, later.pod.spec).Some? {
      var name, ahead := QueueLabel(later.pod.spec).value, AheadUids(later.pod, later.nodes);
      var max := later.live[name].ledger.max;
      SelectionMeaning(cycle.c);
      forall uid | uid in ahead
        ensures uid !in gone
      {
        AheadIsNoCandidate(cycle, later.pod, later.nodes, uid);
      }
      assert Counted(later.live, name) + ahead - gone == Counted(later.live, name) + ahead;
      AdmitsRelaxed(t.world, max, max, Counted(later.live, name) + ahead, t.pod.spec);
      GateMeaning(t.world, later.live, later.pod, later.nodes);
    }
  }

  /** After the victims that share the preemptor's quota have left its ledger, the quota gate lets
      the preemptor pass, as long as nothing else was counted or nominated ahead of it. */
  lemma GatePassesAfterEviction(cycle: Cycle, later: Later)
    requires cycle.Valid() && later.Follows(cycle) && later.AddsNothing(cycle)
    requires CountedBeside(later.live, later.pod.spec) !! QuotaVictims(cycle.c)
    ensures PassesGate(later.Start(), later.pod.spec)
  {
    RoomIsKept(cycle, later);
    RoomPassesGate(cycle, later);
  }

  /** The live manager after every pod of a list was deleted. */
  function Evict(m: ManagerView, victims: seq<Pod>): ManagerView {
    if victims == [] then m else UncountPod(Evict(m, victims[..|victims| - 1]), victims[|victims| - 1])
  }

  lemma EvictStep(m: ManagerView, victims: seq<Pod>, i: nat)
    requires i < |victims|
    ensures Evict(m, victims[..i + 1]) == UncountPod(Evict(m, victims[..i]), victims[i])
  {
    assert victims[..i + 1][..i] == victims[..i];
  }

  lemma {:induction false} EvictMeaning(world: World, m: ManagerView, victims: seq<Pod>)
    requires ManagerInv(world, m) && AllKnown(world, victims)
    ensures ManagerInv(world, Evict(m, victims)) && SameConfig(m, Evict(m, victims))
    ensures forall name :: Counted(Evict(m, victims), name) == Counted(m, name) - Uids(ToSet(victims))
  {
    if victims != [] {
      var front, last := victims[..|victims| - 1], victims[|victims| - 1];
      EvictMeaning(world, m, front);
      UncountKeepsInv(world, Evict(m, front), last);
      SameConfigTransitive(m, Evict(m, front), Evict(m, victims));
      assert victims == front + [last];
      assert Uids(ToSet(victims)) == Uids(ToSet(front)) + {last.uid};
    } else {
      assert Uids(ToSet(victims)) == {};
    }
  }

  /** Preemption is effective: if exactly the returned victims are deleted from the live manager and
      the nominations stay, the next cycle of the preemptor passes the quota gate.  This holds even
      where the simulation put back a pod that the live ledger had not counted. */
  lemma PreemptionIsEffective(cycle: Cycle)
    requires cycle.Valid()
    ensures PassesGate(Snapshot(Evict(cycle.live, cycle.c.victims), cycle.c.t.pod, cycle.nodes), cycle.c.t.pod.spec)
  {
    var c, t := cycle.c, cycle.c.t;
    SelectionMeaning(c);
    VictimsAreKnown(c);
    EvictMeaning(t.world, cycle.live, c.victims);
    assert QuotaVictims(c) <= Uids(ToSet(c.victims));
    GatePassesAfterEviction(cycle, Later(Evict(cycle.live, c.victims), cycle.nodes, t.pod));
  }

  lemma VictimsAreKnown(c: Choice)
    requires AllKnown(c.t.world, c.pods) && c.t.pods == ToSet(c.pods) && ToSet(c.victims) <= c.t.pods
    ensures AllKnown(c.t.world, c.victims)
  {
    forall i | 0 <= i < |c.victims|
      ensures Known(c.t.world, c.victims[i])
    {
      assert c.victims[i] in ToSet(c.victims);
    }
  }

  // ---- No repeated preemption -------------------------------------------------------------

  /** A queue that is there keeps its rule for being preempted. */
  ghost predicate KeepsPreemptedBy(m: ManagerView, m': ManagerView, pod: PodSpec) {
    QueueOf(m, pod).Some? ==>
      && QueueOf(m', pod).Some?
      && QueueOf(m', pod).value.config.preemptedBy == QueueOf(m, pod).value.config.preemptedBy
  }

  /** A later cycle while victims of the earlier one are still leaving the nominated node, which
      holds `pods`.  Victims that left the node have left the preemptor's ledger; those that remain
      are marked, and their queues still let them be preempted. */
  ghost predicate VictimsStillLeaving(cycle: Cycle, later: Later, pods: seq<Pod>) {
    && later.pod.nominatedNodeName != "" && AllKnown(cycle.c.t.world, pods)
    && CountedBeside(later.live, later.pod.spec) * QuotaVictims(cycle.c) <= Uids(ToSet(pods))
    && (forall p :: p in pods && p.uid in Uids(ToSet(cycle.c.victims)) ==>
          && p.deletionTimestamp.Some?
          && Condition("DisruptionTarget", "True", "PreemptionByScheduler") in p.conditions
          && KeepsPreemptedBy(cycle.live, later.live, p.spec))
  }

  lemma SnapshotsKeepRule(m: ManagerView, snapshot: ManagerView, m': ManagerView, snapshot': ManagerView, pod: PodSpec)
    requires SameConfig(m, snapshot) && SameConfig(m', snapshot') && KeepsPreemptedBy(m, m', pod)
    ensures KeepsPreemptedBy(snapshot, snapshot', pod)
  {
  }

  lemma RulesStay(cycle: Cycle, later: Later, victim: PodSpec)
    requires cycle.Valid() && later.Follows(cycle) && KeepsPreemptedBy(cycle.live, later.live, victim)
    ensures KeyIsName(cycle.c.t.start) && KeyIsName(later.Start())
    ensures KeepsPreemptedBy(cycle.c.t.start, later.Start(), victim)
    ensures QueueOf(later.Start(), later.pod.spec).Some? ==> QueueOf(cycle.c.t.start, later.pod.spec).Some?
  {
    SnapshotMeaning(cycle.c.t.world, cycle.live, cycle.c.t.pod, cycle.nodes);
    SnapshotMeaning(cycle.c.t.world, later.live, later.pod, later.nodes);
    SnapshotsKeepRule(cycle.live, cycle.c.t.start, later.live, later.Start(), victim);
  }

  /** As long as some victim remains on the nominated node, some remaining victim will make room. */
  lemma SomeVictimMakesRoom(cycle: Cycle, later: Later, pods: seq<Pod>, remaining: Pod)
    requires cycle.Valid() && later.Follows(cycle) && VictimsStillLeaving(cycle, later, pods)
    requires later.RoomOnceGone(cycle.c.t.world, QuotaVictims(cycle.c))
    requires remaining in pods && remaining.uid in Uids(ToSet(cycle.c.victims))
    ensures QueueOf(later.Start(), later.pod.spec).Some? ==>
      exists p :: p in pods && WillMakeRoom(later.Start(), later.pod.spec, p)
  {
    var m := later.Start();
    if QueueOf(m, later.pod.spec).Some? {
      SelectionMeaning(cycle.c);
      if here :| here in pods && here.uid in QuotaVictims(cycle.c) {
        RulesStay(cycle, later, here.spec);
        RemainingMakesRoom(cycle.c, m, later.pod, here);
      } else {
        assert QuotaVictims(cycle.c) !! Uids(ToSet(pods));
        RoomPassesGate(cycle, later);
        RulesStay(cycle, later, remaining.spec);
        RemainingMakesRoom(cycle.c, m, later.pod, remaining);
      }
    }
  }

  /** While victims of an earlier selection are still leaving the nominated node, the preemptor is
      not eligible to select more, as long as the room they make is still there for it. */
  lemma NoRepeatedPreemption(cycle: Cycle, later: Later, pods: seq<Pod>, status: Status, remaining: Pod)
    requires cycle.Valid() && later.Follows(cycle) && VictimsStillLeaving(cycle, later, pods)
    requires later.RoomOnceGone(cycle.c.t.world, QuotaVictims(cycle.c))
    requires remaining in pods && remaining.uid in Uids(ToSet(cycle.c.victims))
    requires status != UnschedulableAndUnresolvable
    ensures !Eligible(later.Start(), later.pod, status, Some(pods))
  {
    SomeVictimMakesRoom(cycle, later, pods, remaining);
  }

  /** A marked victim that remains will make room, if it shares the preemptor's quota or the
      preemptor passes the gate. */
  lemma RemainingMakesRoom(c: Choice, m: ManagerView, pod: Pod, remaining: Pod)
    requires KeyIsName(c.t.start) && KeyIsName(m) && KeepsPreemptedBy(c.t.start, m, remaining.spec)
    requires c.t.pods == ToSet(c.pods) && AllKnown(c.t.world, c.pods) && ToSet(c.victims) <= c.t.Victims()
    requires pod.spec == c.t.pod.spec && QueueOf(m, pod.spec).Some? && QueueOf(c.t.start, pod.spec).Some?
    requires Known(c.t.world, remaining) && TerminatingByPreemption(remaining)
    requires remaining.uid in Uids(ToSet(c.victims))
    requires remaining.uid in QuotaVictims(c) || PassesGate(m, pod.spec)
    ensures WillMakeRoom(m, pod.spec, remaining)
  {
  }

  // ---- End to end -------------------------------------------------------------------------

  /** One cycle of a preemptor: the quota gate, and the selection on a clone of the cycle state.
      The live queues stay as they are. */
  method SelectInCycle(preemptor: Preemptor, state: CycleState, pod: Pod, nodes: seq<seq<Pod>>, node: NodeInfo,
                       budgets: seq<Budget>, filter: set<Pod> -> bool, ghost world: World)
    returns (victims: seq<Pod>, violations: nat, selection: Status, ghost sorted: seq<Pod>)
    requires var live := preemptor.plugin.queueMgr;
      && live.Valid() && state !in live.Repr && node !in live.Repr
      && ManagerInv(world, live.Contents) && LimitsNonNegative(live.Contents, pod.spec)
    requires NodesKnown(world, nodes) && AllKnown(world, node.pods) && UniqueUids(node.pods)
    modifies state, node
    ensures selection != Success ==> victims == []
    ensures selection == Success ==>
      var live := preemptor.plugin.queueMgr.Contents;
      var t := Trial(world, Snapshot(live, pod, nodes), pod, ToSet(old(node.pods)), filter);
      Cycle(live, nodes, Choice(t, old(node.pods), budgets, sorted, victims, violations)).Valid()
  {
    var plugin := preemptor.plugin;
    SnapshotMeaning(world, plugin.queueMgr.Contents, pod, nodes);
    var _ := plugin.PreFilter(state, pod, Some(nodes));
    var simulated := state.Clone();
    victims, violations, selection, sorted :=
      preemptor.SelectVictimsOnNode(simulated, pod, node, budgets, filter, world);
  }

  /** That cycle and the next: once the selected victims are deleted, the quota gate lets the
      preemptor pass, and the filters accept the node without them. */
  method PreemptAndRetry(preemptor: Preemptor, state: CycleState, pod: Pod, nodes: seq<seq<Pod>>, node: NodeInfo,
                         budgets: seq<Budget>, filter: set<Pod> -> bool, ghost world: World)
    returns (victims: seq<Pod>, selection: Status, retry: Status)
    requires var live := preemptor.plugin.queueMgr;
      && live.Valid() && state !in live.Repr && node !in live.Repr
      && ManagerInv(world, live.Contents) && LimitsNonNegative(live.Contents, pod.spec)
    requires NodesKnown(world, nodes) && AllKnown(world, node.pods) && UniqueUids(node.pods)
    modifies state, node, preemptor.plugin.queueMgr.Repr
    ensures selection == Success ==> retry == Success
    ensures selection == Success ==> filter(ToSet(old(node.pods)) - ToSet(victims))
    ensures selection != Success ==> victims == []
  {
    var mgr := preemptor.plugin.queueMgr;
    ghost var live, pods := mgr.Contents, node.pods;
    var violations;
    ghost var sorted;
    victims, violations, selection, sorted := SelectInCycle(preemptor, state, pod, nodes, node, budgets, filter, world);
    if selection == Success {
      ghost var t := Trial(world, Snapshot(live, pod, nodes), pod, ToSet(pods), filter);
      ghost var c := Choice(t, pods, budgets, sorted, victims, violations);
      SelectionMeaning(c);
      PreemptionIsEffective(Cycle(live, nodes, c));
    }
    DeleteAll(mgr, victims);
    retry := preemptor.plugin.PreFilter(state, pod, Some(nodes));
  }

  method DeleteAll(mgr: Manager, victims: seq<Pod>)
    requires mgr.Valid()
    modifies mgr.Repr
    ensures mgr.Valid() && unchanged(mgr`Repr)
    ensures mgr.Contents == Evict(old(mgr.Contents), victims)
  {
    var syn := new Synchronizer(mgr);
    for i := 0 to |victims|
      invariant mgr.Valid() && unchanged(mgr`Repr)
      invariant mgr.Contents == Evict(old(mgr.Contents), victims[..i])
    {
      syn.DeletePod(Some(victims[i]));
      EvictStep(old(mgr.Contents), victims, i);
    }
    assert victims[..|victims|] == victims;
  }
}
