/** The search behind victim selection: potential victims are put back one by one, in an order of
    preference, whenever the preemptor still fits
    (internal/plugin/quotaawarepreempt/preemption.go). */
module Selection {
  import opened Resources
  import opened Pods
  import opened Ledgers

  datatype QuotaLimit = QuotaLimit(queue: string, max: Resources)

  /** A search starts with every potential victim removed.  `base` holds the pods left on the node
      and `counted` those left in the preemptor's queue.  The filters of the framework are some
      function of the pods on the node. */
  datatype Search = Search(
    world: World,
    filter: set<Pod> -> bool,
    base: set<Pod>,
    counted: set<UID>,
    quota: Option<QuotaLimit>,
    request: Resources)
  {
    ghost predicate FitsQuota(kept: set<Pod>) {
      quota.None? || Admits(world, quota.value.max, counted + QueueUids(kept, quota.value.queue), request)
    }

    /** The preemptor fits the node and its quota when `kept` is put back. */
    ghost predicate Feasible(kept: set<Pod>) {
      filter(base + kept) && FitsQuota(kept)
    }
  }

  function QueueUids(pods: set<Pod>, queue: string): set<UID> {
    set pod | pod in pods && QueueLabel(pod.spec) == Some(queue) :: pod.uid
  }

  /** The pods that are reprieved. */
  ghost function Kept(s: Search, order: seq<Pod>): set<Pod> {
    if order == [] then {}
    else
      var kept := Kept(s, order[..|order| - 1]);
      var pod := order[|order| - 1];
      if s.Feasible(kept + {pod}) then kept + {pod} else kept
  }

  /** The pods that stay victims, in the order they were tried. */
  ghost function Rejected(s: Search, order: seq<Pod>): seq<Pod> {
    if order == [] then []
    else
      var pod := order[|order| - 1];
      Rejected(s, order[..|order| - 1])
        + if s.Feasible(Kept(s, order[..|order| - 1]) + {pod}) then [] else [pod]
  }

  ghost predicate DownwardClosed(filter: set<Pod> -> bool) {
    forall fewer, more :: fewer <= more && filter(more) ==> filter(fewer)
  }

  lemma FeasibleIsDownwardClosed(s: Search, fewer: set<Pod>, more: set<Pod>)
    requires DownwardClosed(s.filter) && fewer <= more && s.Feasible(more)
    ensures s.Feasible(fewer)
  {
    assert s.base + fewer <= s.base + more;
    if s.quota.Some? {
      var q := s.quota.value;
      assert QueueUids(fewer, q.queue) <= QueueUids(more, q.queue);
      AdmitsMonotone(s.world, q.max, s.counted + QueueUids(fewer, q.queue), s.counted + QueueUids(more, q.queue),
                     s.request);
    }
  }

  /** Whatever the filter, the preemptor fits at the end if it fitted with every candidate gone. */
  lemma {:induction false} KeptIsFeasible(s: Search, order: seq<Pod>)
    requires s.Feasible({})
    ensures s.Feasible(Kept(s, order)) && Kept(s, order) <= ToSet(order)
  {
    if order != [] {
      KeptIsFeasible(s, order[..|order| - 1]);
    }
  }

  lemma {:induction false} KeptWithin(s: Search, order: seq<Pod>)
    ensures Kept(s, order) <= ToSet(order)
  {
    if order != [] {
      KeptWithin(s, order[..|order| - 1]);
    }
  }

  lemma StepOfSearch(s: Search, order: seq<Pod>, pod: Pod)
    ensures Kept(s, order + [pod])
         == if s.Feasible(Kept(s, order) + {pod}) then Kept(s, order) + {pod} else Kept(s, order)
    ensures Rejected(s, order + [pod]) == Rejected(s, order) + if s.Feasible(Kept(s, order) + {pod}) then [] else [pod]
  {
  }

  /** Later turns do not touch the pods before them. */
  lemma {:induction false} LaterTurns(s: Search, front: seq<Pod>, back: seq<Pod>, pod: Pod)
    requires UniqueUids(front + back) && pod in front
    ensures pod in Kept(s, front + back) <==> pod in Kept(s, front)
  {
    if back == [] {
      assert front + back == front;
    } else {
      var order, n := front + back, |back| - 1;
      assert order[..|order| - 1] == front + back[..n];
      UniqueLast(order);
      LaterTurns(s, front, back[..n], pod);
      assert pod in front + back[..n];
    }
  }

  /** A pod's fate is settled at its own turn. */
  lemma KeptAtTurn(s: Search, order: seq<Pod>, i: nat)
    requires i < |order| && UniqueUids(order)
    ensures order[i] in Kept(s, order) <==> s.Feasible(Kept(s, order[..i]) + {order[i]})
    ensures forall pod :: pod in Kept(s, order[..i]) ==> pod in Kept(s, order)
  {
    var before, upTo := order[..i], order[..i + 1];
    assert order == upTo + order[i + 1..] && order == before + order[i..];
    assert upTo == before + [order[i]] && upTo[i] == order[i];
    LaterTurns(s, upTo, order[i + 1..], order[i]);
    StepOfSearch(s, before, order[i]);
    UniqueLast(upTo);
    KeptWithin(s, before);
    forall pod | pod in Kept(s, before)
      ensures pod in Kept(s, order)
    {
      assert pod in ToSet(before);
      LaterTurns(s, before, order[i..], pod);
    }
  }

  /** Greedy optimality: compare the reprieved pods with any other set of candidates that could be
      put back.  At the first candidate on which they differ, the search keeps it and the other
      set does not. */
  lemma GreedyIsLexicographicallyGreatest(s: Search, order: seq<Pod>, other: set<Pod>)
    requires DownwardClosed(s.filter) && UniqueUids(order)
    requires other <= ToSet(order) && s.Feasible(other) && other != Kept(s, order)
    ensures exists i :: (
      && 0 <= i < |order|
      && order[i] in Kept(s, order) && order[i] !in other
      && forall j :: 0 <= j < i ==> (order[j] in Kept(s, order) <==> order[j] in other))
  {
    KeptWithin(s, order);
    var i := FirstDifference(order, Kept(s, order), other);
    if order[i] in other {
      KeptAtTurn(s, order, i);
      var before := Kept(s, order[..i]);
      KeptWithin(s, order[..i]);
      forall pod | pod in before
        ensures pod in other
      {
        var j :| 0 <= j < i && order[j] == pod;
      }
      FeasibleIsDownwardClosed(s, before + {order[i]}, other);
    }
  }

  lemma FirstDifference(order: seq<Pod>, a: set<Pod>, b: set<Pod>) returns (i: nat)
    requires a <= ToSet(order) && b <= ToSet(order) && a != b
    ensures i < |order| && (order[i] in a <==> order[i] !in b)
    ensures forall j :: 0 <= j < i ==> (order[j] in a <==> order[j] in b)
  {
    var differing :| differing in a + b && (differing in a <==> differing !in b);
    assert differing in ToSet(order);
    var k :| 0 <= k < |order| && order[k] == differing;
    i := 0;
    while order[i] in a <==> order[i] in b
      invariant 0 <= i <= k
      invariant forall j :: 0 <= j < i ==> (order[j] in a <==> order[j] in b)
      decreases k - i
    {
      i := i + 1;
    }
  }

  /** Victims are irreducible: nothing more can be put back. */
  lemma VictimsAreIrreducible(s: Search, order: seq<Pod>, more: set<Pod>)
    requires DownwardClosed(s.filter) && UniqueUids(order)
    requires Kept(s, order) < more <= ToSet(order)
    ensures !s.Feasible(more)
  {
    if s.Feasible(more) {
      GreedyIsLexicographicallyGreatest(s, order, more);
    }
  }

  lemma UniqueLast(pods: seq<Pod>)
    requires pods != [] && UniqueUids(pods)
    ensures var front, last := pods[..|pods| - 1], pods[|pods| - 1];
      && UniqueUids(front) && last !in ToSet(front) && ToSet(pods) == ToSet(front) + {last}
      && forall pod :: pod in front ==> pod.uid != last.uid
  {
  }

  /** Victims and reprieved pods share out the candidates. */
  lemma {:induction false} RejectedIsTheRest(s: Search, order: seq<Pod>)
    requires UniqueUids(order)
    ensures forall pod :: pod in Rejected(s, order) <==> pod in order && pod !in Kept(s, order)
  {
    if order != [] {
      var front, last := order[..|order| - 1], order[|order| - 1];
      UniqueLast(order);
      RejectedIsTheRest(s, front);
      KeptWithin(s, front);
      forall pod
        ensures pod in Rejected(s, order) <==> pod in order && pod !in Kept(s, order)
      {
        assert pod in order <==> pod in front || pod == last;
      }
    }
  }

  lemma {:induction false} RejectedCount(s: Search, order: seq<Pod>)
    requires UniqueUids(order)
    ensures |Rejected(s, order)| + |Kept(s, order)| == |order|
  {
    if order != [] {
      UniqueLast(order);
      RejectedCount(s, order[..|order| - 1]);
      KeptWithin(s, order[..|order| - 1]);
    }
  }

  /** Whatever the filter, a preemptor without victims fits the untouched node and quota. */
  lemma NoVictimsMeansFits(s: Search, order: seq<Pod>)
    requires UniqueUids(order) && s.Feasible({})
    ensures Rejected(s, order) == [] ==> s.Feasible(ToSet(order))
  {
    KeptIsFeasible(s, order);
    RejectedIsTheRest(s, order);
    if Rejected(s, order) == [] {
      assert Kept(s, order) == ToSet(order);
    }
  }

  /** With a downward-closed filter it gets victims only then. */
  lemma FittingMeansNoVictims(s: Search, order: seq<Pod>)
    requires UniqueUids(order) && DownwardClosed(s.filter)
    requires s.Feasible(ToSet(order))
    ensures Rejected(s, order) == []
  {
    if Rejected(s, order) != [] {
      RejectedIsTheRest(s, order);
      KeptWithin(s, order);
      assert Rejected(s, order)[0] in Rejected(s, order);
      VictimsAreIrreducible(s, order, ToSet(order));
    }
  }
}
