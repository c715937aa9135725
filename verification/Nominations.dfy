/** Nominated pods hold their room: why the gate counts them, and what that gives a preemptor while
    other pods are scheduled (internal/plugin/quotaawarepreempt/plugin.go). */
module Nominations {
  import opened Resources
  import opened Pods
  import opened Ledgers
  import opened Queues
  import opened Preemption
  import opened Plugins
  import opened Progress
  import opened QuotaSafety

  /** What is ahead of a pod is ahead of every pod that it is itself ahead of. */
  lemma AheadOfAhead(pod: Pod, other: Pod, nodes: seq<seq<Pod>>)
    requires IsAhead(other, pod)
    ensures AheadUids(pod, nodes) <= AheadUids(other, nodes) + {other.uid}
  {
  }

  lemma RoomBeside(world: World, max: Resources, counted: set<UID>, pod: Pod, other: Pod, nodes: seq<seq<Pod>>)
    requires Known(world, pod) && Known(world, other) && IsAhead(other, pod)
    requires pod.uid in AheadUids(other, nodes) && pod.uid !in counted
    requires Admits(world, max, counted + AheadUids(other, nodes), Request(other.spec))
    ensures NonNegative(max)
    ensures Admits(world, max, counted + {other.uid} + AheadUids(pod, nodes), Request(pod.spec))
  {
    var claimed, left := counted + AheadUids(other, nodes), counted + {other.uid} + AheadUids(pod, nodes);
    AdmitsIsWithin(world, max, claimed, other.uid);
    AheadOfAhead(pod, other, nodes);
    WithinMonotone(world, left + {pod.uid}, claimed + {other.uid}, max);
    AdmitsIsWithin(world, max, left, pod.uid);
  }

  lemma NominatedIsAhead(pod: Pod, other: Pod, nodes: seq<seq<Pod>>)
    requires QueueLabel(other.spec) == QueueLabel(pod.spec) && Priority(other.spec) <= Priority(pod.spec)
    requires other.uid != pod.uid && exists i :: 0 <= i < |nodes| && pod in nodes[i]
    ensures IsAhead(other, pod) && pod.uid in AheadUids(other, nodes)
  {
    var i :| 0 <= i < |nodes| && pod in nodes[i];
    var j :| 0 <= j < |nodes[i]| && nodes[i][j] == pod;
  }

  /** A nomination holds its room: if another pod of the queue, of no higher priority, passes the gate
      and is reserved, the nominated pod still passes. */
  lemma NominationHoldsRoom(world: World, live: ManagerView, pod: Pod, other: Pod, nodes: seq<seq<Pod>>)
    requires ManagerInv(world, live) && NodesKnown(world, nodes) && Known(world, pod) && Known(world, other)
    requires LimitsNonNegative(live, pod.spec)
    requires QueueLabel(other.spec) == QueueLabel(pod.spec) && Priority(other.spec) <= Priority(pod.spec)
    requires other.uid != pod.uid && pod.uid !in CountedBeside(live, pod.spec)
    requires exists i :: 0 <= i < |nodes| && pod in nodes[i]
    requires GateStatus(Snapshot(live, other, nodes), other.spec, true) == Success
    ensures GateStatus(Snapshot(CountPod(live, other), pod, nodes), pod.spec, true) == Success
  {
    CountKeepsInv(world, live, other);
    var live' := CountPod(live, other);
    SnapshotMeaning(world, live', pod, nodes);
    SnapshotMeaning(world, live, other, nodes);
    if QueueOf(live, pod.spec).Some? {
      var name := QueueLabel(pod.spec).value;
      NominatedIsAhead(pod, other, nodes);
      CountedAt(world, live, other, name);
      GateMeaning(world, live, other, nodes);
      RoomBeside(world, live[name].ledger.max, Counted(live, name), pod, other, nodes);
      GateMeaning(world, live', pod, nodes);
    }
  }

  // ---- Over whole runs --------------------------------------------------------------------

  /** The claim of a nominated pod, and of those nominated ahead of it, on their queue, while certain
      pods are leaving. */
  ghost function ClaimOf(pod: Pod, nodes: seq<seq<Pod>>, leaving: set<UID>): Claim
    requires QueueLabel(pod.spec).Some?
  {
    Claim(QueueLabel(pod.spec).value, AheadUids(pod, nodes) + {pod.uid}, leaving)
  }

  /** A pod gives way to the claim of a pod that is nominated ahead of it, if the nominations ahead of
      that pod stand or have become reservations. */
  lemma NominatedAheadGivesWay(s: System, other: Pod, nodes': seq<seq<Pod>>, pod: Pod, nodes: seq<seq<Pod>>,
                               leaving: set<UID>)
    requires QueueLabel(pod.spec).Some? && IsAhead(other, pod) && pod.uid in AheadUids(other, nodes')
    requires AheadUids(pod, nodes) <= AheadUids(pod, nodes') + CountedBeside(s.live, pod.spec)
    ensures GivesWay(s, other, nodes', ClaimOf(pod, nodes, leaving))
  {
    AheadOfAhead(pod, other, nodes');
  }

  /** Selecting victims claims room for the preemptor, with the victims leaving. */
  lemma SelectionClaimsRoom(cycle: Cycle)
    requires cycle.Valid() && Known(cycle.c.t.world, cycle.c.t.pod) && QueueLabel(cycle.c.t.pod.spec).Some?
    ensures Fits(cycle.c.t.world, System(cycle.live, None),
                 ClaimOf(cycle.c.t.pod, cycle.nodes, QuotaVictims(cycle.c)))
  {
    var t, gone := cycle.c.t, QuotaVictims(cycle.c);
    var c, s := ClaimOf(t.pod, cycle.nodes, gone), System(cycle.live, None);
    SelectionMakesRoom(cycle);
    if c.name in cycle.live {
      var max := cycle.live[c.name].ledger.max;
      var left := Counted(cycle.live, c.name) + AheadUids(t.pod, cycle.nodes) - gone;
      AdmitsIsWithin(t.world, max, left, t.pod.uid);
      WithinMonotone(t.world, c.Claimants(s), left + {t.pod.uid}, max);
    }
  }

  lemma PreemptorIsNoVictim(c: Choice)
    requires c.Valid() && AllKnown(c.t.world, c.pods) && Known(c.t.world, c.t.pod)
    ensures c.t.pod.uid !in QuotaVictims(c)
  {
    SelectionMeaning(c);
    VictimsAreKnown(c);
    forall victim | victim in c.victims
      ensures victim.uid != c.t.pod.uid
    {
      assert victim in ToSet(c.victims) && Known(c.t.world, victim);
      assert Priority(victim.spec) < Priority(c.t.pod.spec);
    }
  }

  /** The run between two cycles of a preemptor.  Other pods may be scheduled, victims and other pods
      may leave, and queues may change, as long as each step leaves room for the preemptor's claim.
      At its end the preemptor is still waiting, and what is then nominated ahead of it was so before
      or is counted by now. */
  ghost predicate WaitsThrough(cycle: Cycle, steps: seq<Step>, later: Later)
    requires QueueLabel(cycle.c.t.pod.spec).Some?
  {
    var world, pod, start := cycle.c.t.world, cycle.c.t.pod, System(cycle.live, None);
    && IsRun(world, start, steps)
    && RunLeavesRoom(world, start, steps, ClaimOf(pod, cycle.nodes, QuotaVictims(cycle.c)))
    && later.live == After(start, steps).live && later.Follows(cycle)
    && later.pod.uid !in CountedBeside(later.live, later.pod.spec)
    && AheadUids(later.pod, later.nodes) <= AheadUids(pod, cycle.nodes) + CountedBeside(later.live, later.pod.spec)
  }

  /** The room that a selection makes is held for the preemptor over any such run. */
  lemma RoomIsHeld(cycle: Cycle, steps: seq<Step>, later: Later)
    requires cycle.Valid() && Known(cycle.c.t.world, cycle.c.t.pod) && QueueLabel(cycle.c.t.pod.spec).Some?
    ensures WaitsThrough(cycle, steps, later) ==> later.RoomOnceGone(cycle.c.t.world, QuotaVictims(cycle.c))
  {
    if !WaitsThrough(cycle, steps, later) {
      return;
    }
    var t, gone, start := cycle.c.t, QuotaVictims(cycle.c), System(cycle.live, None);
    var c, after := ClaimOf(t.pod, cycle.nodes, gone), After(start, steps);
    SelectionClaimsRoom(cycle);
    ClaimsAreKept(t.world, start, steps, c);
    PreemptorIsNoVictim(cycle.c);
    if c.name in after.live {
      var max := after.live[c.name].ledger.max;
      var left := Counted(after.live, c.name) + AheadUids(later.pod, later.nodes) - gone;
      WithinMonotone(t.world, left + {t.pod.uid}, c.Claimants(after), max);
      AdmitsIsWithin(t.world, max, left, t.pod.uid);
    }
  }

  /** Preemption stays effective: whatever is scheduled in between, once the victims that share the
      preemptor's quota have left its ledger, the quota gate lets the preemptor pass. */
  lemma PreemptionStaysEffective(cycle: Cycle, steps: seq<Step>, later: Later)
    requires cycle.Valid() && Known(cycle.c.t.world, cycle.c.t.pod) && QueueLabel(cycle.c.t.pod.spec).Some?
    ensures
      WaitsThrough(cycle, steps, later) && CountedBeside(later.live, later.pod.spec) !! QuotaVictims(cycle.c) ==>
        GateStatus(later.Start(), later.pod.spec, true) == Success
  {
    if WaitsThrough(cycle, steps, later) && CountedBeside(later.live, later.pod.spec) !! QuotaVictims(cycle.c) {
      RoomIsHeld(cycle, steps, later);
      RoomPassesGate(cycle, later);
    }
  }

  /** And until all victims have left the nominated node, the preemptor does not select more. */
  lemma PreemptionStaysSingle(cycle: Cycle, steps: seq<Step>, later: Later, pods: seq<Pod>, status: Status,
                              remaining: Pod)
    requires cycle.Valid() && Known(cycle.c.t.world, cycle.c.t.pod) && QueueLabel(cycle.c.t.pod.spec).Some?
    ensures
      && WaitsThrough(cycle, steps, later) && VictimsStillLeaving(cycle, later, pods)
      && remaining in pods && remaining.uid in Uids(ToSet(cycle.c.victims))
      && status != UnschedulableAndUnresolvable
      ==> !Eligible(later.Start(), later.pod, status, Some(pods))
  {
    if && WaitsThrough(cycle, steps, later) && VictimsStillLeaving(cycle, later, pods)
       && remaining in pods && remaining.uid in Uids(ToSet(cycle.c.victims))
       && status != UnschedulableAndUnresolvable
    {
      RoomIsHeld(cycle, steps, later);
      NoRepeatedPreemption(cycle, later, pods, status, remaining);
    }
  }
}
