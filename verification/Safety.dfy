/** Quota safety over whole runs (internal/plugin/quotaawarepreempt/plugin.go, README.md). */
module QuotaSafety {
  import opened Resources
  import opened Pods
  import opened Ledgers
  import opened Queues
  import opened Plugins
  import opened Synchronization

  // ---- Runs -------------------------------------------------------------------------------

  /** The live queues, and the pod whose scheduling cycle is between the quota gate and its
      reservation.  The scheduler runs one cycle at a time; events come in between. */
  datatype System = System(live: ManagerView, inFlight: Option<Pod>)

  datatype Step =
    | PassGate(pod: Pod, nodes: seq<seq<Pod>>)
    | Reserve
    | GiveUp
    | Happens(event: Event)

  ghost predicate CanStep(world: World, s: System, step: Step) {
    match step
    case PassGate(pod, nodes) =>
      && s.inFlight.None? && Known(world, pod) && NodesKnown(world, nodes)
      && GateStatus(Snapshot(s.live, pod, nodes), pod.spec, true) == Success
    case Reserve => s.inFlight.Some?
    case GiveUp => true
    case Happens(event) => EventKnown(world, event)
  }

  function Next(s: System, step: Step): System {
    match step
    case PassGate(pod, _) => s.(inFlight := Some(pod))
    case Reserve => if s.inFlight.Some? then System(CountPod(s.live, s.inFlight.value), None) else s
    case GiveUp => s.(inFlight := None)
    case Happens(event) => s.(live := Handle(s.live, event))
  }

  function After(s: System, steps: seq<Step>): System {
    if steps == [] then s else Next(After(s, steps[..|steps| - 1]), steps[|steps| - 1])
  }

  ghost predicate IsRun(world: World, s: System, steps: seq<Step>) {
    forall i :: 0 <= i < |steps| ==> CanStep(world, After(s, steps[..i]), steps[i])
  }

  ghost predicate Sound(world: World, s: System) {
    ManagerInv(world, s.live) && (s.inFlight.Some? ==> Known(world, s.inFlight.value))
  }

  lemma StepKeepsSound(world: World, s: System, step: Step)
    requires Sound(world, s) && CanStep(world, s, step)
    ensures Sound(world, Next(s, step))
  {
    match step
    case Reserve => CountKeepsInv(world, s.live, s.inFlight.value);
    case Happens(event) => EventKeepsInv(world, s.live, event);
    case _ =>
  }

  lemma {:induction false} RunKeepsSound(world: World, s: System, steps: seq<Step>)
    requires Sound(world, s) && IsRun(world, s, steps)
    ensures Sound(world, After(s, steps))
  {
    if steps != [] {
      var front := steps[..|steps| - 1];
      RunOfFront(world, s, steps);
      RunKeepsSound(world, s, front);
      StepKeepsSound(world, After(s, front), steps[|steps| - 1]);
    }
  }

  lemma RunOfFront(world: World, s: System, steps: seq<Step>)
    requires steps != [] && IsRun(world, s, steps)
    ensures IsRun(world, s, steps[..|steps| - 1])
    ensures CanStep(world, After(s, steps[..|steps| - 1]), steps[|steps| - 1])
  {
    var front := steps[..|steps| - 1];
    assert forall i :: 0 <= i < |front| ==> front[i] == steps[i] && front[..i] == steps[..i];
  }

  // ---- Claims on one queue ----------------------------------------------------------------

  function InFlightUids(s: System, name: string): set<UID> {
    if s.inFlight.Some? && QueueLabel(s.inFlight.value.spec) == Some(name) then {s.inFlight.value.uid} else {}
  }

  /** A claim on the quota of one queue: by the pods it counts, its pod in flight, and pods that hold
      room in it, less those that are leaving. */
  datatype Claim = Claim(name: string, held: set<UID>, leaving: set<UID>) {
    function Claimants(s: System): set<UID> {
      Counted(s.live, name) + InFlightUids(s, name) + held - leaving
    }
  }

  /** The claim of the pods that are counted or in flight. */
  function PlainClaim(name: string): Claim {
    Claim(name, {}, {})
  }

  /** If the queue is there, the claimants together stay within its limits. */
  ghost predicate Fits(world: World, s: System, c: Claim) {
    c.name in s.live ==> Within(world, c.Claimants(s), s.live[c.name].ledger.max)
  }

  /** What a pod that is reported or reserved outside a cycle adds to the claim must fit. */
  ghost predicate PodMayCome(world: World, s: System, pod: Pod, c: Claim) {
    QueueLabel(pod.spec) == Some(c.name) && c.name in s.live ==>
      Within(world, c.Claimants(s) + ({pod.uid} - c.leaving), s.live[c.name].ledger.max)
  }

  /** The events that leave room for the claim.  Each condition is about this queue alone: pods come
      to it only where they fit, a new queue of that name has room for the pod in flight and the
      pods that hold room, and an update has room for all claimants. */
  ghost predicate MayHappenTo(world: World, s: System, event: Event, c: Claim) {
    match event
    case PodAdded(pod) => pod.Some? ==> PodMayCome(world, s, pod.value, c)
    case Reserved(pod) => PodMayCome(world, s, pod, c)
    case QueueAdded(obj) =>
      obj.name == c.name ==> Within(world, InFlightUids(s, c.name) + c.held - c.leaving, obj.max)
    case QueueUpdated(obj) => obj.name == c.name ==> Within(world, c.Claimants(s), obj.max)
    case _ => true
  }

  /** A pod passes the gate beside the claim if it holds room itself, or if the pods that hold room
      are counted or nominated ahead of it. */
  ghost predicate GivesWay(s: System, pod: Pod, nodes: seq<seq<Pod>>, c: Claim) {
    QueueLabel(pod.spec) == Some(c.name) ==>
      pod.uid in c.held || c.held <= Counted(s.live, c.name) + AheadUids(pod, nodes) + c.leaving
  }

  ghost predicate LeavesRoom(world: World, s: System, step: Step, c: Claim) {
    match step
    case PassGate(pod, nodes) => GivesWay(s, pod, nodes, c)
    case Happens(event) => MayHappenTo(world, s, event, c)
    case _ => true
  }

  ghost predicate RunLeavesRoom(world: World, s: System, steps: seq<Step>, c: Claim) {
    forall i :: 0 <= i < |steps| ==> LeavesRoom(world, After(s, steps[..i]), steps[i], c)
  }

  lemma SameClaimants(world: World, s: System, s': System, c: Claim)
    requires c.name in s.live <==> c.name in s'.live
    requires c.name in s.live ==> s.live[c.name].ledger.max == s'.live[c.name].ledger.max
    requires c.Claimants(s') == c.Claimants(s)
    ensures Fits(world, s', c) <==> Fits(world, s, c)
  {
  }

  lemma FewerClaimantsFit(world: World, s: System, s': System, c: Claim)
    requires Fits(world, s, c) && (c.name in s'.live ==> c.name in s.live)
    requires c.name in s'.live ==> s'.live[c.name].ledger.max == s.live[c.name].ledger.max
    requires c.Claimants(s') <= c.Claimants(s)
    ensures Fits(world, s', c)
  {
    if c.name in s'.live {
      WithinMonotone(world, c.Claimants(s'), c.Claimants(s), s.live[c.name].ledger.max);
    }
  }

  // ---- Events -----------------------------------------------------------------------------

  lemma AddedQueue(m: ManagerView, obj: QueueObject)
    ensures obj.name in Handle(m, QueueAdded(obj))
    ensures Handle(m, QueueAdded(obj))[obj.name].ledger == NewLedger(obj.max)
  {
    OptionsTake(NewQueue(obj.name), obj);
  }

  lemma UpdatedQueue(m: ManagerView, obj: QueueObject)
    ensures obj.name in Handle(m, QueueUpdated(obj))
    ensures var l := Handle(m, QueueUpdated(obj))[obj.name].ledger;
      l.max == obj.max && l.pods.Keys == Counted(m, obj.name)
  {
    if obj.name in m {
      OptionsTake(m[obj.name], obj);
    } else {
      OptionsTake(NewQueue(obj.name), obj);
    }
  }

  lemma PodComesIff(world: World, s: System, pod: Pod, c: Claim)
    requires Sound(world, s) && Fits(world, s, c) && Known(world, pod)
    ensures Fits(world, s.(live := CountPod(s.live, pod)), c) <==> PodMayCome(world, s, pod, c)
  {
    CountedAt(world, s.live, pod, c.name);
    var s' := s.(live := CountPod(s.live, pod));
    if c.name in s.live && QueueLabel(pod.spec) == Some(c.name) {
      assert c.Claimants(s') == c.Claimants(s) + ({pod.uid} - c.leaving);
    } else {
      SameClaimants(world, s, s', c);
    }
  }

  lemma PodGoes(world: World, s: System, pod: Pod, c: Claim)
    requires Sound(world, s) && Fits(world, s, c) && Known(world, pod)
    ensures Fits(world, s.(live := UncountPod(s.live, pod)), c)
  {
    UncountKeepsInv(world, s.live, pod);
    var s' := s.(live := UncountPod(s.live, pod));
    assert Counted(s'.live, c.name) == Counted(s.live, c.name) - {pod.uid};
    FewerClaimantsFit(world, s, s', c);
  }

  lemma AddedQueueIff(world: World, s: System, obj: QueueObject, c: Claim)
    requires obj.name == c.name
    ensures Fits(world, s.(live := Handle(s.live, QueueAdded(obj))), c)
       <==> Within(world, InFlightUids(s, c.name) + c.held - c.leaving, obj.max)
  {
    var s' := s.(live := Handle(s.live, QueueAdded(obj)));
    AddedQueue(s.live, obj);
    assert Counted(s'.live, c.name) == {};
    assert c.Claimants(s') == InFlightUids(s, c.name) + c.held - c.leaving;
  }

  lemma UpdatedQueueIff(world: World, s: System, obj: QueueObject, c: Claim)
    requires obj.name == c.name
    ensures Fits(world, s.(live := Handle(s.live, QueueUpdated(obj))), c) <==> Within(world, c.Claimants(s), obj.max)
  {
    UpdatedQueue(s.live, obj);
    assert c.Claimants(s.(live := Handle(s.live, QueueUpdated(obj)))) == c.Claimants(s);
  }

  predicate IsAbout(event: Event, name: string)
    requires IsQueueEvent(event)
  {
    (if event.QueueDeleted? then event.name else event.obj.name) == name
  }

  lemma OtherQueue(m: ManagerView, event: Event, name: string)
    requires IsQueueEvent(event) && !IsAbout(event, name)
    ensures name in m <==> name in Handle(m, event)
    ensures name in m ==> Handle(m, event)[name] == m[name]
  {
  }

  lemma QueueEventIff(world: World, s: System, event: Event, c: Claim)
    requires Fits(world, s, c) && IsQueueEvent(event)
    ensures Fits(world, s.(live := Handle(s.live, event)), c) <==> MayHappenTo(world, s, event, c)
  {
    if IsAbout(event, c.name) {
      match event
      case QueueAdded(obj) => AddedQueueIff(world, s, obj, c);
      case QueueUpdated(obj) => UpdatedQueueIff(world, s, obj, c);
      case QueueDeleted(_) =>
    } else {
      OtherQueue(s.live, event, c.name);
      SameClaimants(world, s, s.(live := Handle(s.live, event)), c);
    }
  }

  /** Exactly which events keep a claim within the limits. */
  lemma EventFitsIff(world: World, s: System, event: Event, c: Claim)
    requires Sound(world, s) && Fits(world, s, c) && EventKnown(world, event)
    ensures Fits(world, Next(s, Happens(event)), c) <==> MayHappenTo(world, s, event, c)
  {
    match event
    case PodAdded(pod) => if pod.Some? { PodComesIff(world, s, pod.value, c); }
    case Reserved(pod) => PodComesIff(world, s, pod, c);
    case PodUpdated(_, newPod) => if newPod.Some? { PodGoes(world, s, newPod.value, c); }
    case PodDeleted(pod) => if pod.Some? { PodGoes(world, s, pod.value, c); }
    case Unreserved(pod) => PodGoes(world, s, pod, c);
    case _ => QueueEventIff(world, s, event, c);
  }

  // ---- Cycles -----------------------------------------------------------------------------

  lemma GateLeavesRoom(world: World, s: System, pod: Pod, nodes: seq<seq<Pod>>, c: Claim)
    requires Sound(world, s) && Fits(world, s, c)
    requires CanStep(world, s, PassGate(pod, nodes)) && GivesWay(s, pod, nodes, c)
    ensures Fits(world, Next(s, PassGate(pod, nodes)), c)
  {
    var s' := Next(s, PassGate(pod, nodes));
    if QueueLabel(pod.spec) == Some(c.name) && c.name in s.live && pod.uid !in c.held {
      var max, counted := s.live[c.name].ledger.max, Counted(s.live, c.name) + AheadUids(pod, nodes);
      WithinMonotone(world, c.Claimants(s), c.Claimants(s), max);
      SnapshotMeaning(world, s.live, pod, nodes);
      GateMeaning(world, s.live, pod, nodes);
      AdmitsIsWithin(world, max, counted, pod.uid);
      WithinMonotone(world, c.Claimants(s'), counted + {pod.uid}, max);
    } else if c.name in s.live {
      SameClaimants(world, s, s', c);
    }
  }

  lemma ReservationIsClaimed(world: World, s: System, c: Claim)
    requires Sound(world, s) && Fits(world, s, c) && s.inFlight.Some?
    ensures Fits(world, Next(s, Reserve), c)
  {
    var pod, s' := s.inFlight.value, Next(s, Reserve);
    CountedAt(world, s.live, pod, c.name);
    FewerClaimantsFit(world, s, s', c);
  }

  lemma StepLeavesRoom(world: World, s: System, step: Step, c: Claim)
    requires Sound(world, s) && Fits(world, s, c) && CanStep(world, s, step) && LeavesRoom(world, s, step, c)
    ensures Fits(world, Next(s, step), c)
  {
    match step
    case PassGate(pod, nodes) => GateLeavesRoom(world, s, pod, nodes, c);
    case Reserve => ReservationIsClaimed(world, s, c);
    case GiveUp => FewerClaimantsFit(world, s, Next(s, GiveUp), c);
    case Happens(event) => EventFitsIff(world, s, event, c);
  }

  /** A claim on a queue is kept over any run of serial cycles and events that leaves room for it,
      whatever happens to other queues. */
  lemma {:induction false} ClaimsAreKept(world: World, s: System, steps: seq<Step>, c: Claim)
    requires Sound(world, s) && Fits(world, s, c) && IsRun(world, s, steps) && RunLeavesRoom(world, s, steps, c)
    ensures Fits(world, After(s, steps), c)
  {
    if steps != [] {
      var front := steps[..|steps| - 1];
      RunOfFront(world, s, steps);
      assert forall i :: 0 <= i < |front| ==> front[i] == steps[i] && front[..i] == steps[..i];
      ClaimsAreKept(world, s, front, c);
      RunKeepsSound(world, s, front);
      StepLeavesRoom(world, After(s, front), steps[|steps| - 1], c);
    }
  }

  // ---- Quotas -----------------------------------------------------------------------------

  /** Counting a pod keeps its queue within the limits if and only if the queue has room for it. */
  lemma CountingIsWithinMaxIff(world: World, m: ManagerView, pod: Pod)
    requires ManagerInv(world, m) && Known(world, pod) && QueueOf(m, pod.spec).Some?
    requires pod.uid !in QueueOf(m, pod.spec).value.ledger.pods
    ensures var l := QueueOf(m, pod.spec).value.ledger;
      (WithinMax(CountPod(m, pod)[QueueLabel(pod.spec).value].ledger)
       <==> Admits(world, l.max, l.pods.Keys, Request(pod.spec)))
  {
  }

  /** Quota safety: if the pods of a queue that are counted or in flight stay within its limits, the
      queue never exceeds them, over any run of serial cycles interleaved with events, as long as
      what happens to this queue leaves room for those pods. */
  lemma QuotasAreNeverExceeded(world: World, s: System, steps: seq<Step>, name: string)
    requires Sound(world, s) && Fits(world, s, PlainClaim(name))
    requires IsRun(world, s, steps) && RunLeavesRoom(world, s, steps, PlainClaim(name))
    ensures Fits(world, After(s, steps), PlainClaim(name))
    ensures name in After(s, steps).live ==> WithinMax(After(s, steps).live[name].ledger)
  {
    RunKeepsSound(world, s, steps);
    ClaimsAreKept(world, s, steps, PlainClaim(name));
    var after := After(s, steps);
    if name in after.live {
      var l := after.live[name].ledger;
      WithinMonotone(world, l.pods.Keys, PlainClaim(name).Claimants(after), l.max);
      WithinIsWithinMax(world, l);
    }
  }

  /** The same for all queues at once. */
  lemma NoQueueIsExceeded(world: World, s: System, steps: seq<Step>)
    requires Sound(world, s) && forall name :: Fits(world, s, PlainClaim(name))
    requires IsRun(world, s, steps) && forall name :: RunLeavesRoom(world, s, steps, PlainClaim(name))
    ensures forall name :: name in After(s, steps).live ==> WithinMax(After(s, steps).live[name].ledger)
  {
    forall name | name in After(s, steps).live
      ensures WithinMax(After(s, steps).live[name].ledger)
    {
      QuotasAreNeverExceeded(world, s, steps, name);
    }
  }

  /** What a caller can check of an event without adding anything up.  Pods come to this queue only
      through a reservation, so that an informer reports pods that are counted already; its limits
      are not negative and are not lowered; and it is created, or created anew, only while no pod of
      its name is in flight. */
  predicate IsOrdinaryFor(s: System, event: Event, name: string) {
    match event
    case PodAdded(pod) =>
      pod.Some? && QueueLabel(pod.value.spec) == Some(name) && name in s.live ==>
        pod.value.uid in Counted(s.live, name)
    case Reserved(pod) => QueueLabel(pod.spec) == Some(name) ==> name !in s.live
    case QueueAdded(obj) => obj.name == name ==> NonNegative(obj.max) && InFlightUids(s, name) == {}
    case QueueUpdated(obj) =>
      obj.name == name ==>
        && NonNegative(obj.max)
        && if name in s.live then Relaxes(s.live[name].ledger.max, obj.max) else InFlightUids(s, name) == {}
    case _ => true
  }

  lemma NothingFits(world: World, max: Resources)
    requires NonNegative(max)
    ensures Within(world, {}, max)
  {
  }

  lemma RelaxedLimitsFit(world: World, uids: set<UID>, max: Resources, max': Resources)
    requires Within(world, uids, max) && Relaxes(max, max')
    ensures Within(world, uids, max')
  {
  }

  lemma OrdinaryMayHappen(world: World, s: System, event: Event, name: string)
    requires Fits(world, s, PlainClaim(name)) && IsOrdinaryFor(s, event, name)
    ensures MayHappenTo(world, s, event, PlainClaim(name))
  {
    var c := PlainClaim(name);
    match event
    case PodAdded(pod) =>
      if pod.Some? && QueueLabel(pod.value.spec) == Some(name) && name in s.live {
        assert c.Claimants(s) + ({pod.value.uid} - c.leaving) == c.Claimants(s);
      }
    case QueueAdded(obj) =>
      if obj.name == name {
        NothingFits(world, obj.max);
        assert InFlightUids(s, c.name) + c.held - c.leaving == {};
      }
    case QueueUpdated(obj) =>
      if obj.name == name && name in s.live {
        RelaxedLimitsFit(world, c.Claimants(s), s.live[name].ledger.max, obj.max);
      } else if obj.name == name {
        NothingFits(world, obj.max);
        assert c.Claimants(s) == {};
      }
    case _ =>
  }

  /** So a queue that is within its quota stays within it while what happens to it is ordinary. */
  lemma {:induction false} OrdinaryRunsAreSafe(world: World, s: System, steps: seq<Step>, name: string)
    requires Sound(world, s) && Fits(world, s, PlainClaim(name)) && IsRun(world, s, steps)
    requires forall i :: 0 <= i < |steps| && steps[i].Happens? ==>
      IsOrdinaryFor(After(s, steps[..i]), steps[i].event, name)
    ensures RunLeavesRoom(world, s, steps, PlainClaim(name)) && Fits(world, After(s, steps), PlainClaim(name))
    ensures name in After(s, steps).live ==> WithinMax(After(s, steps).live[name].ledger)
  {
    if steps != [] {
      var front, last := steps[..|steps| - 1], steps[|steps| - 1];
      RunOfFront(world, s, steps);
      assert forall i :: 0 <= i < |front| ==> front[i] == steps[i] && front[..i] == steps[..i];
      OrdinaryRunsAreSafe(world, s, front, name);
      if last.Happens? {
        OrdinaryMayHappen(world, After(s, front), last.event, name);
      }
      RoomOneStepMore(world, s, steps, PlainClaim(name));
    }
    QuotasAreNeverExceeded(world, s, steps, name);
  }

  lemma RoomOneStepMore(world: World, s: System, steps: seq<Step>, c: Claim)
    requires steps != [] && RunLeavesRoom(world, s, steps[..|steps| - 1], c)
    requires LeavesRoom(world, After(s, steps[..|steps| - 1]), steps[|steps| - 1], c)
    ensures RunLeavesRoom(world, s, steps, c)
  {
    var front := steps[..|steps| - 1];
    forall i | 0 <= i < |steps|
      ensures LeavesRoom(world, After(s, steps[..i]), steps[i], c)
    {
      if i < |front| {
        assert front[..i] == steps[..i] && front[i] == steps[i];
        assert LeavesRoom(world, After(s, front[..i]), front[i], c);
      }
    }
  }

  // ---- The methods ------------------------------------------------------------------------

  /** A pod that passes the gate and is then reserved takes no queue over a limit. */
  lemma AdmittedStaysWithinMax(world: World, live: ManagerView, pod: Pod, nodes: seq<seq<Pod>>, name: string)
    requires ManagerInv(world, live) && Known(world, pod) && NodesKnown(world, nodes)
    requires GateStatus(Snapshot(live, pod, nodes), pod.spec, true) == Success
    requires name in live && WithinMax(live[name].ledger)
    ensures name in CountPod(live, pod) && WithinMax(CountPod(live, pod)[name].ledger)
  {
    var s, c := System(live, None), PlainClaim(name);
    var gated := Next(s, PassGate(pod, nodes));
    WithinIsWithinMax(world, live[name].ledger);
    assert c.Claimants(s) == live[name].ledger.pods.Keys;
    StepLeavesRoom(world, s, PassGate(pod, nodes), c);
    StepLeavesRoom(world, gated, Reserve, c);
    CountKeepsInv(world, live, pod);
    assert c.Claimants(Next(gated, Reserve)) == CountPod(live, pod)[name].ledger.pods.Keys;
    WithinIsWithinMax(world, CountPod(live, pod)[name].ledger);
  }

  /** Quota safety of the code: a cycle that reserves a pod only after the gate answered success takes
      no queue over a limit, and counts nothing after any other answer.  `nodes` holds the nominated
      pods, or nothing when listing the nodes fails. */
  method GateAndReserve(plugin: Plugin, state: CycleState, pod: Pod, nodes: Option<seq<seq<Pod>>>,
                        ghost world: World)
    returns (gate: Status, reserved: Status)
    requires plugin.queueMgr.Valid() && state !in plugin.queueMgr.Repr
    requires ManagerInv(world, plugin.queueMgr.Contents) && Known(world, pod)
    requires nodes.Some? ==> NodesKnown(world, nodes.value)
    modifies state, plugin.queueMgr.Repr
    ensures plugin.queueMgr.Valid()
    ensures gate != Success ==> plugin.queueMgr.Contents == old(plugin.queueMgr.Contents)
    ensures gate == Success ==> plugin.queueMgr.Contents == CountPod(old(plugin.queueMgr.Contents), pod)
    ensures forall name ::
      name in old(plugin.queueMgr.Contents) && WithinMax(old(plugin.queueMgr.Contents)[name].ledger) ==>
        name in plugin.queueMgr.Contents && WithinMax(plugin.queueMgr.Contents[name].ledger)
  {
    ghost var live := plugin.queueMgr.Contents;
    gate := plugin.PreFilter(state, pod, nodes);
    reserved := Unschedulable;
    if gate == Success {
      forall name | name in live && WithinMax(live[name].ledger)
        ensures name in CountPod(live, pod) && WithinMax(CountPod(live, pod)[name].ledger)
      {
        if QueueOf(live, pod.spec).Some? {
          AdmittedStaysWithinMax(world, live, pod, nodes.value, name);
        }
      }
      reserved := plugin.Reserve(pod);
    }
  }

  // ---- What the ledgers mean --------------------------------------------------------------

  /** The events of a run, reservations included. */
  function EventsOfRun(s: System, steps: seq<Step>): seq<Event> {
    if steps == [] then []
    else
      var front, last := steps[..|steps| - 1], steps[|steps| - 1];
      EventsOfRun(s, front) + EventsOfStep(After(s, front), last)
  }

  function EventsOfStep(s: System, step: Step): seq<Event> {
    match step
    case Reserve => if s.inFlight.Some? then [Reserved(s.inFlight.value)] else []
    case Happens(event) => [event]
    case _ => []
  }

  lemma HandleOneMore(m: ManagerView, events: seq<Event>, event: Event)
    ensures HandleAll(m, events + [event]) == Handle(HandleAll(m, events), event)
  {
    assert (events + [event])[..|events|] == events;
  }

  lemma {:induction false} HandleInTwoParts(m: ManagerView, first: seq<Event>, second: seq<Event>)
    ensures HandleAll(m, first + second) == HandleAll(HandleAll(m, first), second)
  {
    if second == [] {
      assert first + second == first;
    } else {
      var n := |second| - 1;
      var front, last := second[..n], second[n];
      assert second == front + [last] && first + second == first + front + [last];
      HandleInTwoParts(m, first, front);
      HandleOneMore(m, first + front, last);
      HandleOneMore(HandleAll(m, first), front, last);
    }
  }

  lemma StepIsItsEvents(s: System, step: Step)
    ensures Next(s, step).live == HandleAll(s.live, EventsOfStep(s, step))
  {
    var events := EventsOfStep(s, step);
    if events != [] {
      assert events[..0] == [];
      assert HandleAll(s.live, events) == Handle(s.live, events[0]);
    }
  }

  lemma {:induction false} RunIsItsEvents(s: System, steps: seq<Step>)
    ensures After(s, steps).live == HandleAll(s.live, EventsOfRun(s, steps))
  {
    if steps != [] {
      var front, last := steps[..|steps| - 1], steps[|steps| - 1];
      RunIsItsEvents(s, front);
      StepIsItsEvents(After(s, front), last);
      HandleInTwoParts(s.live, EventsOfRun(s, front), EventsOfStep(After(s, front), last));
    }
  }

  lemma {:induction false} EventsOfRunAreKnown(world: World, s: System, steps: seq<Step>)
    requires Sound(world, s) && IsRun(world, s, steps)
    ensures forall i :: 0 <= i < |EventsOfRun(s, steps)| ==> EventKnown(world, EventsOfRun(s, steps)[i])
  {
    if steps != [] {
      var front, last := steps[..|steps| - 1], steps[|steps| - 1];
      RunOfFront(world, s, steps);
      EventsOfRunAreKnown(world, s, front);
      RunKeepsSound(world, s, front);
      var events := EventsOfStep(After(s, front), last);
      assert forall i :: 0 <= i < |events| ==> EventKnown(world, events[i]);
    }
  }

  /** The quota promise in terms of pods: take any pods of a queue that, by the events of the run,
      are counted at its end, those of a queue that was deleted and created again among them.  Then
      the queue is there, and together they request no more than its limits. */
  lemma AdmittedPodsStayWithinQuota(world: World, s: System, steps: seq<Step>, name: string, admitted: set<UID>)
    requires Sound(world, s) && Fits(world, s, PlainClaim(name))
    requires IsRun(world, s, steps) && RunLeavesRoom(world, s, steps, PlainClaim(name))
    requires forall uid :: uid in admitted ==>
      && QueueLabel(world(uid)) == Some(name)
      && FateAfter(FateIn(s.live, name, uid), EventsOfRun(s, steps), name, uid).counted
    ensures admitted != {} ==> name in After(s, steps).live
    ensures name in After(s, steps).live ==> Within(world, admitted, After(s, steps).live[name].ledger.max)
  {
    var after, events := After(s, steps), EventsOfRun(s, steps);
    RunIsItsEvents(s, steps);
    EventsOfRunAreKnown(world, s, steps);
    forall uid | uid in admitted
      ensures uid in Counted(after.live, name)
    {
      FateIsExact(world, s.live, events, name, uid);
    }
    ClaimsAreKept(world, s, steps, PlainClaim(name));
    if name in after.live {
      WithinMonotone(world, admitted, PlainClaim(name).Claimants(after), after.live[name].ledger.max);
    }
  }

  /** A queue that is created while a pod of its name is in flight, between the gate and the
      reservation of that pod.  It is safe if and only if its limits are not negative and the pod
      happens to fit them; otherwise the reservation, which checks nothing, exceeds them. */
  lemma QueueCreatedInFlight(world: World, s: System, obj: QueueObject)
    requires Sound(world, s)
    ensures Fits(world, Next(s, Happens(QueueAdded(obj))), PlainClaim(obj.name))
       <==> NonNegative(obj.max) && InFlightFits(s, obj.name, obj.max)
    ensures InFlightUids(s, obj.name) != {} ==>
      (WithinMax(Next(Next(s, Happens(QueueAdded(obj))), Reserve).live[obj.name].ledger)
       <==> InFlightFits(s, obj.name, obj.max))
  {
    var s' := Next(s, Happens(QueueAdded(obj)));
    AddedQueue(s.live, obj);
    assert PlainClaim(obj.name).Claimants(s') == InFlightUids(s, obj.name);
    InFlightIsWithin(world, s, obj.name, obj.max);
    if InFlightUids(s, obj.name) != {} {
      EventKeepsInv(world, s.live, QueueAdded(obj));
      CountingIsWithinMaxIff(world, s'.live, s.inFlight.value);
    }
  }

  /** The pod in flight, if it is of that queue, requests no more than the limits. */
  predicate InFlightFits(s: System, name: string, max: Resources) {
    InFlightUids(s, name) != {} ==> forall n :: n in max ==> Qty(Request(s.inFlight.value.spec), n) <= max[n]
  }

  lemma InFlightIsWithin(world: World, s: System, name: string, max: Resources)
    requires Sound(world, s)
    ensures Within(world, InFlightUids(s, name), max) <==> NonNegative(max) && InFlightFits(s, name, max)
  {
    if InFlightUids(s, name) != {} {
      forall n
        ensures Usage(world, InFlightUids(s, name), n) == Qty(Request(s.inFlight.value.spec), n) >= 0
      {
        UsageRemove(world, {s.inFlight.value.uid}, s.inFlight.value.uid, n);
      }
    }
  }
}
