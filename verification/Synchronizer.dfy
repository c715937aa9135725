/** Keeping the live queues in step with the cluster (internal/queue/synchronizer.go). */
module Synchronization {
  import opened Resources
  import opened Pods
  import opened Ledgers
  import opened PreemptionConfigs
  import opened Queues
  import opened Plugins

  /** A queue object of the API. */
  datatype QueueObject = QueueObject(name: string, labels: Labels, max: Resources, preemption: PreemptionSpec)

  function OptionsOf(obj: QueueObject): seq<QueueOption> {
    [WithQuotaMax(obj.max), WithLabels(obj.labels), WithPreemptionConfig(ConfigFromSpec(obj.preemption).0)]
  }

  /** What can happen to the live queues.  A handler that is handed anything but a pod, such as the
      tombstone of a deletion it missed, goes on with no pod. */
  datatype Event =
    | QueueAdded(obj: QueueObject)
    | QueueUpdated(obj: QueueObject)
    | QueueDeleted(name: string)
    | PodAdded(pod: Option<Pod>)
    | PodUpdated(oldPod: Option<Pod>, newPod: Option<Pod>)
    | PodDeleted(pod: Option<Pod>)
    | Reserved(reserved: Pod)
    | Unreserved(unreserved: Pod)

  /** An update ends a pod's usage when the pod was not finished and now is neither pending nor
      running, in whatever other phase. */
  predicate Finishes(oldPod: Option<Pod>, newPod: Option<Pod>) {
    && oldPod.Some? && !IsTerminal(oldPod.value)
    && newPod.Some? && !IsNonTerminal(newPod.value)
  }

  function Handle(m: ManagerView, event: Event): ManagerView {
    match event
    case QueueAdded(obj) => PutView(m, obj.name, OptionsOf(obj))
    case QueueUpdated(obj) => UpdateView(m, obj.name, OptionsOf(obj))
    case QueueDeleted(name) => DeleteView(m, name)
    case PodAdded(pod) => if pod.None? then m else CountPod(m, pod.value)
    case PodUpdated(oldPod, newPod) => if Finishes(oldPod, newPod) then UncountPod(m, newPod.value) else m
    case PodDeleted(pod) => if pod.None? then m else UncountPod(m, pod.value)
    case Reserved(pod) => CountPod(m, pod)
    case Unreserved(pod) => UncountPod(m, pod)
  }

  function HandleAll(m: ManagerView, events: seq<Event>): ManagerView {
    if events == [] then m else Handle(HandleAll(m, events[..|events| - 1]), events[|events| - 1])
  }

  ghost predicate EventKnown(world: World, event: Event) {
    match event
    case PodAdded(pod) => pod.Some? ==> Known(world, pod.value)
    case PodUpdated(oldPod, newPod) => newPod.Some? ==> Known(world, newPod.value)
    case PodDeleted(pod) => pod.Some? ==> Known(world, pod.value)
    case Reserved(pod) => Known(world, pod)
    case Unreserved(pod) => Known(world, pod)
    case _ => true
  }

  // ---- Handlers ---------------------------------------------------------------------------

  class Synchronizer {
    const queueMgr: Manager

    constructor (queueMgr: Manager)
      ensures this.queueMgr == queueMgr
    {
      this.queueMgr := queueMgr;
    }

    method AddQueue(obj: QueueObject)
      requires queueMgr.Valid()
      modifies queueMgr.Repr
      ensures queueMgr.Valid() && fresh(queueMgr.Repr - old(queueMgr.Repr))
      ensures queueMgr.Contents == Handle(old(queueMgr.Contents), QueueAdded(obj))
    {
      queueMgr.Put(obj.name, OptionsOf(obj));
    }

    method UpdateQueue(obj: QueueObject)
      requires queueMgr.Valid()
      modifies queueMgr.Repr
      ensures queueMgr.Valid() && fresh(queueMgr.Repr - old(queueMgr.Repr))
      ensures queueMgr.Contents == Handle(old(queueMgr.Contents), QueueUpdated(obj))
    {
      queueMgr.Update(obj.name, OptionsOf(obj));
    }

    method DeleteQueue(name: string)
      requires queueMgr.Valid()
      modifies queueMgr.Repr
      ensures queueMgr.Valid() && unchanged(queueMgr`Repr)
      ensures queueMgr.Contents == Handle(old(queueMgr.Contents), QueueDeleted(name))
    {
      queueMgr.Delete(name);
    }

    method AddPod(pod: Option<Pod>)
      requires queueMgr.Valid()
      modifies queueMgr.Repr
      ensures queueMgr.Valid() && unchanged(queueMgr`Repr)
      ensures queueMgr.Contents == Handle(old(queueMgr.Contents), PodAdded(pod))
    {
      var _ := queueMgr.AddPodIfNotPresent(pod);
    }

    method UpdatePod(oldPod: Option<Pod>, newPod: Option<Pod>)
      requires queueMgr.Valid()
      modifies queueMgr.Repr
      ensures queueMgr.Valid() && unchanged(queueMgr`Repr)
      ensures queueMgr.Contents == Handle(old(queueMgr.Contents), PodUpdated(oldPod, newPod))
      ensures newPod.Some? && (newPod.value.phase == Pending || newPod.value.phase == Running) ==>
        queueMgr.Contents == old(queueMgr.Contents)
    {
      if (oldPod.None? || IsTerminal(oldPod.value)) || (newPod.Some? && IsNonTerminal(newPod.value)) {
        return;
      }
      var _ := queueMgr.DeletePodIfPresent(newPod);
    }

    method DeletePod(pod: Option<Pod>)
      requires queueMgr.Valid()
      modifies queueMgr.Repr
      ensures queueMgr.Valid() && unchanged(queueMgr`Repr)
      ensures queueMgr.Contents == Handle(old(queueMgr.Contents), PodDeleted(pod))
    {
      var _ := queueMgr.DeletePodIfPresent(pod);
    }
  }

  /** Lets the handler of an event run. */
  method Dispatch(syn: Synchronizer, plugin: Plugin, event: Event)
    requires syn.queueMgr == plugin.queueMgr && syn.queueMgr.Valid()
    modifies syn.queueMgr.Repr
    ensures syn.queueMgr.Valid() && fresh(syn.queueMgr.Repr - old(syn.queueMgr.Repr))
    ensures syn.queueMgr.Contents == Handle(old(syn.queueMgr.Contents), event)
  {
    match event
    case QueueAdded(obj) => syn.AddQueue(obj);
    case QueueUpdated(obj) => syn.UpdateQueue(obj);
    case QueueDeleted(name) => syn.DeleteQueue(name);
    case PodAdded(pod) => syn.AddPod(pod);
    case PodUpdated(oldPod, newPod) => syn.UpdatePod(oldPod, newPod);
    case PodDeleted(pod) => syn.DeletePod(pod);
    case Reserved(pod) => var _ := plugin.Reserve(pod);
    case Unreserved(pod) => plugin.Unreserve(pod);
  }

  // ---- What events do -----------------------------------------------------------------------

  /** A pod that is reported or reserved is counted in its queue; one that is reported deleted or
      unreserved is counted nowhere; and anything but a pod changes nothing. */
  lemma PodEventsMeaning(world: World, m: ManagerView, pod: Pod, name: string)
    requires ManagerInv(world, m) && Known(world, pod)
    ensures QueueLabel(pod.spec) == Some(name) && name in m ==>
      && pod.uid in Counted(Handle(m, PodAdded(Some(pod))), name)
      && pod.uid in Counted(Handle(m, Reserved(pod)), name)
    ensures pod.uid !in Counted(Handle(m, PodDeleted(Some(pod))), name)
    ensures pod.uid !in Counted(Handle(m, Unreserved(pod)), name)
    ensures Handle(m, PodAdded(None)) == Handle(m, PodDeleted(None)) == m
  {
    CountedAt(world, m, pod, name);
    UncountedAt(world, m, pod, name);
  }

  /** In phases: an update to a pod that is pending or running changes nothing, and neither does one of
      a pod that had succeeded or failed, or of nothing; an update of a pod that was in any other phase
      to one that is neither pending nor running leaves the pod counted nowhere. */
  lemma UpdateMeaning(world: World, m: ManagerView, oldPod: Option<Pod>, newPod: Option<Pod>, name: string)
    requires ManagerInv(world, m) && EventKnown(world, PodUpdated(oldPod, newPod))
    ensures newPod.Some? && newPod.value.phase in {Pending, Running} ==> Handle(m, PodUpdated(oldPod, newPod)) == m
    ensures oldPod.None? || oldPod.value.phase in {Succeeded, Failed} ==> Handle(m, PodUpdated(oldPod, newPod)) == m
    ensures
      && oldPod.Some? && oldPod.value.phase in {Pending, Running, OtherPhase}
      && newPod.Some? && newPod.value.phase in {Succeeded, Failed, OtherPhase}
      ==> newPod.value.uid !in Counted(Handle(m, PodUpdated(oldPod, newPod)), name)
  {
    if newPod.Some? {
      UncountedAt(world, m, newPod.value, name);
    }
  }

  /** The selector of a queue object accepts the labels. */
  predicate Accepts(selector: LabelSelector, labels: Labels) {
    selector.WellFormed? && selector.matches(labels)
  }

  ghost predicate SameAt(m: ManagerView, m': ManagerView, name: string) {
    (name in m <==> name in m') && (name in m ==> m'[name] == m[name])
  }

  /** A queue is there as its object says; updating it keeps what it counts, and no other queue
      changes. */
  lemma QueueEventsMeaning(m: ManagerView, obj: QueueObject, other: string)
    ensures var added := Handle(m, QueueAdded(obj));
      && obj.name in added
      && added[obj.name].name == obj.name && added[obj.name].labels == obj.labels
      && added[obj.name].ledger == Ledger(obj.max, map[], map[])
    ensures var updated := Handle(m, QueueUpdated(obj));
      && obj.name in updated && updated[obj.name].labels == obj.labels && updated[obj.name].ledger.max == obj.max
      && updated[obj.name].ledger.pods == (if obj.name in m then m[obj.name].ledger.pods else map[])
      && updated[obj.name].ledger.used == (if obj.name in m then m[obj.name].ledger.used else map[])
    ensures obj.name !in Handle(m, QueueDeleted(obj.name))
    ensures other != obj.name ==>
      && SameAt(m, Handle(m, QueueAdded(obj)), other)
      && SameAt(m, Handle(m, QueueUpdated(obj)), other)
      && SameAt(m, Handle(m, QueueDeleted(obj.name)), other)
  {
    OptionsTake(NewQueue(obj.name), obj);
    if obj.name in m {
      OptionsTake(m[obj.name], obj);
    }
  }

  lemma OptionsTake(q: QueueView, obj: QueueObject)
    ensures ApplyOptions(q, OptionsOf(obj))
         == QueueView(q.name, obj.labels, ConfigFromSpec(obj.preemption).0, q.ledger.(max := obj.max))
  {
    var options := OptionsOf(obj);
    assert options[..2][..1][..0] == [] && options[..2][..1] == options[..1];
    assert ApplyOptions(q, options[..1]) == ApplyOption(q, options[0]);
    assert ApplyOptions(q, options[..2]) == ApplyOption(ApplyOptions(q, options[..1]), options[1]);
  }

  /** Preemption between two queues is what their objects say.  The preemptor's queue must accept it
      among the pods that preempt and the victim among those it preempts; the victim's queue must
      accept the preemptor among the pods it is preempted by and the victim among those that may be. */
  lemma ObjectsDecidePreemption(m: ManagerView, mine: QueueObject, theirs: QueueObject, preemptor: PodSpec,
                                victim: PodSpec)
    requires mine.name in m && m[mine.name].config == Handle(map[], QueueAdded(mine))[mine.name].config
    requires theirs.name in m && m[theirs.name].config == Handle(map[], QueueUpdated(theirs))[theirs.name].config
    requires QueueLabel(preemptor) == Some(mine.name) && QueueLabel(victim) == Some(theirs.name) && KeyIsName(m)
    ensures Consent(m, preemptor, victim) <==>
      && Priority(victim) < Priority(preemptor)
      && Accepts(mine.preemption.preempts.fromPods, preemptor.labels)
      && Accepts(mine.preemption.preempts.toPods, victim.labels)
      && Accepts(theirs.preemption.preemptedBy.fromPods, preemptor.labels)
      && Accepts(theirs.preemption.preemptedBy.toPods, victim.labels)
    ensures MayPreempt(m, preemptor) <==> Accepts(mine.preemption.preempts.fromPods, preemptor.labels)
    ensures MayBePreempted(m[theirs.name], victim) <==> Accepts(theirs.preemption.preemptedBy.toPods, victim.labels)
  {
    OptionsTake(NewQueue(mine.name), mine);
    OptionsTake(NewQueue(theirs.name), theirs);
  }

  // ---- Every reachable manager ------------------------------------------------------------

  lemma EventKeepsInv(world: World, m: ManagerView, event: Event)
    requires ManagerInv(world, m) && EventKnown(world, event)
    ensures ManagerInv(world, Handle(m, event))
  {
    match event
    case QueueAdded(obj) => PutKeepsInv(world, m, obj.name, OptionsOf(obj));
    case QueueUpdated(obj) => UpdateKeepsInv(world, m, obj.name, OptionsOf(obj));
    case QueueDeleted(name) =>
    case PodAdded(pod) => if pod.Some? { CountKeepsInv(world, m, pod.value); }
    case PodUpdated(oldPod, newPod) => if newPod.Some? { UncountKeepsInv(world, m, newPod.value); }
    case PodDeleted(pod) => if pod.Some? { UncountKeepsInv(world, m, pod.value); }
    case Reserved(pod) => CountKeepsInv(world, m, pod);
    case Unreserved(pod) => UncountKeepsInv(world, m, pod);
  }

  /** Whatever the run of events, every queue is filed under its name, its usage is the sum over the
      pods it counts, and it counts only its own pods. */
  lemma {:induction false} ReachableInv(world: World, events: seq<Event>)
    requires forall i :: 0 <= i < |events| ==> EventKnown(world, events[i])
    ensures ManagerInv(world, HandleAll(map[], events))
  {
    if events != [] {
      var front := events[..|events| - 1];
      assert forall i :: 0 <= i < |front| ==> front[i] == events[i];
      ReachableInv(world, front);
      EventKeepsInv(world, HandleAll(map[], front), events[|events| - 1]);
    }
  }

  // ---- Exactly-once counting --------------------------------------------------------------

  predicate Counts(event: Event, uid: UID) {
    match event
    case PodAdded(pod) => pod.Some? && pod.value.uid == uid
    case Reserved(pod) => pod.uid == uid
    case _ => false
  }

  predicate Uncounts(event: Event, uid: UID) {
    match event
    case PodUpdated(oldPod, newPod) => Finishes(oldPod, newPod) && newPod.value.uid == uid
    case PodDeleted(pod) => pod.Some? && pod.value.uid == uid
    case Unreserved(pod) => pod.uid == uid
    case _ => false
  }

  /** Whether the last event that counts or uncounts the pod counts it. */
  predicate LastCounts(events: seq<Event>, uid: UID, initially: bool) {
    if events == [] then initially
    else
      var last := events[|events| - 1];
      if Counts(last, uid) then true
      else if Uncounts(last, uid) then false
      else LastCounts(events[..|events| - 1], uid, initially)
  }

  predicate IsQueueEvent(event: Event) {
    event.QueueAdded? || event.QueueUpdated? || event.QueueDeleted?
  }

  /** Whether a queue is there, and whether it counts a certain pod of its own. */
  datatype Fate = Fate(there: bool, counted: bool)

  /** What an event does to both.  Adding a queue forgets the pod, and a pod is counted only where
      its queue is there. */
  function FateStep(fate: Fate, event: Event, name: string, uid: UID): Fate {
    match event
    case QueueAdded(obj) => if obj.name == name then Fate(true, false) else fate
    case QueueUpdated(obj) => if obj.name == name then Fate(true, fate.counted) else fate
    case QueueDeleted(other) => if other == name then Fate(false, false) else fate
    case _ =>
      if Counts(event, uid) then Fate(fate.there, fate.there)
      else if Uncounts(event, uid) then Fate(fate.there, false)
      else fate
  }

  function FateAfter(fate: Fate, events: seq<Event>, name: string, uid: UID): Fate {
    if events == [] then fate
    else FateStep(FateAfter(fate, events[..|events| - 1], name, uid), events[|events| - 1], name, uid)
  }

  function FateIn(m: ManagerView, name: string, uid: UID): Fate {
    Fate(name in m, uid in Counted(m, name))
  }

  lemma QueueEventFate(world: World, m: ManagerView, event: Event, name: string, uid: UID)
    requires ManagerInv(world, m) && IsQueueEvent(event)
    ensures FateIn(Handle(m, event), name, uid) == FateStep(FateIn(m, name, uid), event, name, uid)
  {
    match event
    case QueueAdded(obj) => PutKeepsInv(world, m, obj.name, OptionsOf(obj));
    case QueueUpdated(obj) => UpdateKeepsInv(world, m, obj.name, OptionsOf(obj));
    case QueueDeleted(_) =>
  }

  lemma PodFate(world: World, m: ManagerView, pod: Pod, name: string, uid: UID)
    requires ManagerInv(world, m) && Known(world, pod) && QueueLabel(world(uid)) == Some(name)
    ensures var fate := FateIn(m, name, uid);
      && FateIn(CountPod(m, pod), name, uid) == (if pod.uid == uid then Fate(fate.there, fate.there) else fate)
      && FateIn(UncountPod(m, pod), name, uid) == if pod.uid == uid then Fate(fate.there, false) else fate
  {
    CountedAt(world, m, pod, name);
    UncountedAt(world, m, pod, name);
  }

  /** A pod event counts its pod, uncounts it, or leaves all queues as they are. */
  lemma PodEventFate(world: World, m: ManagerView, event: Event, name: string, uid: UID)
    requires ManagerInv(world, m) && EventKnown(world, event) && !IsQueueEvent(event)
    requires QueueLabel(world(uid)) == Some(name)
    ensures FateIn(Handle(m, event), name, uid) == FateStep(FateIn(m, name, uid), event, name, uid)
  {
    match event
    case PodAdded(pod) => if pod.Some? { PodFate(world, m, pod.value, name, uid); }
    case PodUpdated(oldPod, newPod) => if newPod.Some? { PodFate(world, m, newPod.value, name, uid); }
    case PodDeleted(pod) => if pod.Some? { PodFate(world, m, pod.value, name, uid); }
    case Reserved(pod) => PodFate(world, m, pod, name, uid);
    case Unreserved(pod) => PodFate(world, m, pod, name, uid);
  }

  lemma EventFate(world: World, m: ManagerView, event: Event, name: string, uid: UID)
    requires ManagerInv(world, m) && EventKnown(world, event) && QueueLabel(world(uid)) == Some(name)
    ensures FateIn(Handle(m, event), name, uid) == FateStep(FateIn(m, name, uid), event, name, uid)
  {
    if IsQueueEvent(event) {
      QueueEventFate(world, m, event, name, uid);
    } else {
      PodEventFate(world, m, event, name, uid);
    }
  }

  /** Exactly when a pod is counted: after any run of events whatever, its queue is there and counts
      it if and only if its fate says so, and no other queue counts it. */
  lemma {:induction false} FateIsExact(world: World, m: ManagerView, events: seq<Event>, name: string, uid: UID)
    requires ManagerInv(world, m) && QueueLabel(world(uid)) == Some(name)
    requires forall i :: 0 <= i < |events| ==> EventKnown(world, events[i])
    ensures ManagerInv(world, HandleAll(m, events))
    ensures FateIn(HandleAll(m, events), name, uid) == FateAfter(FateIn(m, name, uid), events, name, uid)
    ensures forall other :: other != name ==> uid !in Counted(HandleAll(m, events), other)
  {
    if events != [] {
      var front, last := events[..|events| - 1], events[|events| - 1];
      assert forall i :: 0 <= i < |front| ==> front[i] == events[i];
      FateIsExact(world, m, front, name, uid);
      EventKeepsInv(world, HandleAll(m, front), last);
      EventFate(world, HandleAll(m, front), last, name, uid);
    }
    OnlyInItsQueue(world, HandleAll(m, events), name, uid);
  }

  lemma OnlyInItsQueue(world: World, m: ManagerView, name: string, uid: UID)
    requires ManagerInv(world, m) && QueueLabel(world(uid)) == Some(name)
    ensures forall other :: other != name ==> uid !in Counted(m, other)
  {
  }

  /** The event neither replaces nor deletes the queue.  Whatever it does to others is left open. */
  predicate KeepsQueue(name: string, event: Event) {
    match event
    case QueueAdded(obj) => obj.name != name
    case QueueDeleted(other) => other != name
    case _ => true
  }

  lemma {:induction false} FateOfKept(initially: bool, events: seq<Event>, name: string, uid: UID)
    requires forall i :: 0 <= i < |events| ==> KeepsQueue(name, events[i])
    ensures FateAfter(Fate(true, initially), events, name, uid) == Fate(true, LastCounts(events, uid, initially))
  {
    if events != [] {
      var front := events[..|events| - 1];
      assert forall i :: 0 <= i < |front| ==> front[i] == events[i];
      FateOfKept(initially, front, name, uid);
      assert KeepsQueue(name, events[|events| - 1]);
    }
  }

  /** Exactly-once counting: while the queue a pod's label names is neither replaced nor deleted, the
      pod is counted in it exactly when the last event that touches it counts it.  How often a
      reservation or an informer counted it before does not matter. */
  lemma ExactlyOnce(world: World, m: ManagerView, events: seq<Event>, name: string, uid: UID)
    requires ManagerInv(world, m) && name in m && QueueLabel(world(uid)) == Some(name)
    requires forall i :: 0 <= i < |events| ==> EventKnown(world, events[i]) && KeepsQueue(name, events[i])
    ensures name in HandleAll(m, events)
    ensures uid in Counted(HandleAll(m, events), name) <==> LastCounts(events, uid, uid in Counted(m, name))
    ensures forall other :: other != name ==> uid !in Counted(HandleAll(m, events), other)
  {
    FateIsExact(world, m, events, name, uid);
    FateOfKept(uid in Counted(m, name), events, name, uid);
    assert FateIn(HandleAll(m, events), name, uid) == Fate(true, LastCounts(events, uid, uid in Counted(m, name)));
  }

  /** Nothing in the event ends the pod: no deletion, no cancelled reservation, and only updates to a pod
      that is pending or running. */
  predicate LeavesPodBe(event: Event, uid: UID) {
    match event
    case PodDeleted(pod) => pod.Some? ==> pod.value.uid != uid
    case Unreserved(pod) => pod.uid != uid
    case PodUpdated(_, newPod) =>
      newPod.Some? && newPod.value.uid == uid ==> newPod.value.phase == Pending || newPod.value.phase == Running
    case _ => true
  }

  lemma {:induction false} FateOfLeftBe(events: seq<Event>, name: string, uid: UID)
    requires forall i :: 0 <= i < |events| ==> KeepsQueue(name, events[i]) && LeavesPodBe(events[i], uid)
    ensures FateAfter(Fate(true, true), events, name, uid) == Fate(true, true)
  {
    if events != [] {
      var front, last := events[..|events| - 1], events[|events| - 1];
      assert forall i :: 0 <= i < |front| ==> front[i] == events[i];
      FateOfLeftBe(front, name, uid);
      assert KeepsQueue(name, last) && LeavesPodBe(last, uid);
    }
  }

  /** A reserved pod keeps its quota: over any run in which its queue is kept and nothing ends the pod,
      it stays counted, while it is still pending and once it runs. */
  lemma ReservedPodStaysCounted(world: World, m: ManagerView, pod: Pod, events: seq<Event>, name: string)
    requires ManagerInv(world, m) && Known(world, pod) && QueueLabel(pod.spec) == Some(name) && name in m
    requires forall i :: 0 <= i < |events| ==>
      EventKnown(world, events[i]) && KeepsQueue(name, events[i]) && LeavesPodBe(events[i], pod.uid)
    ensures pod.uid in Counted(HandleAll(Handle(m, Reserved(pod)), events), name)
  {
    var m' := Handle(m, Reserved(pod));
    EventKeepsInv(world, m, Reserved(pod));
    PodEventsMeaning(world, m, pod, name);
    FateIsExact(world, m', events, name, pod.uid);
    FateOfLeftBe(events, name, pod.uid);
    assert FateIn(m', name, pod.uid) == Fate(true, true);
    assert FateIn(HandleAll(m', events), name, pod.uid) == Fate(true, true);
  }

  /** A deletion that arrives as a tombstone is lost: the pod stays counted. */
  lemma TombstoneLeavesPodCounted(m: ManagerView, pod: Pod)
    requires QueueOf(m, pod.spec).Some?
    ensures pod.uid in Counted(HandleAll(m, [Reserved(pod), PodDeleted(None)]), QueueLabel(pod.spec).value)
  {
    var events := [Reserved(pod), PodDeleted(None)];
    assert events[..1] == [Reserved(pod)] && events[..1][..0] == [];
    assert HandleAll(m, events[..1]) == CountPod(m, pod);
  }

  /** Adding a queue that is already there forgets every pod it counts. */
  lemma ReplacedQueueForgets(world: World, m: ManagerView, obj: QueueObject)
    requires ManagerInv(world, m)
    ensures Counted(Handle(m, QueueAdded(obj)), obj.name) == {}
    ensures forall name :: name != obj.name ==> Counted(Handle(m, QueueAdded(obj)), name) == Counted(m, name)
  {
    PutKeepsInv(world, m, obj.name, OptionsOf(obj));
  }

  // ---- Snapshot isolation -----------------------------------------------------------------

  datatype Target = Live | InCycle | Nested

  function EventsOf(events: seq<(Target, Event)>, target: Target): seq<Event> {
    if events == [] then []
    else
      EventsOf(events[..|events| - 1], target)
        + if events[|events| - 1].0 == target then [events[|events| - 1].1] else []
  }

  lemma EventsOfStep(m: ManagerView, events: seq<(Target, Event)>, i: nat, target: Target)
    requires i < |events|
    ensures HandleAll(m, EventsOf(events[..i + 1], target))
      == if events[i].0 == target then Handle(HandleAll(m, EventsOf(events[..i], target)), events[i].1)
         else HandleAll(m, EventsOf(events[..i], target))
  {
    assert events[..i + 1][..i] == events[..i];
    var before := EventsOf(events[..i], target);
    if events[i].0 == target {
      assert (before + [events[i].1])[..|before|] == before;
    } else {
      assert before + [] == before;
    }
  }

  /** Snapshot isolation: take a snapshot of the live queues and clone it, as every simulated
      preemption does.  However changes to the three are interleaved afterwards, each behaves as if
      it were alone. */
  method SnapshotsAreIsolated(live: Manager, events: seq<(Target, Event)>) returns (inCycle: CycleState,
                              nested: CycleState)
    requires live.Valid()
    modifies live.Repr
    ensures live.Valid() && inCycle.Valid() && nested.Valid()
    ensures inCycle.queueSnapshot != null && nested.queueSnapshot != null
    ensures live.Contents == HandleAll(old(live.Contents), EventsOf(events, Live))
    ensures inCycle.queueSnapshot.QueueMgr.Contents == HandleAll(old(live.Contents), EventsOf(events, InCycle))
    ensures nested.queueSnapshot.QueueMgr.Contents == HandleAll(old(live.Contents), EventsOf(events, Nested))
  {
    var snapshot := NewQueueSnapshotState(live);
    inCycle := new CycleState(snapshot);
    nested := inCycle.Clone();
    var a, b, c := live, snapshot.QueueMgr, nested.queueSnapshot.QueueMgr;
    InterleavedEvents(a, b, c, events);
  }

  /** Lets an event change one manager, beside two that share no object with it. */
  method DispatchBeside(target: Manager, other: Manager, another: Manager, event: Event)
    requires target.Valid() && other.Valid() && another.Valid()
    requires target.Repr !! other.Repr && target.Repr !! another.Repr
    modifies target.Repr
    ensures target.Valid() && other.Valid() && another.Valid()
    ensures unchanged(other, another)
    ensures fresh(target.Repr - old(target.Repr))
    ensures target.Contents == Handle(old(target.Contents), event)
  {
    var syn := new Synchronizer(target);
    var plugin := new Plugin(target);
    Dispatch(syn, plugin, event);
  }

  method DispatchTo(target: Target, a: Manager, b: Manager, c: Manager, event: Event)
    requires a.Valid() && b.Valid() && c.Valid()
    requires a.Repr !! b.Repr && a.Repr !! c.Repr && b.Repr !! c.Repr
    modifies a.Repr, b.Repr, c.Repr
    ensures a.Valid() && b.Valid() && c.Valid()
    ensures fresh(a.Repr - old(a.Repr)) && fresh(b.Repr - old(b.Repr)) && fresh(c.Repr - old(c.Repr))
    ensures a.Repr !! b.Repr && a.Repr !! c.Repr && b.Repr !! c.Repr
    ensures a.Contents == if target.Live? then Handle(old(a.Contents), event) else old(a.Contents)
    ensures b.Contents == if target.InCycle? then Handle(old(b.Contents), event) else old(b.Contents)
    ensures c.Contents == if target.Nested? then Handle(old(c.Contents), event) else old(c.Contents)
  {
    match target
    case Live => DispatchBeside(a, b, c, event);
    case InCycle => DispatchBeside(b, a, c, event);
    case Nested => DispatchBeside(c, a, b, event);
  }

  /** Three managers that share no object do not disturb one another. */
  method InterleavedEvents(a: Manager, b: Manager, c: Manager, events: seq<(Target, Event)>)
    requires a.Valid() && b.Valid() && c.Valid()
    requires a.Repr !! b.Repr && a.Repr !! c.Repr && b.Repr !! c.Repr
    modifies a.Repr, b.Repr, c.Repr
    ensures a.Valid() && b.Valid() && c.Valid()
    ensures fresh(a.Repr - old(a.Repr)) && fresh(b.Repr - old(b.Repr)) && fresh(c.Repr - old(c.Repr))
    ensures a.Contents == HandleAll(old(a.Contents), EventsOf(events, Live))
    ensures b.Contents == HandleAll(old(b.Contents), EventsOf(events, InCycle))
    ensures c.Contents == HandleAll(old(c.Contents), EventsOf(events, Nested))
  {
    ghost var a0, b0, c0 := a.Contents, b.Contents, c.Contents;
    for i := 0 to |events|
      invariant a.Valid() && b.Valid() && c.Valid()
      invariant a.Repr !! b.Repr && a.Repr !! c.Repr && b.Repr !! c.Repr
      invariant fresh(a.Repr - old(a.Repr)) && fresh(b.Repr - old(b.Repr)) && fresh(c.Repr - old(c.Repr))
      invariant a.Contents == HandleAll(a0, EventsOf(events[..i], Live))
      invariant b.Contents == HandleAll(b0, EventsOf(events[..i], InCycle))
      invariant c.Contents == HandleAll(c0, EventsOf(events[..i], Nested))
    {
      EventsOfStep(a0, events, i, Live);
      EventsOfStep(b0, events, i, InCycle);
      EventsOfStep(c0, events, i, Nested);
      DispatchTo(events[i].0, a, b, c, events[i].1);
    }
    assert events[..|events|] == events;
  }
}
