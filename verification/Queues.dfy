/** Queues and their manager (internal/queue/queue.go, internal/queue/manager.go). */
module Queues {
  import opened Resources
  import opened Pods
  import opened Ledgers
  import opened PreemptionConfigs

  // ---- Abstract state ---------------------------------------------------------------------

  datatype QueueView = QueueView(name: string, labels: Labels, config: PreemptionConfig, ledger: Ledger)

  type ManagerView = map<string, QueueView>

  datatype QueueOption =
    | WithQuotaMax(max: Resources)
    | WithLabels(labels: Labels)
    | WithPreemptionConfig(config: PreemptionConfig)

  function NewQueue(name: string): QueueView {
    QueueView(name, map[], UNCONFIGURED, NewLedger(map[]))
  }

  function ApplyOption(q: QueueView, option: QueueOption): QueueView {
    match option
    case WithQuotaMax(max) => q.(ledger := q.ledger.(max := max))
    case WithLabels(labels) => q.(labels := labels)
    case WithPreemptionConfig(config) => q.(config := config)
  }

  function ApplyOptions(q: QueueView, options: seq<QueueOption>): QueueView {
    if options == [] then q
    else ApplyOption(ApplyOptions(q, options[..|options| - 1]), options[|options| - 1])
  }

  /** The queue that a pod's label names, if the manager has it. */
  function QueueOf(m: ManagerView, pod: PodSpec): Option<QueueView> {
    var name := QueueLabel(pod);
    if name.Some? && name.value in m then Some(m[name.value]) else None
  }

  /** A pod has a queue exactly if its label names one that the manager has, and then it is that one. */
  lemma QueueOfMeaning(m: ManagerView, pod: PodSpec)
    ensures QueueOf(m, pod).Some? <==> LABEL_KEY_QUEUE in pod.labels && pod.labels[LABEL_KEY_QUEUE] in m
    ensures QueueOf(m, pod).Some? ==> QueueOf(m, pod).value == m[pod.labels[LABEL_KEY_QUEUE]]
  {
  }

  function PutView(m: ManagerView, name: string, options: seq<QueueOption>): ManagerView {
    m[name := ApplyOptions(NewQueue(name), options)]
  }

  function UpdateView(m: ManagerView, name: string, options: seq<QueueOption>): ManagerView {
    if options == [] then m
    else if name !in m then PutView(m, name, options)
    else m[name := ApplyOptions(m[name], options)]
  }

  function DeleteView(m: ManagerView, name: string): ManagerView {
    m - {name}
  }

  function WithPod(q: QueueView, pod: Pod): QueueView {
    q.(ledger := LedgerAdd(q.ledger, pod))
  }

  function WithoutPod(q: QueueView, pod: Pod): QueueView {
    q.(ledger := LedgerDelete(q.ledger, pod))
  }

  function CountPod(m: ManagerView, pod: Pod): ManagerView {
    if QueueOf(m, pod.spec).None? then m
    else
      var name := QueueLabel(pod.spec).value;
      m[name := WithPod(m[name], pod)]
  }

  function UncountPod(m: ManagerView, pod: Pod): ManagerView {
    if QueueOf(m, pod.spec).None? then m
    else
      var name := QueueLabel(pod.spec).value;
      m[name := WithoutPod(m[name], pod)]
  }

  /** Every queue is filed under its own name, keeps an exact ledger, and counts only pods whose
      label names it. */
  ghost predicate ManagerInv(world: World, m: ManagerView) {
    && KeyIsName(m)
    && (forall name :: name in m ==> LedgerInv(world, m[name].ledger))
    && (forall name, uid :: name in m && uid in m[name].ledger.pods ==> QueueLabel(world(uid)) == Some(name))
  }

  ghost predicate KeyIsName(m: ManagerView) {
    forall name :: name in m ==> m[name].name == name
  }

  /** The same queues with the same names, labels, limits and preemption rules. */
  ghost predicate SameConfig(m: ManagerView, m': ManagerView) {
    && m.Keys == m'.Keys
    && forall name :: name in m ==>
         && m[name].(ledger := m'[name].ledger) == m'[name]
         && m[name].ledger.max == m'[name].ledger.max
  }

  lemma SameConfigTransitive(m: ManagerView, m': ManagerView, m'': ManagerView)
    requires SameConfig(m, m') && SameConfig(m', m'')
    ensures SameConfig(m, m'')
  {
  }

  /** The pods a queue counts; none if there is no such queue. */
  function Counted(m: ManagerView, name: string): set<UID> {
    if name in m then m[name].ledger.pods.Keys else {}
  }

  /** The pods counted in the queue that a pod's label names. */
  function CountedBeside(m: ManagerView, pod: PodSpec): set<UID> {
    if QueueLabel(pod).Some? then Counted(m, QueueLabel(pod).value) else {}
  }

  lemma CountIn(m: ManagerView, pod: Pod, name: string)
    requires name in m && QueueLabel(pod.spec) == Some(name)
    ensures CountPod(m, pod) == m[name := WithPod(m[name], pod)]
    ensures UncountPod(m, pod) == m[name := WithoutPod(m[name], pod)]
  {
  }

  lemma CountKeepsInv(world: World, m: ManagerView, pod: Pod)
    requires ManagerInv(world, m) && Known(world, pod)
    ensures ManagerInv(world, CountPod(m, pod)) && SameConfig(m, CountPod(m, pod))
    ensures forall name :: Counted(CountPod(m, pod), name) ==
              (Counted(m, name) + if name in m && QueueLabel(pod.spec) == Some(name) then {pod.uid} else {})
  {
    if QueueOf(m, pod.spec).Some? {
      var name := QueueLabel(pod.spec).value;
      AddKeepsInv(world, m[name].ledger, pod);
      LedgerReplaced(world, m, name, LedgerAdd(m[name].ledger, pod));
    }
  }

  lemma UncountKeepsInv(world: World, m: ManagerView, pod: Pod)
    requires ManagerInv(world, m) && Known(world, pod)
    ensures ManagerInv(world, UncountPod(m, pod)) && SameConfig(m, UncountPod(m, pod))
    ensures forall name :: Counted(UncountPod(m, pod), name) == Counted(m, name) - {pod.uid}
  {
    if QueueOf(m, pod.spec).Some? {
      var name := QueueLabel(pod.spec).value;
      DeleteKeepsInv(world, m[name].ledger, pod);
      LedgerReplaced(world, m, name, LedgerDelete(m[name].ledger, pod));
    }
    forall name
      ensures Counted(UncountPod(m, pod), name) == Counted(m, name) - {pod.uid}
    {
      assert pod.uid in Counted(m, name) ==> QueueLabel(world(pod.uid)) == Some(name);
    }
  }

  lemma CountedAt(world: World, m: ManagerView, pod: Pod, name: string)
    requires ManagerInv(world, m) && Known(world, pod)
    ensures var m' := CountPod(m, pod);
      && (name in m <==> name in m') && (name in m ==> m[name].ledger.max == m'[name].ledger.max)
      && Counted(m', name)
           == Counted(m, name) + if name in m && QueueLabel(pod.spec) == Some(name) then {pod.uid} else {}
  {
    CountKeepsInv(world, m, pod);
  }

  lemma UncountedAt(world: World, m: ManagerView, pod: Pod, name: string)
    requires ManagerInv(world, m) && Known(world, pod)
    ensures name in m <==> name in UncountPod(m, pod)
    ensures Counted(UncountPod(m, pod), name) == Counted(m, name) - {pod.uid}
  {
    UncountKeepsInv(world, m, pod);
  }

  lemma LedgerReplaced(world: World, m: ManagerView, name: string, l: Ledger)
    requires ManagerInv(world, m) && name in m
    requires LedgerInv(world, l) && l.max == m[name].ledger.max
    requires forall uid :: uid in l.pods && uid !in m[name].ledger.pods ==> QueueLabel(world(uid)) == Some(name)
    ensures ManagerInv(world, m[name := m[name].(ledger := l)])
    ensures SameConfig(m, m[name := m[name].(ledger := l)])
  {
  }

  /** Options act one after the other, so that of two that set the same thing the later one holds. */
  lemma {:induction false} OptionsInOrder(q: QueueView, first: seq<QueueOption>, second: seq<QueueOption>)
    ensures ApplyOptions(q, first + second) == ApplyOptions(ApplyOptions(q, first), second)
  {
    if second == [] {
      assert first + second == first;
    } else {
      var n := |second| - 1;
      assert (first + second)[..|first| + n] == first + second[..n];
      OptionsInOrder(q, first, second[..n]);
    }
  }

  lemma {:induction false} OptionsKeepLedger(q: QueueView, options: seq<QueueOption>)
    ensures ApplyOptions(q, options).name == q.name
    ensures ApplyOptions(q, options).ledger.pods == q.ledger.pods
    ensures ApplyOptions(q, options).ledger.used == q.ledger.used
  {
    if options != [] {
      OptionsKeepLedger(q, options[..|options| - 1]);
    }
  }

  lemma PutKeepsInv(world: World, m: ManagerView, name: string, options: seq<QueueOption>)
    requires ManagerInv(world, m)
    ensures ManagerInv(world, PutView(m, name, options))
    ensures Counted(PutView(m, name, options), name) == {}
  {
    OptionsKeepLedger(NewQueue(name), options);
    NewLedgerInv(world, map[]);
    var l, l' := NewLedger(map[]), PutView(m, name, options)[name].ledger;
    assert forall n :: Qty(l'.used, n) == Qty(l.used, n);
  }

  lemma UpdateKeepsInv(world: World, m: ManagerView, name: string, options: seq<QueueOption>)
    requires ManagerInv(world, m)
    ensures ManagerInv(world, UpdateView(m, name, options))
    ensures forall other :: Counted(UpdateView(m, name, options), other) == Counted(m, other)
  {
    if options != [] {
      if name in m {
        OptionsKeepLedger(m[name], options);
      } else {
        PutKeepsInv(world, m, name, options);
      }
    }
  }

  // ---- Consent ----------------------------------------------------------------------------

  /** Both queues agree: all four selectors match, and the victim has lower priority. */
  ghost predicate Consent(m: ManagerView, preemptor: PodSpec, victim: PodSpec) {
    && QueueOf(m, preemptor).Some?
    && QueueOf(m, victim).Some?
    && Priority(victim) < Priority(preemptor)
    && QueueOf(m, preemptor).value.config.preempts.AcceptsFrom(preemptor.labels)
    && QueueOf(m, preemptor).value.config.preempts.AcceptsTo(victim.labels)
    && QueueOf(m, victim).value.config.preemptedBy.AcceptsFrom(preemptor.labels)
    && QueueOf(m, victim).value.config.preemptedBy.AcceptsTo(victim.labels)
  }

  /** The preemptor's own queue lets it preempt. */
  ghost predicate MayPreempt(m: ManagerView, preemptor: PodSpec) {
    && QueueOf(m, preemptor).Some?
    && QueueOf(m, preemptor).value.config.preempts.IsSet()
    && QueueOf(m, preemptor).value.config.preempts.AcceptsFrom(preemptor.labels)
  }

  /** The queue owns the pod and lets it be preempted. */
  ghost predicate MayBePreempted(q: QueueView, pod: PodSpec) {
    && (if QueueLabel(pod).Some? then QueueLabel(pod).value else "") == q.name
    && q.config.preemptedBy.IsSet()
    && q.config.preemptedBy.AcceptsTo(pod.labels)
  }

  /** A queue lets only its own pods be preempted, and a rule without one of its matchers, as that of a
      queue that was never configured, lets no pod preempt or be preempted. */
  lemma UnsetRulesForbid(m: ManagerView, q: QueueView, pod: PodSpec)
    ensures QueueLabel(pod).Some? && QueueLabel(pod).value != q.name ==> !MayBePreempted(q, pod)
    ensures QueueLabel(pod).None? && q.name != "" ==> !MayBePreempted(q, pod)
    ensures q.config.preemptedBy.fromPods.None? || q.config.preemptedBy.toPods.None? ==> !MayBePreempted(q, pod)
    ensures QueueOf(m, pod) == Some(q) && (q.config.preempts.fromPods.None? || q.config.preempts.toPods.None?) ==>
      !MayPreempt(m, pod)
  {
  }

  /** A queue without options has no labels, no limits and no rules, and counts nothing. */
  lemma BareQueue(m: ManagerView, name: string)
    ensures PutView(m, name, [])[name] == QueueView(
      name, map[],
      PreemptionConfig(PreemptionRule(None, None), PreemptionRule(None, None)),
      Ledger(map[], map[], map[]))
  {
  }

  // ---- Queue ------------------------------------------------------------------------------

  class Queue {
    const name: string
    const quota: Quota
    var labels: Labels
    var preemptionCfg: PreemptionConfig

    function View(): QueueView
      reads this, quota, quota.used
    {
      QueueView(name, labels, preemptionCfg, quota.State())
    }

    /** The footprint holds the objects that make up the queue. */
    ghost predicate Within(footprint: set<object>) {
      this in footprint && quota in footprint && quota.used in footprint
    }

    /** Quota and usage are the queue's own, so that no two queues share either. */
    ghost predicate OwnsItsQuota() {
      quota.owner == name && quota.used.owner == name
    }

    /** The queue of that name, in that state. */
    ghost predicate Is(name: string, view: QueueView)
      reads this, quota, quota.used
    {
      this.name == name && OwnsItsQuota() && View() == view
    }

    constructor (name: string, options: seq<QueueOption>)
      ensures this.name == name && OwnsItsQuota() && fresh(quota) && fresh(quota.used)
      ensures View() == ApplyOptions(NewQueue(name), options)
    {
      this.name, labels, preemptionCfg := name, map[], UNCONFIGURED;
      quota := new Quota(map[], name);
      new;
      ApplyOpts(options);
    }

    constructor Copy(source: Queue)
      requires source.OwnsItsQuota()
      ensures name == source.name && OwnsItsQuota() && fresh(quota) && fresh(quota.used)
      ensures View() == source.View()
    {
      name, labels, preemptionCfg := source.name, source.labels, source.preemptionCfg;
      quota := new Quota.Copy(source.quota);
    }

    method ApplyOpts(options: seq<QueueOption>)
      modifies this, quota`max
      ensures View() == ApplyOptions(old(View()), options)
    {
      for i := 0 to |options|
        invariant View() == ApplyOptions(old(View()), options[..i])
      {
        assert options[..i + 1][..i] == options[..i];
        match options[i]
        case WithQuotaMax(max) => quota.SetMax(max);
        case WithLabels(lbls) => labels := lbls;
        case WithPreemptionConfig(config) => preemptionCfg := config;
      }
      assert options[..|options|] == options;
    }

    /** Counts the pod in the queue's ledger. */
    method Count(pod: Pod)
      modifies quota, quota.used
      ensures View() == WithPod(old(View()), pod)
    {
      SinglePod(quota.State(), pod);
      quota.AddPodIfNotPresent([Some(pod)]);
    }

    /** Takes the pod out of the queue's ledger. */
    method Uncount(pod: Pod)
      modifies quota, quota.used
      ensures View() == WithoutPod(old(View()), pod)
    {
      SinglePod(quota.State(), pod);
      quota.DeletePodIfPresent([Some(pod)]);
    }

    predicate CanPodBePreemptedByOthers(pod: Pod)
      reads this, quota, quota.used
      ensures CanPodBePreemptedByOthers(pod) <==> MayBePreempted(View(), pod.spec)
    {
      if (if LABEL_KEY_QUEUE in pod.spec.labels then pod.spec.labels[LABEL_KEY_QUEUE] else "") != name then false
      else if !preemptionCfg.preemptedBy.IsSet() then false
      else preemptionCfg.preemptedBy.toPods.value.Matches(pod.spec.labels)
    }

    method Clone() returns (copy: Queue)
      requires OwnsItsQuota()
      ensures copy.name == name && copy.OwnsItsQuota() && fresh(copy) && fresh(copy.quota) && fresh(copy.quota.used)
      ensures copy.View() == View()
    {
      copy := new Queue.Copy(this);
    }
  }

  // ---- Manager ----------------------------------------------------------------------------

  datatype ManagerError = NoError | QueueDoesNotExist(name: string)

  class Manager {
    var queueByName: map<string, Queue>
    ghost var Repr: set<object>
    ghost var Contents: ManagerView  // the abstract state of the queues

    /** Every queue is filed under its own name and owns its quota. */
    ghost predicate Valid()
      reads this, Repr
    {
      && this in Repr
      && Contents.Keys == queueByName.Keys
      && forall name :: name in queueByName ==>
           && queueByName[name].Within(Repr)
           && queueByName[name].Is(name, Contents[name])
    }

    constructor ()
      ensures Valid() && Contents == map[] && fresh(Repr)
    {
      queueByName, Contents := map[], map[];
      Repr := {this};
    }

    function Get(pod: Pod): (q: Queue?)
      requires Valid()
      reads this, Repr
      ensures q == null <==> QueueOf(Contents, pod.spec).None?
      ensures q != null ==>
        && q.Within(Repr)
        && QueueLabel(pod.spec) == Some(q.name)
        && QueueOf(Contents, pod.spec) == Some(q.View())
    {
      Lookup(pod)
    }

    function Lookup(pod: Pod): Queue?
      reads this
    {
      if LABEL_KEY_QUEUE !in pod.spec.labels then null
      else GetByName(pod.spec.labels[LABEL_KEY_QUEUE])
    }

    function GetByName(name: string): (q: Queue?)
      reads this
    {
      if name in queueByName then queueByName[name] else null
    }

    predicate Has(q: Queue)
      reads this
    {
      q.name in queueByName && q == queueByName[q.name]
    }

    /** Installs a new queue; one of the same name loses its usage. */
    method Put(name: string, options: seq<QueueOption>)
      requires Valid()
      modifies this
      ensures Valid() && fresh(Repr - old(Repr))
      ensures Contents == PutView(old(Contents), name, options)
    {
      var q := new Queue(name, options);
      Install(q);
    }

    method Install(q: Queue)
      requires Valid() && q.OwnsItsQuota()
      modifies this
      ensures Valid() && Repr == old(Repr) + {q, q.quota, q.quota.used}
      ensures Contents == old(Contents)[q.name := q.View()]
    {
      queueByName := queueByName[q.name := q];
      Contents := Contents[q.name := q.View()];
      Repr := Repr + {q, q.quota, q.quota.used};
    }

    method Update(name: string, options: seq<QueueOption>)
      requires Valid()
      modifies Repr
      ensures Valid() && fresh(Repr - old(Repr))
      ensures Contents == UpdateView(old(Contents), name, options)
    {
      if |options| == 0 {
        return;
      }
      var q := GetByName(name);
      if q == null {
        Put(name, options);
        return;
      }
      Reconfigure(q, options);
    }

    method Reconfigure(q: Queue, options: seq<QueueOption>)
      requires Valid() && Has(q)
      modifies q, q.quota`max, `Contents
      ensures Valid() && unchanged(`queueByName)
      ensures Contents == old(Contents)[q.name := ApplyOptions(old(Contents)[q.name], options)]
    {
      q.ApplyOpts(options);
      Contents := Contents[q.name := q.View()];
    }

    method Delete(name: string)
      requires Valid()
      modifies this
      ensures Valid() && unchanged(`Repr)
      ensures Contents == DeleteView(old(Contents), name)
    {
      queueByName := queueByName - {name};
      Contents := Contents - {name};
    }

    method AddPodIfNotPresent(pod: Option<Pod>) returns (err: ManagerError)
      requires Valid()
      modifies Repr
      ensures Valid() && unchanged(`Repr, `queueByName)
      ensures Contents == if pod.None? then old(Contents) else CountPod(old(Contents), pod.value)
      ensures err.QueueDoesNotExist? <==>
        && pod.Some? && LABEL_KEY_QUEUE in pod.value.spec.labels
        && pod.value.spec.labels[LABEL_KEY_QUEUE] !in old(Contents)
    {
      if pod.None? || LABEL_KEY_QUEUE !in pod.value.spec.labels {
        return NoError;
      }
      var name := pod.value.spec.labels[LABEL_KEY_QUEUE];
      var q := GetByName(name);
      if q == null {
        return QueueDoesNotExist(name);
      }
      CountInto(q, pod.value);
      return NoError;
    }

    method DeletePodIfPresent(pod: Option<Pod>) returns (err: ManagerError)
      requires Valid()
      modifies Repr
      ensures Valid() && unchanged(`Repr, `queueByName)
      ensures Contents == if pod.None? then old(Contents) else UncountPod(old(Contents), pod.value)
      ensures err.QueueDoesNotExist? <==>
        && pod.Some? && LABEL_KEY_QUEUE in pod.value.spec.labels
        && pod.value.spec.labels[LABEL_KEY_QUEUE] !in old(Contents)
    {
      if pod.None? || LABEL_KEY_QUEUE !in pod.value.spec.labels {
        return NoError;
      }
      var name := pod.value.spec.labels[LABEL_KEY_QUEUE];
      var q := GetByName(name);
      if q == null {
        return QueueDoesNotExist(name);
      }
      UncountFrom(q, pod.value);
      return NoError;
    }

    /** Counts a pod in the queue of this manager that the pod's label names. */
    method CountInto(q: Queue, pod: Pod)
      requires Valid() && Has(q) && QueueLabel(pod.spec) == Some(q.name)
      modifies q.quota, q.quota.used, `Contents
      ensures Valid() && unchanged(`queueByName)
      ensures Contents == CountPod(old(Contents), pod)
    {
      ghost var before := Contents;
      CountIn(before, pod, q.name);
      q.Count(pod);
      assert q.View() == WithPod(Contents[q.name], pod);
      Contents := Contents[q.name := q.View()];
      forall name | name in queueByName && name != q.name
        ensures queueByName[name].Is(name, Contents[name])
      {
        assert old(queueByName[name].Is(name, Contents[name]));
      }
    }

    /** Takes a pod out of the queue of this manager that the pod's label names. */
    method UncountFrom(q: Queue, pod: Pod)
      requires Valid() && Has(q) && QueueLabel(pod.spec) == Some(q.name)
      modifies q.quota, q.quota.used, `Contents
      ensures Valid() && unchanged(`queueByName)
      ensures Contents == UncountPod(old(Contents), pod)
    {
      ghost var before := Contents;
      CountIn(before, pod, q.name);
      q.Uncount(pod);
      assert q.View() == WithoutPod(Contents[q.name], pod);
      Contents := Contents[q.name := q.View()];
      forall name | name in queueByName && name != q.name
        ensures queueByName[name].Is(name, Contents[name])
      {
        assert old(queueByName[name].Is(name, Contents[name]));
      }
    }

    /** Clones queue by queue.  The copy shares no object with the original. */
    method Clone() returns (copy: Manager)
      requires Valid()
      ensures copy.Valid() && fresh(copy.Repr)
      ensures copy.Contents == Contents
    {
      var clones: map<string, Queue> := map[];
      ghost var repr: set<object> := {};
      var todo := queueByName.Keys;
      while todo != {}
        invariant todo <= queueByName.Keys
        invariant clones.Keys == queueByName.Keys - todo
        invariant fresh(repr)
        invariant forall name :: name in clones ==>
          clones[name].Within(repr) && clones[name].Is(name, Contents[name])
        decreases todo
      {
        var name :| name in todo;
        var q := queueByName[name].Clone();
        clones := clones[name := q];
        repr := repr + {q, q.quota, q.quota.used};
        todo := todo - {name};
      }
      copy := new Manager.Of(clones, repr, Contents);
    }

    constructor Of(queues: map<string, Queue>, ghost footprint: set<object>, ghost contents: ManagerView)
      ensures queueByName == queues && Repr == {this} + footprint && Contents == contents
    {
      queueByName, Repr, Contents := queues, {this} + footprint, contents;
    }
  }

  // ---- Evaluator --------------------------------------------------------------------------

  /** Decides preemption between pods of queues. */
  datatype PreemptionEvaluator = PreemptionEvaluator(
    queueMgr: Manager,
    preemptor: Pod,
    preemptorQ: Queue?,
    preemptorPrio: int)
  {
    ghost predicate WellFormed()
      requires queueMgr.Valid()
      reads queueMgr, queueMgr.Repr
    {
      preemptorQ == queueMgr.Get(preemptor) && preemptorPrio == Priority(preemptor.spec)
    }

    predicate IsConfiguredForPreemption() {
      preemptorQ != null
    }

    predicate CanPodPreemptOthers()
      requires queueMgr.Valid()
      reads queueMgr, queueMgr.Repr
      ensures CanPodPreemptOthers() <==> MayPreempt(queueMgr.Contents, preemptor.spec)
    {
      var q := queueMgr.Get(preemptor);
      if q == null then false
      else if !q.preemptionCfg.preempts.IsSet() then false
      else q.preemptionCfg.preempts.fromPods.value.Matches(preemptor.spec.labels)
    }

    /** Preemption is allowed exactly when the victim has lower priority and both queues consent. */
    predicate IsPreemptionAllowed(victim: Pod)
      requires queueMgr.Valid() && WellFormed()
      reads queueMgr, queueMgr.Repr
      ensures IsPreemptionAllowed(victim) <==> Consent(queueMgr.Contents, preemptor.spec, victim.spec)
    {
      if preemptorQ == null then false
      else if Priority(victim.spec) >= preemptorPrio then false
      else
        var preempts := preemptorQ.preemptionCfg.preempts;
        if !preempts.IsSet() then false
        else if !preempts.fromPods.value.Matches(preemptor.spec.labels) then false
        else if !preempts.toPods.value.Matches(victim.spec.labels) then false
        else
          var victimQ := queueMgr.Get(victim);
          if victimQ == null then false
          else
            var preemptedBy := victimQ.preemptionCfg.preemptedBy;
            if !preemptedBy.IsSet() then false
            else if !preemptedBy.toPods.value.Matches(victim.spec.labels) then false
            else preemptedBy.fromPods.value.Matches(preemptor.spec.labels)
    }
  }

  function NewPreemptionEvaluator(queueMgr: Manager, preemptor: Pod): (pe: PreemptionEvaluator)
    requires queueMgr.Valid()
    reads queueMgr, queueMgr.Repr
    ensures pe.queueMgr == queueMgr && pe.preemptor == preemptor && pe.WellFormed()
  {
    PreemptionEvaluator(queueMgr, preemptor, queueMgr.Get(preemptor), Priority(preemptor.spec))
  }

  /** The three checks agree: a pod may be preempted exactly when its preemptor may preempt, it may
      be preempted, it has lower priority, and the two remaining selectors match. */
  lemma ConsentAgrees(m: ManagerView, preemptor: PodSpec, victim: PodSpec)
    requires KeyIsName(m)
    ensures Consent(m, preemptor, victim) <==>
      && MayPreempt(m, preemptor)
      && QueueOf(m, victim).Some?
      && MayBePreempted(QueueOf(m, victim).value, victim)
      && Priority(victim) < Priority(preemptor)
      && QueueOf(m, preemptor).value.config.preempts.AcceptsTo(victim.labels)
      && QueueOf(m, victim).value.config.preemptedBy.AcceptsFrom(preemptor.labels)
  {
  }

  /** A queue whose rule leaves out a selector, or has a malformed one, takes part in no preemption
      on that side. */
  lemma OmittedSelectorNeverConsents(m: ManagerView, spec: PreemptionSpec, preemptor: PodSpec, victim: PodSpec)
    ensures QueueOf(m, preemptor).Some? && QueueOf(m, preemptor).value.config == ConfigFromSpec(spec).0
      && !(spec.preempts.fromPods.WellFormed? && spec.preempts.toPods.WellFormed?)
      ==> !Consent(m, preemptor, victim)
    ensures QueueOf(m, victim).Some? && QueueOf(m, victim).value.config == ConfigFromSpec(spec).0
      && !(spec.preemptedBy.fromPods.WellFormed? && spec.preemptedBy.toPods.WellFormed?)
      ==> !Consent(m, preemptor, victim)
  {
  }
}
