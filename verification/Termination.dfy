/** Preemption does not go on for ever: a victim has strictly lower priority than its preemptor
    (internal/queue/preemption.go, internal/plugin/quotaawarepreempt/preemption.go). */
module NoEndlessPreemption {
  import opened Pods
  import opened Queues
  import opened Preemption
  import opened Progress

  /** The pods that run, and those that have left for good.  All others wait to be scheduled, evicted
      pods among them. */
  datatype Cluster = Cluster(running: set<UID>, gone: set<UID>) {
    ghost predicate Valid(population: set<UID>) {
      running !! gone && running + gone <= population
    }
  }

  /** One pod starts and evicts candidates, under whatever queues there are at the time; or a pod
      finishes or is deleted. */
  datatype Step = Admits(queues: ManagerView, pod: UID, victims: set<UID>) | Leaves(pod: UID)

  ghost predicate CanStep(world: World, population: set<UID>, c: Cluster, step: Step) {
    match step
    case Admits(queues, pod, victims) =>
      && pod in population - c.running - c.gone
      && victims <= c.running
      && forall victim :: victim in victims ==> IsCandidate(queues, world(pod), world(victim))
    case Leaves(pod) => pod in population - c.gone
  }

  function Next(c: Cluster, step: Step): Cluster {
    match step
    case Admits(_, pod, victims) => c.(running := c.running - victims + {pod})
    case Leaves(pod) => Cluster(c.running - {pod}, c.gone + {pod})
  }

  function After(c: Cluster, run: seq<Step>): Cluster {
    if run == [] then c else Next(After(c, run[..|run| - 1]), run[|run| - 1])
  }

  ghost predicate IsRun(world: World, population: set<UID>, c: Cluster, run: seq<Step>) {
    c.Valid(population) && forall i :: 0 <= i < |run| ==> CanStep(world, population, After(c, run[..i]), run[i])
  }

  function Admissions(run: seq<Step>): nat {
    if run == [] then 0
    else Admissions(run[..|run| - 1]) + if run[|run| - 1].Admits? then 1 else 0
  }

  function Pow2(n: nat): nat {
    if n == 0 then 1 else 2 * Pow2(n - 1)
  }

  /** A listing of the population from the lowest to the highest priority. */
  ghost predicate ByPriority(world: World, order: seq<UID>) {
    forall i, j :: 0 <= i < j < |order| ==>
      order[i] != order[j] && Priority(world(order[i])) <= Priority(world(order[j]))
  }

  /** A set of pods read as a binary number, one digit for each pod of the listing. */
  ghost function Measure(order: seq<UID>, pods: set<UID>): nat {
    if order == [] then 0
    else
      Measure(order[..|order| - 1], pods)
        + if order[|order| - 1] in pods then Pow2(|order| - 1) else 0
  }

  lemma {:induction false} MeasureBound(order: seq<UID>, pods: set<UID>)
    ensures Measure(order, pods) < Pow2(|order|)
  {
    if order != [] {
      MeasureBound(order[..|order| - 1], pods);
    }
  }

  lemma {:induction false} MeasureMonotone(order: seq<UID>, fewer: set<UID>, more: set<UID>)
    requires fewer <= more
    ensures Measure(order, fewer) <= Measure(order, more)
  {
    if order != [] {
      MeasureMonotone(order[..|order| - 1], fewer, more);
    }
  }

  /** Every admission makes the number grow: the digit of the preemptor is set, and only digits
      below it are cleared. */
  lemma {:induction false} AdmissionGrows(world: World, pods: set<UID>, a: Step, order: seq<UID>)
    requires a.Admits? && a.pod !in pods && a.pod in order && ByPriority(world, order)
    requires forall victim :: victim in a.victims ==> IsCandidate(a.queues, world(a.pod), world(victim))
    ensures Measure(order, pods) < Measure(order, pods - a.victims + {a.pod})
  {
    var front, last := order[..|order| - 1], order[|order| - 1];
    if last == a.pod {
      MeasureBound(front, pods);
    } else {
      assert a.pod in front;
      if last in a.victims {
        CandidatesAreLower(a.queues, world(a.pod), world(last));
      }
      AdmissionGrows(world, pods, a, front);
    }
  }

  /** No step lowers the number of the pods that run or are gone. */
  lemma StepGrows(world: World, population: set<UID>, c: Cluster, step: Step, order: seq<UID>)
    requires c.Valid(population) && CanStep(world, population, c, step)
    requires ByPriority(world, order) && forall uid :: uid in population ==> uid in order
    ensures Next(c, step).Valid(population)
    ensures var before, after := c.running + c.gone, Next(c, step).running + Next(c, step).gone;
      Measure(order, after) >= Measure(order, before) + if step.Admits? then 1 else 0
  {
    var before, after := c.running + c.gone, Next(c, step).running + Next(c, step).gone;
    match step
    case Admits(_, pod, victims) =>
      AdmissionGrows(world, before, step, order);
      assert after == before - victims + {pod};
    case Leaves(pod) => MeasureMonotone(order, before, after);
  }

  lemma {:induction false} MaximalPod(world: World, pods: set<UID>) returns (top: UID)
    requires pods != {}
    ensures top in pods && forall uid :: uid in pods ==> Priority(world(uid)) <= Priority(world(top))
  {
    top :| top in pods;
    if pods != {top} {
      var other := MaximalPod(world, pods - {top});
      if Priority(world(other)) > Priority(world(top)) {
        top := other;
      }
    }
  }

  lemma {:induction false} Listing(world: World, pods: set<UID>) returns (order: seq<UID>)
    ensures ByPriority(world, order) && |order| == |pods|
    ensures forall uid :: uid in order <==> uid in pods
  {
    order := [];
    if pods != {} {
      var top := MaximalPod(world, pods);
      var lower := Listing(world, pods - {top});
      assert |pods - {top}| == |pods| - 1;
      order := lower + [top];
    }
  }

  lemma {:induction false} MeasureOfRun(world: World, population: set<UID>, c: Cluster, run: seq<Step>,
                                        order: seq<UID>)
    requires IsRun(world, population, c, run)
    requires ByPriority(world, order) && forall uid :: uid in population ==> uid in order
    ensures After(c, run).Valid(population)
    ensures Measure(order, After(c, run).running + After(c, run).gone) >= Admissions(run)
    ensures |After(c, run).gone| >= |run| - Admissions(run)
  {
    if run != [] {
      var front, last := run[..|run| - 1], run[|run| - 1];
      assert forall i :: 0 <= i < |front| ==> front[i] == run[i] && front[..i] == run[..i];
      MeasureOfRun(world, population, c, front, order);
      StepGrows(world, population, After(c, front), last, order);
      assert last.Leaves? ==> |After(c, run).gone| == |After(c, front).gone| + 1;
    }
  }

  lemma SubsetSize(fewer: set<UID>, more: set<UID>)
    requires fewer <= more
    ensures |fewer| <= |more|
  {
    assert more == fewer + (more - fewer);
  }

  /** Over a fixed population of n pods, in which pods may also finish or be deleted at any time, no
      run has 2^n admissions or more, nor 2^n + n steps or more. */
  lemma NoEndlessPreemption(world: World, population: set<UID>, c: Cluster, run: seq<Step>)
    requires IsRun(world, population, c, run)
    ensures Admissions(run) < Pow2(|population|)
    ensures |run| < Pow2(|population|) + |population|
  {
    var order := Listing(world, population);
    MeasureOfRun(world, population, c, run, order);
    MeasureBound(order, After(c, run).running + After(c, run).gone);
    SubsetSize(After(c, run).gone, population);
  }

  /** Selections make such admissions: a pod that starts after the victims selected for it on a node
      of running pods were evicted takes a step of a run. */
  lemma SelectionIsAdmission(choice: Choice, population: set<UID>, c: Cluster)
    requires choice.Valid() && AllKnown(choice.t.world, choice.pods) && Known(choice.t.world, choice.t.pod)
    requires Uids(choice.t.pods) <= c.running && choice.t.pod.uid in population - c.running - c.gone
    ensures CanStep(choice.t.world, population, c,
                    Admits(choice.t.start, choice.t.pod.uid, Uids(ToSet(choice.victims))))
  {
    SelectionMeaning(choice);
    VictimsAreKnown(choice);
    forall uid | uid in Uids(ToSet(choice.victims))
      ensures uid in c.running && IsCandidate(choice.t.start, choice.t.pod.spec, choice.t.world(uid))
    {
      var victim :| victim in choice.victims && victim.uid == uid;
      assert victim in ToSet(choice.victims);
      assert victim.uid in Uids(choice.t.pods);
    }
  }
}
