# Quota-aware preemption, modelled and proved in Dafny

The scheduler plugin keeps a quota ledger per queue, takes a snapshot of all ledgers for each
scheduling cycle, refuses a pod that would exceed its queue's quota, and looks for victims by
simulating, on one node, the removal and return of lower-priority pods until the preemptor fits the
node and its quota. This project models that engine and proves what it promises: over one call,
across the calls of a cycle, and over whole runs.

## Files

| file | models |
|---|---|
| `Resources.dfy` | resource vectors: in-place add and subtract, the admission test, equivalence |
| `Pods.dfy` | pods, importance, the usage of a set of pods |
| `Ledger.dfy` | the `Quota` class and its ledger invariant |
| `PreemptionConfigs.dfy` | preemption rules built from queue objects |
| `Queues.dfy` | `Queue`, `Manager` and `PreemptionEvaluator` |
| `Pdb.dfy` | the split by disruption budgets |
| `Selection.dfy` | the search that victim selection amounts to, as a reference definition |
| `Plugin.dfy` | cycle state and the plugin: quota gate, simulation hooks, reservation |
| `Preemption.dfy` | victim selection on a node, and eligibility for preemption |
| `Progress.dfy` | selection and the cycles after it: effective, irreducible, not repeated |
| `Termination.dfy` | no endless preemption |
| `Synchronizer.dfy` | informer events, exactly-once counting, snapshot isolation |
| `Safety.dfy` | quota safety over whole runs |
| `Nominations.dfy` | nominated pods hold their room, over whole runs |

Code that changes state is a class whose methods are tied to functions of the old state
(`State()` of a quota, `Contents` of a manager). The promises are then proved about those functions.

## Main results

* **Selection is optimal and irreducible.** With a downward-closed filter, at the first candidate on
  which the selection differs from any other feasible choice, the selection keeps it
  (`Progress.SelectionIsOptimal`), and no victim can be spared (`Progress.EveryVictimIsNeeded`).
* **The most important pods are spared**, in terms of priorities and start times
  (`Progress.VictimsYieldToMoreImportant`), and selection succeeds whenever evicting candidates can
  help (`Progress.SelectionIsComplete`).
* **Nobody is evicted without need**: with such a filter the victims are none if and only if the
  preemptor fits the untouched node, and its quota with every candidate counted (`Progress.NoVictimsIff`).
* **Preemption is effective.** After exactly the victims are deleted, the next cycle passes the quota
  gate (`Progress.PreemptionIsEffective`, and end to end `Progress.PreemptAndRetry`).
* **Preemption is not repeated** while victims are still leaving (`Progress.NoRepeatedPreemption`), and
  resumes once they are gone (`Preemption.EligibleOnceVictimsAreGone`).
* **Nominations hold room.** A pod of no higher priority than a nominated one cannot take its room
  (`Nominations.NominationHoldsRoom`). So preemption stays effective, and is not repeated, over whole
  runs in which such pods are scheduled, victims leave one by one and other queues change at will
  (`Nominations.PreemptionStaysEffective`, `Nominations.PreemptionStaysSingle`).
* **Preemption ends**: over n pods, which may also finish or be deleted at any time, a run has fewer
  than 2^n admissions (`NoEndlessPreemption.NoEndlessPreemption`), and every selection makes such an
  admission (`NoEndlessPreemption.SelectionIsAdmission`).
* **The gate says what it means** in terms of pods, nominations and requests
  (`Plugins.GateStatusMeaning`), and a cycle of gate and reservation takes no queue over a limit
  (`QuotaSafety.GateAndReserve`).
* **Quotas are never exceeded** over runs of cycles and events. The promise is made queue by queue:
  only what happens to that queue matters (`QuotaSafety.QuotasAreNeverExceeded`), and
  `QuotaSafety.EventFitsIff` says exactly which events keep it. It holds for every ordinary event
  (`QuotaSafety.OrdinaryRunsAreSafe`), and in terms of pods for those that the events of a run say
  are counted (`QuotaSafety.AdmittedPodsStayWithinQuota`).
* **Ledgers are exact** over any run (`Ledgers.LedgerRunInv`, `Synchronization.ReachableInv`), as sums
  of what the specifications request (`Ledgers.LedgerRunRequests`). When a
  pod is counted is known exactly, for every run of events (`Synchronization.FateIsExact`): while its
  queue is kept, exactly when the last event that touches it counts it (`Synchronization.ExactlyOnce`).
  Snapshots are isolated (`Synchronization.SnapshotsAreIsolated`).
* **The disruption-budget split is exact, monotone and stable** as long as no counter runs below 32
  bits (`DisruptionBudgets.SplitIsExact`, `SplitIsMonotone`, `SplitIsStablePartition`), and budget by
  budget it is exact only then (`DisruptionBudgets.SplitIsExactIff`).

## Assumptions

* Two objects of one UID agree on requests, labels, namespace, name, priority and start time. The
  ghost parameter `world` maps a UID to that specification; `Known` says that an object agrees with
  it. Objects may differ in phase, deletion mark and conditions. Where a ledger is given an object
  with other requests, `Ledgers.DeleteIsExactIff` says exactly when it stays exact.
* Requests are non-negative. Limits are non-negative where a lemma says so;
  `Resources.EquivalenceIsSoundIff` shows why that is needed.
* UIDs on one node are distinct.
* The filters of the framework are a function of the set of pods on the node. Lemmas that need it to
  be downward closed say so; the others hold for every filter.
* Importance is priority, then start time, with start times set. Sorting is not stable, so only
  "sorted permutation" is known of its result.
* A label selector is an arbitrary predicate on labels.
* Quantities are exact integers. A nil vector is the empty one. The budget counters are 32 bits wide.
* Each locked method is one step.

## Where the code does less than it seems

* `Sub` stores an amount un-negated under a name the receiver does not hold. `DifferenceIsArithmetic`
  says exactly when subtraction is arithmetic; `DeleteKeepsInv` shows that a ledger never gets there.
* The README's promise that a queue's pods cannot exceed its quota fails for a pod that passed the
  gate before its queue existed, unless the pod happens to fit: `QuotaSafety.QueueCreatedInFlight`. It
  also fails for lowered limits and for pods that are counted outside a cycle, exactly where they do
  not fit: `QuotaSafety.EventFitsIff`.
* A deletion seen as a tombstone leaves the pod counted: `Synchronization.TombstoneLeavesPodCounted`.
* Adding a queue again forgets its usage: `Synchronization.ReplacedQueueForgets`. What that means for
  a pod over a run is part of `Synchronization.FateIsExact`.
* A budget counter that would run below 32 bits wraps round, and the pod at which it does is not
  reported: `DisruptionBudgets.SplitIsExactIff` says when, `SplitWraps` gives the smallest case. Only
  a negative `disruptionsAllowed` gets there in practice (`DisruptionBudgets.NonNegativeFits`).
* The part of the eligibility check for preemptors outside every queue is never reached, because the
  evaluator has already refused them.

## Model

| member | source | states |
|---|---|---|
| Resources.Vector.Add | internal/alloc/resource.go:61-74 | in place and whatever the iteration order, every name of either vector ends up with the sum |
| Resources.Vector.Sub | internal/alloc/resource.go:78-91 | in place and whatever the iteration order, a name the receiver holds loses the amount, another gets it un-negated |
| Resources.DifferenceIsArithmetic | internal/alloc/resource.go:78-91 | subtraction is arithmetic if and only if every name missing from the receiver loses zero |
| Resources.AddThenSubtract | internal/alloc/resource.go:61-91 | adding and then subtracting a vector is equivalent to the start, and equal to it exactly when no new name came in |
| Resources.OverMaxReadsQuantities | internal/alloc/resource.go:206-223 | with non-negative limits the test is "some limit is exceeded by used plus requested", absent names being zero |
| Resources.EquivalenceIsSoundIff | internal/alloc/resource.go:337-354 | the test depends only on the Equivalent class of the usage if and only if no limit is negative |
| Pods.SortByImportance | internal/pods/compare.go:9-18 | the result is a permutation, higher priority first and for equal priority earlier start first |
| Pods.QueueLabelMeaning | apis/scheduling/labels.go:4-5 | the queue of a pod is the value of its label scheduling.kaschnit.github.io/queue |
| Pods.PriorityMeaning | internal/queue/preemption.go:70-74 | priorities compare as the numbers they are, and a missing one as zero |
| Pods.UsageMonotone | internal/queue/quota.go:151-161 | counting more pods never lowers the usage of a resource |
| Pods.UsageOfPods | internal/alloc/resource.go:45 | the usage of the "pods" resource is the number of pods |
| Pods.UsageIsRequested | internal/alloc/resource.go:39-48 | the usage of any other resource is the sum of the requests in the pods' specifications, in whatever order they are listed |
| Ledgers.Quota.AddPodIfNotPresent | internal/queue/quota.go:37-55 | the state becomes the old one with each missing pod counted in order, nil pods skipped |
| Ledgers.Quota.DeletePodIfPresent | internal/queue/quota.go:58-76 | the state becomes the old one with each counted pod removed and the passed pod's requests subtracted |
| Ledgers.Quota.DeletePodsFunc | internal/queue/quota.go:80-98 | if each pod is filed under its own UID, exactly the matching pods go, whatever the iteration order and the usage before; the usage is what deleting a list of them leaves |
| Ledgers.DeletesTheMatching | internal/queue/quota.go:80-98 | deleting any enumeration of the matching pods leaves exactly the others, each as it was |
| Ledgers.Quota.WouldPutOverMax | internal/queue/quota.go:151-161 | true exactly when used plus request exceeds a limit it shares a name with |
| Ledgers.Quota.Clone | internal/queue/quota.go:164-177 | a new object with the same limits, usage and pods, and a usage vector of its own |
| Ledgers.CountingAddsRequests | internal/queue/quota.go:50-53 | counting a missing pod adds what its specification requests, one of "pods" and nothing else; counting it again changes nothing |
| Ledgers.AddKeepsInv | internal/queue/quota.go:50-53 | counting a pod keeps usage equal to the sum over counted pods, and counts it once |
| Ledgers.DeleteKeepsInv | internal/queue/quota.go:71-74 | uncounting keeps the ledger exact, and the un-negated branch of subtraction is not taken |
| Ledgers.DeleteIsExactIff | internal/queue/quota.go:71-74 | deleting through an object of the UID keeps the ledger exact if and only if its requests are equivalent to the counted ones |
| Ledgers.LedgerRunInv | internal/queue/quota.go:37-177 | over any run of adds, deletes, predicate deletes, limit changes and clones usage is the sum over counted pods and its "pods" entry their number |
| Ledgers.LedgerRunRequests | internal/queue/quota.go:37-177 | over such a run the usage of a resource other than "pods" is the sum of what the specifications of the counted pods request |
| Ledgers.OverMaxReadsCounted | internal/queue/quota.go:151-161 | on an exact ledger the test is a statement about the set of counted pods |
| Ledgers.AdmitsMonotone | internal/queue/quota.go:151-161 | what a larger set of pods admits, a smaller one admits |
| PreemptionConfigs.LabelSelectorAsMatcherOrNothing | internal/match/label_matcher.go:23-30 | an omitted or malformed selector matches nothing; a well-formed one matches what it selects |
| PreemptionConfigs.MalformedIsReported | internal/queue/preemption.go:114-167 | an error is reported exactly if one of the four selectors is malformed |
| Queues.Queue.ApplyOpts | internal/queue/queue.go:122-133 | the options take effect in order and usage is untouched |
| Queues.OptionsInOrder | internal/queue/queue.go:122-133 | options act one after the other, so that the later of two holds |
| Queues.OptionsKeepLedger | internal/queue/queue.go:122-190 | no option changes a queue's name, usage or counted pods |
| Queues.Queue.CanPodBePreemptedByOthers | internal/queue/queue.go:79-103 | true exactly when the pod's label is the queue's name and its preempted-by rule is set and accepts the pod |
| Queues.QueueOfMeaning | internal/queue/manager.go:37-57 | a pod has a queue exactly if its label names one that the manager has, and then it is that one |
| Queues.Manager.Get | internal/queue/manager.go:37-57 | the queue the label names, or none |
| Queues.Manager.Put | internal/queue/manager.go:60-65 | a new queue with an empty ledger replaces whatever had the name |
| Queues.Manager.Update | internal/queue/manager.go:69-84 | an existing queue takes the options and keeps its usage; a missing one is created |
| Queues.Manager.Delete | internal/queue/manager.go:87-92 | the name goes and every other queue stays |
| Queues.Manager.AddPodIfNotPresent | internal/queue/manager.go:107-126 | the pod is counted in the queue it names only; an error exactly when that queue is missing |
| Queues.Manager.DeletePodIfPresent | internal/queue/manager.go:129-148 | the pod is uncounted in the queue it names only; an error exactly when that queue is missing |
| Queues.Manager.Clone | internal/queue/manager.go:151-163 | the copy has the same contents and shares no object with the original |
| Queues.CountKeepsInv | internal/queue/manager.go:107-126 | the manager invariant is kept, configuration is unchanged, and the counted sets change by this pod in its queue only |
| Queues.UncountKeepsInv | internal/queue/manager.go:129-148 | the same for uncounting; the pod is then counted nowhere |
| Queues.PutKeepsInv | internal/queue/manager.go:60-65 | the manager invariant is kept and the new queue counts nothing |
| Queues.UpdateKeepsInv | internal/queue/manager.go:69-84 | the manager invariant is kept and no queue's counted pods change |
| Queues.PreemptionEvaluator.CanPodPreemptOthers | internal/queue/preemption.go:38-61 | true exactly when the pod has a queue whose preempts rule is set and accepts it |
| Queues.PreemptionEvaluator.IsPreemptionAllowed | internal/queue/preemption.go:64-111 | true exactly when the victim has lower priority and all four selectors of both queues match |
| Queues.ConsentAgrees | internal/queue/preemption.go:38-111 | the three checks agree: the pairwise check is both one-sided checks, lower priority and the two remaining selectors |
| Queues.UnsetRulesForbid | internal/queue/queue.go:79-103 | a queue lets no pod of another be preempted, and a rule without a matcher lets no pod preempt or be preempted |
| Queues.OmittedSelectorNeverConsents | internal/queue/preemption.go:150-167 | a rule that omits a selector, or has a malformed one, allows no preemption on its side |
| DisruptionBudgets.CheckPodRemovalViolations | internal/pdbeval/removal_violation.go:24-79 | the two lists are the two groups of the input, on 32-bit counters |
| DisruptionBudgets.SplitIsExact | internal/pdbeval/removal_violation.go:32-76 | while no counter runs below 32 bits, a pod is violating if and only if it overdraws a budget it consumes |
| DisruptionBudgets.SplitIsExactIff | internal/pdbeval/removal_violation.go:62-67 | each budget on its own is charged rightly at every pod if and only if what is left of it after all consuming pods fits 32 bits |
| DisruptionBudgets.ReportedPodsOverdraw | internal/pdbeval/removal_violation.go:62-67 | wrapping or not, a pod reported as violating overdraws a budget |
| DisruptionBudgets.DemandIsCount | internal/pdbeval/removal_violation.go:62-67 | what a budget is charged is the number of pods that consume it |
| DisruptionBudgets.SinglePodBreaksBudgetIff | internal/pdbeval/removal_violation.go:33-69 | one pod breaks a budget exactly if it has labels and some budget of its namespace, whose selector selects them and which does not hold it as disrupted, allows nothing |
| DisruptionBudgets.SplitWraps | internal/pdbeval/removal_violation.go:62-67 | smallest case of a wrapped counter: the first pod charged to a budget at the bottom of the range is not reported |
| DisruptionBudgets.NonViolatingStaysWithinBudget | internal/pdbeval/removal_violation.go:32-76 | the non-violating pods together never exceed a non-negative budget whose counter does not wrap |
| DisruptionBudgets.SplitIsMonotone | internal/pdbeval/removal_violation.go:32-76 | dropping pods never makes a pod violating |
| DisruptionBudgets.SplitIsStablePartition | internal/pdbeval/removal_violation.go:19-24 | both groups keep the input order and together are the input |
| DisruptionBudgets.GroupHoldsExactly | internal/pdbeval/removal_violation.go:71-75 | a pod is in the violating group at its own place exactly when it violates |
| Plugins.NewQueueSnapshotState | internal/plugin/quotaawarepreempt/state.go:19-29 | a snapshot has the contents of the manager, or none, and shares no object with it |
| Plugins.CycleState.Clone | internal/plugin/quotaawarepreempt/state.go:32-36 | a clone of the cycle state has the same snapshot contents in new objects |
| Plugins.Plugin.PreFilter | internal/plugin/quotaawarepreempt/plugin.go:148-226 | the cycle's snapshot is written in every case, the live queues are untouched, and the status is that of the gate, whose meaning is GateStatusMeaning |
| Plugins.Plugin.CountNominatedPods | internal/plugin/quotaawarepreempt/plugin.go:179-202 | the nested loops count exactly the nominated pods that are ahead |
| Plugins.SnapshotMeaning | internal/plugin/quotaawarepreempt/plugin.go:179-202 | the pod's queue counts the live pods and all nominated pods ahead, each once, whatever the order or duplicates; other queues are unchanged |
| Plugins.GateMeaning | internal/plugin/quotaawarepreempt/plugin.go:217-225 | the gate passes exactly when live and nominated pods leave room for the request |
| Plugins.GateStatusMeaning | internal/plugin/quotaawarepreempt/plugin.go:166-225 | in pods and requests: without a queue success; with one, an error if nodes are not listed, success exactly if the pod and all pods counted live or nominated with no lower priority request no more than each limit, and unschedulable otherwise |
| Plugins.OversizedPodNeverPasses | internal/plugin/quotaawarepreempt/plugin.go:217-222 | a pod that requests more of a resource than its queue's limit never gets success |
| Plugins.Plugin.AddPod | internal/plugin/quotaawarepreempt/plugin.go:268-292 | the snapshot counts the pod; an error exactly when there is no snapshot |
| Plugins.Plugin.RemovePod | internal/plugin/quotaawarepreempt/plugin.go:295-319 | the snapshot uncounts the pod; an error exactly when there is no snapshot |
| Plugins.Plugin.Reserve | internal/plugin/quotaawarepreempt/plugin.go:322-333 | the live queues count the pod; an error exactly when its queue is missing |
| Plugins.Plugin.Unreserve | internal/plugin/quotaawarepreempt/plugin.go:336-344 | the live queues uncount the pod |
| Selection.KeptIsFeasible | internal/plugin/quotaawarepreempt/preemption.go:303-344 | whatever the filter, the preemptor fits after every reprieve if it fitted with all candidates gone |
| Selection.FeasibleIsDownwardClosed | internal/plugin/quotaawarepreempt/preemption.go:314-342 | with a downward-closed filter, whatever can be put back together can be put back in part |
| Selection.GreedyIsLexicographicallyGreatest | internal/plugin/quotaawarepreempt/preemption.go:291-374 | the kept set beats every other feasible set at the first difference |
| Selection.VictimsAreIrreducible | internal/plugin/quotaawarepreempt/preemption.go:303-374 | no proper superset of the kept set is feasible |
| Selection.RejectedIsTheRest | internal/plugin/quotaawarepreempt/preemption.go:346-374 | victims and reprieved pods partition the candidates |
| Selection.NoVictimsMeansFits | internal/plugin/quotaawarepreempt/preemption.go:303-374 | without victims the preemptor fits with every candidate put back |
| Selection.FittingMeansNoVictims | internal/plugin/quotaawarepreempt/preemption.go:303-374 | with a downward-closed filter a preemptor that fits with every candidate put back gets no victims |
| Preemption.WhoIsCandidate | internal/plugin/quotaawarepreempt/preemption.go:391-425 | the candidates are exactly the pods to whose preemption both queues consent, or for a preemptor without a queue exactly those without one and of lower priority |
| Preemption.CandidateListMeaning | internal/plugin/quotaawarepreempt/preemption.go:391-425 | the list holds exactly the candidates on the node, each once |
| Preemption.Preemptor.FindPotentialVictims | internal/plugin/quotaawarepreempt/preemption.go:391-425 | both loops collect exactly the candidates, in node order |
| Preemption.Preemptor.MaybeReprieve | internal/plugin/quotaawarepreempt/preemption.go:303-344 | reprieved if and only if node and quota still fit; the node set and every queue's counted pods are those of the pods kept |
| Preemption.KeptDeterminesUsage | internal/plugin/quotaawarepreempt/preemption.go:314-342 | a failed reprieve restores every queue's counted pods and its usage up to Equivalent |
| Preemption.QuotaCheckIsSearch | internal/plugin/quotaawarepreempt/preemption.go:273-275 | the quota check on the snapshot is the quota side of the search |
| Preemption.Preemptor.RemoveCandidates | internal/plugin/quotaawarepreempt/preemption.go:259-264 | all candidates are off the node and uncounted in every queue |
| Preemption.Preemptor.ReprieveGroup | internal/plugin/quotaawarepreempt/preemption.go:346-374 | the loop over a group keeps and rejects what the search keeps and rejects, and counts the rejected |
| Preemption.Preemptor.SelectVictimsOnNode | internal/plugin/quotaawarepreempt/preemption.go:198-385 | the status is decided by candidates, filter and quota in that order; on success victims, their order and the violation count are those of the search |
| Preemption.Preemptor.PodEligibleToPreemptOthers | internal/plugin/quotaawarepreempt/preemption.go:61-195 | eligible exactly when policy and queue allow it and no pod leaving the nominated node will make room; always when allowed and without a nominated node, or with one that became unfit; never with policy Never |
| Preemption.NotEligible | internal/plugin/quotaawarepreempt/preemption.go:68-114 | an unknown or forbidding policy, a queue that does not let the pod preempt, and a nominated node that is gone each rule it out |
| Preemption.EligibleUnlessRoomIsComing | internal/plugin/quotaawarepreempt/preemption.go:129-173 | only a lower-priority pod being deleted by preemption, that its queue lets be preempted and that shares the quota or meets a preemptor within it, keeps a pod from being eligible again |
| Preemption.EligibleOnceVictimsAreGone | internal/plugin/quotaawarepreempt/preemption.go:116-194 | a pod that may preempt is eligible again once its nominated node holds no lower-priority pod being deleted by preemption |
| Progress.SelectionMeaning | internal/plugin/quotaawarepreempt/preemption.go:266-374 | victims are the candidates not kept, and the preemptor fits the node without them and its quota |
| Progress.SelectionCounts | internal/plugin/quotaawarepreempt/preemption.go:346-384 | no victim twice, victims and kept pods add up to the candidates, victims are sorted, and the violation count is the number of victims from the violating group |
| Progress.SelectionIsOptimal | internal/plugin/quotaawarepreempt/preemption.go:291-374 | against any other feasible choice, the selection keeps the first candidate on which they differ |
| Progress.VictimsConsent | internal/queue/preemption.go:38-111 | every victim has lower priority, and for a queued preemptor passes its own check, as the preemptor does, and both remaining selectors |
| Progress.VictimsAreLower | internal/queue/preemption.go:70-74 | the priority of a victim is a lower number than the preemptor's, a missing one being zero |
| Progress.VictimsInOrder | internal/plugin/quotaawarepreempt/preemption.go:376-384 | victims are returned with higher priority first, then earlier start |
| Progress.GroupsInOrder | internal/plugin/quotaawarepreempt/preemption.go:288-293 | inside each budget group higher priority is tried first, then earlier start |
| Progress.VictimsYieldToMoreImportant | internal/plugin/quotaawarepreempt/preemption.go:288-374 | no victim could have been put back beside just those reprieved pods that come before it: all that break a budget if it does not, and those of its own group that are at least as important |
| Progress.OutcomeMeaning | internal/plugin/quotaawarepreempt/preemption.go:253-285 | which status a selection has, in terms of candidates, filter and quota |
| Progress.SelectionIsComplete | internal/plugin/quotaawarepreempt/preemption.go:253-285 | with a downward-closed filter and some candidate, selection succeeds exactly if evicting some of them lets the preemptor fit |
| Progress.EveryVictimIsNeeded | internal/plugin/quotaawarepreempt/preemption.go:303-374 | putting any single victim back breaks the filter or the quota |
| Progress.NotFittingGetsVictims | internal/plugin/quotaawarepreempt/preemption.go:303-374 | a preemptor that does not fit the untouched node and quota gets a victim |
| Progress.NoVictimsIff | internal/plugin/quotaawarepreempt/preemption.go:303-374 | with a downward-closed filter there are no victims if and only if the preemptor fits the untouched node, and its quota with every candidate counted |
| Progress.GatePassesAfterEviction | internal/plugin/quotaawarepreempt/plugin.go:179-225 | once the victims sharing its quota left the ledger, the preemptor passes the gate, if its own queue was at most relaxed and nothing new is counted in it or nominated ahead; other queues may change at will |
| Progress.SelectionMakesRoom | internal/plugin/quotaawarepreempt/preemption.go:266-374 | a selection finds room: without the victims sharing its quota, the preemptor's queue admits it beside all live and nominated pods |
| Progress.PreemptionIsEffective | internal/plugin/quotaawarepreempt/preemption.go:260-374 | after exactly the victims are deleted from the live queues, the next cycle passes the gate |
| Progress.PreemptAndRetry | internal/plugin/quotaawarepreempt/plugin.go:148-265 | gate, selection on a cloned state, deletion and gate again: after a successful selection the second gate succeeds |
| Progress.SomeVictimMakesRoom | internal/plugin/quotaawarepreempt/preemption.go:133-173 | while a victim remains, some remaining victim shares the quota or the preemptor is within it |
| Progress.NoRepeatedPreemption | internal/plugin/quotaawarepreempt/preemption.go:116-173 | while victims are leaving the nominated node, their queues keep the rule that lets them go and the room they make is there, the preemptor is not eligible again |
| NoEndlessPreemption.AdmissionGrows | internal/queue/preemption.go:70-74 | admitting a pod and evicting its victims makes a priority-weighted measure of the running pods grow |
| NoEndlessPreemption.NoEndlessPreemption | internal/queue/preemption.go:70-74 | over n pods, which may finish or be deleted at any time, a run has fewer than 2^n admissions and fewer than 2^n + n steps |
| NoEndlessPreemption.SelectionIsAdmission | internal/plugin/quotaawarepreempt/preemption.go:198-385 | evicting the victims of a selection and starting its pod is an admission of such a run |
| Synchronization.Synchronizer.AddQueue | internal/queue/synchronizer.go:138-161 | the queue is installed with limits, labels and rules of the object, malformed selectors matching nothing |
| Synchronization.Synchronizer.UpdateQueue | internal/queue/synchronizer.go:163-193 | the queue takes limits, labels and rules of the object and keeps its usage |
| Synchronization.Synchronizer.DeleteQueue | internal/queue/synchronizer.go:195-209 | the queue and its usage are gone |
| Synchronization.Synchronizer.AddPod | internal/queue/synchronizer.go:211-225 | a pod is counted, anything else is ignored |
| Synchronization.Synchronizer.UpdatePod | internal/queue/synchronizer.go:227-251 | the pod is uncounted exactly when it was not finished and now is neither pending nor running; an update to a pending or running pod changes nothing |
| Synchronization.Synchronizer.DeletePod | internal/queue/synchronizer.go:253-267 | a pod is uncounted, a tombstone is ignored |
| Synchronization.PodEventsMeaning | internal/queue/synchronizer.go:211-267 | a reported or reserved pod is counted in its queue, a deleted or unreserved one nowhere, and anything but a pod changes nothing |
| Synchronization.UpdateMeaning | internal/queue/synchronizer.go:227-251 | what an update does, phase by phase |
| Synchronization.QueueEventsMeaning | internal/queue/synchronizer.go:138-209 | an added or updated queue has the labels and limits of its object and an empty or kept ledger, a deleted one is gone, and no other queue changes |
| Synchronization.ObjectsDecidePreemption | internal/queue/preemption.go:38-167 | a pod may preempt another exactly if it has higher priority and the four selectors in the objects of both queues accept, each the right pod |
| Synchronization.ReachableInv | internal/queue/synchronizer.go:138-267 | after any run of events every queue is filed under its name, its ledger is exact, and it counts only its own pods |
| Synchronization.FateIsExact | internal/queue/synchronizer.go:138-267 | after any run of events, queues added, added again, updated or deleted among them, a pod's queue is there and counts it exactly when its fate says so, and no other queue counts it |
| Synchronization.ExactlyOnce | internal/queue/synchronizer.go:211-267 | while its queue is neither replaced nor deleted, a pod is counted in it exactly when the last event touching it counts it |
| Synchronization.ReservedPodStaysCounted | internal/queue/synchronizer.go:227-267 | a reserved pod stays counted while its queue is kept, it is neither deleted nor unreserved, and updates leave it pending or running |
| Synchronization.TombstoneLeavesPodCounted | internal/queue/synchronizer.go:253-267 | a deletion seen as a tombstone leaves the pod counted |
| Synchronization.ReplacedQueueForgets | internal/queue/manager.go:60-65 | adding a queue again forgets every pod it counted and touches no other queue |
| Synchronization.SnapshotsAreIsolated | internal/queue/manager.go:151-163 | however changes to the live queues, a snapshot and its clone interleave, each behaves as if alone, down to the usage vectors, which are objects changed in place |
| QuotaSafety.CountingIsWithinMaxIff | internal/plugin/quotaawarepreempt/plugin.go:322-333 | counting a pod keeps its queue within its limits if and only if the queue has room |
| QuotaSafety.EventFitsIff | internal/queue/synchronizer.go:138-267 | an event keeps the pods counted, in flight and holding room within a queue's limits if and only if what it brings to that queue fits |
| QuotaSafety.StepLeavesRoom | internal/plugin/quotaawarepreempt/plugin.go:148-344 | every step of a cycle, or event, that leaves room for a claim on a queue keeps the claim within its limits |
| QuotaSafety.ClaimsAreKept | internal/plugin/quotaawarepreempt/plugin.go:148-344 | the same for whole runs, whatever happens to other queues |
| QuotaSafety.QuotasAreNeverExceeded | README.md:19 | a queue within its quota is never taken over a limit by a run in which what happens to that queue leaves room for its pods |
| QuotaSafety.OrdinaryRunsAreSafe | README.md:19 | in particular if its pods come through reservations, its limits are not lowered and it is not created with a pod of its name in flight |
| QuotaSafety.AdmittedStaysWithinMax | internal/plugin/quotaawarepreempt/plugin.go:217-225 | reserving a pod for which the gate answered success takes no queue over a limit |
| QuotaSafety.GateAndReserve | internal/plugin/quotaawarepreempt/plugin.go:148-333 | the methods together: a cycle that reserves only after success takes no queue over a limit, and after any other answer counts nothing |
| QuotaSafety.RunIsItsEvents | internal/queue/synchronizer.go:138-267 | a run leaves the live queues as handling its events and reservations one by one does |
| QuotaSafety.AdmittedPodsStayWithinQuota | README.md:19 | the pods that by the events of a run are counted in a queue at its end request together no more than the queue's limits, even if it was deleted and created again |
| QuotaSafety.QueueCreatedInFlight | internal/plugin/quotaawarepreempt/plugin.go:166-169 | a queue created between gate and reservation is safe if and only if its limits are not negative and the pod in flight, if of that queue, fits them; the reservation then exceeds them exactly if it does not fit |
| Nominations.NominationHoldsRoom | internal/plugin/quotaawarepreempt/plugin.go:176-202 | once another pod of the queue, of no higher priority than a nominated one, passes the gate and is reserved, the nominated one still passes |
| Nominations.NominatedAheadGivesWay | internal/plugin/quotaawarepreempt/plugin.go:183-199 | passing the gate with a pod nominated ahead leaves room for that pod and those ahead of it |
| Nominations.RoomIsHeld | internal/plugin/quotaawarepreempt/plugin.go:176-225 | the room that a selection makes is there for the preemptor after any run that gives way to it |
| Nominations.PreemptionStaysEffective | internal/plugin/quotaawarepreempt/plugin.go:176-225 | after any such run, once no victim sharing its quota is counted, the preemptor passes the gate |
| Nominations.PreemptionStaysSingle | internal/plugin/quotaawarepreempt/preemption.go:116-173 | after any such run, while a victim remains on the nominated node, the preemptor is not eligible again |

## Left out

- Informers, clientsets, listers, leader election, status patching, logging, metrics, Helm and generated code: input and output.
- The filter for assigned pods in front of the pod handlers: events are those that reach a handler.
- The handlers of queue events when handed something other than a queue: the model gives them a queue.
- Framework internals, such as running filters with nominated pods, choosing among nodes and the binding of pods: not part of this model beyond the filter predicate and the set of pods on a node.
- Error returns of node bookkeeping and of other plugins' hooks: with distinct UIDs the node ones do not arise.
- Nil receivers and a nil predicate: methods are called on objects; nil pods are modelled.
- Limit vectors as objects: limits are only ever replaced as a whole, so that they are values here, and the copy of them in a clone is not expressed. Usage vectors are objects.
- The getters of a quota (`Max`, `Used`, `ContainsPod`): they would only add easy members.
- Lock-level interleavings: a locked method is one step, and cloning a manager is one step though the source clones queue by queue.
- Messages, reasons and string forms.
- Random offset, node scoring and the map of victims: nothing to prove.
- The cluster resource tracker, node aggregator, effective limits in the status, and comparisons that nothing calls.
- The gate before enqueueing during asynchronous preemption: it asks the framework.
