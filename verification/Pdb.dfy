/** Splitting pods by whether evicting them breaks a disruption budget
    (internal/pdbeval/removal_violation.go). */
module DisruptionBudgets {
  import opened Pods

  newtype int32 = x: int | -0x8000_0000 <= x < 0x8000_0000

  /** A budget's selector.  The empty selector, like an absent one, applies to no pod. */
  datatype BudgetSelector = Invalid | Empty | Matching(matches: Labels -> bool)

  datatype Budget = Budget(
    namespace: string,
    selector: BudgetSelector,
    disruptionsAllowed: int32,
    disruptedPods: set<string>)

  /** The value a 32-bit counter shows for an unbounded amount. */
  function Wrap(x: int): int {
    (x + 0x8000_0000) % 0x1_0000_0000 - 0x8000_0000
  }

  function Decrement(x: int32): (r: int32)
    ensures r as int == Wrap(x as int - 1)
  {
    if x as int == -0x8000_0000 then 0x7fff_ffff else x - 1
  }

  /** Evicting the pod would use up one disruption of the budget. */
  predicate Consumes(budget: Budget, pod: Pod) {
    && |pod.spec.labels| > 0
    && budget.namespace == pod.spec.namespace
    && budget.selector.Matching?
    && budget.selector.matches(pod.spec.labels)
    && pod.spec.name !in budget.disruptedPods
  }

  /** How many pods of a list consume the budget. */
  function Demand(pods: seq<Pod>, budget: Budget): nat {
    if pods == [] then 0
    else Demand(pods[..|pods| - 1], budget) + if Consumes(budget, pods[|pods| - 1]) then 1 else 0
  }

  /** What is left of the budget after the pods of a list, on a 32-bit counter. */
  function Remaining(pods: seq<Pod>, budget: Budget): int {
    Wrap(budget.disruptionsAllowed as int - Demand(pods, budget))
  }

  /** The last pod of a list consumes some budget that the list overdraws. */
  predicate LastViolates(pods: seq<Pod>, budgets: seq<Budget>)
    requires pods != []
  {
    exists i :: 0 <= i < |budgets| && Consumes(budgets[i], pods[|pods| - 1]) && Remaining(pods, budgets[i]) < 0
  }

  predicate ViolatesAt(pods: seq<Pod>, budgets: seq<Budget>, k: nat)
    requires k < |pods|
  {
    LastViolates(pods[..k + 1], budgets)
  }

  /** The pods that violate a budget, or those that do not, in their original order. */
  function Group(pods: seq<Pod>, budgets: seq<Budget>, violating: bool): seq<Pod> {
    if pods == [] then []
    else
      Group(pods[..|pods| - 1], budgets, violating)
        + if LastViolates(pods, budgets) == violating then [pods[|pods| - 1]] else []
  }

  method CheckPodRemovalViolations(pods: seq<Pod>, budgets: seq<Budget>) returns (violating: seq<Pod>,
                                   nonViolating: seq<Pod>)
    ensures violating == Group(pods, budgets, true)
    ensures nonViolating == Group(pods, budgets, false)
  {
    var allowed := new int32[|budgets|](i requires 0 <= i < |budgets| => budgets[i].disruptionsAllowed);
    violating, nonViolating := [], [];
    for k := 0 to |pods|
      invariant violating == Group(pods[..k], budgets, true)
      invariant nonViolating == Group(pods[..k], budgets, false)
      invariant forall i :: 0 <= i < |budgets| ==> allowed[i] as int == Remaining(pods[..k], budgets[i])
    {
      ghost var upTo := pods[..k + 1];
      assert upTo[..k] == pods[..k] && upTo[k] == pods[k];
      var violates := ChargeBudgets(pods[k], budgets, allowed, upTo);
      if violates {
        violating := violating + [pods[k]];
      } else {
        nonViolating := nonViolating + [pods[k]];
      }
    }
    assert pods[..|pods|] == pods;
  }

  /** Charges the last pod of a list to every budget it consumes, and tells whether one of them is
      overdrawn. */
  method ChargeBudgets(pod: Pod, budgets: seq<Budget>, allowed: array<int32>,
                       ghost pods: seq<Pod>) returns (violates: bool)
    requires pods != [] && pod == pods[|pods| - 1] && allowed.Length == |budgets|
    requires forall i :: 0 <= i < |budgets| ==> allowed[i] as int == Remaining(pods[..|pods| - 1], budgets[i])
    modifies allowed
    ensures forall i :: 0 <= i < |budgets| ==> allowed[i] as int == Remaining(pods, budgets[i])
    ensures violates <==> LastViolates(pods, budgets)
  {
    violates := false;
    if |pod.spec.labels| > 0 {
      for i := 0 to |budgets|
        invariant forall j :: 0 <= j < i ==> allowed[j] as int == Remaining(pods, budgets[j])
        invariant forall j :: i <= j < |budgets| ==> allowed[j] as int == Remaining(pods[..|pods| - 1], budgets[j])
        invariant violates <==> exists j :: 0 <= j < i && Consumes(budgets[j], pod) && Remaining(pods, budgets[j]) < 0
      {
        var budget := budgets[i];
        RemainingStep(pods, budget);
        if budget.namespace != pod.spec.namespace {
          continue;
        }
        if budget.selector.Invalid? {
          continue;
        }
        if budget.selector.Empty? || !budget.selector.matches(pod.spec.labels) {
          continue;
        }
        if pod.spec.name in budget.disruptedPods {
          continue;
        }
        allowed[i] := Decrement(allowed[i]);
        if allowed[i] < 0 {
          violates := true;
        }
      }
    }
  }

  lemma RemainingStep(pods: seq<Pod>, budget: Budget)
    requires pods != []
    ensures var front, last := pods[..|pods| - 1], pods[|pods| - 1];
      Remaining(pods, budget)
        == if Consumes(budget, last) then Wrap(Remaining(front, budget) - 1) else Remaining(front, budget)
  {
  }

  // ---- What the split means ---------------------------------------------------------------

  /** What is left of the budget after the whole list fits the counter.  So it does for a budget of
      the API, whose allowed disruptions are not negative: see `NonNegativeFits`. */
  predicate CounterFits(pods: seq<Pod>, budget: Budget) {
    budget.disruptionsAllowed as int - Demand(pods, budget) >= -0x8000_0000
  }

  predicate NoWrap(pods: seq<Pod>, budgets: seq<Budget>) {
    forall i :: 0 <= i < |budgets| ==> CounterFits(pods, budgets[i])
  }

  /** The pod consumes the budget, and the consuming pods up to and including it are more than the
      disruptions allowed. */
  predicate Overdraws(pods: seq<Pod>, budget: Budget, k: nat)
    requires k < |pods|
  {
    Consumes(budget, pods[k]) && Demand(pods[..k + 1], budget) > budget.disruptionsAllowed as int
  }

  /** What the split promises at one pod. */
  predicate RightAt(pods: seq<Pod>, budgets: seq<Budget>, k: nat)
    requires k < |pods|
  {
    ViolatesAt(pods, budgets, k) <==> exists i :: 0 <= i < |budgets| && Overdraws(pods, budgets[i], k)
  }

  lemma {:induction false} DemandBound(pods: seq<Pod>, budget: Budget)
    ensures Demand(pods, budget) <= |pods|
  {
    if pods != [] {
      DemandBound(pods[..|pods| - 1], budget);
    }
  }

  lemma {:induction false} DemandOfPrefix(pods: seq<Pod>, k: nat, budget: Budget)
    requires k <= |pods|
    ensures Demand(pods[..k], budget) <= Demand(pods, budget)
  {
    if k < |pods| {
      var front := pods[..|pods| - 1];
      assert front[..k] == pods[..k];
      DemandOfPrefix(front, k, budget);
    } else {
      assert pods[..k] == pods;
    }
  }

  /** No budget with a non-negative allowance makes a counter wrap, on any list of fewer pods than
      the counter has negative values. */
  lemma NonNegativeFits(pods: seq<Pod>, budget: Budget)
    requires budget.disruptionsAllowed >= 0 && |pods| <= 0x8000_0000
    ensures CounterFits(pods, budget)
  {
    DemandBound(pods, budget);
  }

  /** Demand grows one by one: every value up to the total is reached, at a consuming pod. */
  lemma {:induction false} ReachesDemand(pods: seq<Pod>, budget: Budget, d: nat) returns (k: nat)
    requires 1 <= d <= Demand(pods, budget)
    ensures k < |pods| && Consumes(budget, pods[k]) && Demand(pods[..k + 1], budget) == d
  {
    var n := |pods| - 1;
    if d <= Demand(pods[..n], budget) {
      k := ReachesDemand(pods[..n], budget, d);
      assert pods[..n][..k + 1] == pods[..k + 1];
    } else {
      k := n;
      assert pods[..k + 1] == pods;
    }
  }

  lemma ExactCounter(pods: seq<Pod>, budget: Budget, k: nat)
    requires k < |pods| && CounterFits(pods, budget)
    ensures Remaining(pods[..k + 1], budget) == budget.disruptionsAllowed as int - Demand(pods[..k + 1], budget)
  {
    DemandOfPrefix(pods, k + 1, budget);
  }

  /** A counter that is not overdrawn is exact, so a reported pod always overdraws a budget. */
  lemma ReportedPodsOverdraw(pods: seq<Pod>, budgets: seq<Budget>, k: nat)
    requires k < |pods| && ViolatesAt(pods, budgets, k)
    ensures exists i :: 0 <= i < |budgets| && Overdraws(pods, budgets[i], k)
  {
    var upTo := pods[..k + 1];
    var i :| 0 <= i < |budgets| && Consumes(budgets[i], upTo[|upTo| - 1]) && Remaining(upTo, budgets[i]) < 0;
    assert Overdraws(pods, budgets[i], k);
  }

  /** A pod is violating exactly when it overdraws a budget. */
  lemma SplitIsExact(pods: seq<Pod>, budgets: seq<Budget>, k: nat)
    requires k < |pods| && NoWrap(pods, budgets)
    ensures RightAt(pods, budgets, k)
  {
    if ViolatesAt(pods, budgets, k) {
      ReportedPodsOverdraw(pods, budgets, k);
    }
    if i :| 0 <= i < |budgets| && Overdraws(pods, budgets[i], k) {
      ExactCounter(pods, budgets[i], k);
    }
  }

  /** The pod at which the counter of a budget wraps round is not reported. */
  lemma WrapIsMissed(pods: seq<Pod>, budget: Budget) returns (k: nat)
    requires !CounterFits(pods, budget)
    ensures k < |pods| && !RightAt(pods, [budget], k)
  {
    k := ReachesDemand(pods, budget, budget.disruptionsAllowed as int + 0x8000_0001);
    assert Remaining(pods[..k + 1], budget) == 0x7fff_ffff;
    assert Overdraws(pods, [budget][0], k);
  }

  /** Exactly when the split is right: each budget on its own is charged rightly at every pod if and
      only if no counter runs below 32 bits. */
  lemma SplitIsExactIff(pods: seq<Pod>, budgets: seq<Budget>)
    ensures (forall i, k :: 0 <= i < |budgets| && 0 <= k < |pods| ==> RightAt(pods, [budgets[i]], k))
       <==> NoWrap(pods, budgets)
  {
    forall i | 0 <= i < |budgets|
      ensures (forall k :: 0 <= k < |pods| ==> RightAt(pods, [budgets[i]], k)) <==> CounterFits(pods, budgets[i])
    {
      CounterIsExactIff(pods, budgets[i]);
    }
  }

  lemma CounterIsExactIff(pods: seq<Pod>, budget: Budget)
    ensures (forall k :: 0 <= k < |pods| ==> RightAt(pods, [budget], k)) <==> CounterFits(pods, budget)
  {
    if CounterFits(pods, budget) {
      forall k | 0 <= k < |pods|
        ensures RightAt(pods, [budget], k)
      {
        SplitIsExact(pods, [budget], k);
      }
    } else {
      var k := WrapIsMissed(pods, budget);
    }
  }

  lemma WrappedCounter(pod: Pod, budget: Budget)
    requires Consumes(budget, pod) && budget.disruptionsAllowed as int == -0x8000_0000
    ensures Demand([pod], budget) == 1
    ensures Remaining([pod], budget) == 0x7fff_ffff
  {
    assert [pod][..0] == [];
  }

  ghost function ConsumerIndexes(pods: seq<Pod>, budget: Budget): set<nat> {
    set k | 0 <= k < |pods| && Consumes(budget, pods[k])
  }

  lemma ConsumerIndexesStep(pods: seq<Pod>, last: Pod, budget: Budget)
    ensures ConsumerIndexes(pods + [last], budget)
         == ConsumerIndexes(pods, budget) + if Consumes(budget, last) then {|pods|} else {}
  {
  }

  /** Demand is how many pods of the list consume the budget. */
  lemma {:induction false} DemandIsCount(pods: seq<Pod>, budget: Budget)
    ensures Demand(pods, budget) == |ConsumerIndexes(pods, budget)|
  {
    if pods != [] {
      var front, last := pods[..|pods| - 1], pods[|pods| - 1];
      DemandIsCount(front, budget);
      ConsumerIndexesStep(front, last, budget);
      assert pods == front + [last] && |front| !in ConsumerIndexes(front, budget);
    }
  }

  /** In terms of the objects, for a single pod: it breaks a budget if and only if some budget of its
      namespace, with a selector that selects its labels and not holding it as disrupted already, allows
      no disruption; a pod without labels breaks none. */
  lemma {:induction false} SinglePodBreaksBudgetIff(pod: Pod, budgets: seq<Budget>)
    requires forall i :: 0 <= i < |budgets| ==> budgets[i].disruptionsAllowed as int > -0x8000_0000
    ensures Group([pod], budgets, true) == [pod] <==> pod.spec.labels != map[] && exists i :: (
      && 0 <= i < |budgets| && budgets[i].disruptionsAllowed <= 0
      && budgets[i].namespace == pod.spec.namespace
      && budgets[i].selector.Matching? && budgets[i].selector.matches(pod.spec.labels)
      && pod.spec.name !in budgets[i].disruptedPods)
  {
    assert [pod][..0] == [];
    assert |pod.spec.labels| == 0 <==> pod.spec.labels == map[];
    forall i | 0 <= i < |budgets|
      ensures Demand([pod], budgets[i]) == if Consumes(budgets[i], pod) then 1 else 0
    {
    }
    assert Group([pod], budgets, true) == Group([], budgets, true) + if LastViolates([pod], budgets) then [pod] else [];
  }

  /** The smallest case: the first pod that consumes a budget at the bottom of the 32-bit range is
      not reported. */
  lemma SplitWraps(pod: Pod, budget: Budget)
    requires Consumes(budget, pod) && budget.disruptionsAllowed as int == -0x8000_0000
    ensures Group([pod], [budget], false) == [pod]
  {
    WrappedCounter(pod, budget);
    assert !LastViolates([pod], [budget]);
    assert Group([pod][..0], [budget], false) == [];
  }

  /** The non-violating pods together stay within every budget whose counter does not wrap. */
  lemma {:induction false} NonViolatingStaysWithinBudget(pods: seq<Pod>, budgets: seq<Budget>, i: nat)
    requires i < |budgets| && CounterFits(pods, budgets[i]) && budgets[i].disruptionsAllowed >= 0
    ensures Demand(Group(pods, budgets, false), budgets[i]) <= budgets[i].disruptionsAllowed as int
    ensures Demand(Group(pods, budgets, false), budgets[i]) <= Demand(pods, budgets[i])
  {
    if pods != [] {
      var front, last := pods[..|pods| - 1], pods[|pods| - 1];
      DemandOfPrefix(pods, |front|, budgets[i]);
      NonViolatingStaysWithinBudget(front, budgets, i);
      var group := Group(front, budgets, false);
      if !LastViolates(pods, budgets) {
        assert Group(pods, budgets, false) == group + [last];
        assert (group + [last])[..|group|] == group;
        assert Consumes(budgets[i], last) ==> Demand(pods, budgets[i]) <= budgets[i].disruptionsAllowed as int;
      } else {
        assert Group(pods, budgets, false) == group + [] == group;
      }
    }
  }

  /** An index map that keeps some pods of a list, in order. */
  ghost predicate Keeps(fewer: seq<Pod>, more: seq<Pod>, at: seq<nat>) {
    && |at| == |fewer|
    && (forall k :: 0 <= k < |at| ==> at[k] < |more| && more[at[k]] == fewer[k])
    && (forall j, k :: 0 <= j < k < |at| ==> at[j] < at[k])
  }

  lemma {:induction false} DemandOfFewer(fewer: seq<Pod>, more: seq<Pod>, at: seq<nat>, budget: Budget)
    requires Keeps(fewer, more, at)
    ensures Demand(fewer, budget) <= Demand(more, budget)
    decreases |more|
  {
    if fewer != [] {
      var k, n := |fewer| - 1, |more| - 1;
      if at[k] == n {
        DemandOfFewer(fewer[..k], more[..n], at[..k], budget);
      } else {
        DemandOfFewer(fewer, more[..n], at, budget);
      }
    }
  }

  /** Dropping pods from the list never makes a pod violating that was not. */
  lemma SplitIsMonotone(fewer: seq<Pod>, more: seq<Pod>, at: seq<nat>, budgets: seq<Budget>, k: nat)
    requires Keeps(fewer, more, at) && NoWrap(more, budgets) && k < |fewer|
    ensures ViolatesAt(fewer, budgets, k) ==> ViolatesAt(more, budgets, at[k])
  {
    if ViolatesAt(fewer, budgets, k) {
      ReportedPodsOverdraw(fewer, budgets, k);
      var i :| 0 <= i < |budgets| && Overdraws(fewer, budgets[i], k);
      DemandOfFewer(fewer[..k + 1], more[..at[k] + 1], at[..k + 1], budgets[i]);
      assert Overdraws(more, budgets[i], at[k]);
      SplitIsExact(more, budgets, at[k]);
    }
  }

  /** The indexes of a group's pods. */
  ghost function GroupIndexes(pods: seq<Pod>, budgets: seq<Budget>, violating: bool): seq<nat> {
    if pods == [] then []
    else
      GroupIndexes(pods[..|pods| - 1], budgets, violating)
        + if LastViolates(pods, budgets) == violating then [|pods| - 1] else []
  }

  /** Both groups keep the order of the list, and together they are the list. */
  lemma SplitIsStablePartition(pods: seq<Pod>, budgets: seq<Budget>)
    ensures multiset(Group(pods, budgets, true)) + multiset(Group(pods, budgets, false)) == multiset(pods)
    ensures Keeps(Group(pods, budgets, true), pods, GroupIndexes(pods, budgets, true))
    ensures Keeps(Group(pods, budgets, false), pods, GroupIndexes(pods, budgets, false))
  {
    GroupKeeps(pods, budgets, true);
    GroupKeeps(pods, budgets, false);
    GroupsAreAll(pods, budgets);
  }

  lemma {:induction false} GroupsAreAll(pods: seq<Pod>, budgets: seq<Budget>)
    ensures multiset(Group(pods, budgets, true)) + multiset(Group(pods, budgets, false)) == multiset(pods)
  {
    if pods != [] {
      var front, last := pods[..|pods| - 1], pods[|pods| - 1];
      GroupsAreAll(front, budgets);
      assert pods == front + [last];
      var violates := LastViolates(pods, budgets);
      assert Group(pods, budgets, violates) == Group(front, budgets, violates) + [last];
      assert Group(pods, budgets, !violates) == Group(front, budgets, !violates);
    }
  }

  lemma KeepsLast(fewer: seq<Pod>, more: seq<Pod>, at: seq<nat>, last: Pod)
    requires Keeps(fewer, more, at)
    ensures Keeps(fewer + [last], more + [last], at + [|more|])
  {
  }

  lemma DropsLast(fewer: seq<Pod>, more: seq<Pod>, at: seq<nat>, last: Pod)
    requires Keeps(fewer, more, at)
    ensures Keeps(fewer, more + [last], at)
  {
  }

  lemma {:induction false} GroupKeeps(pods: seq<Pod>, budgets: seq<Budget>, violating: bool)
    ensures Keeps(Group(pods, budgets, violating), pods, GroupIndexes(pods, budgets, violating))
  {
    if pods != [] {
      var front, last := pods[..|pods| - 1], pods[|pods| - 1];
      GroupKeeps(front, budgets, violating);
      var group, at := Group(front, budgets, violating), GroupIndexes(front, budgets, violating);
      assert pods == front + [last];
      if LastViolates(pods, budgets) == violating {
        KeepsLast(group, front, at, last);
      } else {
        assert Group(pods, budgets, violating) == group && GroupIndexes(pods, budgets, violating) == at;
        DropsLast(group, front, at, last);
      }
    }
  }

  /** A pod is in the violating group, at its own place, exactly when it violates. */
  lemma {:induction false} GroupHoldsExactly(pods: seq<Pod>, budgets: seq<Budget>, violating: bool, k: nat)
    requires k < |pods|
    ensures k in GroupIndexes(pods, budgets, violating) <==> ViolatesAt(pods, budgets, k) == violating
  {
    var front := pods[..|pods| - 1];
    GroupKeeps(front, budgets, violating);
    if k < |front| {
      GroupHoldsExactly(front, budgets, violating, k);
      assert pods[..k + 1] == front[..k + 1];
    } else {
      assert pods[..k + 1] == pods;
    }
  }
}
