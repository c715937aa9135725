/** Preemption configuration and label matchers (internal/queue/preemption.go, internal/match). */
module PreemptionConfigs {
  import opened Pods

  /** A label matcher: the one that matches nothing, or a selector, whose evaluation is left open. */
  datatype LabelMatcher = Nothing | Selects(matches: Labels -> bool) {
    predicate Matches(labels: Labels) {
      Selects? && matches(labels)
    }
  }

  /** A selector as written in a queue object. */
  datatype LabelSelector = Omitted | Malformed | WellFormed(matches: Labels -> bool)

  /** One side of a queue's configuration.  A queue that was never configured has no matchers. */
  datatype PreemptionRule = PreemptionRule(fromPods: Option<LabelMatcher>, toPods: Option<LabelMatcher>) {
    predicate IsSet() {
      fromPods.Some? && toPods.Some?
    }

    predicate AcceptsFrom(labels: Labels) {
      fromPods.Some? && fromPods.value.Matches(labels)
    }

    predicate AcceptsTo(labels: Labels) {
      toPods.Some? && toPods.value.Matches(labels)
    }
  }

  datatype PreemptionConfig = PreemptionConfig(preempts: PreemptionRule, preemptedBy: PreemptionRule)

  const UNCONFIGURED := PreemptionConfig(PreemptionRule(None, None), PreemptionRule(None, None))

  datatype RuleSpec = RuleSpec(fromPods: LabelSelector, toPods: LabelSelector)

  datatype PreemptionSpec = PreemptionSpec(preempts: RuleSpec, preemptedBy: RuleSpec)

  function LabelSelectorAsMatcherOrNothing(selector: LabelSelector): (result: (LabelMatcher, bool))
    ensures result.1 <==> selector.Malformed?
    ensures forall labels :: result.0.Matches(labels) <==> selector.WellFormed? && selector.matches(labels)
  {
    match selector
    case Omitted => (Nothing, false)
    case Malformed => (Nothing, true)
    case WellFormed(matches) => (Selects(matches), false)
  }

  function RuleFromSpec(spec: RuleSpec): (PreemptionRule, bool) {
    var from := LabelSelectorAsMatcherOrNothing(spec.fromPods);
    var to := LabelSelectorAsMatcherOrNothing(spec.toPods);
    (PreemptionRule(Some(from.0), Some(to.0)), from.1 || to.1)
  }

  /** The configuration, and whether some selector was malformed.  The caller applies the
      configuration either way. */
  function ConfigFromSpec(spec: PreemptionSpec): (PreemptionConfig, bool) {
    var preempts := RuleFromSpec(spec.preempts);
    var preemptedBy := RuleFromSpec(spec.preemptedBy);
    (PreemptionConfig(preempts.0, preemptedBy.0), preempts.1 || preemptedBy.1)
  }

  /** An error is reported exactly if one of the four selectors is malformed. */
  lemma MalformedIsReported(spec: PreemptionSpec)
    ensures ConfigFromSpec(spec).1 <==>
      || spec.preempts.fromPods.Malformed? || spec.preempts.toPods.Malformed?
      || spec.preemptedBy.fromPods.Malformed? || spec.preemptedBy.toPods.Malformed?
  {
  }
}
