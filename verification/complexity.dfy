/**
 The complexity score of a workflow's deterministic metrics.
 */
module Complexity {
  import opened Contracts

  function CalculateComplexity(m: DeterministicMetrics): (c: ComplexityScore)
    ensures c.score >= m.activityCount + m.variableCount + 3 * m.nestingDepth
    ensures c.level == LevelFor(c.score)
  {
    var score :=
      m.activityCount * 1
      + m.nestingDepth * 3
      + m.variableCount * 1
      + m.invokedWorkflows * 2
      + (if m.hasCustomCode then 5 else 0);
    ComplexityScore(score, LevelFor(score))
  }

  /** `m1` is nowhere larger than `m2`. */
  predicate Dominated(m1: DeterministicMetrics, m2: DeterministicMetrics) {
    && m1.activityCount <= m2.activityCount
    && m1.variableCount <= m2.variableCount
    && m1.nestingDepth <= m2.nestingDepth
    && m1.invokedWorkflows <= m2.invokedWorkflows
    && (m1.hasCustomCode ==> m2.hasCustomCode)
  }

  /** More of anything never lowers the score or the tier. */
  lemma ComplexityMonotone(m1: DeterministicMetrics, m2: DeterministicMetrics)
    requires Dominated(m1, m2)
    ensures CalculateComplexity(m1).score <= CalculateComplexity(m2).score
    ensures CalculateComplexity(m1).level.Rank() <= CalculateComplexity(m2).level.Rank()
  {
    LevelMonotone(CalculateComplexity(m1).score, CalculateComplexity(m2).score);
  }

  /** One more level of nesting weighs 3, one more invoked workflow 2, one more
      activity or variable 1, and custom code a flat 5. */
  lemma ComplexityWeights(m: DeterministicMetrics)
    ensures CalculateComplexity(m.(nestingDepth := m.nestingDepth + 1)).score == CalculateComplexity(m).score + 3
    ensures CalculateComplexity(m.(invokedWorkflows := m.invokedWorkflows + 1)).score == CalculateComplexity(m).score + 2
    ensures CalculateComplexity(m.(activityCount := m.activityCount + 1)).score == CalculateComplexity(m).score + 1
    ensures CalculateComplexity(m.(variableCount := m.variableCount + 1)).score == CalculateComplexity(m).score + 1
    ensures !m.hasCustomCode ==>
      CalculateComplexity(m.(hasCustomCode := true)).score == CalculateComplexity(m).score + 5
    ensures CalculateComplexity(DeterministicMetrics(0, 0, 0, 0, false)).score == 0
  {
  }

  /** 10 activities, depth 2, 5 variables, nothing invoked, no custom code:
      10 + 6 + 5 = 21, Medium. */
  lemma ComplexityExample()
    ensures CalculateComplexity(DeterministicMetrics(10, 5, 2, 0, false)) == ComplexityScore(21, Medium)
  {
  }
}
