/**
 The records passed between the parser, the metrics extractor and the
 complexity scorer, and the complexity tiers shared by both scorers.
 */
module Contracts {

  /** The normalised result of reading one workflow file. The lxml tree the
      parser also returns is used only inside one call and is not kept here. */
  datatype ParsedWorkflow = ParsedWorkflow(
    platform: string,
    activities: seq<string>,
    variables: seq<string>,
    nestingDepth: nat
  )

  /** Deterministic counts derived from a parsed workflow. */
  datatype DeterministicMetrics = DeterministicMetrics(
    activityCount: nat,
    variableCount: nat,
    nestingDepth: nat,
    invokedWorkflows: nat,
    hasCustomCode: bool
  )

  /** The four complexity tiers, "Low" | "Medium" | "High" | "Very High". */
  datatype Level = Low | Medium | High | VeryHigh {
    /** Position of the tier in increasing order of complexity. */
    function Rank(): nat {
      match this
      case Low => 0
      case Medium => 1
      case High => 2
      case VeryHigh => 3
    }

    /** The label the source stores. */
    function Label(): string {
      match this
      case Low => "Low"
      case Medium => "Medium"
      case High => "High"
      case VeryHigh => "Very High"
    }
  }

  datatype ComplexityScore = ComplexityScore(score: int, level: Level)

  /** Cut points: below 20 Low, below 50 Medium, below 100 High, else Very High. */
  function LevelFor(score: int): (l: Level)
    ensures l == Low <==> score < 20
    ensures l == Medium <==> 20 <= score < 50
    ensures l == High <==> 50 <= score < 100
    ensures l == VeryHigh <==> 100 <= score
  {
    if score < 20 then Low
    else if score < 50 then Medium
    else if score < 100 then High
    else VeryHigh
  }

  /** A higher score never gives a lower tier. */
  lemma LevelMonotone(s1: int, s2: int)
    requires s1 <= s2
    ensures LevelFor(s1).Rank() <= LevelFor(s2).Rank()
  {
  }

  /** The boundary values of the tiers. */
  lemma LevelBoundaries()
    ensures LevelFor(19) == Low && LevelFor(20) == Medium
    ensures LevelFor(49) == Medium && LevelFor(50) == High
    ensures LevelFor(99) == High && LevelFor(100) == VeryHigh
  {
  }
}
