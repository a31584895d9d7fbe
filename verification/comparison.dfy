/**
 The two comparison helpers: the platform comparison built from stored
 activity mappings, and the one-line compatibility score and effort of a
 workflow.
 */
module Comparison {
  import opened Runtime

  // ---------------------------------------------------------------------
  // compare_platforms
  // ---------------------------------------------------------------------

  /** A stored mapping of one source activity to a target activity. */
  datatype StoredMapping = StoredMapping(sourceActivity: string, targetActivity: string, compatibilityScore: int)

  /** The compatibility cut-off. */
  const CompatibleScore := 80

  predicate IsCompatible(m: StoredMapping) {
    m.compatibilityScore >= CompatibleScore
  }

  datatype ComparisonMetrics = ComparisonMetrics(
    totalActivities: int,
    directMappings: nat,
    incompatibilities: int,
    estimatedEffort: int
  )

  datatype ActivityPair = ActivityPair(source: string, target: string, compatible: bool)

  datatype PlatformComparison = PlatformComparison(
    metrics: ComparisonMetrics,
    activityMappings: seq<ActivityPair>,
    incompatibilities: seq<string>
  )

  /** The sources of the mappings below the cut-off, in mapping order. */
  function IncompatibleSources(ms: seq<StoredMapping>): (r: seq<string>)
    ensures |r| + Count(ms, IsCompatible) == |ms|
    ensures forall s :: s in r ==> exists i :: 0 <= i < |ms| && !IsCompatible(ms[i]) && ms[i].sourceActivity == s
  {
    if |ms| == 0 then []
    else
      assert forall i :: 1 <= i < |ms| ==> ms[i] == ms[1..][i - 1];
      var rest := IncompatibleSources(ms[1..]);
      if IsCompatible(ms[0]) then rest else [ms[0].sourceActivity] + rest
  }

  /** The sources listed for `a + b` are those of `a` followed by those of `b`. */
  lemma {:induction false} IncompatibleSourcesAppend(a: seq<StoredMapping>, b: seq<StoredMapping>)
    ensures IncompatibleSources(a + b) == IncompatibleSources(a) + IncompatibleSources(b)
  {
    if |a| == 0 {
      assert a + b == b;
    } else {
      assert (a + b)[0] == a[0];
      assert (a + b)[1..] == a[1..] + b;
      IncompatibleSourcesAppend(a[1..], b);
    }
  }

  /** The comparison of a workflow with `activityCount` activities against
      its stored mappings. The incompatible count is not clamped: more
      compatible mappings than activities make it negative. */
  function ComparePlatforms(activityCount: int, ms: seq<StoredMapping>): (r: PlatformComparison)
    ensures r.metrics.totalActivities == activityCount
    ensures r.metrics.directMappings == Count(ms, IsCompatible)
    ensures r.metrics.directMappings + r.metrics.incompatibilities == activityCount
    ensures r.metrics.estimatedEffort == 2 * r.metrics.incompatibilities
    ensures |r.activityMappings| == |ms|
    ensures forall i :: 0 <= i < |ms| ==>
      r.activityMappings[i] == ActivityPair(ms[i].sourceActivity, ms[i].targetActivity, IsCompatible(ms[i]))
    ensures |r.incompatibilities| + r.metrics.directMappings == |ms|
    ensures r.incompatibilities == IncompatibleSources(ms)
  {
    var mapped := Count(ms, IsCompatible);
    var incompatible := activityCount - mapped;
    PlatformComparison(
      ComparisonMetrics(activityCount, mapped, incompatible, incompatible * 2),
      seq(|ms|, i requires 0 <= i < |ms| =>
        ActivityPair(ms[i].sourceActivity, ms[i].targetActivity, ms[i].compatibilityScore >= CompatibleScore)),
      IncompatibleSources(ms))
  }

  /** A workflow whose every activity has a compatible mapping needs no effort. */
  lemma {:induction false} AllCompatibleNoEffort(ms: seq<StoredMapping>)
    requires forall i :: 0 <= i < |ms| ==> IsCompatible(ms[i])
    ensures ComparePlatforms(|ms|, ms).metrics.incompatibilities == 0
    ensures ComparePlatforms(|ms|, ms).metrics.estimatedEffort == 0
    ensures ComparePlatforms(|ms|, ms).incompatibilities == []
  {
    AllCountedWhenAllHold(ms, IsCompatible);
  }

  lemma {:induction false} AllCountedWhenAllHold(ms: seq<StoredMapping>, p: StoredMapping -> bool)
    requires forall i :: 0 <= i < |ms| ==> p(ms[i])
    ensures Count(ms, p) == |ms|
  {
    if |ms| > 0 {
      assert forall i :: 1 <= i < |ms| ==> ms[i] == ms[1..][i - 1];
      AllCountedWhenAllHold(ms[1..], p);
    }
  }

  /** More compatible mappings than activities give a negative count and a
      negative effort. */
  lemma NegativeIncompatibilities(m: StoredMapping)
    requires IsCompatible(m)
    ensures ComparePlatforms(0, [m]).metrics.incompatibilities == -1
    ensures ComparePlatforms(0, [m]).metrics.estimatedEffort == -2
  {
    AllCountedWhenAllHold([m], IsCompatible);
  }

  // ---------------------------------------------------------------------
  // compare_workflow
  // ---------------------------------------------------------------------

  /** `int(a / b)`: the quotient truncated toward zero. */
  function TruncDiv(a: int, b: int): (q: int)
    requires b != 0
    ensures a >= 0 && b > 0 ==> q * b <= a < (q + 1) * b
    ensures (a >= 0) == (b > 0) || a == 0 ==> q >= 0
  {
    var n := if a < 0 then -a else a;
    var d := if b < 0 then -b else b;
    var quotient := n / d;
    if (a < 0) != (b < 0) then -quotient else quotient
  }

  /** Truncation is symmetric about zero, unlike Euclidean division:
      `int(-7 / 2)` is -3, where the floor would be -4. */
  lemma TruncDivOdd(a: int, b: int)
    requires b != 0
    ensures TruncDiv(-a, b) == -TruncDiv(a, b)
    ensures TruncDiv(-7, 2) == -3
  {
  }

  datatype WorkflowComparison = WorkflowComparison(compatibilityScore: int, migrationEffort: int)

  /** The percentage of mapped activities, truncated, and the count of
      unmapped ones but at least 1. No activities at all is a division by
      zero. */
  function CompareWorkflow(activityCount: int, mapped: int): (r: Result<WorkflowComparison>)
    ensures r.Raised? <==> activityCount == 0
    ensures r.Ok? ==> r.value.migrationEffort >= 1
    ensures r.Ok? ==> r.value.migrationEffort >= activityCount - mapped
    ensures r.Ok? && activityCount - mapped >= 1 ==> r.value.migrationEffort == activityCount - mapped
    ensures r.Ok? && activityCount > 0 && mapped >= 0 ==>
      r.value.compatibilityScore * activityCount <= 100 * mapped < (r.value.compatibilityScore + 1) * activityCount
  {
    if activityCount == 0 then Raised("ZeroDivisionError")
    else
      var score := TruncDiv(mapped * 100, activityCount);
      var effort := if activityCount - mapped > 1 then activityCount - mapped else 1;
      Ok(WorkflowComparison(score, effort))
  }

  lemma MulLeftMonotone(a: int, b: int, c: int)
    requires c > 0
    ensures a <= b ==> a * c <= b * c
  {
  }

  /** For a mapped count between 0 and the activity count the score is a
      percentage: 0 when nothing is mapped and 100 when everything is. */
  lemma CompareWorkflowBounds(activityCount: int, mapped: int)
    requires 0 <= mapped <= activityCount && activityCount > 0
    ensures var s := CompareWorkflow(activityCount, mapped).value.compatibilityScore;
      && 0 <= s <= 100
      && (mapped == 0 ==> s == 0)
      && (mapped == activityCount ==> s == 100)
  {
    var s := CompareWorkflow(activityCount, mapped).value.compatibilityScore;
    MulLeftMonotone(101, s, activityCount);
    MulLeftMonotone(s + 1, 100, activityCount);
    MulLeftMonotone(1, s, activityCount);
  }
}
