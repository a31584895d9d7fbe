/**
 Deterministic metrics of a parsed workflow.
 */
module Metrics {
  import opened Text
  import opened Contracts

  /** Number of activities whose name contains `marker`, case-sensitively. */
  function CountContaining(acts: seq<string>, marker: string): (n: nat)
    ensures n <= |acts|
    ensures n == 0 <==> forall i :: 0 <= i < |acts| ==> !Contains(acts[i], marker)
    ensures n == |acts| <==> forall i :: 0 <= i < |acts| ==> Contains(acts[i], marker)
  {
    if |acts| == 0 then 0
    else
      var rest := CountContaining(acts[1..], marker);
      assert forall i :: 1 <= i < |acts| ==> acts[i] == acts[1..][i - 1];
      (if Contains(acts[0], marker) then 1 else 0) + rest
  }

  /** Counting over two lists one after the other adds the counts. */
  lemma {:induction false} CountContainingAppend(a: seq<string>, b: seq<string>, marker: string)
    ensures CountContaining(a + b, marker) == CountContaining(a, marker) + CountContaining(b, marker)
  {
    if |a| == 0 {
      assert a + b == b;
    } else {
      assert (a + b)[0] == a[0];
      assert (a + b)[1..] == a[1..] + b;
      CountContainingAppend(a[1..], b, marker);
    }
  }

  /** An activity name marking custom code. */
  predicate IsCustomCode(activity: string) {
    Contains(activity, "Code") || Contains(activity, "Script")
  }

  /** `any("Code" in a or "Script" in a for a in activities)` */
  function AnyCustomCode(acts: seq<string>): (b: bool)
    ensures b <==> exists i :: 0 <= i < |acts| && IsCustomCode(acts[i])
  {
    if |acts| == 0 then false
    else
      assert forall i :: 1 <= i < |acts| ==> acts[i] == acts[1..][i - 1];
      IsCustomCode(acts[0]) || AnyCustomCode(acts[1..])
  }

  function CalculateMetrics(p: ParsedWorkflow): (m: DeterministicMetrics)
    ensures m.activityCount == |p.activities| && m.variableCount == |p.variables|
    ensures m.nestingDepth == p.nestingDepth
    ensures m.invokedWorkflows == CountContaining(p.activities, "Invoke")
    ensures m.invokedWorkflows <= m.activityCount
    ensures m.invokedWorkflows == 0 <==> forall i :: 0 <= i < |p.activities| ==> !Contains(p.activities[i], "Invoke")
    ensures m.hasCustomCode <==> exists i :: 0 <= i < |p.activities| && IsCustomCode(p.activities[i])
    ensures |p.activities| == 0 ==> !m.hasCustomCode && m.invokedWorkflows == 0
  {
    DeterministicMetrics(
      |p.activities|,
      |p.variables|,
      p.nestingDepth,
      CountContaining(p.activities, "Invoke"),
      AnyCustomCode(p.activities))
  }

  /** Markers are case-sensitive: "invokeworkflow" is not an invoked workflow. */
  lemma InvokeIsCaseSensitive()
    ensures CalculateMetrics(ParsedWorkflow("", ["invokeworkflow"], [], 0)).invokedWorkflows == 0
    ensures CalculateMetrics(ParsedWorkflow("", ["InvokeWorkflowFile"], [], 0)).invokedWorkflows == 1
  {
    var s := "InvokeWorkflowFile";
    assert s[0..6] == "Invoke";
    ContainsAt(s, "Invoke", 0);
    var t := "invokeworkflow";
    assert 'I' !in t;
    NotContainsMissingChar(t, "Invoke", 'I');
    assert CountContaining([s], "Invoke") == 1;
    assert CountContaining([t], "Invoke") == 0;
  }

  /** Any name with "Code" or "Script" in it, anywhere, marks custom code,
      and a name with neither capital 'C' nor 'S' never does. */
  lemma CustomCodeMarkers(pre: string, post: string, other: string)
    ensures IsCustomCode(pre + "Code" + post) && IsCustomCode(pre + "Script" + post)
    ensures 'C' !in other && 'S' !in other ==> !IsCustomCode(other)
  {
    ContainsInSuperstring(pre, "Code", post);
    ContainsInSuperstring(pre, "Script", post);
    if 'C' !in other && 'S' !in other {
      NotContainsMissingChar(other, "Code", 'C');
      NotContainsMissingChar(other, "Script", 'S');
    }
  }
}
