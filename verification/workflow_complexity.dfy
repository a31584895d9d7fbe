/**
 The standalone workflow analyser that scores a document tree directly,
 without the parser's platform branches.
 */
module WorkflowComplexity {
  import opened Runtime
  import opened Contracts
  import opened Parser

  datatype WorkflowAnalysis = WorkflowAnalysis(
    activityCount: nat,
    variableCount: nat,
    nestingDepth: nat,
    complexityScore: nat,
    complexityLevel: Level
  )

  // `findall(".//*[@Name]")`: descendants carrying a `Name` attribute, even an empty one.
  function CountWithAttr(nodes: seq<Node>, key: string): (n: nat)
    ensures n <= |nodes|
    ensures n == 0 <==> forall i :: 0 <= i < |nodes| ==> key !in nodes[i].elem.attrs
    ensures n == |nodes| <==> forall i :: 0 <= i < |nodes| ==> key in nodes[i].elem.attrs
  {
    if |nodes| == 0 then 0
    else
      var rest := CountWithAttr(nodes[1..], key);
      assert forall i :: 1 <= i < |nodes| ==> nodes[i] == nodes[1..][i - 1];
      (if key in nodes[0].elem.attrs then 1 else 0) + rest
  }

  /** Counting over two walks one after the other adds the counts, so each
      node carrying the attribute is counted exactly once. */
  lemma {:induction false} CountWithAttrAppend(a: seq<Node>, b: seq<Node>, key: string)
    ensures CountWithAttr(a + b, key) == CountWithAttr(a, key) + CountWithAttr(b, key)
  {
    if |a| == 0 {
      assert a + b == b;
    } else {
      assert (a + b)[0] == a[0];
      assert (a + b)[1..] == a[1..] + b;
      CountWithAttrAppend(a[1..], b, key);
    }
  }

  /** Scores the descendants of the root. `max` over no descendants has no
      default, so a root without child elements raises. */
  function AnalyzeWorkflow(root: Element): (r: Result<WorkflowAnalysis>)
    ensures r.Raised? <==> root.children == []
    ensures r.Ok? ==> var a := r.value;
      && a.activityCount == |Descendants(root)|
      && a.variableCount == CountWithAttr(Descendants(root), "Name")
      && a.variableCount <= a.activityCount
      && a.nestingDepth == MaxAncestors(Descendants(root), EveryNode)
      && a.nestingDepth >= 1
      && a.complexityScore >= a.activityCount + 3 * a.nestingDepth
      && a.complexityLevel == LevelFor(a.complexityScore)
  {
    var acts := Descendants(root);
    if |acts| == 0 then Raised("ValueError")
    else
      var variables := CountWithAttr(acts, "Name");
      var depth := MaxAncestors(acts, EveryNode);
      assert EveryNode(acts[0]);
      var score := |acts| * 1 + depth * 3 + variables * 1;
      Ok(WorkflowAnalysis(|acts|, variables, depth, score, LevelFor(score)))
  }

  /** The standalone analyser and the parser's generic branch agree on the
      activity count and the depth of any tree they both accept. */
  lemma AnalyzerAgreesWithGenericParse(root: Element, platform: string)
    requires root.children != []
    ensures AnalyzeWorkflow(root).Ok?
    ensures AnalyzeWorkflow(root).value.activityCount == |ParseGeneric(root, platform).activities|
    ensures AnalyzeWorkflow(root).value.nestingDepth == ParseGeneric(root, platform).nestingDepth
  {
  }

  /** There is no invoke or custom-code term: the score is activities plus
      three per level plus variables, and the tiers are the shared ones. */
  lemma AnalyzerScoreHasNoInvokeTerm(root: Element)
    requires root.children != []
    ensures var a := AnalyzeWorkflow(root).value;
      a.complexityScore == a.activityCount + 3 * a.nestingDepth + a.variableCount
  {
  }
}
