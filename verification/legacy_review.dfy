/**
 The two older review paths: the rule-list engine with its single
 missing-try-catch rule, and the review service with its single built-in
 nesting rule. Both score 100 minus 5 per finding and grade with the usual
 90/80/70/60 cut points.
 */
module LegacyReview {
  import opened Runtime
  import opened Grading

  // ---------------------------------------------------------------------
  // Scoring shared by both paths
  // ---------------------------------------------------------------------

  /** `max(0, 100 - 5 * issues)`. */
  function LegacyScore(issues: nat): (s: int)
    ensures 0 <= s <= 100
    ensures issues <= 20 ==> s + 5 * issues == 100
    ensures s == 0 <==> issues >= 20
  {
    if 100 - issues * 5 > 0 then 100 - issues * 5 else 0
  }

  /** One more finding costs five points until the score reaches zero. */
  lemma LegacyScoreStep(issues: nat)
    ensures LegacyScore(issues + 1) == if issues < 20 then LegacyScore(issues) - 5 else 0
  {
  }

  /** More findings never raise the score. */
  lemma {:induction false} LegacyScoreAntitone(m: nat, n: nat)
    requires m <= n
    ensures LegacyScore(n) <= LegacyScore(m)
    decreases n - m
  {
    if m < n {
      LegacyScoreStep(m);
      LegacyScoreAntitone(m + 1, n);
    }
  }

  // ---------------------------------------------------------------------
  // The rule-list engine
  // ---------------------------------------------------------------------

  /** The metrics dictionary the engine receives. */
  type MetricsDict = map<string, int>

  const NestingDepthKey := "nesting_depth"

  /** The dictionary a rule of the engine reports. */
  datatype EngineFinding = EngineFinding(ruleId: string, message: string, severity: string, recommendation: string)

  type EngineRule = MetricsDict -> Result<seq<EngineFinding>>

  const MissingTryCatchId := "ER-001"
  const MissingTryCatchName := "Missing Try-Catch"
  const MissingTryCatchSeverity := "Critical"
  const MissingTryCatchMessage := "High nesting without Try-Catch"
  const MissingTryCatchRecommendation := "Wrap main logic in Try-Catch"

  /** One Critical finding when the nesting depth exceeds 3; a missing
      depth raises `KeyError`. */
  function MissingTryCatch(metrics: MetricsDict): (r: Result<seq<EngineFinding>>)
    ensures r.Raised? <==> NestingDepthKey !in metrics
    ensures r.Ok? ==> |r.value| == (if metrics[NestingDepthKey] > 3 then 1 else 0)
    ensures r.Ok? ==> forall f :: f in r.value ==>
      f == EngineFinding(MissingTryCatchId, MissingTryCatchMessage, MissingTryCatchSeverity, MissingTryCatchRecommendation)
  {
    if NestingDepthKey !in metrics then Raised("KeyError")
    else if metrics[NestingDepthKey] > 3 then
      Ok([EngineFinding(MissingTryCatchId, MissingTryCatchMessage, MissingTryCatchSeverity, MissingTryCatchRecommendation)])
    else Ok([])
  }

  /** The engine's rule list. */
  const EngineRules: seq<EngineRule> := [MissingTryCatch]

  /** Every rule's findings in list order. Nothing catches an exception:
      the first rule that raises ends the review. */
  function RunEngineRules(rules: seq<EngineRule>, metrics: MetricsDict): (r: Result<seq<EngineFinding>>)
    ensures r.Raised? <==> exists i :: 0 <= i < |rules| && rules[i](metrics).Raised?
    ensures r.Ok? ==> forall f :: f in r.value ==>
      exists i :: 0 <= i < |rules| && rules[i](metrics).Ok? && f in rules[i](metrics).value
  {
    if |rules| == 0 then Ok([])
    else
      assert forall i :: 1 <= i < |rules| ==> rules[i] == rules[1..][i - 1];
      match rules[0](metrics)
      case Raised(e) => Raised(e)
      case Ok(here) =>
        match RunEngineRules(rules[1..], metrics)
        case Raised(e) => Raised(e)
        case Ok(rest) => Ok(here + rest)
  }

  datatype EngineReport = EngineReport(overallScore: int, grade: Grade, totalIssues: nat, findings: seq<EngineFinding>)

  /** The engine's review of a metrics dictionary. */
  function RunEngineReview(metrics: MetricsDict): (r: Result<EngineReport>)
    ensures r.Raised? <==> NestingDepthKey !in metrics
    ensures r.Ok? ==>
      && r.value.totalIssues == |r.value.findings|
      && r.value.overallScore == LegacyScore(r.value.totalIssues)
      && r.value.grade == LetterGrade(r.value.overallScore)
      && (r.value.findings == [] <==> metrics[NestingDepthKey] <= 3)
      && |r.value.findings| <= 1
    ensures r.Ok? && r.value.findings == [] ==> r.value.overallScore == 100 && r.value.grade == A
  {
    assert EngineRules[0] == MissingTryCatch && EngineRules[1..] == [];
    assert RunEngineRules(EngineRules[1..], metrics) == Ok([]);
    match RunEngineRules(EngineRules, metrics)
    case Raised(e) => Raised(e)
    case Ok(findings) =>
      assert findings == MissingTryCatch(metrics).value + [];
      var score := LegacyScore(|findings|);
      Ok(EngineReport(score, LetterGrade(score), |findings|, findings))
  }

  // ---------------------------------------------------------------------
  // The review service
  // ---------------------------------------------------------------------

  /** The service's finding record. */
  datatype RuleFinding = RuleFinding(
    ruleId: string,
    category: string,
    severity: string,
    message: string,
    recommendation: string,
    impact: string,
    effort: string
  )

  const DeepNestingId := "CR-001"
  const DeepNesting := RuleFinding(DeepNestingId, "Maintainability", "Major",
    "High nesting depth detected", "Refactor into smaller workflows", "Reduced readability", "Medium")

  datatype ServiceReview = ServiceReview(overallScore: int, grade: Grade, totalIssues: nat, findings: seq<RuleFinding>)

  /** The stored review of a workflow with the given nesting depth: the
      CR-001 finding exactly when the depth exceeds 4. */
  function ServiceCodeReview(nestingDepth: int): (r: ServiceReview)
    ensures r.findings == (if nestingDepth > 4 then [DeepNesting] else [])
    ensures r.totalIssues == |r.findings|
    ensures r.overallScore == (if nestingDepth > 4 then 95 else 100)
    ensures r.grade == LetterGrade(r.overallScore)
  {
    var findings := if nestingDepth > 4 then [DeepNesting] else [];
    var score := LegacyScore(|findings|);
    ServiceReview(score, LetterGrade(score), |findings|, findings)
  }

  /** With at most one finding the service can only ever grade A. */
  lemma ServiceAlwaysGradesA(nestingDepth: int)
    ensures ServiceCodeReview(nestingDepth).grade == A
  {
  }

  /** The two paths disagree at depth 4: the engine already flags it, the
      service does not yet. */
  lemma NestingThresholdsDiffer(metrics: MetricsDict)
    requires NestingDepthKey in metrics && metrics[NestingDepthKey] == 4
    ensures RunEngineReview(metrics).Ok? && RunEngineReview(metrics).value.totalIssues == 1
    ensures ServiceCodeReview(metrics[NestingDepthKey]).totalIssues == 0
  {
    var r := RunEngineReview(metrics);
    assert r.value.findings != [];
  }

  /** The engine's list holds the missing Try-Catch rule alone, so running
      it is running that rule: same findings, same `KeyError`. */
  lemma EngineRulesAreMissingTryCatch(metrics: MetricsDict)
    ensures |EngineRules| == 1
    ensures RunEngineRules(EngineRules, metrics) == MissingTryCatch(metrics)
  {
    assert EngineRules[0] == MissingTryCatch && EngineRules[1..] == [];
    assert RunEngineRules(EngineRules[1..], metrics) == Ok([]);
    match MissingTryCatch(metrics)
    case Raised(e) =>
    case Ok(here) => assert here + [] == here;
  }
}
