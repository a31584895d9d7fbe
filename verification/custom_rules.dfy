/**
 The user-defined threshold rules evaluated against a workflow's metrics
 record. Rule types are `regex`, `activity_count` and `nesting_depth` and
 severities `low` to `critical` when created through the API, but the
 evaluator itself accepts any strings.
 */
module CustomRules {
  import opened Runtime

  const RegexType := "regex"
  const ActivityCountType := "activity_count"
  const NestingDepthType := "nesting_depth"

  /** The metrics keys the two threshold types compare against. */
  const ActivityCountKey := "activity_count"
  const NestingDepthKey := "nesting_depth"
  const ThresholdKey := "threshold"

  const ActivityCountExceeded := "Activity count exceeded"
  const NestingDepthExceeded := "Nesting depth exceeded"

  /** A stored custom rule; `config` is its JSON object of integer settings. */
  datatype CustomRule = CustomRule(
    name: string,
    ruleType: string,
    config: map<string, int>,
    severity: string,
    isActive: bool
  )

  /** The metrics record: key to integer value. */
  type Metrics = map<string, int>

  /** What the evaluator reports for a rule that fired. */
  datatype CustomFinding = CustomFinding(rule: string, severity: string, message: string)

  /** The metric a threshold rule type watches and the message it reports;
      `None` for every other type. */
  function Watched(ruleType: string): Option<(string, string)> {
    if ruleType == ActivityCountType then Some((ActivityCountKey, ActivityCountExceeded))
    else if ruleType == NestingDepthType then Some((NestingDepthKey, NestingDepthExceeded))
    else None
  }

  /** Both lookups a threshold rule makes succeed. */
  predicate CanEvaluate(rule: CustomRule, metrics: Metrics) {
    Watched(rule.ruleType).Some? ==>
      Watched(rule.ruleType).value.0 in metrics && ThresholdKey in rule.config
  }

  /** A threshold rule whose metric is strictly above its threshold. */
  predicate Fires(rule: CustomRule, metrics: Metrics) {
    && Watched(rule.ruleType).Some?
    && CanEvaluate(rule, metrics)
    && metrics[Watched(rule.ruleType).value.0] > rule.config[ThresholdKey]
  }

  /** `metrics[key] > rule.config["threshold"]`, with Python's `KeyError`
      for either missing key. */
  function CheckThreshold(rule: CustomRule, metrics: Metrics, key: string, message: string): (r: Result<seq<CustomFinding>>)
    ensures r.Raised? <==> key !in metrics || ThresholdKey !in rule.config
    ensures r.Ok? ==> |r.value| == (if metrics[key] > rule.config[ThresholdKey] then 1 else 0)
    ensures r.Ok? ==> forall f :: f in r.value ==> f == CustomFinding(rule.name, rule.severity, message)
  {
    if key !in metrics then Raised("KeyError")
    else if ThresholdKey !in rule.config then Raised("KeyError")
    else if metrics[key] > rule.config[ThresholdKey] then
      Ok([CustomFinding(rule.name, rule.severity, message)])
    else Ok([])
  }

  /** One rule's findings: at most one, carrying the rule's own name and
      severity. The `isActive` flag is not consulted. */
  function EvaluateRule(rule: CustomRule, metrics: Metrics): (r: Result<seq<CustomFinding>>)
    ensures r.Raised? <==> !CanEvaluate(rule, metrics)
    ensures r.Ok? ==> |r.value| == (if Fires(rule, metrics) then 1 else 0)
    ensures r.Ok? ==> forall f :: f in r.value ==>
      && Watched(rule.ruleType).Some?
      && f == CustomFinding(rule.name, rule.severity, Watched(rule.ruleType).value.1)
  {
    if rule.ruleType == ActivityCountType then
      CheckThreshold(rule, metrics, ActivityCountKey, ActivityCountExceeded)
    else if rule.ruleType == NestingDepthType then
      CheckThreshold(rule, metrics, NestingDepthKey, NestingDepthExceeded)
    else Ok([])
  }

  /** All rules in order, findings concatenated; the first rule whose lookup
      fails aborts the whole evaluation. */
  function RunCustomRules(rules: seq<CustomRule>, metrics: Metrics): (r: Result<seq<CustomFinding>>)
    ensures r.Raised? <==> exists i :: 0 <= i < |rules| && !CanEvaluate(rules[i], metrics)
    ensures r.Ok? ==> |r.value| == Count(rules, (rule: CustomRule) => Fires(rule, metrics))
    ensures r.Ok? ==> |r.value| <= |rules|
    ensures r.Ok? ==> forall f :: f in r.value ==>
      exists i :: 0 <= i < |rules| && Fires(rules[i], metrics)
        && f == CustomFinding(rules[i].name, rules[i].severity, Watched(rules[i].ruleType).value.1)
  {
    if |rules| == 0 then Ok([])
    else
      assert forall i :: 1 <= i < |rules| ==> rules[i] == rules[1..][i - 1];
      match EvaluateRule(rules[0], metrics)
      case Raised(e) => Raised(e)
      case Ok(here) =>
        match RunCustomRules(rules[1..], metrics)
        case Raised(e) => Raised(e)
        case Ok(rest) =>
          assert forall f :: f in here ==> Fires(rules[0], metrics);
          Ok(here + rest)
  }

  /** An error in the first list of rules hides the second. */
  lemma {:induction false} RunCustomRulesAppendRaised(a: seq<CustomRule>, b: seq<CustomRule>, metrics: Metrics)
    requires RunCustomRules(a, metrics).Raised?
    ensures RunCustomRules(a + b, metrics).Raised?
  {
    var i :| 0 <= i < |a| && !CanEvaluate(a[i], metrics);
    assert (a + b)[i] == a[i];
  }

  /** Evaluating two lists of rules in sequence is evaluating their
      concatenation: findings keep rule order. */
  lemma {:induction false} RunCustomRulesAppend(a: seq<CustomRule>, b: seq<CustomRule>, metrics: Metrics)
    requires RunCustomRules(a, metrics).Ok? && RunCustomRules(b, metrics).Ok?
    ensures RunCustomRules(a + b, metrics) == Ok(RunCustomRules(a, metrics).value + RunCustomRules(b, metrics).value)
  {
    var rb := RunCustomRules(b, metrics).value;
    if |a| == 0 {
      assert a + b == b;
      assert [] + rb == rb;
    } else {
      assert (a + b)[0] == a[0];
      assert (a + b)[1..] == a[1..] + b;
      assert EvaluateRule(a[0], metrics).Ok? && RunCustomRules(a[1..], metrics).Ok?;
      var here := EvaluateRule(a[0], metrics).value;
      var ra := RunCustomRules(a[1..], metrics).value;
      assert RunCustomRules(a, metrics).value == here + ra;
      RunCustomRulesAppend(a[1..], b, metrics);
      assert RunCustomRules(a + b, metrics) == Ok(here + (ra + rb));
      AppendAssociative(here, ra, rb);
    }
  }

  lemma AppendAssociative(x: seq<CustomFinding>, y: seq<CustomFinding>, z: seq<CustomFinding>)
    ensures x + (y + z) == (x + y) + z
  {
  }

  /** A metric equal to its threshold does not fire: the comparison is strict. */
  lemma ThresholdIsStrict(rule: CustomRule, metrics: Metrics)
    requires Watched(rule.ruleType).Some? && CanEvaluate(rule, metrics)
    requires metrics[Watched(rule.ruleType).value.0] == rule.config[ThresholdKey]
    ensures EvaluateRule(rule, metrics) == Ok([])
  {
    var r := EvaluateRule(rule, metrics);
    assert |r.value| == 0;
  }

  /** A rule of any other type, `regex` included, never fires and never raises. */
  lemma OtherTypesNeverFire(rule: CustomRule, metrics: Metrics)
    requires rule.ruleType != ActivityCountType && rule.ruleType != NestingDepthType
    ensures EvaluateRule(rule, metrics) == Ok([])
  {
    var r := EvaluateRule(rule, metrics);
    assert |r.value| == 0;
  }

  /** Deactivating a rule changes nothing in what it reports. */
  lemma ActiveFlagIgnored(rule: CustomRule, metrics: Metrics)
    ensures EvaluateRule(rule.(isActive := false), metrics) == EvaluateRule(rule.(isActive := true), metrics)
  {
  }
}
