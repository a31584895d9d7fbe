/**
 Inputs and outputs of the comprehensive code-review engine: the workflow
 snapshot and activity dictionaries the rules read (with Python's missing
 keys and `None` values), the finding record, and the rule registry entry.
 */
module ReviewModel {
  import opened Runtime
  import opened Text

  /** One entry of `workflow['variables']`. */
  datatype VariableEntry = VariableEntry(name: Field<string>, defaultValue: Field<string>)

  /** One activity dictionary, keys `type` and `displayName`. */
  datatype ActivityEntry = ActivityEntry(activityType: Field<string>, displayName: Field<string>)

  /** The workflow dictionary, keys `workflowName`, `nestingDepth`, `variables`. */
  datatype WorkflowSnapshot = WorkflowSnapshot(
    workflowName: Field<string>,
    nestingDepth: Field<int>,
    variables: Field<seq<VariableEntry>>
  )

  // Severities and categories, spelled as the rules emit them.
  const Critical := "Critical"
  const Major := "Major"
  const Minor := "Minor"
  const Info := "Info"

  const Naming := "Naming"
  const ErrorHandling := "ErrorHandling"
  const Performance := "Performance"
  const Security := "Security"
  const Maintainability := "Maintainability"
  const Standards := "Standards"

  /** One code-review observation. */
  datatype Finding = Finding(
    category: string,
    severity: string,
    ruleId: string,
    ruleName: string,
    message: string,
    description: string,
    recommendation: string,
    activityName: Option<string>,
    location: Option<string>,
    codeSnippet: Option<string>,
    impact: Option<string>,
    effort: Option<string>
  )

  /** A finding as the built-in rules create it: no location or snippet. */
  function NewFinding(
    category: string, severity: string, ruleId: string, ruleName: string,
    message: string, description: string, recommendation: string,
    activityName: Option<string>, impact: string, effort: string): (f: Finding)
    ensures f.category == category && f.severity == severity && f.ruleId == ruleId
    ensures f.activityName == activityName
  {
    Finding(category, severity, ruleId, ruleName, message, description, recommendation,
            activityName, None, None, Some(impact), Some(effort))
  }

  /** What every rule function has: a workflow and its activities in, findings
      out, or an exception. */
  type Check = (WorkflowSnapshot, seq<ActivityEntry>) -> Result<seq<Finding>>

  /** A registry entry: the declared metadata and the check itself. */
  datatype CodeReviewRule = CodeReviewRule(
    id: string,
    name: string,
    category: string,
    severity: string,
    platform: string,
    description: string,
    check: Check
  )

  /** The text of a string entry, empty when missing. */
  function Str(f: Field<string>): string {
    if f.Present? then f.value else ""
  }

  /** `d.get(key, '').lower()`: raises on `None`. */
  function LowerOf(f: Field<string>): (r: Result<string>)
    ensures r.Raised? <==> f.Null?
    ensures r.Ok? ==> r.value == Lower(Str(f))
  {
    match Get(f, "")
    case None => Raised("AttributeError")
    case Some(s) => Ok(Lower(s))
  }

  /** `sub in text` over a text that may have raised. */
  function Has(text: Result<string>, sub: string): (r: Result<bool>)
    ensures text.Raised? ==> r == Raised(text.exception)
    ensures text.Ok? ==> r == Ok(Contains(text.value, sub))
  {
    match text
    case Raised(e) => Raised(e)
    case Ok(s) => Ok(Contains(s, sub))
  }

  /** An activity none of whose keys holds `None`. */
  predicate WellFormedActivity(a: ActivityEntry) {
    !a.activityType.Null? && !a.displayName.Null?
  }

  predicate WellFormedActivities(acts: seq<ActivityEntry>) {
    forall i :: 0 <= i < |acts| ==> WellFormedActivity(acts[i])
  }

  /** `workflow.get('variables', [])`, iterated: iterating `None` raises. */
  function VariablesOf(wf: WorkflowSnapshot): (r: Result<seq<VariableEntry>>)
    ensures r.Raised? <==> wf.variables.Null?
    ensures wf.variables.Absent? ==> r == Ok([])
    ensures wf.variables.Present? ==> r == Ok(wf.variables.value)
  {
    match wf.variables
    case Absent => Ok([])
    case Null => Raised("TypeError")
    case Present(vs) => Ok(vs)
  }

  /** A variable whose name is not `None`. */
  predicate WellFormedVariable(v: VariableEntry) {
    !v.name.Null?
  }

  /** A snapshot whose variable list and variable names are not `None`. */
  predicate WellFormedVariables(wf: WorkflowSnapshot) {
    !wf.variables.Null? &&
    (wf.variables.Present? ==> forall i :: 0 <= i < |wf.variables.value| ==> WellFormedVariable(wf.variables.value[i]))
  }

  /** The findings of a per-variable loop: each variable's findings in list
      order; a variable that raises aborts the whole rule. */
  function ForEachVariable(vs: seq<VariableEntry>, f: VariableEntry -> Result<seq<Finding>>): (r: Result<seq<Finding>>)
    ensures (forall i :: 0 <= i < |vs| ==> f(vs[i]).Ok?) <==> r.Ok?
  {
    if |vs| == 0 then Ok([])
    else
      assert forall i :: 1 <= i < |vs| ==> vs[i] == vs[1..][i - 1];
      match f(vs[0])
      case Raised(e) => Raised(e)
      case Ok(here) =>
        match ForEachVariable(vs[1..], f)
        case Raised(e) => Raised(e)
        case Ok(rest) => Ok(here + rest)
  }

  /** A loop whose body yields exactly one finding for the variables `p`
      selects and none otherwise reports exactly those variables. */
  lemma {:induction false} ForEachVariableCount(vs: seq<VariableEntry>, f: VariableEntry -> Result<seq<Finding>>,
                                                p: VariableEntry -> bool)
    requires forall i :: 0 <= i < |vs| ==> f(vs[i]).Ok? && |f(vs[i]).value| == (if p(vs[i]) then 1 else 0)
    ensures ForEachVariable(vs, f).Ok?
    ensures |ForEachVariable(vs, f).value| == Count(vs, p)
  {
    if |vs| > 0 {
      assert forall i :: 1 <= i < |vs| ==> vs[i] == vs[1..][i - 1];
      ForEachVariableCount(vs[1..], f, p);
    }
  }

  /** A loop whose body yields one finding for each of two tests a variable
      fails reports as many findings as the two counts together. */
  lemma {:induction false} ForEachVariableCountTwo(vs: seq<VariableEntry>, f: VariableEntry -> Result<seq<Finding>>,
                                                   p: VariableEntry -> bool, q: VariableEntry -> bool)
    requires forall i :: 0 <= i < |vs| ==>
      f(vs[i]).Ok? && |f(vs[i]).value| == (if p(vs[i]) then 1 else 0) + (if q(vs[i]) then 1 else 0)
    ensures ForEachVariable(vs, f).Ok?
    ensures |ForEachVariable(vs, f).value| == Count(vs, p) + Count(vs, q)
  {
    if |vs| > 0 {
      assert forall i :: 1 <= i < |vs| ==> vs[i] == vs[1..][i - 1];
      ForEachVariableCountTwo(vs[1..], f, p, q);
    }
  }

  /** Every finding of a per-variable loop comes from some variable. */
  lemma {:induction false} ForEachVariableSound(vs: seq<VariableEntry>, f: VariableEntry -> Result<seq<Finding>>,
                                                 q: Finding -> bool)
    requires forall i :: 0 <= i < |vs| ==> f(vs[i]).Ok? ==> forall g :: g in f(vs[i]).value ==> q(g)
    ensures ForEachVariable(vs, f).Ok? ==> forall g :: g in ForEachVariable(vs, f).value ==> q(g)
  {
    if |vs| > 0 {
      assert forall i :: 1 <= i < |vs| ==> vs[i] == vs[1..][i - 1];
      ForEachVariableSound(vs[1..], f, q);
    }
  }
}
