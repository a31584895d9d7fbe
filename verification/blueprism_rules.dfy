/**
 The four built-in Blue Prism review rules and their registry, in registry
 order. The engine falls back to these for every platform other than UiPath.
 */
module BluePrismRules {
  import opened Runtime
  import opened Text
  import opened ReviewModel

  // ---------------------------------------------------------------------
  // BP-NAM-001 Process Naming Convention
  // ---------------------------------------------------------------------

  const ProcessNamingId := "BP-NAM-001"
  const ProcessNamingName := "Process Naming Convention"
  const ProcessNamePrefix := "Process name \""
  const ProcessNameSuffix := "\" is too short"
  const ProcessNamingDescription := "Process names should be descriptive and indicate business purpose"
  const ProcessNamingRecommendation := "Use a descriptive name like \"Process - Invoice Validation\" or \"Utility - Data Extraction\""

  /** A non-empty process name shorter than five characters. A `None` name
      is falsy and passes without raising. */
  function CheckProcessNaming(wf: WorkflowSnapshot, acts: seq<ActivityEntry>): (r: Result<seq<Finding>>)
    ensures r.Ok?
    ensures |r.value| == (if wf.workflowName.Present? && 0 < |wf.workflowName.value| < 5 then 1 else 0)
    ensures forall f :: f in r.value ==>
      && f.ruleId == ProcessNamingId && f.category == Naming && f.severity == Minor
      && f.activityName == Some(Str(wf.workflowName))
  {
    match Get(wf.workflowName, "")
    case Some(name) =>
      if name != "" && |name| < 5 then
        Ok([NewFinding(Naming, Minor, ProcessNamingId, ProcessNamingName,
              ProcessNamePrefix + name + ProcessNameSuffix,
              ProcessNamingDescription,
              ProcessNamingRecommendation,
              Some(name), "Maintainability", "Low")])
      else Ok([])
    case None => Ok([])
  }

  // ---------------------------------------------------------------------
  // BP-NAM-002 Data Item Naming
  // ---------------------------------------------------------------------

  const DataItemNamingId := "BP-NAM-002"
  const DataItemNamingName := "Data Item Naming"
  const DataItemPrefix := "Data item \""
  const DataItemSuffix := "\" has a generic name"
  const DataItemDescription := "Data items should have descriptive names that indicate their purpose"
  const DataItemRecommendation := "Use meaningful names like \"Customer Name\", \"Invoice Total\", or \"Transaction ID\""

  const GenericDataItemNames: seq<string> := ["data", "temp", "var", "x", "y", "z"]

  /** A data item whose lower-cased name is one of the generic names exactly. */
  predicate IsGenericDataItem(v: VariableEntry) {
    Lower(Str(v.name)) in GenericDataItemNames
  }

  function DataItemFinding(v: VariableEntry): (r: Result<seq<Finding>>)
    ensures r.Raised? <==> v.name.Null?
    ensures r.Ok? ==> |r.value| == (if IsGenericDataItem(v) then 1 else 0)
    ensures r.Ok? ==> forall f :: f in r.value ==>
      f.ruleId == DataItemNamingId && f.category == Naming && f.severity == Minor
  {
    match LowerOf(v.name)
    case Raised(e) => Raised(e)
    case Ok(lowerName) =>
      if lowerName in GenericDataItemNames then
        var name := Str(v.name);
        Ok([NewFinding(Naming, Minor, DataItemNamingId, DataItemNamingName,
              DataItemPrefix + name + DataItemSuffix,
              DataItemDescription,
              DataItemRecommendation,
              Some(name), "Maintainability", "Low")])
      else Ok([])
  }

  /** One finding per data item with a generic name; a `None` name raises. */
  function CheckDataItemNaming(wf: WorkflowSnapshot, acts: seq<ActivityEntry>): (r: Result<seq<Finding>>)
    ensures r.Raised? <==> !WellFormedVariables(wf)
    ensures r.Ok? ==> |r.value| == Count(VariablesOf(wf).value, IsGenericDataItem)
    ensures r.Ok? ==> forall f :: f in r.value ==>
      f.ruleId == DataItemNamingId && f.category == Naming && f.severity == Minor
  {
    match VariablesOf(wf)
    case Raised(e) => Raised(e)
    case Ok(vs) =>
      if forall i :: 0 <= i < |vs| ==> WellFormedVariable(vs[i]) then
        ForEachVariableCount(vs, DataItemFinding, IsGenericDataItem);
        ForEachVariableSound(vs, DataItemFinding,
          (f: Finding) => f.ruleId == DataItemNamingId && f.category == Naming && f.severity == Minor);
        ForEachVariable(vs, DataItemFinding)
      else
        ForEachVariable(vs, DataItemFinding)
  }

  // ---------------------------------------------------------------------
  // BP-ERR-001 Missing Exception Handling
  // ---------------------------------------------------------------------

  const ExceptionHandlingId := "BP-ERR-001"
  const ExceptionHandlingName := "Missing Exception Handling"
  const ExceptionHandlingMessage := "Process lacks exception handling stages"
  const ExceptionHandlingDescription := "All Blue Prism processes should have exception handling blocks for robustness"
  const ExceptionHandlingRecommendation := "Add Exception stages with Recover/Resume paths. Include error logging and notification mechanisms"
  const ExceptionHandlingImpact := "Critical - Unhandled exceptions cause process failures"

  /** An activity that counts as exception handling. */
  predicate HasExceptionMarker(a: ActivityEntry) {
    var d := Lower(Str(a.displayName));
    Contains(Lower(Str(a.activityType)), "exception") || Contains(d, "exception") || Contains(d, "error")
  }

  function IsExceptionActivity(a: ActivityEntry): (r: Result<bool>)
    ensures WellFormedActivity(a) ==> r == Ok(HasExceptionMarker(a))
  {
    var d := LowerOf(a.displayName);
    Or(Or(Has(LowerOf(a.activityType), "exception"), Has(d, "exception")), Has(d, "error"))
  }

  function CheckExceptionHandling(wf: WorkflowSnapshot, acts: seq<ActivityEntry>): (r: Result<seq<Finding>>)
    ensures r.Ok? ==> |r.value| <= 1
    ensures r.Ok? ==> forall f :: f in r.value ==>
      f.ruleId == ExceptionHandlingId && f.category == ErrorHandling && f.severity == Critical
    ensures WellFormedActivities(acts) ==>
      && r.Ok?
      && (|r.value| == 1 <==> |acts| > 5 && forall i :: 0 <= i < |acts| ==> !HasExceptionMarker(acts[i]))
  {
    AnyWhenTotal(acts, IsExceptionActivity);
    match Any(acts, IsExceptionActivity)
    case Raised(e) => Raised(e)
    case Ok(hasExceptionHandling) =>
      if !hasExceptionHandling && |acts| > 5 then
        Ok([NewFinding(ErrorHandling, Critical, ExceptionHandlingId, ExceptionHandlingName,
              ExceptionHandlingMessage,
              ExceptionHandlingDescription,
              ExceptionHandlingRecommendation,
              None, ExceptionHandlingImpact, "Medium")])
      else Ok([])
  }

  // ---------------------------------------------------------------------
  // BP-SEC-001 Credential Management
  // ---------------------------------------------------------------------

  const CredentialManagementId := "BP-SEC-001"
  const CredentialManagementName := "Credential Management"
  const CredentialItemPrefix := "Potential credential data item detected: \""
  const CredentialManagementDescription := "Credentials should be stored in Blue Prism Credential Manager, not as plain data items"
  const CredentialManagementRecommendation := "Use Get Credential action from Credential Manager. Never store credentials as plain text data items"
  const CredentialManagementImpact := "Security - Credential exposure"

  /** Fewer patterns than the UiPath rule: no "pass", "api_key" or "token". */
  const CredentialPatterns: seq<string> := ["password", "pwd", "credential", "secret", "apikey"]

  /** A data item whose name suggests a credential, whatever its value. */
  predicate IsCredentialItem(v: VariableEntry) {
    exists i :: 0 <= i < |CredentialPatterns| && Contains(Lower(Str(v.name)), CredentialPatterns[i])
  }

  function CredentialItemFinding(v: VariableEntry): (r: Result<seq<Finding>>)
    ensures r.Raised? <==> v.name.Null?
    ensures r.Ok? ==> |r.value| == (if IsCredentialItem(v) then 1 else 0)
    ensures r.Ok? ==> forall f :: f in r.value ==>
      && f.ruleId == CredentialManagementId && f.category == Security && f.severity == Critical
      && f.activityName == Some(Str(v.name))
  {
    match LowerOf(v.name)
    case Raised(e) => Raised(e)
    case Ok(lowerName) =>
      if exists i :: 0 <= i < |CredentialPatterns| && Contains(lowerName, CredentialPatterns[i]) then
        var name := Str(v.name);
        Ok([NewFinding(Security, Critical, CredentialManagementId, CredentialManagementName,
              CredentialItemPrefix + name + "\"",
              CredentialManagementDescription,
              CredentialManagementRecommendation,
              Some(name), CredentialManagementImpact, "Low")])
      else Ok([])
  }

  /** One Critical finding per data item named like a credential. */
  function CheckCredentialManagement(wf: WorkflowSnapshot, acts: seq<ActivityEntry>): (r: Result<seq<Finding>>)
    ensures r.Raised? <==> !WellFormedVariables(wf)
    ensures r.Ok? ==> |r.value| == Count(VariablesOf(wf).value, IsCredentialItem)
    ensures r.Ok? ==> forall f :: f in r.value ==>
      f.ruleId == CredentialManagementId && f.category == Security && f.severity == Critical
  {
    match VariablesOf(wf)
    case Raised(e) => Raised(e)
    case Ok(vs) =>
      if forall i :: 0 <= i < |vs| ==> WellFormedVariable(vs[i]) then
        ForEachVariableCount(vs, CredentialItemFinding, IsCredentialItem);
        ForEachVariableSound(vs, CredentialItemFinding,
          (f: Finding) => f.ruleId == CredentialManagementId && f.category == Security && f.severity == Critical);
        ForEachVariable(vs, CredentialItemFinding)
      else
        ForEachVariable(vs, CredentialItemFinding)
  }

  // ---------------------------------------------------------------------
  // Registry
  // ---------------------------------------------------------------------

  const Rules: seq<CodeReviewRule> := [
    CodeReviewRule(ProcessNamingId, ProcessNamingName, Naming, Minor, "BluePrism",
      "Process names should follow Blue Prism naming standards", CheckProcessNaming),
    CodeReviewRule(DataItemNamingId, DataItemNamingName, Naming, Minor, "BluePrism",
      "Data items should use meaningful names", CheckDataItemNaming),
    CodeReviewRule(ExceptionHandlingId, ExceptionHandlingName, ErrorHandling, Critical, "BluePrism",
      "Processes should have exception stages", CheckExceptionHandling),
    CodeReviewRule(CredentialManagementId, CredentialManagementName, Security, Critical, "BluePrism",
      "Use Credential Manager for sensitive data", CheckCredentialManagement)
  ]

  /** The registry holds the four Blue Prism rules, each tagged for Blue
      Prism, with pairwise different `BP-` identifiers. */
  lemma RegistryShape()
    ensures |Rules| == 4
    ensures forall i :: 0 <= i < |Rules| ==> Rules[i].platform == "BluePrism" && StartsWith(Rules[i].id, "BP-")
    ensures forall i, j :: 0 <= i < j < |Rules| ==> Rules[i].id != Rules[j].id
  {
  }
}
