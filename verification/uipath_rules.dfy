/**
 The twelve built-in UiPath review rules and their registry, in registry order.
 */
module UiPathRules {
  import opened Runtime
  import opened Text
  import opened ReviewModel

  // ---------------------------------------------------------------------
  // Activity tests, each as Python evaluates it (short-circuit `or`,
  // `.lower()` raising on `None`)
  // ---------------------------------------------------------------------

  /** An activity that counts as error handling for UP-ERR-001. */
  predicate HasTryCatchMarker(a: ActivityEntry) {
    Contains(Lower(Str(a.activityType)), "trycatch") || Contains(Lower(Str(a.displayName)), "try catch")
  }

  function IsTryCatchActivity(a: ActivityEntry): (r: Result<bool>)
    ensures WellFormedActivity(a) ==> r == Ok(HasTryCatchMarker(a))
  {
    Or(Has(LowerOf(a.activityType), "trycatch"), Has(LowerOf(a.displayName), "try catch"))
  }

  /** `'trycatch' in type.lower()` */
  function IsTryCatchType(a: ActivityEntry): (r: Result<bool>)
    ensures r.Raised? <==> a.activityType.Null?
  {
    Has(LowerOf(a.activityType), "trycatch")
  }

  /** An HTTP, invoke, API or web-service activity. */
  predicate HasHttpMarker(a: ActivityEntry) {
    var t := Lower(Str(a.activityType));
    var d := Lower(Str(a.displayName));
    Contains(t, "http") || Contains(t, "invoke") || Contains(d, "api") || Contains(d, "web service")
  }

  function IsHttpActivity(a: ActivityEntry): (r: Result<bool>)
    ensures WellFormedActivity(a) ==> r == Ok(HasHttpMarker(a))
    ensures r.Raised? ==> a.activityType.Null? || a.displayName.Null?
  {
    var t := LowerOf(a.activityType);
    var d := LowerOf(a.displayName);
    Or(Or(Or(Has(t, "http"), Has(t, "invoke")), Has(d, "api")), Has(d, "web service"))
  }

  /** An activity mentioning retry in its type or display name. */
  predicate HasRetryMarker(a: ActivityEntry) {
    Contains(Lower(Str(a.activityType)), "retry") || Contains(Lower(Str(a.displayName)), "retry")
  }

  function IsRetryActivity(a: ActivityEntry): (r: Result<bool>)
    ensures WellFormedActivity(a) ==> r == Ok(HasRetryMarker(a))
  {
    Or(Has(LowerOf(a.activityType), "retry"), Has(LowerOf(a.displayName), "retry"))
  }

  /** A UI activity: click/type/get in the type, or click/type into in the display name. */
  predicate HasUiMarker(a: ActivityEntry) {
    var t := Lower(Str(a.activityType));
    var d := Lower(Str(a.displayName));
    Contains(t, "click") || Contains(t, "type") || Contains(t, "get") || Contains(d, "click") || Contains(d, "type into")
  }

  function IsUiActivity(a: ActivityEntry): (r: Result<bool>)
    ensures WellFormedActivity(a) ==> r == Ok(HasUiMarker(a))
  {
    var t := LowerOf(a.activityType);
    var d := LowerOf(a.displayName);
    Or(Or(Or(Has(t, "click"), Has(t, "type")), Has(t, "get")), Or(Has(d, "click"), Has(d, "type into")))
  }

  /** A logging activity. */
  predicate HasLogMarker(a: ActivityEntry) {
    Contains(Lower(Str(a.activityType)), "log") || Contains(Lower(Str(a.displayName)), "log")
  }

  function IsLogActivity(a: ActivityEntry): (r: Result<bool>)
    ensures WellFormedActivity(a) ==> r == Ok(HasLogMarker(a))
  {
    Or(Has(LowerOf(a.activityType), "log"), Has(LowerOf(a.displayName), "log"))
  }

  // ---------------------------------------------------------------------
  // UP-NAM-001 Workflow Naming Convention
  // ---------------------------------------------------------------------

  const NamingWorkflowId := "UP-NAM-001"
  const NamingWorkflowName := "Workflow Naming Convention"
  const WorkflowNamePrefix := "Workflow name \""
  const NotPascalSuffix := "\" does not follow PascalCase convention"
  const NotPascalDescription := "Workflow names should use PascalCase (e.g., ProcessInvoice, ValidateData) for consistency and readability"
  const NotPascalRecommendation := "Rename workflow to use PascalCase. Example: \"process_invoice\" → \"ProcessInvoice\""
  const TooGenericSuffix := "\" is too generic"
  const TooGenericDescription := "Workflow names should be descriptive and indicate the business purpose"
  const TooGenericRecommendation := "Use a more specific name that describes what the workflow does (e.g., ExtractInvoiceData, ValidateCustomerInfo)"

  const GenericWorkflowWords: seq<string> := ["workflow", "process", "main", "sequence", "test"]

  /** Not PascalCase: a non-empty name that does not start upper-case or
      is not alphanumeric once underscores are removed. */
  predicate NotPascalCase(name: string) {
    name != "" && !(IsUpperChar(name[0]) && IsAlnum(Remove(name, '_')))
  }

  /** Too generic: contains a generic word (case-insensitively) and is shorter than 15. */
  predicate TooGeneric(name: string) {
    (exists i :: 0 <= i < |GenericWorkflowWords| && Contains(Lower(name), GenericWorkflowWords[i])) && |name| < 15
  }

  function CheckWorkflowNaming(wf: WorkflowSnapshot, acts: seq<ActivityEntry>): (r: Result<seq<Finding>>)
    ensures r.Raised? <==> wf.workflowName.Null?
    ensures r.Ok? ==> |r.value| == (if NotPascalCase(Str(wf.workflowName)) then 1 else 0)
                                    + (if TooGeneric(Str(wf.workflowName)) then 1 else 0)
    ensures r.Ok? ==> forall f :: f in r.value ==>
      f.ruleId == NamingWorkflowId && f.category == Naming && f.severity == Minor
  {
    match Get(wf.workflowName, "")
    case None => Raised("AttributeError")
    case Some(name) =>
      var pascal :=
        if NotPascalCase(name) then
          [NewFinding(Naming, Minor, NamingWorkflowId, NamingWorkflowName,
             WorkflowNamePrefix + name + NotPascalSuffix,
             NotPascalDescription,
             NotPascalRecommendation,
             Some(name), "Maintainability", "Low")]
        else [];
      var generic :=
        if TooGeneric(name) then
          [NewFinding(Naming, Minor, NamingWorkflowId, NamingWorkflowName,
             WorkflowNamePrefix + name + TooGenericSuffix,
             TooGenericDescription,
             TooGenericRecommendation,
             Some(name), "Maintainability", "Low")]
        else [];
      Ok(pascal + generic)
  }

  // ---------------------------------------------------------------------
  // UP-NAM-002 Variable Naming Convention
  // ---------------------------------------------------------------------

  const NamingVariableId := "UP-NAM-002"
  const NamingVariableName := "Variable Naming Convention"
  const NotCamelSuffix := "\" does not follow camelCase convention"
  const NotCamelDescription := "Variables should use camelCase (e.g., invoiceNumber, customerData) for consistency"
  const NotCamelRecommendation := "Rename variable to use camelCase. Example: \"Invoice_Number\" → \"invoiceNumber\""
  const TooShortSuffix := "\" is too short and not descriptive"
  const TooShortDescription := "Variable names should be descriptive enough to understand their purpose"
  const TooShortRecommendation := "Use a more descriptive name (e.g., \"i\" → \"index\", \"x\" → \"customerName\")"

  /** Not camelCase: non-empty, and not lower-case-initial alphanumeric once
      underscores are removed. */
  predicate NotCamelCase(name: string) {
    name != "" && !(IsLowerChar(name[0]) && IsAlnum(Remove(name, '_')))
  }

  /** One character, or two characters other than "dt" and "id" in any case. */
  predicate TooShort(name: string) {
    |name| == 1 || (|name| == 2 && Lower(name) != "dt" && Lower(name) != "id")
  }

  function VariableNamingFindings(v: VariableEntry): (r: Result<seq<Finding>>)
    ensures r.Raised? <==> v.name.Null?
    ensures r.Ok? ==> |r.value| == (if NotCamelCase(Str(v.name)) then 1 else 0) + (if TooShort(Str(v.name)) then 1 else 0)
    ensures r.Ok? ==> forall f :: f in r.value ==> f.ruleId == NamingVariableId && f.category == Naming
  {
    match Get(v.name, "")
    case None => Raised("TypeError")
    case Some(name) =>
      Ok((if NotCamelCase(name) then
         [NewFinding(Naming, Minor, NamingVariableId, NamingVariableName,
            "Variable \"" + name + NotCamelSuffix,
            NotCamelDescription,
            NotCamelRecommendation,
            Some(name), "Maintainability", "Low")]
       else [])
      +
      (if TooShort(name) then
         [NewFinding(Naming, Minor, NamingVariableId, NamingVariableName,
            "Variable \"" + name + TooShortSuffix,
            TooShortDescription,
            TooShortRecommendation,
            Some(name), "Maintainability", "Low")]
       else []))
  }

  /** Not camelCase: one finding; too short: another. A `None` name raises. */
  predicate BadlyCased(v: VariableEntry) {
    NotCamelCase(Str(v.name))
  }

  predicate BadlyShort(v: VariableEntry) {
    TooShort(Str(v.name))
  }

  function CheckVariableNaming(wf: WorkflowSnapshot, acts: seq<ActivityEntry>): (r: Result<seq<Finding>>)
    ensures r.Raised? <==> !WellFormedVariables(wf)
    ensures r.Ok? ==> |r.value| == Count(VariablesOf(wf).value, BadlyCased) + Count(VariablesOf(wf).value, BadlyShort)
    ensures r.Ok? ==> forall f :: f in r.value ==> f.ruleId == NamingVariableId && f.category == Naming
  {
    match VariablesOf(wf)
    case Raised(e) => Raised(e)
    case Ok(vs) =>
      ForEachVariableSound(vs, VariableNamingFindings, (f: Finding) => f.ruleId == NamingVariableId && f.category == Naming);
      if forall i :: 0 <= i < |vs| ==> WellFormedVariable(vs[i]) then
        ForEachVariableCountTwo(vs, VariableNamingFindings, BadlyCased, BadlyShort);
        ForEachVariable(vs, VariableNamingFindings)
      else
        ForEachVariable(vs, VariableNamingFindings)
  }

  // ---------------------------------------------------------------------
  // UP-ERR-001 Missing Try-Catch Blocks
  // ---------------------------------------------------------------------

  const MissingTryCatchId := "UP-ERR-001"
  const MissingTryCatchName := "Missing Try-Catch Blocks"
  const MissingTryCatchMessage := "Workflow lacks error handling mechanisms"
  const ThisWorkflowHasPrefix := "This workflow has "
  const MissingTryCatchSuffix := " activities but no Try-Catch blocks for error handling"
  const MissingTryCatchRecommendation := "Wrap critical operations in Try-Catch blocks. Add global error handler at workflow level and specific handlers for risky operations (API calls, file operations, database queries)"
  const MissingTryCatchImpact := "Critical - Production failures without proper error handling"

  function CheckMissingTryCatch(wf: WorkflowSnapshot, acts: seq<ActivityEntry>): (r: Result<seq<Finding>>)
    ensures r.Ok? ==> |r.value| <= 1
    ensures r.Ok? ==> forall f :: f in r.value ==>
      f.ruleId == MissingTryCatchId && f.category == ErrorHandling && f.severity == Critical
    ensures WellFormedActivities(acts) ==>
      && r.Ok?
      && (|r.value| == 1 <==> |acts| > 5 && forall i :: 0 <= i < |acts| ==> !HasTryCatchMarker(acts[i]))
  {
    AnyWhenTotal(acts, IsTryCatchActivity);
    match Any(acts, IsTryCatchActivity)
    case Raised(e) => Raised(e)
    case Ok(hasTryCatch) =>
      if !hasTryCatch && |acts| > 5 then
        Ok([NewFinding(ErrorHandling, Critical, MissingTryCatchId, MissingTryCatchName,
              MissingTryCatchMessage,
              ThisWorkflowHasPrefix + IntToString(|acts|) + MissingTryCatchSuffix,
              MissingTryCatchRecommendation,
              None, MissingTryCatchImpact, "Medium")])
      else Ok([])
  }

  // ---------------------------------------------------------------------
  // UP-ERR-002 Empty Catch Blocks
  // ---------------------------------------------------------------------

  const EmptyCatchId := "UP-ERR-002"
  const EmptyCatchName := "Empty Catch Blocks"
  const EmptyCatchMessage := "Review catch blocks to ensure proper error logging"
  const EmptyCatchDescription := "All catch blocks should log errors with sufficient detail for debugging"
  const EmptyCatchRecommendation := "Ensure each catch block logs: error message, timestamp, workflow name, and context data. Use Log Message activity or custom logging framework"
  const EmptyCatchImpact := "Maintainability - Difficult to debug production issues"

  /** Declared Major in the registry, but the finding it emits is Info. */
  function CheckEmptyCatchBlocks(wf: WorkflowSnapshot, acts: seq<ActivityEntry>): (r: Result<seq<Finding>>)
    ensures r.Raised? <==> exists i :: 0 <= i < |acts| && acts[i].activityType.Null?
    ensures r.Ok? ==> |r.value| <= 1
    ensures r.Ok? ==> forall f :: f in r.value ==>
      f.ruleId == EmptyCatchId && f.category == ErrorHandling && f.severity == Info
    ensures r.Ok? ==> (|r.value| == 1 <==>
      exists i :: 0 <= i < |acts| && Contains(Lower(Str(acts[i].activityType)), "trycatch"))
  {
    FilterRaisesIffNullType(acts);
    match Filter(acts, IsTryCatchType)
    case Raised(e) => Raised(e)
    case Ok(tryCatches) =>
      if |tryCatches| > 0 then
        Ok([NewFinding(ErrorHandling, Info, EmptyCatchId, EmptyCatchName,
              EmptyCatchMessage,
              EmptyCatchDescription,
              EmptyCatchRecommendation,
              None, EmptyCatchImpact, "Low")])
      else Ok([])
  }

  /** The try-catch comprehension raises exactly when some type is `None`,
      and otherwise is empty exactly when no type mentions trycatch. */
  lemma {:induction false} FilterRaisesIffNullType(acts: seq<ActivityEntry>)
    ensures Filter(acts, IsTryCatchType).Raised? <==> exists i :: 0 <= i < |acts| && acts[i].activityType.Null?
    ensures Filter(acts, IsTryCatchType).Ok? ==>
      (|Filter(acts, IsTryCatchType).value| > 0 <==>
        exists i :: 0 <= i < |acts| && Contains(Lower(Str(acts[i].activityType)), "trycatch"))
  {
    if |acts| > 0 {
      FilterRaisesIffNullType(acts[1..]);
      assert forall i :: 1 <= i < |acts| ==> acts[i] == acts[1..][i - 1];
    }
  }

  // ---------------------------------------------------------------------
  // UP-ERR-003 No Retry Logic for Transient Failures
  // ---------------------------------------------------------------------

  const RetryId := "UP-ERR-003"
  const RetryName := "No Retry Logic for Transient Failures"
  const RetryMessage := "API/HTTP activities detected without retry logic"
  const RetryDescription := "Network operations can fail transiently and should have automatic retry mechanisms"
  const RetryRecommendation := "Wrap HTTP/API calls in Retry Scope activity with exponential backoff. Configure 3-5 retries with increasing intervals (1s, 2s, 4s)"
  const RetryImpact := "Reliability - Temporary network issues cause permanent failures"

  function CheckRetryLogic(wf: WorkflowSnapshot, acts: seq<ActivityEntry>): (r: Result<seq<Finding>>)
    ensures r.Ok? ==> |r.value| <= 1
    ensures r.Ok? ==> forall f :: f in r.value ==>
      f.ruleId == RetryId && f.category == ErrorHandling && f.severity == Major
    ensures WellFormedActivities(acts) ==>
      && r.Ok?
      && (|r.value| == 1 <==>
           (exists i :: 0 <= i < |acts| && HasHttpMarker(acts[i])) &&
           (forall i :: 0 <= i < |acts| ==> !HasRetryMarker(acts[i])))
  {
    AnyWhenTotal(acts, IsHttpActivity);
    AnyWhenTotal(acts, IsRetryActivity);
    match Any(acts, IsHttpActivity)
    case Raised(e) => Raised(e)
    case Ok(hasHttp) =>
      match Any(acts, IsRetryActivity)
      case Raised(e) => Raised(e)
      case Ok(hasRetry) =>
        if hasHttp && !hasRetry then
          Ok([NewFinding(ErrorHandling, Major, RetryId, RetryName,
                RetryMessage,
                RetryDescription,
                RetryRecommendation,
                None, RetryImpact, "Low")])
        else Ok([])
  }

  // ---------------------------------------------------------------------
  // UP-PERF-001 Excessive Nesting Depth
  // ---------------------------------------------------------------------

  const NestingId := "UP-PERF-001"
  const NestingName := "Excessive Nesting Depth"
  const NestingPrefix := "Nesting depth of "
  const NestingSuffix := " exceeds recommended maximum"
  const NestingDescription := "Deep nesting makes workflows hard to read, maintain, and can impact performance"
  const NestingRecommendation := "Refactor deeply nested logic into separate workflows or use sub-workflows. Maximum recommended nesting: 5 levels"
  const NestingImpact := "Performance & Maintainability"

  function CheckExcessiveNesting(wf: WorkflowSnapshot, acts: seq<ActivityEntry>): (r: Result<seq<Finding>>)
    ensures r.Raised? <==> wf.nestingDepth.Null?
    ensures r.Ok? ==> forall f :: f in r.value ==>
      f.ruleId == NestingId && f.category == Performance && f.severity == Major
    ensures wf.nestingDepth.Absent? ==> r == Ok([])
    ensures wf.nestingDepth.Present? ==> r.Ok? && (|r.value| == 1 <==> wf.nestingDepth.value > 5)
    ensures r.Ok? ==> |r.value| <= 1
  {
    match Get(wf.nestingDepth, 0)
    case None => Raised("TypeError")
    case Some(depth) =>
      if depth > 5 then
        Ok([NewFinding(Performance, Major, NestingId, NestingName,
              NestingPrefix + IntToString(depth) + NestingSuffix,
              NestingDescription,
              NestingRecommendation,
              None, NestingImpact, "High")])
      else Ok([])
  }

  // ---------------------------------------------------------------------
  // UP-PERF-002 Large Workflow - Consider Modularization
  // ---------------------------------------------------------------------

  const LargeId := "UP-PERF-002"
  const LargeName := "Large Workflow - Consider Modularization"
  const WorkflowHasPrefix := "Workflow has "
  const LargeSuffix := " activities, exceeding recommended size"
  const LargeDescription := "Large workflows are difficult to maintain, test, and reuse. Best practice is to keep workflows under 50 activities"
  const LargeRecommendation := "Break down workflow into logical sub-workflows based on functional boundaries. Use Invoke Workflow File activity to call sub-workflows"
  const LargeImpact := "Maintainability & Performance"

  /** Declared Minor in the registry; above 100 activities the finding is Major. */
  function CheckLargeWorkflow(wf: WorkflowSnapshot, acts: seq<ActivityEntry>): (r: Result<seq<Finding>>)
    ensures r.Ok?
    ensures |r.value| == 1 <==> |acts| > 50
    ensures |r.value| <= 1
    ensures forall f :: f in r.value ==>
      && f.ruleId == LargeId && f.category == Performance
      && f.severity == (if |acts| > 100 then Major else Minor)
  {
    if |acts| > 50 then
      var severity := if |acts| > 100 then Major else Minor;
      Ok([NewFinding(Performance, severity, LargeId, LargeName,
            WorkflowHasPrefix + IntToString(|acts|) + LargeSuffix,
            LargeDescription,
            LargeRecommendation,
            None, LargeImpact, "High")])
    else Ok([])
  }

  // ---------------------------------------------------------------------
  // UP-PERF-003 Selector Optimization
  // ---------------------------------------------------------------------

  const SelectorId := "UP-PERF-003"
  const SelectorName := "Selector Optimization"
  const SelectorSuffix := " UI activities - review selector performance"
  const SelectorDescription := "Multiple UI activities detected. Ensure selectors use stable attributes (idx should be avoided)"
  const SelectorRecommendation := "Use UiPath UI Explorer to validate selectors. Prefer ID and Name attributes over positional indices. Consider using Anchors for dynamic UIs"
  const SelectorImpact := "Performance - Slow selector resolution"

  function CheckSelectorOptimization(wf: WorkflowSnapshot, acts: seq<ActivityEntry>): (r: Result<seq<Finding>>)
    ensures r.Ok? ==> |r.value| <= 1
    ensures r.Ok? ==> forall f :: f in r.value ==>
      f.ruleId == SelectorId && f.category == Performance && f.severity == Info
    ensures r.Ok? && |r.value| == 1 ==> |acts| > 10
    ensures WellFormedActivities(acts) ==>
      && r.Ok?
      && (|r.value| == 1 <==> Count(acts, HasUiMarker) > 10)
  {
    if WellFormedActivities(acts) then
      FilterCount(acts, IsUiActivity, HasUiMarker);
      SelectorFindings(acts)
    else
      SelectorFindings(acts)
  }

  function SelectorFindings(acts: seq<ActivityEntry>): (r: Result<seq<Finding>>)
    ensures r.Ok? ==> |r.value| <= 1
    ensures r.Ok? ==> forall f :: f in r.value ==>
      f.ruleId == SelectorId && f.category == Performance && f.severity == Info
    ensures r.Ok? && |r.value| == 1 ==> |acts| > 10
    ensures Filter(acts, IsUiActivity).Ok? ==>
      && r.Ok?
      && (|r.value| == 1 <==> |Filter(acts, IsUiActivity).value| > 10)
  {
    match Filter(acts, IsUiActivity)
    case Raised(e) => Raised(e)
    case Ok(ui) =>
      if |ui| > 10 then
        FilterShorter(acts, IsUiActivity);
        Ok([NewFinding(Performance, Info, SelectorId, SelectorName,
              WorkflowHasPrefix + IntToString(|ui|) + SelectorSuffix,
              SelectorDescription,
              SelectorRecommendation,
              None, SelectorImpact, "Medium")])
      else Ok([])
  }

  /** A comprehension that does not raise is no longer than its input. */
  lemma {:induction false} FilterShorter(acts: seq<ActivityEntry>, p: ActivityEntry -> Result<bool>)
    ensures Filter(acts, p).Ok? ==> |Filter(acts, p).value| <= |acts|
  {
    if |acts| > 0 {
      FilterShorter(acts[1..], p);
    }
  }

  // ---------------------------------------------------------------------
  // UP-SEC-001 Hardcoded Credentials
  // ---------------------------------------------------------------------

  const CredentialsId := "UP-SEC-001"
  const CredentialsName := "Hardcoded Credentials"
  const CredentialsPrefix := "Potential hardcoded credential found in variable \""
  const CredentialsDescription := "Credentials should never be stored in workflow code. Use Orchestrator Assets or Windows Credential Manager"
  const CredentialsRecommendation := "Replace hardcoded value with Get Credential activity or Get Orchestrator Asset activity. Store credentials in Orchestrator vault"
  const CredentialsImpact := "Security - Credential exposure risk"

  const CredentialPatterns: seq<string> :=
    ["password", "pwd", "pass", "credential", "secret", "apikey", "api_key", "token"]

  /** The lower-cased name contains a credential pattern. */
  predicate LooksLikeCredential(lowerName: string) {
    exists i :: 0 <= i < |CredentialPatterns| && Contains(lowerName, CredentialPatterns[i])
  }

  /** A literal default: non-empty and mentioning neither Config nor Asset. */
  predicate IsLiteralSecret(value: Field<string>) {
    value.Present? && value.value != "" && !Contains(value.value, "Config") && !Contains(value.value, "Asset")
  }

  /** The variables UP-SEC-001 reports. */
  predicate IsHardcodedCredential(v: VariableEntry) {
    LooksLikeCredential(Lower(Str(v.name))) && IsLiteralSecret(v.defaultValue)
  }

  function CredentialFinding(v: VariableEntry): (r: Result<seq<Finding>>)
    ensures r.Raised? <==> v.name.Null?
    ensures r.Ok? ==> |r.value| == (if IsHardcodedCredential(v) then 1 else 0)
    ensures r.Ok? ==> forall f :: f in r.value ==>
      f.ruleId == CredentialsId && f.category == Security && f.severity == Critical && f.activityName == Some(Str(v.name))
  {
    match LowerOf(v.name)
    case Raised(e) => Raised(e)
    case Ok(lowerName) =>
      if LooksLikeCredential(lowerName) && IsLiteralSecret(v.defaultValue) then
        var name := Str(v.name);
        Ok([NewFinding(Security, Critical, CredentialsId, CredentialsName,
              CredentialsPrefix + name + "\"",
              CredentialsDescription,
              CredentialsRecommendation,
              Some(name), CredentialsImpact, "Low")])
      else Ok([])
  }

  /** One Critical finding per variable that has a credential-like name and
      a literal default value. */
  function CheckHardcodedCredentials(wf: WorkflowSnapshot, acts: seq<ActivityEntry>): (r: Result<seq<Finding>>)
    ensures r.Raised? <==> !WellFormedVariables(wf)
    ensures r.Ok? ==> |r.value| == Count(VariablesOf(wf).value, IsHardcodedCredential)
    ensures r.Ok? ==> forall f :: f in r.value ==>
      f.ruleId == CredentialsId && f.category == Security && f.severity == Critical
  {
    match VariablesOf(wf)
    case Raised(e) => Raised(e)
    case Ok(vs) =>
      if forall i :: 0 <= i < |vs| ==> WellFormedVariable(vs[i]) then
        ForEachVariableCount(vs, CredentialFinding, IsHardcodedCredential);
        ForEachVariableSound(vs, CredentialFinding,
          (f: Finding) => f.ruleId == CredentialsId && f.category == Security && f.severity == Critical);
        ForEachVariable(vs, CredentialFinding)
      else
        ForEachVariable(vs, CredentialFinding)
  }

  // ---------------------------------------------------------------------
  // UP-SEC-002 Sensitive Data Logging
  // ---------------------------------------------------------------------

  const LoggingDataId := "UP-SEC-002"
  const LoggingDataName := "Sensitive Data Logging"
  const LoggingDataMessage := "Review log activities to ensure no sensitive data is logged"
  const LoggingDataDescription := "Log statements should not contain PII, credentials, or sensitive business data"
  const LoggingDataRecommendation := "Review all Log Message activities. Mask or redact sensitive fields before logging. Use appropriate log levels (Info, Debug, Error)"
  const LoggingDataImpact := "Security - Data exposure in logs"

  function CheckSensitiveDataLogging(wf: WorkflowSnapshot, acts: seq<ActivityEntry>): (r: Result<seq<Finding>>)
    ensures r.Ok? ==> |r.value| <= 1
    ensures r.Ok? ==> forall f :: f in r.value ==>
      f.ruleId == LoggingDataId && f.category == Security && f.severity == Info
    ensures WellFormedActivities(acts) ==>
      && r.Ok?
      && (|r.value| == 1 <==> exists i :: 0 <= i < |acts| && HasLogMarker(acts[i]))
  {
    FilterWhenTotal(acts, IsLogActivity);
    match Filter(acts, IsLogActivity)
    case Raised(e) => Raised(e)
    case Ok(logs) =>
      if |logs| > 0 then
        Ok([NewFinding(Security, Info, LoggingDataId, LoggingDataName,
              LoggingDataMessage,
              LoggingDataDescription,
              LoggingDataRecommendation,
              None, LoggingDataImpact, "Low")])
      else Ok([])
  }

  // ---------------------------------------------------------------------
  // UP-MAINT-001 Missing Annotations
  // ---------------------------------------------------------------------

  const AnnotationsId := "UP-MAINT-001"
  const AnnotationsName := "Missing Annotations"
  const AnnotationsMessage := "Complex workflow should have annotations for better understanding"
  const AnnotationsDescription := "Annotations help other developers understand workflow logic, especially for complex processes"
  const AnnotationsRecommendation := "Add annotation activities to explain: business logic, decision points, data transformations, and integration points"
  const AnnotationsImpact := "Maintainability - Difficult for others to understand"

  function CheckMissingAnnotations(wf: WorkflowSnapshot, acts: seq<ActivityEntry>): (r: Result<seq<Finding>>)
    ensures r.Ok?
    ensures |r.value| == (if |acts| > 20 then 1 else 0)
    ensures forall f :: f in r.value ==>
      f.ruleId == AnnotationsId && f.category == Maintainability && f.severity == Minor
  {
    if |acts| > 20 then
      Ok([NewFinding(Maintainability, Minor, AnnotationsId, AnnotationsName,
            AnnotationsMessage,
            AnnotationsDescription,
            AnnotationsRecommendation,
            None, AnnotationsImpact, "Low")])
    else Ok([])
  }

  // ---------------------------------------------------------------------
  // UP-STD-001 Logging Standards
  // ---------------------------------------------------------------------

  const LoggingStdId := "UP-STD-001"
  const LoggingStdName := "Logging Standards"
  const LoggingStdMessage := "Workflow lacks logging activities"
  const LoggingStdDescription := "Best practice is to log key events: workflow start, workflow end, errors, and major decision points"
  const LoggingStdRecommendation := "Add Log Message activities at: workflow entry, workflow exit, error catch blocks, and before/after critical operations"
  const LoggingStdImpact := "Maintainability - Difficult to troubleshoot issues"

  function CheckLoggingStandards(wf: WorkflowSnapshot, acts: seq<ActivityEntry>): (r: Result<seq<Finding>>)
    ensures r.Ok? ==> |r.value| <= 1
    ensures r.Ok? ==> forall f :: f in r.value ==>
      f.ruleId == LoggingStdId && f.category == Standards && f.severity == Minor
    ensures WellFormedActivities(acts) ==>
      && r.Ok?
      && (|r.value| == 1 <==> |acts| > 10 && forall i :: 0 <= i < |acts| ==> !HasLogMarker(acts[i]))
  {
    AnyWhenTotal(acts, IsLogActivity);
    match Any(acts, IsLogActivity)
    case Raised(e) => Raised(e)
    case Ok(hasLogging) =>
      if !hasLogging && |acts| > 10 then
        Ok([NewFinding(Standards, Minor, LoggingStdId, LoggingStdName,
              LoggingStdMessage,
              LoggingStdDescription,
              LoggingStdRecommendation,
              None, LoggingStdImpact, "Low")])
      else Ok([])
  }

  // ---------------------------------------------------------------------
  // Registry
  // ---------------------------------------------------------------------

  const Rules: seq<CodeReviewRule> := [
    CodeReviewRule(NamingWorkflowId, NamingWorkflowName, Naming, Minor, "UiPath",
      "Workflow names should use PascalCase and be descriptive", CheckWorkflowNaming),
    CodeReviewRule(NamingVariableId, NamingVariableName, Naming, Minor, "UiPath",
      "Variables should use camelCase with descriptive names", CheckVariableNaming),
    CodeReviewRule(MissingTryCatchId, MissingTryCatchName, ErrorHandling, Critical, "UiPath",
      "Workflows should have proper error handling with Try-Catch blocks", CheckMissingTryCatch),
    CodeReviewRule(EmptyCatchId, EmptyCatchName, ErrorHandling, Major, "UiPath",
      "Catch blocks should not be empty and should log errors", CheckEmptyCatchBlocks),
    CodeReviewRule(RetryId, RetryName, ErrorHandling, Major, "UiPath",
      "API calls and network operations should have retry logic", CheckRetryLogic),
    CodeReviewRule(NestingId, NestingName, Performance, Major, "UiPath",
      "Deep nesting can impact performance and readability", CheckExcessiveNesting),
    CodeReviewRule(LargeId, LargeName, Performance, Minor, "UiPath",
      "Large workflows should be split into smaller, reusable components", CheckLargeWorkflow),
    CodeReviewRule(SelectorId, SelectorName, Performance, Minor, "UiPath",
      "UI selectors should be optimized for performance", CheckSelectorOptimization),
    CodeReviewRule(CredentialsId, CredentialsName, Security, Critical, "UiPath",
      "Credentials should not be hardcoded in workflows", CheckHardcodedCredentials),
    CodeReviewRule(LoggingDataId, LoggingDataName, Security, Major, "UiPath",
      "Ensure sensitive data is not logged", CheckSensitiveDataLogging),
    CodeReviewRule(AnnotationsId, AnnotationsName, Maintainability, Minor, "UiPath",
      "Complex workflows should have annotations explaining logic", CheckMissingAnnotations),
    CodeReviewRule(LoggingStdId, LoggingStdName, Standards, Minor, "UiPath",
      "Workflows should follow logging best practices", CheckLoggingStandards)
  ]

  /** The registry holds the twelve UiPath rules, each tagged for UiPath
      and identified by an `UP-` identifier. */
  lemma RegistryShape()
    ensures |Rules| == 12
    ensures forall i :: 0 <= i < |Rules| ==> Rules[i].platform == "UiPath" && StartsWith(Rules[i].id, "UP-")
  {
  }

  /** No two UiPath rules share an identifier. */
  lemma RegistryIdsDistinct()
    ensures forall i, j :: 0 <= i < j < |Rules| ==> Rules[i].id != Rules[j].id
  {
  }

  /** The two Critical UiPath rules are the missing Try-Catch and the
      hardcoded credentials rules. */
  lemma RegistryCriticalRules()
    ensures forall i :: 0 <= i < |Rules| ==>
      (Rules[i].severity == Critical <==> Rules[i].id == MissingTryCatchId || Rules[i].id == CredentialsId)
  {
  }

}
