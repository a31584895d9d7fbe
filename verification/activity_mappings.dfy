/**
 The activity knowledge base: the UiPath to Blue Prism mapping table, name
 lookups in both directions, fallback categorisation, and the migration
 statistics computed from the table. Effort estimates are kept in quarter
 hours, so 0.25 h is 1 and the 8.0 h default is 32.
 */
module ActivityMappings {
  import opened Runtime
  import opened Text

  datatype MappingType = Direct | Partial | Complex | Incompatible

  /** One row of the knowledge base. */
  datatype ActivityMapping = ActivityMapping(
    uiPathActivity: string,
    bluePrismEquivalent: string,
    mappingType: MappingType,
    effortQuarters: nat,
    isDeprecated: bool,
    category: string,
    conversionNotes: string
  )

  const Mappings: seq<ActivityMapping> := [
    ActivityMapping("Click", "Navigate (Click)", Direct, 2, false, "UI",
      "Map selector to Application Modeller element"),
    ActivityMapping("Type Into", "Write", Direct, 2, false, "UI",
      "Map selector to Application Modeller element, convert text input"),
    ActivityMapping("Get Text", "Read", Direct, 2, false, "UI",
      "Map selector to Application Modeller element, store in data item"),
    ActivityMapping("Select Item", "Select Item", Direct, 2, false, "UI",
      "Map dropdown selector and item value"),
    ActivityMapping("Element Exists", "Check Exists", Direct, 2, false, "UI",
      "Use Wait stage with existence check"),
    ActivityMapping("Find Element", "Identify", Partial, 4, false, "UI",
      "May need Application Modeller adjustments for dynamic elements"),
    ActivityMapping("Hover", "Global Mouse Click Centre", Partial, 4, false, "UI",
      "Use Global Mouse position over element without click"),
    ActivityMapping("Get Attribute", "Get Attribute", Direct, 2, false, "UI",
      "Map element and attribute name"),
    ActivityMapping("Assign", "Calculation (Assignment)", Direct, 1, false, "Data",
      "Convert to Calculation stage with assignment expression"),
    ActivityMapping("Add Data Row", "Collections - Add Row", Direct, 2, false, "Data",
      "Use Collections action to add row to collection"),
    ActivityMapping("Build Data Table", "Create Collection", Partial, 6, false, "Data",
      "Define collection structure, may require manual column mapping"),
    ActivityMapping("For Each Row", "Loop Collection", Direct, 2, false, "Data",
      "Use Loop stage with collection iteration"),
    ActivityMapping("Filter Data Table", "Filter Collection", Direct, 4, false, "Data",
      "Use Collection Manipulation action with filter criteria"),
    ActivityMapping("Join Data Tables", "Merge Collections", Partial, 8, false, "Data",
      "May require custom logic for complex join operations"),
    ActivityMapping("Sort Data Table", "Sort Collection", Direct, 2, false, "Data",
      "Use Collection Manipulation action with sort criteria"),
    ActivityMapping("If", "Decision", Direct, 2, false, "Control",
      "Convert condition to Blue Prism expression syntax"),
    ActivityMapping("While", "Loop (While)", Direct, 2, false, "Control",
      "Convert loop condition to Blue Prism expression"),
    ActivityMapping("Do While", "Loop (Do-While)", Partial, 4, false, "Control",
      "May need restructuring as BP has different loop semantics"),
    ActivityMapping("Switch", "Multi Calc", Partial, 6, false, "Control",
      "Use Multi Calculation stage with multiple decision paths"),
    ActivityMapping("Flow Decision", "Decision", Direct, 2, false, "Control",
      "Convert to Decision stage in process flow"),
    ActivityMapping("Flow Switch", "Multi Calc", Partial, 6, false, "Control",
      "Map to multiple decision branches"),
    ActivityMapping("Delay", "Wait", Direct, 1, false, "Control",
      "Convert delay duration to Wait stage timeout"),
    ActivityMapping("Try Catch", "Exception Block", Direct, 4, false, "Error",
      "Map to Exception stage with Recover/Resume paths"),
    ActivityMapping("Throw", "Exception (Throw)", Direct, 2, false, "Error",
      "Convert exception message and type"),
    ActivityMapping("Rethrow", "Exception (Resume)", Partial, 2, false, "Error",
      "Use Resume to propagate exception"),
    ActivityMapping("Retry Scope", "Loop with Exception", Complex, 8, false, "Error",
      "Requires custom loop logic with exception handling and retry counter"),
    ActivityMapping("Read Text File", "File Management - Read Text", Direct, 2, false, "File",
      "Map file path and encoding"),
    ActivityMapping("Write Text File", "File Management - Write Text", Direct, 2, false, "File",
      "Map file path, content, and encoding"),
    ActivityMapping("Append Line", "File Management - Append Text", Direct, 2, false, "File",
      "Map file path and content to append"),
    ActivityMapping("Copy File", "File Management - Copy", Direct, 1, false, "File",
      "Map source and destination paths"),
    ActivityMapping("Move File", "File Management - Move", Direct, 1, false, "File",
      "Map source and destination paths"),
    ActivityMapping("Delete File", "File Management - Delete", Direct, 1, false, "File",
      "Map file path"),
    ActivityMapping("Path Exists", "File Management - Exists", Direct, 1, false, "File",
      "Check file or folder existence"),
    ActivityMapping("Excel Application Scope", "MS Excel VBO - Create Instance", Partial, 4, false, "Excel",
      "Use Excel VBO to create instance and open workbook"),
    ActivityMapping("Read Range", "MS Excel VBO - Get Worksheet", Direct, 2, false, "Excel",
      "Read data into collection"),
    ActivityMapping("Write Range", "MS Excel VBO - Write Collection", Direct, 2, false, "Excel",
      "Write collection to worksheet"),
    ActivityMapping("Append Range", "MS Excel VBO - Append Row", Direct, 2, false, "Excel",
      "Append data to end of worksheet"),
    ActivityMapping("Send Outlook Mail Message", "MS Outlook VBO - Send Email", Direct, 2, false, "Email",
      "Map email properties (to, subject, body, attachments)"),
    ActivityMapping("Get Outlook Mail Messages", "MS Outlook VBO - Get Emails", Direct, 4, false, "Email",
      "Map folder and filter criteria"),
    ActivityMapping("Save Attachments", "MS Outlook VBO - Save Attachments", Direct, 2, false, "Email",
      "Map save path and filter"),
    ActivityMapping("Open Browser", "Browser Automation - Attach", Partial, 4, false, "Web",
      "Configure browser type and URL in Application Modeller"),
    ActivityMapping("Navigate To", "Browser Automation - Navigate", Direct, 1, false, "Web",
      "Map URL navigation"),
    ActivityMapping("Close Tab", "Browser Automation - Close Tab", Direct, 1, false, "Web",
      "Close current browser tab"),
    ActivityMapping("HTTP Request", "Web Services - REST", Direct, 4, false, "API",
      "Map endpoint, method, headers, and body"),
    ActivityMapping("Invoke Web Service", "Web Services - SOAP", Direct, 6, false, "API",
      "Map WSDL and service parameters"),
    ActivityMapping("Add Queue Item", "Work Queue - Add to Queue", Direct, 2, false, "Queue",
      "Map queue name and item data"),
    ActivityMapping("Get Transaction Item", "Work Queue - Get Next Item", Direct, 2, false, "Queue",
      "Map queue name and lock item"),
    ActivityMapping("Set Transaction Status", "Work Queue - Mark Complete/Exception", Direct, 2, false, "Queue",
      "Map status (Completed/Failed) and exception details"),
    ActivityMapping("Execute Query", "OLEDB - Execute", Direct, 2, false, "Database",
      "Map connection string and SQL query"),
    ActivityMapping("Execute Non Query", "OLEDB - Execute Non Query", Direct, 2, false, "Database",
      "Map connection string and SQL statement"),
    ActivityMapping("Log Message", "Write to Log", Direct, 1, false, "Logging",
      "Map log level and message"),
    ActivityMapping("Get Credential", "Credential Manager - Get", Direct, 2, false, "Security",
      "Map credential name"),
    ActivityMapping("Invoke Code", "Code Stage", Complex, 12, false, "Advanced",
      "Requires manual conversion of VB.NET/C# code to Blue Prism C# code stage syntax"),
    ActivityMapping("Invoke Workflow File", "Sub-Process", Partial, 4, false, "Workflow",
      "Map to Process or Object call with parameter mapping"),
    ActivityMapping("Invoke Method", "Code Stage", Complex, 8, false, "Advanced",
      "Requires implementation in C# code stage"),
    ActivityMapping("Python Script", "N/A", Incompatible, 20, false, "Advanced",
      "Blue Prism does not natively support Python. Consider external API call or reimplementation in C#"),
    ActivityMapping("Computer Vision", "Surface Automation", Partial, 16, false, "UI",
      "Use Blue Prism Surface Automation or Region mode, may require redesign")
  ]

  /** The table has 57 rows. Python Script, the row the worked example
      below leans on, is incompatible at 5.0 h; and two rows, If and Flow
      Decision, share the Blue Prism equivalent Decision, so the reverse
      lookup of Decision finds more than one row. */
  lemma MappingTableShape()
    ensures |Mappings| == 57
    ensures Mappings[55].uiPathActivity == "Python Script" && Mappings[55].mappingType == Incompatible
      && Mappings[55].effortQuarters == 20
    ensures Mappings[15].uiPathActivity == "If" && Mappings[19].uiPathActivity == "Flow Decision"
      && Mappings[15].bluePrismEquivalent == "Decision" && Mappings[19].bluePrismEquivalent == "Decision"
  {
  }

  /** Effort of the default custom implementation: 8 hours. */
  const DefaultEffortQuarters: nat := 32

  // ---------------------------------------------------------------------
  // Lookups
  // ---------------------------------------------------------------------

  /** `name.split('{')[-1].split('}')[-1]`: the text after the last brace. */
  function CleanName(name: string): (r: string)
    ensures EndsWith(name, r)
    ensures '{' !in r && '}' !in r
    ensures '{' !in name && '}' !in name ==> r == name
    ensures r != name ==> name[|name| - |r| - 1] == '{' || name[|name| - |r| - 1] == '}'
  {
    var afterOpen := AfterLast(name, '{');
    var tail := AfterLast(afterOpen, '}');
    SuffixOfSuffix(name, afterOpen, tail);
    tail
  }

  /** Same text up to ASCII case. */
  predicate SameIgnoringCase(a: string, b: string) {
    Lower(a) == Lower(b)
  }

  /** Index of the first row whose UiPath name matches `key` ignoring case. */
  function FirstUiPathMatch(table: seq<ActivityMapping>, key: string): (r: Option<nat>)
    ensures r.Some? ==> r.value < |table| && SameIgnoringCase(table[r.value].uiPathActivity, key)
    ensures r.Some? ==> forall j :: 0 <= j < r.value ==> !SameIgnoringCase(table[j].uiPathActivity, key)
    ensures r.None? <==> forall j :: 0 <= j < |table| ==> !SameIgnoringCase(table[j].uiPathActivity, key)
  {
    if |table| == 0 then None
    else if SameIgnoringCase(table[0].uiPathActivity, key) then Some(0)
    else
      assert forall j :: 1 <= j < |table| ==> table[j] == table[1..][j - 1];
      match FirstUiPathMatch(table[1..], key)
      case None => None
      case Some(k) => Some(k + 1)
  }

  /** The first row for a UiPath activity, matched on its cleaned name
      ignoring case; rows further down with the same name are never found. */
  function UiPathToBluePrism(activityName: string): (r: Option<ActivityMapping>)
    ensures r.Some? ==> r.value in Mappings && SameIgnoringCase(r.value.uiPathActivity, CleanName(activityName))
    ensures r.None? <==> forall j :: 0 <= j < |Mappings| ==> !SameIgnoringCase(Mappings[j].uiPathActivity, CleanName(activityName))
  {
    match FirstUiPathMatch(Mappings, CleanName(activityName))
    case None => None
    case Some(i) => Some(Mappings[i])
  }

  /** The test of the reverse lookup's comprehension. */
  function MatchesAction(action: string): ActivityMapping -> bool {
    (m: ActivityMapping) => SameIgnoringCase(m.bluePrismEquivalent, action)
  }

  /** `m` is the first row of `table` whose Blue Prism equivalent matches
      `action`: it matches, and no row above it does. */
  predicate LeadsWithFirstMatch(table: seq<ActivityMapping>, action: string, m: ActivityMapping) {
    exists k :: 0 <= k < |table| && table[k] == m && MatchesAction(action)(m)
      && forall j :: 0 <= j < k ==> !MatchesAction(action)(table[j])
  }

  /** Rows of `table` whose Blue Prism equivalent matches ignoring case:
      every matching row, and nothing else. */
  function BluePrismMatches(table: seq<ActivityMapping>, action: string): (r: seq<ActivityMapping>)
    ensures forall m :: m in r ==> m in table && SameIgnoringCase(m.bluePrismEquivalent, action)
    ensures forall j :: 0 <= j < |table| && SameIgnoringCase(table[j].bluePrismEquivalent, action) ==> table[j] in r
  {
    if |table| == 0 then []
    else
      assert forall j :: 1 <= j < |table| ==> table[j] == table[1..][j - 1];
      var rest := BluePrismMatches(table[1..], action);
      if SameIgnoringCase(table[0].bluePrismEquivalent, action) then [table[0]] + rest else rest
  }

  /** The matches come once per matching row: there are as many as
      matching rows. */
  lemma {:induction false} BluePrismMatchesCount(table: seq<ActivityMapping>, action: string)
    ensures |BluePrismMatches(table, action)| == Count(table, MatchesAction(action))
  {
    if |table| > 0 {
      BluePrismMatchesCount(table[1..], action);
      assert MatchesAction(action)(table[0]) == SameIgnoringCase(table[0].bluePrismEquivalent, action);
    }
  }

  /** The matches keep table order: the first is the topmost matching row. */
  lemma {:induction false} BluePrismMatchesFirst(table: seq<ActivityMapping>, action: string)
    ensures BluePrismMatches(table, action) != [] ==>
      LeadsWithFirstMatch(table, action, BluePrismMatches(table, action)[0])
  {
    if |table| > 0 {
      var r := BluePrismMatches(table, action);
      if MatchesAction(action)(table[0]) {
        assert r[0] == table[0];
        assert LeadsWithFirstMatch(table, action, r[0]) by {
          assert 0 < |table| && table[0] == r[0] && MatchesAction(action)(r[0]);
        }
      } else {
        BluePrismMatchesFirst(table[1..], action);
        var rest := BluePrismMatches(table[1..], action);
        assert r == rest;
        if rest != [] {
          var k :| 0 <= k < |table[1..]| && table[1..][k] == rest[0] && MatchesAction(action)(rest[0])
            && forall j :: 0 <= j < k ==> !MatchesAction(action)(table[1..][j]);
          assert table[k + 1] == rest[0];
          assert forall j :: 1 <= j < k + 1 ==> table[j] == table[1..][j - 1];
        }
      }
    }
  }

  /** Matching the rows of two tables one after the other matches their
      concatenation: the matches keep table order. */
  lemma {:induction false} BluePrismMatchesAppend(a: seq<ActivityMapping>, b: seq<ActivityMapping>, action: string)
    ensures BluePrismMatches(a + b, action) == BluePrismMatches(a, action) + BluePrismMatches(b, action)
  {
    if |a| == 0 {
      assert a + b == b;
    } else {
      assert (a + b)[0] == a[0];
      assert (a + b)[1..] == a[1..] + b;
      BluePrismMatchesAppend(a[1..], b, action);
    }
  }

  /** Every row whose Blue Prism equivalent matches the action, ignoring
      case; `BluePrismMatchesCount` and `BluePrismMatchesFirst` give their
      number and order. */
  function BluePrismToUiPath(action: string): (r: seq<ActivityMapping>)
    ensures r == BluePrismMatches(Mappings, action)
    ensures forall m :: m in r ==> m in Mappings && SameIgnoringCase(m.bluePrismEquivalent, action)
    ensures forall j :: 0 <= j < |Mappings| && SameIgnoringCase(Mappings[j].bluePrismEquivalent, action) ==> Mappings[j] in r
  {
    BluePrismMatches(Mappings, action)
  }

  /** The reverse lookup of Decision, in any letter case, returns both the
      If row and the Flow Decision row. */
  lemma DecisionHasTwoRows(action: string)
    requires SameIgnoringCase(action, "Decision")
    ensures Mappings[15] in BluePrismToUiPath(action) && Mappings[19] in BluePrismToUiPath(action)
    ensures |BluePrismToUiPath(action)| >= 2
  {
    MappingTableShape();
    var r := BluePrismToUiPath(action);
    assert SameIgnoringCase(Mappings[15].bluePrismEquivalent, action);
    assert SameIgnoringCase(Mappings[19].bluePrismEquivalent, action);
    assert Mappings[15] != Mappings[19];
    TwoDistinctMembers(r, Mappings[15], Mappings[19]);
  }

  // ---------------------------------------------------------------------
  // Categorisation
  // ---------------------------------------------------------------------

  const ControlFlowNames: set<string> :=
    {"If", "ForEach", "While", "Switch", "FlowDecision", "FlowSwitch", "TryCatch", "RetryScope"}
  const DataManipulationNames: set<string> :=
    {"Assign", "WriteLine", "ReadRange", "WriteRange", "AppendLine", "BuildDataTable", "AddDataRow"}
  const WorkflowInvocationNames: set<string> := {"InvokeWorkflowFile", "InvokeWorkflow"}

  /** The five categories the fallback can give. */
  predicate IsFallbackCategory(c: string) {
    c == "Control" || c == "Data" || c == "Workflow" || c == "UI" || c == "Other"
  }

  /** The fallback for names the table does not know, applied to the raw
      name, case-sensitively, in this order. */
  function FallbackCategory(activityName: string): (c: string)
    ensures IsFallbackCategory(c)
    ensures c == "Control" <==> activityName in ControlFlowNames
    ensures c == "Data" <==>
      && activityName !in ControlFlowNames
      && (activityName in DataManipulationNames || Contains(activityName, "Data"))
    ensures c == "Workflow" <==>
      && activityName !in ControlFlowNames
      && !(activityName in DataManipulationNames || Contains(activityName, "Data"))
      && activityName in WorkflowInvocationNames
    ensures c == "UI" <==>
      && activityName !in ControlFlowNames
      && !(activityName in DataManipulationNames || Contains(activityName, "Data"))
      && activityName !in WorkflowInvocationNames
      && (Contains(activityName, "Click") || Contains(activityName, "Type") || Contains(activityName, "Web"))
    ensures c == "Other" <==>
      && activityName !in ControlFlowNames
      && !(activityName in DataManipulationNames || Contains(activityName, "Data"))
      && activityName !in WorkflowInvocationNames
      && !Contains(activityName, "Click") && !Contains(activityName, "Type") && !Contains(activityName, "Web")
  {
    if activityName in ControlFlowNames then "Control"
    else if activityName in DataManipulationNames || Contains(activityName, "Data") then "Data"
    else if activityName in WorkflowInvocationNames then "Workflow"
    else if Contains(activityName, "Click") || Contains(activityName, "Type") || Contains(activityName, "Web") then "UI"
    else "Other"
  }

  /** The table's category when the name is known, the fallback otherwise. */
  function CategorizeActivity(activityName: string): (c: string)
    ensures UiPathToBluePrism(activityName).Some? ==> c == UiPathToBluePrism(activityName).value.category
    ensures UiPathToBluePrism(activityName).None? ==> c == FallbackCategory(activityName)
  {
    match UiPathToBluePrism(activityName)
    case Some(m) => m.category
    case None => FallbackCategory(activityName)
  }

  /** For a name the table knows, the namespace prefix is irrelevant: two
      names with the same cleaned form get the same category. The fallback,
      applied to the raw name, has no such guarantee. */
  lemma KnownCategoryIgnoresPrefix(a: string, b: string)
    requires CleanName(a) == CleanName(b) && UiPathToBluePrism(a).Some?
    ensures CategorizeActivity(a) == CategorizeActivity(b)
  {
  }

  // ---------------------------------------------------------------------
  // Mapping results and migration statistics
  // ---------------------------------------------------------------------

  const UiPathToBluePrismDirection := "UiPath-to-BP"

  predicate HasType(ms: seq<ActivityMapping>, t: MappingType) {
    exists i :: 0 <= i < |ms| && ms[i].mappingType == t
  }

  datatype MappingResult = MappingResult(
    sourceActivity: string,
    mappings: seq<ActivityMapping>,
    hasDirect: bool,
    hasPartial: bool,
    isComplex: bool,
    isIncompatible: bool
  )

  /** The mappings found for one activity in the given direction: at most
      the first UiPath match, or every Blue Prism match. */
  function MappingsFor(activity: string, direction: string): (ms: seq<ActivityMapping>)
    ensures direction == UiPathToBluePrismDirection ==> |ms| <= 1
    ensures direction == UiPathToBluePrismDirection ==>
      (ms == [] <==> UiPathToBluePrism(activity).None?)
    ensures direction == UiPathToBluePrismDirection && UiPathToBluePrism(activity).Some? ==>
      ms == [UiPathToBluePrism(activity).value]
    ensures direction != UiPathToBluePrismDirection ==> ms == BluePrismToUiPath(activity)
    ensures forall m :: m in ms ==> m in Mappings
  {
    if direction == UiPathToBluePrismDirection then
      match UiPathToBluePrism(activity)
      case None => []
      case Some(m) => [m]
    else BluePrismToUiPath(activity)
  }

  /** The flags of a result agree with its mappings, as the classification sets them. */
  predicate Classified(r: MappingResult) {
    && (r.hasDirect <==> HasType(r.mappings, Direct))
    && (r.hasPartial <==> HasType(r.mappings, Partial))
    && (r.isComplex <==> HasType(r.mappings, Complex))
    && (r.isIncompatible <==> forall i :: 0 <= i < |r.mappings| ==> r.mappings[i].mappingType == Incompatible)
  }

  /** Classifies one activity's mappings. Incompatible means no mapping at
      all, or nothing but incompatible ones. */
  function ResultFor(activity: string, direction: string): (r: MappingResult)
    ensures r.sourceActivity == activity && r.mappings == MappingsFor(activity, direction)
    ensures r.hasDirect <==> HasType(r.mappings, Direct)
    ensures r.hasPartial <==> HasType(r.mappings, Partial)
    ensures r.isComplex <==> HasType(r.mappings, Complex)
    ensures r.isIncompatible <==> forall i :: 0 <= i < |r.mappings| ==> r.mappings[i].mappingType == Incompatible
    ensures Classified(r)
  {
    var ms := MappingsFor(activity, direction);
    MappingResult(activity, ms, HasType(ms, Direct), HasType(ms, Partial), HasType(ms, Complex),
                  |ms| == 0 || forall i :: 0 <= i < |ms| ==> ms[i].mappingType == Incompatible)
  }

  function MappingsForActivities(activities: seq<string>, direction: string): (rs: seq<MappingResult>)
    ensures |rs| == |activities|
    ensures forall i :: 0 <= i < |rs| ==> rs[i] == ResultFor(activities[i], direction)
    ensures forall i :: 0 <= i < |rs| ==> Classified(rs[i])
  {
    seq(|activities|, i requires 0 <= i < |activities| => ResultFor(activities[i], direction))
  }

  /** The bucket an activity is counted in: the best mapping type it has. */
  function Bucket(r: MappingResult): (t: MappingType)
    ensures t == Direct <==> r.hasDirect
    ensures t == Partial <==> !r.hasDirect && r.hasPartial
    ensures t == Complex <==> !r.hasDirect && !r.hasPartial && r.isComplex
  {
    if r.hasDirect then Direct
    else if r.hasPartial then Partial
    else if r.isComplex then Complex
    else Incompatible
  }

  /** Every activity lands in exactly one of the four buckets: the last
      branch of the statistics loop is always reached when the first three
      are not. */
  lemma EveryResultIsBucketed(activity: string, direction: string)
    ensures var r := ResultFor(activity, direction);
      r.hasDirect || r.hasPartial || r.isComplex || r.isIncompatible
  {
    var r := ResultFor(activity, direction);
    OnlyIncompatibleLeft(r.mappings);
  }

  /** Mappings with no direct, partial or complex one are all incompatible. */
  lemma OnlyIncompatibleLeft(ms: seq<ActivityMapping>)
    ensures !HasType(ms, Direct) && !HasType(ms, Partial) && !HasType(ms, Complex) ==>
      forall i :: 0 <= i < |ms| ==> ms[i].mappingType == Incompatible
  {
    forall i | 0 <= i < |ms|
      ensures HasType(ms, ms[i].mappingType)
    {
    }
  }

  /** Effort of one activity: its first mapping's estimate, except that an
      incompatible activity costs the 8-hour default even when it has a row. */
  function EffortOf(r: MappingResult): (q: nat)
    ensures Bucket(r) == Incompatible ==> q == DefaultEffortQuarters
    ensures Bucket(r) != Incompatible && |r.mappings| > 0 ==> q == r.mappings[0].effortQuarters
  {
    if Bucket(r) == Incompatible then DefaultEffortQuarters
    else if |r.mappings| > 0 then r.mappings[0].effortQuarters
    else 0
  }

  /** The test of one bucket. */
  function BucketIs(t: MappingType): MappingResult -> bool {
    (r: MappingResult) => Bucket(r) == t
  }

  /** How many activities the statistics loop counts in bucket `t`. */
  function CountBucket(rs: seq<MappingResult>, t: MappingType): (n: nat)
    ensures n == Count(rs, BucketIs(t))
    ensures n <= |rs|
    ensures n == 0 <==> forall i :: 0 <= i < |rs| ==> Bucket(rs[i]) != t
  {
    if |rs| == 0 then 0
    else
      assert forall i :: 1 <= i < |rs| ==> rs[i] == rs[1..][i - 1];
      (if Bucket(rs[0]) == t then 1 else 0) + CountBucket(rs[1..], t)
  }

  /** When `p` picks out of `acts` exactly the activities whose results fall
      in bucket `t`, the bucket count is the count of `p`. */
  lemma {:induction false} CountBucketMatches(acts: seq<string>, rs: seq<MappingResult>, p: string -> bool, t: MappingType)
    requires |rs| == |acts|
    requires forall i :: 0 <= i < |acts| ==> p(acts[i]) == (Bucket(rs[i]) == t)
    ensures CountBucket(rs, t) == Count(acts, p)
  {
    if |acts| > 0 {
      assert forall i :: 1 <= i < |acts| ==> acts[i] == acts[1..][i - 1] && rs[i] == rs[1..][i - 1];
      CountBucketMatches(acts[1..], rs[1..], p, t);
    }
  }

  /** The total effort the statistics loop adds up. */
  function TotalEffort(rs: seq<MappingResult>): (q: nat)
    ensures q == 0 <==> forall i :: 0 <= i < |rs| ==> EffortOf(rs[i]) == 0
  {
    if |rs| == 0 then 0
    else
      assert forall i :: 1 <= i < |rs| ==> rs[i] == rs[1..][i - 1];
      EffortOf(rs[0]) + TotalEffort(rs[1..])
  }

  /** The effort of two lists of results is the sum of their efforts. */
  lemma {:induction false} TotalEffortAppend(a: seq<MappingResult>, b: seq<MappingResult>)
    ensures TotalEffort(a + b) == TotalEffort(a) + TotalEffort(b)
  {
    if |a| == 0 {
      assert a + b == b;
    } else {
      assert (a + b)[0] == a[0];
      assert (a + b)[1..] == a[1..] + b;
      TotalEffortAppend(a[1..], b);
    }
  }

  /** Every activity is charged exactly once: the total is what the results
      before it cost, plus its own effort, plus what the results after it cost. */
  lemma TotalEffortSplit(rs: seq<MappingResult>, i: nat)
    requires i < |rs|
    ensures TotalEffort(rs) == TotalEffort(rs[..i]) + EffortOf(rs[i]) + TotalEffort(rs[i + 1..])
  {
    SplitAt(rs, i);
    TotalEffortAppend(rs[..i], [rs[i]] + rs[i + 1..]);
    assert TotalEffort([rs[i]] + rs[i + 1..]) == EffortOf(rs[i]) + TotalEffort(rs[i + 1..]) by {
      assert ([rs[i]] + rs[i + 1..])[1..] == rs[i + 1..];
    }
  }

  /** The four bucket counts add up to the number of activities. */
  lemma {:induction false} BucketsPartition(rs: seq<MappingResult>)
    ensures CountBucket(rs, Direct) + CountBucket(rs, Partial) + CountBucket(rs, Complex)
            + CountBucket(rs, Incompatible) == |rs|
  {
    if |rs| > 0 {
      BucketsPartition(rs[1..]);
    }
  }

  /** Python's `round(n / d)`: the nearest integer, ties to the even one. */
  function RoundHalfEven(n: nat, d: nat): (r: nat)
    requires d > 0
    ensures 2 * (if n >= r * d then n - r * d else r * d - n) <= d
    ensures 2 * n == 2 * (r * d) + d || 2 * n + d == 2 * (r * d) ==> r % 2 == 0
  {
    var q := n / d;
    var rem := n % d;
    DivisionFacts(n, d, q, rem);
    if 2 * rem > d || (2 * rem == d && q % 2 == 1) then q + 1 else q
  }

  lemma DivisionFacts(n: nat, d: nat, q: nat, rem: nat)
    requires d > 0 && q == n / d && rem == n % d
    ensures n == q * d + rem && rem < d
    ensures (q + 1) * d == q * d + d
  {
  }

  lemma MulMonotone(a: nat, b: nat, d: nat)
    requires a <= b
    ensures a * d <= b * d
  {
  }

  /** A quotient of at most `m` rounds to at most `m`. */
  lemma RoundAtMost(n: nat, d: nat, m: nat)
    requires d > 0 && n <= m * d
    ensures RoundHalfEven(n, d) <= m
  {
    var r := RoundHalfEven(n, d);
    if r >= m + 1 {
      MulMonotone(m + 1, r, d);
    }
  }

  lemma MulSucc(a: nat, d: nat)
    ensures (a + 1) * d == a * d + d
  {
  }

  /** An exact quotient rounds to itself. */
  lemma RoundExact(m: nat, d: nat)
    requires d > 0
    ensures RoundHalfEven(m * d, d) == m
  {
    var r := RoundHalfEven(m * d, d);
    MulSucc(m, d);
    MulSucc(r, d);
    if r >= m + 1 {
      MulMonotone(m + 1, r, d);
    } else if r + 1 <= m {
      MulMonotone(r + 1, m, d);
    }
  }

  lemma AllDirectRoundsToFull(direct: nat, partial: nat, complex: nat, total: nat)
    requires total > 0 && direct + partial + complex <= total
    ensures direct == total ==> RoundHalfEven(direct * 100 + partial * 70 + complex * 40, total) == 100
  {
    if direct == total {
      assert direct * 100 + partial * 70 + complex * 40 == 100 * total;
      RoundExact(100, total);
    }
  }

  datatype MigrationStats = MigrationStats(
    totalActivities: nat,
    directMappings: nat,
    partialMappings: nat,
    complexMappings: nat,
    incompatibleMappings: nat,
    totalEffortQuarters: nat,
    compatibilityScore: nat
  )

  /** The weighted compatibility score: 100 per direct, 70 per partial and
      40 per complex activity, averaged and rounded; 0 for no activities. */
  function CompatibilityScore(direct: nat, partial: nat, complex: nat, total: nat): (s: nat)
    requires direct + partial + complex <= total
    ensures s <= 100
    ensures total == 0 ==> s == 0
    ensures total > 0 ==> var weighted := direct * 100 + partial * 70 + complex * 40;
      && 2 * (if weighted >= s * total then weighted - s * total else s * total - weighted) <= total
      && (2 * weighted == 2 * (s * total) + total || 2 * weighted + total == 2 * (s * total) ==> s % 2 == 0)
    ensures total > 0 && direct == total ==> s == 100
    ensures direct + partial + complex == 0 ==> s == 0
  {
    if total > 0 then
      var weighted := direct * 100 + partial * 70 + complex * 40;
      RoundAtMost(weighted, total, 100);
      AllDirectRoundsToFull(direct, partial, complex, total);
      RoundHalfEven(weighted, total)
    else 0
  }

  /** The statistics loop over already classified activities. */
  function StatsFromResults(rs: seq<MappingResult>): (s: MigrationStats)
    requires forall i :: 0 <= i < |rs| ==> Classified(rs[i])
    ensures s.totalActivities == |rs|
    ensures s.directMappings == CountBucket(rs, Direct) && s.partialMappings == CountBucket(rs, Partial)
    ensures s.complexMappings == CountBucket(rs, Complex) && s.incompatibleMappings == CountBucket(rs, Incompatible)
    ensures s.directMappings + s.partialMappings + s.complexMappings + s.incompatibleMappings == |rs|
    ensures s.totalEffortQuarters == TotalEffort(rs)
    ensures s.totalEffortQuarters >= DefaultEffortQuarters * s.incompatibleMappings
    ensures s.compatibilityScore == CompatibilityScore(s.directMappings, s.partialMappings, s.complexMappings, |rs|)
    ensures s.compatibilityScore <= 100
  {
    BucketsPartition(rs);
    IncompatibleEffort(rs);
    var direct := CountBucket(rs, Direct);
    var partial := CountBucket(rs, Partial);
    var complex := CountBucket(rs, Complex);
    MigrationStats(|rs|, direct, partial, complex, CountBucket(rs, Incompatible),
                   TotalEffort(rs), CompatibilityScore(direct, partial, complex, |rs|))
  }

  /** Whether an activity's lookup result falls in bucket `t`. */
  function ActivityBucketIs(direction: string, t: MappingType): string -> bool {
    (a: string) => Bucket(ResultFor(a, direction)) == t
  }

  /** `calculate_migration_stats`: each bucket counts the activities whose
      lookup falls in it, the effort adds every activity's charge, and the
      score is the rounded weighted average of the buckets. */
  function CalculateMigrationStats(activities: seq<string>, direction: string): (s: MigrationStats)
    ensures s.totalActivities == |activities|
    ensures s.directMappings == Count(activities, ActivityBucketIs(direction, Direct))
    ensures s.partialMappings == Count(activities, ActivityBucketIs(direction, Partial))
    ensures s.complexMappings == Count(activities, ActivityBucketIs(direction, Complex))
    ensures s.incompatibleMappings == Count(activities, ActivityBucketIs(direction, Incompatible))
    ensures s.directMappings + s.partialMappings + s.complexMappings + s.incompatibleMappings == |activities|
    ensures s.totalEffortQuarters == TotalEffort(MappingsForActivities(activities, direction))
    ensures s.totalEffortQuarters >= DefaultEffortQuarters * s.incompatibleMappings
    ensures s.compatibilityScore == CompatibilityScore(s.directMappings, s.partialMappings, s.complexMappings, |activities|)
    ensures |activities| > 0 && s.directMappings == |activities| ==> s.compatibilityScore == 100
  {
    ActivityBucketCount(activities, direction, Direct);
    ActivityBucketCount(activities, direction, Partial);
    ActivityBucketCount(activities, direction, Complex);
    ActivityBucketCount(activities, direction, Incompatible);
    StatsFromResults(MappingsForActivities(activities, direction))
  }

  /** Counting classified results per bucket counts the activities whose
      lookup lands in that bucket. */
  lemma ActivityBucketCount(activities: seq<string>, direction: string, t: MappingType)
    ensures CountBucket(MappingsForActivities(activities, direction), t) == Count(activities, ActivityBucketIs(direction, t))
  {
    var rs := MappingsForActivities(activities, direction);
    var p := ActivityBucketIs(direction, t);
    forall i | 0 <= i < |activities|
      ensures p(activities[i]) == (Bucket(rs[i]) == t)
    {
      assert rs[i] == ResultFor(activities[i], direction);
    }
    CountBucketMatches(activities, rs, p, t);
  }

  /** Each incompatible activity costs the full default. */
  lemma {:induction false} IncompatibleEffort(rs: seq<MappingResult>)
    ensures TotalEffort(rs) >= DefaultEffortQuarters * CountBucket(rs, Incompatible)
  {
    if |rs| > 0 {
      IncompatibleEffort(rs[1..]);
    }
  }

  // ---------------------------------------------------------------------
  // A worked example
  // ---------------------------------------------------------------------

  /** Two activities found with a direct row of 0.5 h each (as Click and
      Type Into are) and one found with an incompatible row of 5.0 h (as
      Python Script is): the incompatible one is charged the flat 8 hours,
      not its row's 5, so the effort is 9 hours, and the score is
      round(200 / 3) = 67. */
  lemma IncompatibleChargedDefault(rs: seq<MappingResult>)
    requires |rs| == 3 && forall i :: 0 <= i < 3 ==> Classified(rs[i]) && |rs[i].mappings| == 1
    requires rs[0].mappings[0].mappingType == Direct && rs[0].mappings[0].effortQuarters == 2
    requires rs[1].mappings[0].mappingType == Direct && rs[1].mappings[0].effortQuarters == 2
    requires rs[2].mappings[0].mappingType == Incompatible && rs[2].mappings[0].effortQuarters == 20
    ensures var s := StatsFromResults(rs);
      && s.directMappings == 2 && s.incompatibleMappings == 1
      && s.totalEffortQuarters == 36 && s.compatibilityScore == 67
  {
    assert Classified(rs[0]) && Classified(rs[1]) && Classified(rs[2]);
    assert rs[0].mappings[0] in rs[0].mappings && rs[1].mappings[0] in rs[1].mappings;
    assert Bucket(rs[0]) == Direct && Bucket(rs[1]) == Direct;
    assert rs[2].mappings == [rs[2].mappings[0]];
    assert Bucket(rs[2]) == Incompatible;
    var tail := rs[1..];
    assert tail[1..] == [rs[2]];
    assert CountBucket([rs[2]], Direct) == 0 && CountBucket([rs[2]], Incompatible) == 1;
    assert CountBucket([rs[2]], Partial) == 0 && CountBucket([rs[2]], Complex) == 0;
    assert TotalEffort([rs[2]]) == 32;
    assert CountBucket(rs, Direct) == 2 && CountBucket(rs, Incompatible) == 1;
    assert CountBucket(rs, Partial) == 0 && CountBucket(rs, Complex) == 0;
    assert TotalEffort(rs) == 36;
    assert RoundHalfEven(200, 3) == 67;
  }

}
