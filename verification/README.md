# RPA workflow analysis core, modelled in Dafny

This project models the deterministic analysis pipeline of an RPA workflow
analysis backend:

- the structural parser, over an already-built element tree: the UiPath,
  Blue Prism and generic branches;
- the metrics extractor and the two complexity scorers;
- the comprehensive code-review engine:
  - the twelve UiPath and four Blue Prism rules;
  - rule isolation;
  - per-category severity deductions;
  - the weighted overall score, the letter grade and the severity counts;
- the custom threshold-rule evaluator;
- the two legacy review paths;
- the activity knowledge base and the migration estimator;
- the two comparison helpers;
- the 72-byte UTF-8 password cut that is applied before bcrypt.

Python semantics the code relies on are written out explicitly.

- A dictionary entry is `Field<T>`:
  - `Absent` means the key is missing, so `.get` returns the default;
  - `Null` means the value is `None`;
  - `Present(v)` holds a value.
- An exception is a `Result` that is `Raised(name)`.
- `or` and `any` short-circuit through `Runtime.Or` and `Runtime.Any`.
- A list comprehension that may raise is `Runtime.Filter`.

Floats are replaced by exact integers:

- the overall review score is kept in hundredths of a point;
- efforts are kept in quarter hours (every table value and the 8-hour default is a multiple of 0.25);
- Python's `round` is `ActivityMappings.RoundHalfEven`.

Modules follow the source layout:

| file | module | models |
|---|---|---|
| `runtime.dfy` | `Runtime` | Python-level helpers: `Option`, `Result`, `Field`, short-circuit `or`/`any`, comprehensions, counting |
| `text.dfy` | `Text` | substring tests, ASCII `lower`/`isupper`/`isalnum`, `split(c)[-1]` |
| `contracts.dfy` | `Contracts` | the records `ParsedWorkflow`, `DeterministicMetrics`, `ComplexityScore` and the complexity tiers |
| `parser.dfy` | `Parser` | `parse_workflow` after the XML is read |
| `metrics.dfy`, `complexity.dfy`, `workflow_complexity.dfy` | `Metrics`, `Complexity`, `WorkflowComplexity` | the metrics and both complexity scorers |
| `review_model.dfy` | `ReviewModel` | the snapshot and activity dictionaries, `CodeReviewFinding`, `CodeReviewRule` |
| `uipath_rules.dfy`, `blueprism_rules.dfy` | `UiPathRules`, `BluePrismRules` | the rule functions and both registries |
| `review_engine.dfy` | `ReviewEngine` | `perform_code_review`, `get_severity_counts` |
| `grading.dfy` | `Grading` | the 90/80/70/60 letter grade |
| `custom_rules.dfy` | `CustomRules` | `run_custom_rules` |
| `legacy_review.dfy` | `LegacyReview` | the rule-list engine, `MissingTryCatchRule`, the review service's finding and score |
| `activity_mappings.dfy` | `ActivityMappings` | the mapping table, lookups, categorisation, migration statistics |
| `comparison.dfy` | `Comparison` | `compare_platforms`, `compare_workflow` |
| `security.dfy` | `Security` | the UTF-8 encoding, the 72-byte cut, hashing and verification around bcrypt |

## Behaviour of the code worth knowing

- `calculate_migration_stats` charges a flat 8.0 hours for every incompatible activity, even one whose table row has its own estimate (app/services/analysis/activity_mappings.py:180-183). So `["Click", "Type Into", "Python Script"]` costs 9.0 hours, not 6.0; `ActivityMappings.IncompatibleChargedDefault` states this.
- `run_custom_rules` never reads `is_active` and knows only the two threshold types, so a `regex` rule never fires (app/services/custom_rules/engine.py:7-22). A missing metric or threshold raises `KeyError` out of the whole call, and a finding carries only the rule's name, its severity and a fixed message.
- The UiPath nesting depth counts every ancestor of a node, ignored infrastructure ancestors included; ignored nodes are only excluded as the deepest node (app/services/analysis/parser.py:127-135). The name-pattern noise filter (parser.py:107-112) is not applied to the depth either. A noise tag that is not on the ignored list still counts for the depth, for example `TextExpression.Other` or a tag ending in `Reference` other than `AssemblyReference`. The two `TextExpression` tags real XAML carries are on the ignored list and so do not count (parser.py:86-87). `Parser.NoiseCountsForDepth` states this.

## Model

| member | source | states |
|---|---|---|
| Runtime.Get | app/services/code_review/comprehensive_rules.py:41 | `d.get(k, default)`: the default for a missing key, `None` for a `None` value, else the value |
| Runtime.Or | app/services/code_review/comprehensive_rules.py:123-127 | `a or b` short-circuits: `b` is evaluated, and may raise, only when `a` is false |
| Runtime.AnyWhenTotal | app/services/code_review/comprehensive_rules.py:123-127 | when no test raises, `any(...)` is true iff some element passes |
| Runtime.FilterWhenTotal | app/services/code_review/comprehensive_rules.py:150 | when no test raises, a comprehension keeps at most all elements, and keeps none iff every test is false |
| Runtime.Count | app/services/code_review/comprehensive_rules.py:713-721 | the length of a `sum(1 for … if …)` comprehension: at most the length, zero iff no element qualifies, and equal to the filtered length by FilterCount; the severity buckets are this count (CountSeverityIsCount) |
| Runtime.FilterCount | app/services/code_review/comprehensive_rules.py:249-255 | a comprehension whose test never raises keeps exactly as many elements as satisfy the test |
| Text.ContainsAt | app/services/analysis/metrics.py:7 | `sub in s` holds when `sub` occurs at some index |
| Text.ContainsWitness | app/services/analysis/metrics.py:7 | `sub in s` yields the index of an occurrence |
| Text.NotContainsMissingChar | app/services/analysis/metrics.py:7 | a character of `sub` that `s` lacks rules out `sub in s` |
| Text.ContainsInSuperstring | app/services/analysis/metrics.py:7 | a string contains every piece it is built from |
| Text.LowerChar | app/services/code_review/comprehensive_rules.py:60 | `lower()` on one character: ASCII capitals move down by 32; everything else is unchanged |
| Text.Lower | app/services/code_review/comprehensive_rules.py:60 | `lower()` keeps the length and lowers each position |
| Text.Remove | app/services/code_review/comprehensive_rules.py:44 | `replace('_', '')`: no underscore is left, every other character keeps its multiplicity, and a string without underscores is unchanged |
| Text.RemoveAppend | app/services/code_review/comprehensive_rules.py:44 | removing from a concatenation removes from each part, so the kept characters stay in order |
| Text.AfterLast | app/services/analysis/activity_mappings.py:103 | `s.split(c)[-1]` is the suffix after the last `c`; it holds no `c` and is `s` when there is no `c` |
| Text.SuffixOfSuffix | app/services/analysis/activity_mappings.py:103 | splitting twice still leaves a suffix of the original, preceded by the separator the second split found |
| Text.NatToString | app/services/code_review/comprehensive_rules.py:137 | `str(n)`: decimal digits whose value is `n`, with a leading '0' only for zero itself |
| Text.IntToString | app/services/code_review/comprehensive_rules.py:213 | `str(n)`: a leading '-' exactly for negative numbers, followed by digits whose value is the magnitude |
| Contracts.LevelFor | app/services/analysis/complexity.py:13-20 | below 20 Low, below 50 Medium, below 100 High, else Very High, each as an if-and-only-if |
| Contracts.LevelMonotone | app/services/analysis/complexity.py:13-20 | a higher score never gives a lower tier |
| Contracts.LevelBoundaries | app/services/workflows/complexity.py:18-25 | the tiers change exactly at 20, 50 and 100 |
| Parser.Walk | app/services/analysis/parser.py:100 | the pre-order walk puts each forest root first, with its ancestor count, and every node has at least that many ancestors |
| Parser.IterSplit | app/services/analysis/parser.py:100-154 | `root.iter()` is the root followed by exactly the `.//*` descendants |
| Parser.Attr | app/services/analysis/parser.py:116 | `el.get(key)` is the attribute's text, or empty when missing |
| Parser.FlatMap | app/services/analysis/parser.py:100-124 | a walk's output holds exactly what its nodes contribute |
| Parser.FlatMapAppend | app/services/analysis/parser.py:144 | walking two node lists in turn concatenates their outputs |
| Parser.FlatMapSplit | app/services/analysis/parser.py:100-124 | a walk's output is what the nodes before a given node add, then what it adds, then what the nodes after it add |
| Parser.FlatMapLength | app/services/analysis/parser.py:100-124 | nodes contributing at most one item each give at most one item per node |
| Parser.MaxAncestors | app/services/analysis/parser.py:132-135 | `max(..., default=0)`: no counted node is deeper, and a positive result is attained by some counted node |
| Parser.CleanTag | app/services/analysis/parser.py:80-81 | the text after the last `}`, or the tag itself when there is none |
| Parser.UiPathNodeFilter | app/services/analysis/parser.py:84-123 | a node whose cleaned tag is ignored or noise adds nothing; a Sequence or Flowchart adds its `Name` but no activity; any other retained node adds its cleaned tag, and its `Name` when non-empty |
| Parser.ContainersAreRetained | app/services/analysis/parser.py:84-119 | Sequence and Flowchart pass the filters, so their names are kept; AssemblyReference does not |
| Parser.NoiseCountsForDepth | app/services/analysis/parser.py:104-130 | a noise-filtered node whose tag is not on the ignored list (say `TextExpression.Other`, or a tag ending in `Reference` other than `AssemblyReference`) adds nothing to the lists but still counts for the depth |
| Parser.ParseUiPath | app/services/analysis/parser.py:78-135 | the activities and variables are exactly what the document-order walk contributes node by node; each activity is cleaned, retained and not a container; each variable is non-empty |
| Parser.UiPathNodeSound | app/services/analysis/parser.py:101-124 | one node adds at most one activity and one variable, and only retained, cleaned, non-container tags |
| Parser.UiPathSound | app/services/analysis/parser.py:100-124 | the same over any walk |
| Parser.UiPathComplete | app/services/analysis/parser.py:100-124 | every retained non-container element is listed as its cleaned tag, and every retained element with a `Name` adds it, containers included |
| Parser.UiPathInDocumentOrder | app/services/analysis/parser.py:100-124 | what any node adds sits in both lists between what the nodes before it and after it add |
| Parser.UiPathDepthIsMax | app/services/analysis/parser.py:127-135 | depth is the largest ancestor count among elements whose cleaned tag is not ignored |
| Parser.UiPathRootFirst | app/services/analysis/parser.py:100-124 | a retained non-container root is the first activity |
| Parser.UiPathLoneRoot | app/services/analysis/parser.py:127-135 | a childless root has depth 0 and contributes only itself |
| Parser.NameOrTag | app/services/analysis/parser.py:143 | `el.get("name") or el.tag` |
| Parser.ParseBluePrism | app/services/analysis/parser.py:140-156 | all stage names followed by all action names, grouped rather than interleaved; the variables are exactly the non-empty `name`s of the `variable` descendants, in document order; the depth is the maximum ancestor count over the descendants |
| Parser.BluePrismComplete | app/services/analysis/parser.py:142-145 | every stage or action below the root yields its name or tag |
| Parser.BluePrismVariablesComplete | app/services/analysis/parser.py:147-151 | a `variable` descendant with a non-empty `name` is listed, in its document position |
| Parser.ParseGeneric | app/services/analysis/parser.py:161-173 | the activities are the descendants' tags, position by position, excluding the root; the variables are all `Name` hits in document order followed by all `name` hits, each one some descendant's name; the depth is the maximum ancestor count over the descendants |
| Parser.GenericTags | app/services/analysis/parser.py:162 | the tag list has one entry per walked node, in order |
| Parser.GenericBothAttributesTwice | app/services/analysis/parser.py:164-168 | an element carrying both `Name` and `name` is listed twice, both times by `Name` |
| Parser.GenericVariablesComplete | app/services/analysis/parser.py:164-168 | a descendant with a `Name` is listed in its position among the `Name` hits, and one with a `name` among the `name` hits |
| Parser.ParseWorkflow | app/services/analysis/parser.py:78-188 | "UiPath" and "Blue Prism" select their branches exactly; any other platform string takes the generic branch and is returned unchanged |
| Parser.DescendantDepth | app/services/analysis/parser.py:153-173 | outside UiPath the depth is 0 for a childless root and at least 1 otherwise |
| Metrics.CountContaining | app/services/analysis/metrics.py:6-8 | the count of activities containing the marker is at most the length, zero iff none contains it, and full iff all do |
| Metrics.CountContainingAppend | app/services/analysis/metrics.py:6-8 | counts over two lists add up |
| Metrics.AnyCustomCode | app/services/analysis/metrics.py:10-12 | true iff some activity contains "Code" or "Script" |
| Metrics.CustomCodeMarkers | app/services/analysis/metrics.py:10-12 | any name containing "Code" or "Script" marks custom code, and a name with neither 'C' nor 'S' never does |
| Metrics.CalculateMetrics | app/services/analysis/metrics.py:5-20 | the two counts are the list lengths and depth is copied; invoked is the number of activities containing "Invoke" (`CountContaining`, pinned by `CountContainingAppend`), so it is ≤ activities and zero iff none does; custom code iff some marker; an empty list gives neither |
| Metrics.InvokeIsCaseSensitive | app/services/analysis/metrics.py:7 | "invokeworkflow" is not counted; "InvokeWorkflowFile" is |
| Complexity.CalculateComplexity | app/services/analysis/complexity.py:4-22 | the score is at least activities + variables + 3·depth; the tier is that of the score |
| Complexity.ComplexityMonotone | app/services/analysis/complexity.py:5-20 | more of any input never lowers the score or the tier |
| Complexity.ComplexityWeights | app/services/analysis/complexity.py:5-11 | each input's marginal weight: nesting 3, invoked 2, activities 1, variables 1, custom code 5; all zero gives 0 |
| Complexity.ComplexityExample | app/services/analysis/complexity.py:5-20 | 10 activities, depth 2, 5 variables, nothing else: score 21, Medium |
| WorkflowComplexity.CountWithAttr | app/services/workflows/complexity.py:9 | the `[@Name]` count is at most the node count, zero iff no node has the attribute, and equal to the node count iff every node has it; with CountWithAttrAppend this is the number of nodes carrying the attribute |
| WorkflowComplexity.CountWithAttrAppend | app/services/workflows/complexity.py:9 | counts over two walks add, so each node carrying the attribute is counted exactly once |
| WorkflowComplexity.AnalyzeWorkflow | app/services/workflows/complexity.py:4-33 | raises iff the root has no child elements; otherwise the activities are the descendants, the variables are the `[@Name]` descendants (CountWithAttr), the depth is the maximum ancestor count over the descendants (MaxAncestors) and so at least 1, score ≥ activities + 3·depth, the shared tiers |
| WorkflowComplexity.AnalyzerAgreesWithGenericParse | app/services/workflows/complexity.py:8-10 | the activity count and depth agree with the parser's generic branch |
| WorkflowComplexity.AnalyzerScoreHasNoInvokeTerm | app/services/workflows/complexity.py:12-16 | the score is exactly activities + 3·depth + variables |
| ReviewModel.NewFinding | app/services/code_review/comprehensive_rules.py:5-19 | a rule's finding carries its category, severity, rule id and activity name |
| ReviewModel.LowerOf | app/services/code_review/comprehensive_rules.py:150 | `d.get(k, '').lower()` raises exactly on a `None` value |
| ReviewModel.Has | app/services/code_review/comprehensive_rules.py:150 | `sub in text` propagates the exception of a text that raised |
| ReviewModel.VariablesOf | app/services/code_review/comprehensive_rules.py:79-82 | `workflow.get('variables', [])`: empty when missing, raises when `None` |
| ReviewModel.ForEachVariable | app/services/code_review/comprehensive_rules.py:82-115 | a per-variable loop succeeds iff no variable raises |
| ReviewModel.ForEachVariableCount | app/services/code_review/comprehensive_rules.py:278-297 | a loop emitting one finding per selected variable reports exactly that many |
| ReviewModel.ForEachVariableCountTwo | app/services/code_review/comprehensive_rules.py:82-115 | a loop emitting one finding per failed test reports the sum of the two counts |
| ReviewModel.ForEachVariableSound | app/services/code_review/comprehensive_rules.py:82-115 | a property of every variable's findings holds of the loop's findings |
| UiPathRules.IsTryCatchActivity | app/services/code_review/comprehensive_rules.py:123-127 | on a well-formed activity: 'trycatch' in the type or 'try catch' in the display name, case-insensitively |
| UiPathRules.IsTryCatchType | app/services/code_review/comprehensive_rules.py:150 | raises exactly on a `None` type |
| UiPathRules.IsHttpActivity | app/services/code_review/comprehensive_rules.py:174-178 | on a well-formed activity: the HTTP/API markers; only a `None` key can raise |
| UiPathRules.IsRetryActivity | app/services/code_review/comprehensive_rules.py:180-184 | on a well-formed activity: the retry markers |
| UiPathRules.IsUiActivity | app/services/code_review/comprehensive_rules.py:249-253 | on a well-formed activity: 'click'/'type'/'get' in the type or 'click'/'type into' in the display name |
| UiPathRules.IsLogActivity | app/services/code_review/comprehensive_rules.py:304-307 | on a well-formed activity: 'log' in the type or the display name |
| UiPathRules.CheckWorkflowNaming | app/services/code_review/comprehensive_rules.py:38-74 | raises iff the name is `None`; one Minor finding for a non-PascalCase name and one for a generic name shorter than 15 |
| UiPathRules.VariableNamingFindings | app/services/code_review/comprehensive_rules.py:82-113 | per variable: raises iff the name is `None`; one finding for non-camelCase and one for a too-short name, where "dt" and "id" are allowed |
| UiPathRules.CheckVariableNaming | app/services/code_review/comprehensive_rules.py:77-115 | raises iff the list or a name is `None`; otherwise the badly cased plus the too-short count, all UP-NAM-002 Naming |
| UiPathRules.CheckMissingTryCatch | app/services/code_review/comprehensive_rules.py:118-143 | on well-formed activities: one Critical ErrorHandling finding iff more than 5 activities and none is a try-catch |
| UiPathRules.CheckEmptyCatchBlocks | app/services/code_review/comprehensive_rules.py:146-165 | raises iff some type is `None`; one Info finding, although the rule is declared Major, iff some type contains 'trycatch' |
| UiPathRules.FilterRaisesIffNullType | app/services/code_review/comprehensive_rules.py:150 | the try-catch comprehension raises iff some type is `None`, and otherwise is empty iff no type matches |
| UiPathRules.CheckRetryLogic | app/services/code_review/comprehensive_rules.py:168-199 | on well-formed activities: one Major finding iff some HTTP activity and no retry activity |
| UiPathRules.CheckExcessiveNesting | app/services/code_review/comprehensive_rules.py:202-220 | raises iff the depth is `None`; a missing depth passes; one finding iff depth > 5 |
| UiPathRules.CheckLargeWorkflow | app/services/code_review/comprehensive_rules.py:223-242 | one finding iff more than 50 activities; Major iff more than 100, else Minor |
| UiPathRules.CheckSelectorOptimization | app/services/code_review/comprehensive_rules.py:245-268 | on well-formed activities: one finding iff more than 10 UI activities |
| UiPathRules.SelectorFindings | app/services/code_review/comprehensive_rules.py:249-268 | at most one finding, only with more than 10 activities, and exactly when more than 10 pass the UI test |
| UiPathRules.CredentialFinding | app/services/code_review/comprehensive_rules.py:278-296 | per variable: raises iff the name is `None`; one Critical finding iff the name has a credential pattern and the default is non-empty without 'Config' or 'Asset' |
| UiPathRules.CheckHardcodedCredentials | app/services/code_review/comprehensive_rules.py:271-297 | raises iff the list or a name is `None`; otherwise exactly one finding per hard-coded credential |
| UiPathRules.CheckSensitiveDataLogging | app/services/code_review/comprehensive_rules.py:300-322 | on well-formed activities: one finding iff some logging activity |
| UiPathRules.CheckMissingAnnotations | app/services/code_review/comprehensive_rules.py:325-343 | never raises; one finding iff more than 20 activities |
| UiPathRules.CheckLoggingStandards | app/services/code_review/comprehensive_rules.py:346-368 | on well-formed activities: one finding iff more than 10 activities and none logs |
| UiPathRules.RegistryShape | app/services/code_review/comprehensive_rules.py:372-481 | twelve rules, all for UiPath, each with an `UP-` identifier |
| UiPathRules.RegistryIdsDistinct | app/services/code_review/comprehensive_rules.py:372-481 | no two UiPath rules share an identifier |
| UiPathRules.RegistryCriticalRules | app/services/code_review/comprehensive_rules.py:372-481 | the Critical rules are exactly UP-ERR-001 and UP-SEC-001 |
| BluePrismRules.CheckProcessNaming | app/services/code_review/comprehensive_rules.py:488-507 | never raises; one Minor finding iff the name is present, non-empty and shorter than 5 |
| BluePrismRules.DataItemFinding | app/services/code_review/comprehensive_rules.py:516-533 | per item: raises iff the name is `None`; one finding iff the lowered name is exactly a generic name |
| BluePrismRules.CheckDataItemNaming | app/services/code_review/comprehensive_rules.py:510-534 | raises iff the list or a name is `None`; otherwise one finding per generic data item |
| BluePrismRules.IsExceptionActivity | app/services/code_review/comprehensive_rules.py:541-545 | on a well-formed activity: 'exception' in the type or 'exception'/'error' in the display name |
| BluePrismRules.CheckExceptionHandling | app/services/code_review/comprehensive_rules.py:537-561 | on well-formed activities: one Critical finding iff more than 5 activities and no exception stage |
| BluePrismRules.CredentialItemFinding | app/services/code_review/comprehensive_rules.py:570-587 | per item: raises iff the name is `None`; one Critical finding iff the name has one of the five patterns, whatever the value |
| BluePrismRules.CheckCredentialManagement | app/services/code_review/comprehensive_rules.py:564-588 | raises iff the list or a name is `None`; otherwise one finding per credential-like item |
| BluePrismRules.RegistryShape | app/services/code_review/comprehensive_rules.py:591-628 | four rules, all for Blue Prism, with pairwise different `BP-` identifiers |
| ReviewEngine.RulesFor | app/services/code_review/comprehensive_rules.py:648 | exactly "UiPath" selects the UiPath rules; every other string selects the Blue Prism rules |
| ReviewEngine.RunRules | app/services/code_review/comprehensive_rules.py:651-658 | every finding comes from some rule that did not raise |
| ReviewEngine.RunRulesAppend | app/services/code_review/comprehensive_rules.py:653-656 | findings are concatenated in registry order |
| ReviewEngine.RaisingRuleIsSkipped | app/services/code_review/comprehensive_rules.py:654-658 | a raising rule contributes nothing and the rules after it still run |
| ReviewEngine.RuleFindingsKept | app/services/code_review/comprehensive_rules.py:654-656 | every finding of a rule that does not raise reaches the result |
| ReviewEngine.Deduction | app/services/code_review/comprehensive_rules.py:669-676 | at most 25, and positive iff the severity is one of the four known ones |
| ReviewEngine.Deductions | app/services/code_review/comprehensive_rules.py:665-676 | at most 25 per finding |
| ReviewEngine.DeductionsAppend | app/services/code_review/comprehensive_rules.py:665-676 | deductions over two lists add up |
| ReviewEngine.DeductionsInclude | app/services/code_review/comprehensive_rules.py:665-676 | a finding of the category deducts at least its own points |
| ReviewEngine.DeductionsOtherCategory | app/services/code_review/comprehensive_rules.py:665 | findings of other categories, "Custom" among them, deduct nothing |
| ReviewEngine.CategoryScore | app/services/code_review/comprehensive_rules.py:678 | within [0,100]; 100 iff no deduction; 0 iff deductions ≥ 100; otherwise 100 minus the deductions |
| ReviewEngine.CategoryScoreAntitone | app/services/code_review/comprehensive_rules.py:665-678 | further findings never raise a category score |
| ReviewEngine.CategoryScoreIgnoresOthers | app/services/code_review/comprehensive_rules.py:665-678 | findings of other categories leave the score unchanged |
| ReviewEngine.Weight | app/services/code_review/comprehensive_rules.py:682-689 | a category outside the six weighs nothing |
| ReviewEngine.WeightsSumToOne | app/services/code_review/comprehensive_rules.py:682-689 | the six weights sum to 1 |
| ReviewEngine.OverallHundredths | app/services/code_review/comprehensive_rules.py:691 | at most 100 points, and exactly 100 iff no category has a deduction |
| ReviewEngine.OverallAntitone | app/services/code_review/comprehensive_rules.py:665-691 | further findings never raise the overall score |
| ReviewEngine.CategoryDrop | app/services/code_review/comprehensive_rules.py:665-678 | one more finding lowers its category by at most its deduction |
| ReviewEngine.OneFindingCost | app/services/code_review/comprehensive_rules.py:665-691 | one more finding lowers the overall score by at most weight × deduction |
| ReviewEngine.GradeOf | app/services/code_review/comprehensive_rules.py:694-703 | A, B, C, D and F are each an if-and-only-if on 90, 80, 70 and 60 points |
| ReviewEngine.PerformCodeReview | app/services/code_review/comprehensive_rules.py:635-710 | the findings are the selected rules' findings; each of the six categories, and no other, gets its category score; the overall score is the weighted sum of those and the grade is its letter; no findings gives 100 and A |
| ReviewEngine.CountSeverity | app/services/code_review/comprehensive_rules.py:716-719 | the number of findings with that severity: at most all findings, zero iff none has it, all iff every one has it, and pinned exactly by CountSeverityAppend and CountSeverityIsCount |
| ReviewEngine.CountSeverityAppend | app/services/code_review/comprehensive_rules.py:716-719 | counts over two lists add, so each finding of the severity is counted exactly once |
| ReviewEngine.CountSeverityIsCount | app/services/code_review/comprehensive_rules.py:716-719 | the bucket equals the generic comprehension count of findings whose severity is the given one |
| ReviewEngine.SeverityBucketsBounded | app/services/code_review/comprehensive_rules.py:713-721 | the four buckets together hold at most all findings |
| ReviewEngine.GetSeverityCounts | app/services/code_review/comprehensive_rules.py:713-721 | total is the number of findings and each bucket is the number of findings with that severity; each is zero iff no finding has it |
| ReviewEngine.MissingTryCatchCosts | app/services/code_review/comprehensive_rules.py:118-143 | a large UiPath workflow without try-catch scores at most 75 in ErrorHandling and at most 92.5 overall |
| ReviewEngine.EmptyCatchDeductsAsInfo | app/services/code_review/comprehensive_rules.py:146-165 | UP-ERR-002 is declared Major, but what it emits deducts 2 points, as Info |
| Grading.LetterGrade | app/services/code_review/code_review_service.py:54-63 | `_grade`: A, B, C, D and F are each an if-and-only-if on 90, 80, 70 and 60 |
| Grading.GradeMonotone | app/services/code_review/code_review_service.py:54-63 | a higher score never gives a worse grade |
| CustomRules.CheckThreshold | app/services/custom_rules/engine.py:9-14 | raises iff the metric or the threshold is missing; otherwise one finding, with the rule's name and severity, iff the metric is strictly above the threshold |
| CustomRules.EvaluateRule | app/services/custom_rules/engine.py:8-22 | raises iff a threshold rule's lookup fails; at most one finding, iff the rule fires, carrying the rule's name and severity and its type's message |
| CustomRules.RunCustomRules | app/services/custom_rules/engine.py:4-24 | raises iff some rule's lookup fails; otherwise one finding per firing rule, at most one per rule, each traceable to a firing rule |
| CustomRules.RunCustomRulesAppendRaised | app/services/custom_rules/engine.py:7-22 | an error in earlier rules aborts the whole call |
| CustomRules.RunCustomRulesAppend | app/services/custom_rules/engine.py:7-24 | findings follow rule order: evaluating a concatenation concatenates the findings |
| CustomRules.ThresholdIsStrict | app/services/custom_rules/engine.py:9-17 | a metric equal to the threshold does not fire |
| CustomRules.OtherTypesNeverFire | app/services/custom_rules/engine.py:8-16 | any other rule type, "regex" included, neither fires nor raises |
| CustomRules.ActiveFlagIgnored | app/services/custom_rules/engine.py:7-22 | `is_active` does not affect the outcome |
| LegacyReview.LegacyScore | app/services/code_review/engine.py:14 | within [0,100]; 100 − 5n up to 20 findings; 0 iff at least 20 |
| LegacyReview.LegacyScoreStep | app/services/code_review/engine.py:14 | each further finding costs 5 points until the score is 0 |
| LegacyReview.LegacyScoreAntitone | app/services/code_review/engine.py:14 | more findings never raise the score |
| LegacyReview.MissingTryCatch | app/services/code_review/rules/error_handling.py:5-17 | raises iff `nesting_depth` is missing; exactly one ER-001 Critical finding with its fixed message and recommendation iff depth > 3 |
| LegacyReview.RunEngineRules | app/services/code_review/engine.py:9-12 | raises iff some rule raises, with no isolation; every finding comes from a rule |
| LegacyReview.EngineRulesAreMissingTryCatch | app/services/code_review/engine.py:3-12 | the engine's list is the missing Try-Catch rule alone, so running it is running that rule |
| LegacyReview.RunEngineReview | app/services/code_review/engine.py:8-32 | total_issues is the number of findings, score and grade follow from it, there are no findings iff depth ≤ 3, and no findings gives 100 and A |
| LegacyReview.ServiceCodeReview | app/services/code_review/code_review_service.py:24-44 | the CR-001 Maintainability/Major finding iff depth > 4; score 95 or 100; grade `_grade(score)` |
| LegacyReview.ServiceAlwaysGradesA | app/services/code_review/code_review_service.py:37-56 | with at most one finding the service always grades A |
| LegacyReview.NestingThresholdsDiffer | app/services/code_review/rules/error_handling.py:10 | at depth 4 the engine reports one issue and the service none |
| ActivityMappings.CleanName | app/services/analysis/activity_mappings.py:103 | the name's suffix after its last brace of either kind: a suffix, free of braces, preceded by a brace unless it is the whole name |
| ActivityMappings.MappingTableShape | app/services/analysis/activity_mappings.py:14-98 | 57 rows; Python Script is incompatible at 5.0 h; If and Flow Decision share the equivalent Decision |
| ActivityMappings.FirstUiPathMatch | app/services/analysis/activity_mappings.py:104-107 | the first row matching ignoring case, with no match before it; none iff no row matches |
| ActivityMappings.UiPathToBluePrism | app/services/analysis/activity_mappings.py:101-107 | a result is a table row matching the cleaned name ignoring case; none iff no row matches |
| ActivityMappings.BluePrismMatches | app/services/analysis/activity_mappings.py:131 | every row returned matches the action ignoring case, and every matching row is returned |
| ActivityMappings.BluePrismMatchesCount | app/services/analysis/activity_mappings.py:131 | one entry per matching row: as many entries as matching rows |
| ActivityMappings.BluePrismMatchesFirst | app/services/analysis/activity_mappings.py:131 | the first entry is the topmost matching row |
| ActivityMappings.BluePrismMatchesAppend | app/services/analysis/activity_mappings.py:131 | matching a concatenation matches each part in turn, so matches keep table order |
| ActivityMappings.BluePrismToUiPath | app/services/analysis/activity_mappings.py:130-131 | the raw action, not cleaned, is matched against the whole table: every row whose Blue Prism equivalent matches ignoring case, and only those |
| ActivityMappings.DecisionHasTwoRows | app/services/analysis/activity_mappings.py:35-39 | the reverse lookup of Decision, in any case, returns both the If and the Flow Decision rows |
| ActivityMappings.FallbackCategory | app/services/analysis/activity_mappings.py:114-128 | always one of five categories, each an if-and-only-if on the raw name: the first test in the order control names, data names or "Data", invocation names, "Click"/"Type"/"Web" that holds, "Other" when none does |
| ActivityMappings.CategorizeActivity | app/services/analysis/activity_mappings.py:109-128 | the row's category when the lookup succeeds, the fallback otherwise |
| ActivityMappings.KnownCategoryIgnoresPrefix | app/services/analysis/activity_mappings.py:102-111 | for a name the table knows, names with the same cleaned form get the same category |
| ActivityMappings.MappingsFor | app/services/analysis/activity_mappings.py:135-140 | "UiPath-to-BP" gives the forward lookup's row when it succeeds and nothing when it fails; any other direction gives the reverse lookup's rows |
| ActivityMappings.ResultFor | app/services/analysis/activity_mappings.py:142-154 | the three `any` flags and `isIncompatible` iff every mapping is incompatible, which includes no mappings |
| ActivityMappings.MappingsForActivities | app/services/analysis/activity_mappings.py:133-155 | one result per activity, in input order |
| ActivityMappings.Bucket | app/services/analysis/activity_mappings.py:170-183 | priority direct > partial > complex > incompatible |
| ActivityMappings.EveryResultIsBucketed | app/services/analysis/activity_mappings.py:170-183 | the incompatible branch is always reached when the first three are not |
| ActivityMappings.OnlyIncompatibleLeft | app/services/analysis/activity_mappings.py:142-145 | mappings with none direct, partial or complex are all incompatible |
| ActivityMappings.EffortOf | app/services/analysis/activity_mappings.py:171-183 | incompatible costs the flat 8 hours; otherwise the first mapping's estimate |
| ActivityMappings.CountBucket | app/services/analysis/activity_mappings.py:170-182 | the number of results whose bucket is the given one: at most all of them, and zero iff none falls in it |
| ActivityMappings.CountBucketMatches | app/services/analysis/activity_mappings.py:158-182 | counting results per bucket equals counting the activities a matching test picks out |
| ActivityMappings.ActivityBucketCount | app/services/analysis/activity_mappings.py:158-182 | each bucket count over the results is the number of activities whose own lookup lands in that bucket |
| ActivityMappings.TotalEffort | app/services/analysis/activity_mappings.py:170-183 | the effort is zero iff every result is charged nothing |
| ActivityMappings.TotalEffortAppend | app/services/analysis/activity_mappings.py:170-183 | efforts over two lists of results add up |
| ActivityMappings.TotalEffortSplit | app/services/analysis/activity_mappings.py:170-183 | every result is charged exactly once: the total is the effort before it, plus its own, plus the effort after it |
| ActivityMappings.BucketsPartition | app/services/analysis/activity_mappings.py:170-182 | the four bucket counts sum to the number of activities |
| ActivityMappings.RoundHalfEven | app/services/analysis/activity_mappings.py:193 | Python `round`: within half a unit of n/d, and on a tie the even neighbour |
| ActivityMappings.RoundAtMost | app/services/analysis/activity_mappings.py:193 | a quotient of at most m rounds to at most m |
| ActivityMappings.RoundExact | app/services/analysis/activity_mappings.py:193 | an exact quotient rounds to itself |
| ActivityMappings.AllDirectRoundsToFull | app/services/analysis/activity_mappings.py:186-193 | all direct gives exactly 100 |
| ActivityMappings.CompatibilityScore | app/services/analysis/activity_mappings.py:185-193 | the nearest integer to the weighted average, an even one on a tie; 0 for no activities; within [0,100]; 100 when all are direct |
| ActivityMappings.StatsFromResults | app/services/analysis/activity_mappings.py:157-195 | on results whose flags agree with their mappings (`Classified`, including `isIncompatible` iff every mapping is incompatible, so the final `elif` of line 180 always holds), each count is its bucket's count, the effort is the sum of every result's charge, the score is the weighted score of the counts; the buckets sum to the total |
| ActivityMappings.CalculateMigrationStats | app/services/analysis/activity_mappings.py:157-195 | each count is the number of activities whose lookup lands in that bucket, the effort is the sum of their charges, the score is the weighted score of the counts; an all-direct non-empty list scores 100 |
| ActivityMappings.IncompatibleEffort | app/services/analysis/activity_mappings.py:180-183 | the effort is at least 8 h times the incompatible count |
| ActivityMappings.IncompatibleChargedDefault | app/services/analysis/activity_mappings.py:170-193 | two direct 0.5 h activities and one incompatible 5.0 h one: 2 direct, 1 incompatible, 9.0 h, score 67 |
| Comparison.IncompatibleSources | app/services/comparison/compare_service.py:25-29 | the sources below 80 add up, with the compatible count, to all mappings, and each comes from an incompatible mapping |
| Comparison.IncompatibleSourcesAppend | app/services/comparison/compare_service.py:25-29 | the incompatible sources keep mapping order |
| Comparison.ComparePlatforms | app/services/comparison/compare_service.py:5-30 | mapped is the count with score ≥ 80; incompatible = total − mapped, unclamped; effort is twice that; one pair per mapping, in order, compatible iff ≥ 80 |
| Comparison.AllCompatibleNoEffort | app/services/comparison/compare_service.py:6-15 | all compatible and one mapping per activity: no incompatibilities and no effort |
| Comparison.NegativeIncompatibilities | app/services/comparison/compare_service.py:8-15 | more compatible mappings than activities gives a negative count and a negative effort |
| Comparison.TruncDiv | app/services/comparison/engine.py:2 | `int(a / b)` truncates toward zero: the quotient is bracketed for non-negative operands and has the sign of the exact quotient |
| Comparison.TruncDivOdd | app/services/comparison/engine.py:2 | truncation is symmetric about zero: `int(-7/2)` is −3, not the floor −4 |
| Comparison.CompareWorkflow | app/services/comparison/engine.py:1-8 | raises iff the count is 0; effort ≥ 1 and equal to count − mapped when that is ≥ 1; the score is the truncated percentage |
| Comparison.CompareWorkflowBounds | app/services/comparison/engine.py:2 | for 0 ≤ mapped ≤ count the score is in [0,100], 0 for none mapped and 100 for all |
| Security.Utf8Width | app/core/security.py:16 | 1 to 4 bytes per code point, 1 exactly for ASCII |
| Security.EncodeChar | app/core/security.py:23 | the lead byte announces the width and the continuation bytes lie in 0x80-0xBF |
| Security.EncodeCharRoundTrip | app/core/security.py:23 | decoding a character's bytes gives back the character |
| Security.EncodedLength | app/core/security.py:16 | between 1 and 4 bytes per character |
| Security.Encode | app/core/security.py:23 | the encoding has the computed length |
| Security.EncodedLengthAppend | app/core/security.py:16 | byte lengths add over concatenation |
| Security.EncodeAppend | app/core/security.py:23 | encoding a concatenation concatenates the encodings |
| Security.EncodableAppend | app/core/security.py:23 | a concatenation of surrogate-free strings is surrogate-free, so it encodes |
| Security.PrefixLengthMonotone | app/core/security.py:16-17 | a longer prefix never encodes shorter |
| Security.Shorten | app/core/security.py:15-17 | the cut is a prefix, at most 72 bytes, unchanged when it fits, and the next longer prefix is over 72 bytes |
| Security.ShortenIsLongest | app/core/security.py:16-17 | every longer prefix is over the limit |
| Security.ShortenThroughPrefix | app/core/security.py:16-17 | once a prefix is over the limit, the rest of the password is irrelevant |
| Security.SharedPrefixSameCut | app/core/security.py:16-44 | two passwords sharing a prefix over 72 bytes are cut alike |
| Security.CutEncodingIsPrefix | app/core/security.py:23 | bcrypt receives the first bytes of the full encoding, never a split character |
| Security.CutLoop | app/core/security.py:15-17 | the one-character-per-step loop computes the cut |
| Security.TruncatePassword | app/core/security.py:15-17 | raises iff the password holds a surrogate; otherwise the cut |
| Security.HashPassword | app/core/security.py:7-32 | raises iff encoding or bcrypt raises; otherwise bcrypt's hash of the cut password's bytes |
| Security.VerifyPassword | app/core/security.py:35-53 | true iff both texts encode and bcrypt accepts the cut password; every error answers false |
| Security.HashThenVerify | app/core/security.py:7-53 | a password verifies against its own hash when bcrypt is consistent |
| Security.SharedPrefixVerifiesAlike | app/core/security.py:42-44 | two passwords sharing a prefix over 72 bytes verify alike against any hash |

## Left out

- XML reading. The lxml parse with recovery, its warnings and `etree.parse` are not modelled. The model starts from an element tree of tag, attributes and children. Comments and processing instructions are not represented. In the program `root.iter()` (parser.py:100) also yields them, and their `.tag` is not a string, so `'}' in tag` (parser.py:81) raises a TypeError for any UiPath document that contains one. The `.//*` searches of the other branches skip them.
- LLM enrichment, persistence, HTTP routes, background workers, usage tracking, and the `print`/`logger` calls. These are I/O.
- bcrypt. `hashpw` with its random salt and `checkpw` are function parameters, and the `decode('utf-8')` of the hash is folded into `hashpw`.
- Non-integer values in dictionaries. Metrics, thresholds and nesting depths are integers in the model. A `None` or string value, which would raise `TypeError` on comparison, is not represented in `CustomRules`, `LegacyReview` or `Comparison`.
- Stored mapping scores. `compatibility_score` of a stored mapping is an integer. app/models/activity_mapping.py is not part of this model.
- ReviewEngine.OverallHundredths: the weighted sum is exact in hundredths. Python's float sum, which can land a hair below a grade boundary, and `round(overall, 1)` are not modelled.
- Comparison.CompareWorkflow: the score is the exact truncated percentage. The float product can truncate one lower, for example 29/100·100 gives 28.999… and so 28.
- Text.Lower, Text.IsUpperChar, Text.IsLowerChar and Text.IsAlnum are ASCII only. Unicode case mapping and classification are not modelled. Python's `lower()` also folds some non-ASCII letters to ASCII ones, for example U+212A KELVIN SIGN to 'k'. This affects:
  - the naming rules of `UiPathRules` and `BluePrismRules` for non-ASCII names;
  - the case-insensitive table lookups ActivityMappings.FirstUiPathMatch, ActivityMappings.UiPathToBluePrism, ActivityMappings.BluePrismMatches and ActivityMappings.BluePrismToUiPath;
  - the keyword tests UiPathRules.IsTryCatchActivity, IsHttpActivity, IsRetryActivity, IsUiActivity and IsLogActivity, and BluePrismRules.IsExceptionActivity.
- ActivityMappings.BluePrismToUiPath: the number of rows it returns and which comes first are proved for any table by ActivityMappings.BluePrismMatchesCount and ActivityMappings.BluePrismMatchesFirst, not instantiated for the literal 57-row table, which is beyond the solver's budget.
- ActivityMappings.MappingTableShape states the size and a few rows of the table, not every row's values.
- ActivityMappings.IncompatibleChargedDefault is stated over classified results with the rows' types and efforts, not over the literal names "Click", "Type Into" and "Python Script". Reasoning about the concrete 57-row table is beyond the solver's budget. The rows it assumes are the table's rows for those names (app/services/analysis/activity_mappings.py:16-17,97).
- Effort estimates are quarter hours, not floats. Every table value is a multiple of 0.25, so nothing is lost.
- The password-truncation log line (app/core/security.py:19-20) only logs and is left out.
