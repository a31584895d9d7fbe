/**
 The comprehensive review engine: pick the rule set for the platform, run
 every rule in isolation, score each category by severity deductions, and
 weight the categories into an overall score and a letter grade.
 */
module ReviewEngine {
  import opened Runtime
  import opened ReviewModel
  import opened Grading
  import UiPathRules
  import BluePrismRules

  /** The exact string "UiPath" selects the UiPath rules; every other
      platform, "Blue Prism" with its space included, gets the Blue Prism rules. */
  function RulesFor(platform: string): (rules: seq<CodeReviewRule>)
    ensures platform == "UiPath" ==> rules == UiPathRules.Rules
    ensures platform != "UiPath" ==> rules == BluePrismRules.Rules
  {
    if platform == "UiPath" then UiPathRules.Rules else BluePrismRules.Rules
  }

  // ---------------------------------------------------------------------
  // Running the rules
  // ---------------------------------------------------------------------

  /** The findings of every rule in order; a rule that raises is reported
      and skipped, and the rules after it still run. */
  function RunRules(rules: seq<CodeReviewRule>, wf: WorkflowSnapshot, acts: seq<ActivityEntry>): (fs: seq<Finding>)
    ensures forall f :: f in fs ==>
      exists i :: 0 <= i < |rules| && rules[i].check(wf, acts).Ok? && f in rules[i].check(wf, acts).value
  {
    if |rules| == 0 then []
    else
      var rest := RunRules(rules[1..], wf, acts);
      assert forall i :: 1 <= i < |rules| ==> rules[i] == rules[1..][i - 1];
      match rules[0].check(wf, acts)
      case Raised(_) => rest
      case Ok(here) => here + rest
  }

  /** Running two rule lists one after the other concatenates their findings. */
  lemma {:induction false} RunRulesAppend(a: seq<CodeReviewRule>, b: seq<CodeReviewRule>,
                                          wf: WorkflowSnapshot, acts: seq<ActivityEntry>)
    ensures RunRules(a + b, wf, acts) == RunRules(a, wf, acts) + RunRules(b, wf, acts)
  {
    if |a| == 0 {
      assert a + b == b;
    } else {
      assert (a + b)[0] == a[0];
      assert (a + b)[1..] == a[1..] + b;
      RunRulesAppend(a[1..], b, wf, acts);
    }
  }

  /** Rule isolation: a rule that raises contributes nothing and does not
      stop the others, whatever its position. */
  lemma RaisingRuleIsSkipped(a: seq<CodeReviewRule>, rule: CodeReviewRule, b: seq<CodeReviewRule>,
                             wf: WorkflowSnapshot, acts: seq<ActivityEntry>)
    requires rule.check(wf, acts).Raised?
    ensures RunRules(a + [rule] + b, wf, acts) == RunRules(a + b, wf, acts)
  {
    RunRulesAppend(a + [rule], b, wf, acts);
    RunRulesAppend(a, [rule], wf, acts);
    RunRulesAppend(a, b, wf, acts);
  }

  /** Every finding of a rule that does not raise reaches the result. */
  lemma {:induction false} RuleFindingsKept(rules: seq<CodeReviewRule>, i: nat,
                                            wf: WorkflowSnapshot, acts: seq<ActivityEntry>)
    requires i < |rules| && rules[i].check(wf, acts).Ok?
    ensures forall f :: f in rules[i].check(wf, acts).value ==> f in RunRules(rules, wf, acts)
  {
    RunRulesAppend(rules[..i], rules[i..], wf, acts);
    assert rules[..i] + rules[i..] == rules;
    RunRulesAppend([rules[i]], rules[i + 1..], wf, acts);
    assert [rules[i]] + rules[i + 1..] == rules[i..];
  }

  // ---------------------------------------------------------------------
  // Scoring
  // ---------------------------------------------------------------------

  const Categories: seq<string> := [Naming, ErrorHandling, Performance, Security, Maintainability, Standards]

  /** Points a finding of this severity deducts from its category; an
      unknown severity deducts nothing. */
  function Deduction(severity: string): (d: nat)
    ensures d <= 25
    ensures d > 0 <==> severity in {Critical, Major, Minor, Info}
  {
    if severity == Critical then 25
    else if severity == Major then 15
    else if severity == Minor then 5
    else if severity == Info then 2
    else 0
  }

  /** Total deductions of the findings of one category. */
  function Deductions(fs: seq<Finding>, category: string): (d: nat)
    ensures d <= 25 * |fs|
  {
    if |fs| == 0 then 0
    else (if fs[0].category == category then Deduction(fs[0].severity) else 0) + Deductions(fs[1..], category)
  }

  lemma {:induction false} DeductionsAppend(a: seq<Finding>, b: seq<Finding>, category: string)
    ensures Deductions(a + b, category) == Deductions(a, category) + Deductions(b, category)
  {
    if |a| == 0 {
      assert a + b == b;
    } else {
      assert (a + b)[0] == a[0];
      assert (a + b)[1..] == a[1..] + b;
      DeductionsAppend(a[1..], b, category);
    }
  }

  /** A finding present in the list deducts at least its own points. */
  lemma {:induction false} DeductionsInclude(fs: seq<Finding>, category: string, f: Finding)
    requires f in fs && f.category == category
    ensures Deductions(fs, category) >= Deduction(f.severity)
  {
    if fs[0] != f {
      assert f in fs[1..];
      DeductionsInclude(fs[1..], category, f);
    }
  }

  /** Only findings of the category itself deduct from it. */
  lemma {:induction false} DeductionsOtherCategory(fs: seq<Finding>, category: string)
    requires forall i :: 0 <= i < |fs| ==> fs[i].category != category
    ensures Deductions(fs, category) == 0
  {
    if |fs| > 0 {
      assert forall i :: 1 <= i < |fs| ==> fs[i] == fs[1..][i - 1];
      DeductionsOtherCategory(fs[1..], category);
    }
  }

  /** `max(0, 100 - min(deductions, 100))`: 100 less the deductions, floored at 0. */
  function CategoryScore(fs: seq<Finding>, category: string): (s: nat)
    ensures s <= 100
    ensures s == 100 <==> Deductions(fs, category) == 0
    ensures s == 0 <==> Deductions(fs, category) >= 100
    ensures 0 < s ==> s + Deductions(fs, category) == 100
  {
    var d := Deductions(fs, category);
    var capped := if d < 100 then d else 100;
    if 100 - capped > 0 then 100 - capped else 0
  }

  /** Further findings never raise a category's score. */
  lemma CategoryScoreAntitone(fs: seq<Finding>, more: seq<Finding>, category: string)
    ensures CategoryScore(fs + more, category) <= CategoryScore(fs, category)
  {
    DeductionsAppend(fs, more, category);
  }

  /** Findings of other categories leave a category's score unchanged. */
  lemma CategoryScoreIgnoresOthers(fs: seq<Finding>, more: seq<Finding>, category: string)
    requires forall i :: 0 <= i < |more| ==> more[i].category != category
    ensures CategoryScore(fs + more, category) == CategoryScore(fs, category)
  {
    DeductionsAppend(fs, more, category);
    DeductionsOtherCategory(more, category);
  }

  /** Category weights in hundredths: 0.1, 0.3, 0.2, 0.25, 0.1, 0.05. */
  function Weight(category: string): (w: nat)
    ensures category !in Categories ==> w == 0
  {
    if category == Naming then 10
    else if category == ErrorHandling then 30
    else if category == Performance then 20
    else if category == Security then 25
    else if category == Maintainability then 10
    else if category == Standards then 5
    else 0
  }

  lemma WeightsSumToOne()
    ensures Weight(Naming) + Weight(ErrorHandling) + Weight(Performance) + Weight(Security)
            + Weight(Maintainability) + Weight(Standards) == 100
  {
  }

  /** The weighted average of the category scores, in hundredths of a point. */
  function OverallHundredths(fs: seq<Finding>): (h: nat)
    ensures h <= 10000
    ensures h == 10000 <==>
      && Deductions(fs, Naming) == 0 && Deductions(fs, ErrorHandling) == 0 && Deductions(fs, Performance) == 0
      && Deductions(fs, Security) == 0 && Deductions(fs, Maintainability) == 0 && Deductions(fs, Standards) == 0
  {
    10 * CategoryScore(fs, Naming) + 30 * CategoryScore(fs, ErrorHandling) + 20 * CategoryScore(fs, Performance)
    + 25 * CategoryScore(fs, Security) + 10 * CategoryScore(fs, Maintainability) + 5 * CategoryScore(fs, Standards)
  }

  /** Further findings never raise the overall score. */
  lemma OverallAntitone(fs: seq<Finding>, more: seq<Finding>)
    ensures OverallHundredths(fs + more) <= OverallHundredths(fs)
  {
    forall c | c in Categories
      ensures CategoryScore(fs + more, c) <= CategoryScore(fs, c)
    {
      CategoryScoreAntitone(fs, more, c);
    }
  }

  /** One more finding lowers its own category's score by at most its deduction. */
  lemma CategoryDrop(fs: seq<Finding>, f: Finding)
    ensures CategoryScore(fs, f.category) - CategoryScore(fs + [f], f.category) <= Deduction(f.severity)
  {
    DeductionsAppend(fs, [f], f.category);
    assert Deductions([f], f.category) == Deduction(f.severity);
  }

  /** A finding costs the overall score at most its category's weight times
      its deduction. */
  lemma OneFindingCost(fs: seq<Finding>, f: Finding)
    ensures OverallHundredths(fs) - OverallHundredths(fs + [f]) <= Weight(f.category) * Deduction(f.severity)
  {
    var c := f.category;
    forall k | k in Categories && k != c
      ensures CategoryScore(fs + [f], k) == CategoryScore(fs, k)
    {
      CategoryScoreIgnoresOthers(fs, [f], k);
    }
    CategoryDrop(fs, f);
    var drop := OverallHundredths(fs) - OverallHundredths(fs + [f]);
    if c == Naming {
      assert drop <= 10 * Deduction(f.severity);
    } else if c == ErrorHandling {
      assert drop <= 30 * Deduction(f.severity);
    } else if c == Performance {
      assert drop <= 20 * Deduction(f.severity);
    } else if c == Security {
      assert drop <= 25 * Deduction(f.severity);
    } else if c == Maintainability {
      assert drop <= 10 * Deduction(f.severity);
    } else if c == Standards {
      assert drop <= 5 * Deduction(f.severity);
    } else {
      assert drop == 0;
    }
  }

  /** The grade of an overall score: the cuts at 90, 80, 70 and 60 points. */
  function GradeOf(hundredths: nat): (g: Grade)
    ensures g == A <==> 9000 <= hundredths
    ensures g == B <==> 8000 <= hundredths < 9000
    ensures g == C <==> 7000 <= hundredths < 8000
    ensures g == D <==> 6000 <= hundredths < 7000
    ensures g == F <==> hundredths < 6000
  {
    LetterGrade(hundredths / 100)
  }

  // ---------------------------------------------------------------------
  // The review
  // ---------------------------------------------------------------------

  datatype CodeReview = CodeReview(
    findings: seq<Finding>,
    categoryScores: map<string, nat>,
    overallHundredths: nat,
    qualityGrade: Grade
  )

  function PerformCodeReview(platform: string, wf: WorkflowSnapshot, acts: seq<ActivityEntry>): (review: CodeReview)
    ensures review.findings == RunRules(RulesFor(platform), wf, acts)
    ensures review.categoryScores.Keys == set c | c in Categories
    ensures forall c :: c in review.categoryScores ==>
      review.categoryScores[c] <= 100 && review.categoryScores[c] == CategoryScore(review.findings, c)
    ensures review.overallHundredths == OverallHundredths(review.findings) && review.overallHundredths <= 10000
    ensures review.qualityGrade == GradeOf(review.overallHundredths)
    ensures review.qualityGrade == A <==> review.overallHundredths >= 9000
    ensures review.findings == [] ==> review.overallHundredths == 10000 && review.qualityGrade == A
  {
    var fs := RunRules(RulesFor(platform), wf, acts);
    var scores := map c | c in Categories :: CategoryScore(fs, c);
    var overall := OverallHundredths(fs);
    CodeReview(fs, scores, overall, GradeOf(overall))
  }

  // ---------------------------------------------------------------------
  // Severity counts
  // ---------------------------------------------------------------------

  datatype SeverityCounts = SeverityCounts(critical: nat, major: nat, minor: nat, info: nat, total: nat)

  function CountSeverity(fs: seq<Finding>, severity: string): (n: nat)
    ensures n <= |fs|
    ensures n == 0 <==> forall i :: 0 <= i < |fs| ==> fs[i].severity != severity
    ensures n == |fs| <==> forall i :: 0 <= i < |fs| ==> fs[i].severity == severity
  {
    if |fs| == 0 then 0
    else
      assert forall i :: 1 <= i < |fs| ==> fs[i] == fs[1..][i - 1];
      (if fs[0].severity == severity then 1 else 0) + CountSeverity(fs[1..], severity)
  }

  /** Counting over two lists one after the other adds the counts, so each
      finding of the severity is counted exactly once. */
  lemma {:induction false} CountSeverityAppend(a: seq<Finding>, b: seq<Finding>, severity: string)
    ensures CountSeverity(a + b, severity) == CountSeverity(a, severity) + CountSeverity(b, severity)
  {
    if |a| == 0 {
      assert a + b == b;
    } else {
      assert (a + b)[0] == a[0];
      assert (a + b)[1..] == a[1..] + b;
      CountSeverityAppend(a[1..], b, severity);
    }
  }

  /** The severity count is the generic count of the findings whose
      severity is the given one, the length of the comprehension. */
  lemma {:induction false} CountSeverityIsCount(fs: seq<Finding>, severity: string)
    ensures CountSeverity(fs, severity) == Count(fs, (f: Finding) => f.severity == severity)
  {
    if |fs| > 0 {
      CountSeverityIsCount(fs[1..], severity);
    }
  }

  /** The four severity buckets never hold more than all findings. */
  lemma {:induction false} SeverityBucketsBounded(fs: seq<Finding>)
    ensures CountSeverity(fs, Critical) + CountSeverity(fs, Major) + CountSeverity(fs, Minor)
            + CountSeverity(fs, Info) <= |fs|
  {
    if |fs| > 0 {
      SeverityBucketsBounded(fs[1..]);
    }
  }

  function GetSeverityCounts(fs: seq<Finding>): (c: SeverityCounts)
    ensures c.total == |fs|
    ensures c.critical + c.major + c.minor + c.info <= c.total
    ensures c.critical == CountSeverity(fs, Critical) && c.major == CountSeverity(fs, Major)
    ensures c.minor == CountSeverity(fs, Minor) && c.info == CountSeverity(fs, Info)
    ensures c.critical == 0 <==> forall i :: 0 <= i < |fs| ==> fs[i].severity != Critical
    ensures c.major == 0 <==> forall i :: 0 <= i < |fs| ==> fs[i].severity != Major
    ensures c.minor == 0 <==> forall i :: 0 <= i < |fs| ==> fs[i].severity != Minor
    ensures c.info == 0 <==> forall i :: 0 <= i < |fs| ==> fs[i].severity != Info
  {
    SeverityBucketsBounded(fs);
    SeverityCounts(CountSeverity(fs, Critical), CountSeverity(fs, Major), CountSeverity(fs, Minor),
                   CountSeverity(fs, Info), |fs|)
  }

  // ---------------------------------------------------------------------
  // Consequences for particular rules
  // ---------------------------------------------------------------------

  /** A UiPath workflow of more than five well-formed activities, none of
      them a try-catch, draws the Critical UP-ERR-001 finding, so its error
      handling score is at most 75 and its overall score at most 92.5. */
  lemma MissingTryCatchCosts(wf: WorkflowSnapshot, acts: seq<ActivityEntry>)
    requires WellFormedActivities(acts) && |acts| > 5
    requires forall i :: 0 <= i < |acts| ==> !UiPathRules.HasTryCatchMarker(acts[i])
    ensures CategoryScore(PerformCodeReview("UiPath", wf, acts).findings, ErrorHandling) <= 75
    ensures PerformCodeReview("UiPath", wf, acts).overallHundredths <= 9250
  {
    var rules := UiPathRules.Rules;
    assert rules[2].check == UiPathRules.CheckMissingTryCatch;
    var r := UiPathRules.CheckMissingTryCatch(wf, acts);
    assert |r.value| == 1;
    var f := r.value[0];
    RuleFindingsKept(rules, 2, wf, acts);
    var fs := RunRules(rules, wf, acts);
    assert f in fs;
    DeductionsInclude(fs, ErrorHandling, f);
  }

  /** UP-ERR-002 is declared Major, but what it emits is Info: a workflow
      with a try-catch loses 2 error-handling points to it, not 15. */
  lemma EmptyCatchDeductsAsInfo(wf: WorkflowSnapshot, acts: seq<ActivityEntry>)
    requires UiPathRules.CheckEmptyCatchBlocks(wf, acts).Ok?
    requires |UiPathRules.CheckEmptyCatchBlocks(wf, acts).value| == 1
    ensures UiPathRules.Rules[3].severity == Major
    ensures Deductions(UiPathRules.CheckEmptyCatchBlocks(wf, acts).value, ErrorHandling) == 2
  {
    var fs := UiPathRules.CheckEmptyCatchBlocks(wf, acts).value;
    assert fs[0] in fs;
    assert fs[1..] == [];
  }
}
