/** The professional-language analyzer: one issue per match of five categories
    of non-person-centred language, a compliance score that falls with the
    weighted issue count, a three-step compliance level and one fixed
    recommendation per category with at least one issue. */
module ProfessionalLanguage {
  import opened Seqs
  import opened Text
  import opened Numeric
  import opened Models

  /** The language categories, in catalogue order. */
  datatype LanguageCategory =
    | DeficitLanguage
    | MedicalModel
    | LabelsNotPeople
    | JudgmentalLanguage
    | UnsupportedGeneralizations

  const LanguageCategories: seq<LanguageCategory> :=
    [DeficitLanguage, MedicalModel, LabelsNotPeople, JudgmentalLanguage, UnsupportedGeneralizations]

  function CategoryIndex(c: LanguageCategory): (k: nat)
    ensures k < |LanguageCategories| && LanguageCategories[k] == c
  {
    match c
    case DeficitLanguage => 0
    case MedicalModel => 1
    case LabelsNotPeople => 2
    case JudgmentalLanguage => 3
    case UnsupportedGeneralizations => 4
  }

  /** Deficit language and generalisations are of medium severity, the other
      three of high severity. */
  function CategorySeverity(c: LanguageCategory): Severity
  {
    if c == DeficitLanguage || c == UnsupportedGeneralizations then Medium else High
  }

  /** Penalty added per issue of the category. */
  function PenaltyWeight(c: LanguageCategory): real
  {
    if CategorySeverity(c) == High then 1.5 else 0.8
  }

  /** Characters of context kept on each side of a match. */
  const ContextWidth: nat := 100

  datatype LanguageIssue = LanguageIssue(
    category: LanguageCategory,
    issue: String,
    context: String,
    severity: Severity)

  datatype ComplianceLevel = LowCompliance | ModerateCompliance | HighCompliance

  /** One fixed piece of advice per category with issues, or the single note
      that the language is compliant. */
  datatype LanguageRecommendation = Advice(category: LanguageCategory) | GoodProfessionalCompliance

  // ---------------------------------------------------------------------------
  // Issues and score

  /** The issue recorded for match m of category c. */
  function MakeIssue(text: String, c: LanguageCategory, m: Match): LanguageIssue
  {
    LanguageIssue(c, m.text, Strip(Window(text, m, ContextWidth)), CategorySeverity(c))
  }

  /** The issues of one category: one per match, in match order. */
  function CategoryIssues(text: String, c: LanguageCategory, ms: seq<Match>): (r: seq<LanguageIssue>)
    ensures |r| == |ms|
  {
    if ms == [] then []
    else CategoryIssues(text, c, ms[..|ms| - 1]) + [MakeIssue(text, c, ms[|ms| - 1])]
  }

  /** The j-th issue of a category is the one made from its j-th match. */
  lemma {:induction false} CategoryIssueAt(text: String, c: LanguageCategory, ms: seq<Match>, j: nat)
    requires j < |ms|
    ensures CategoryIssues(text, c, ms)[j] == MakeIssue(text, c, ms[j])
  {
    if j < |ms| - 1 {
      CategoryIssueAt(text, c, ms[..|ms| - 1], j);
    }
  }

  /** Issues of the first k categories; `matches[k]` holds the matches of the
      patterns of `LanguageCategories[k]`, pattern by pattern, each in text
      order. */
  function IssuesUpTo(text: String, matches: seq<seq<Match>>, k: nat): seq<LanguageIssue>
    requires |matches| == |LanguageCategories| && k <= |LanguageCategories|
  {
    if k == 0 then []
    else IssuesUpTo(text, matches, k - 1)
         + CategoryIssues(text, LanguageCategories[k - 1], matches[k - 1])
  }

  /** The weighted issue count of the first k categories. */
  function Penalty(matches: seq<seq<Match>>, k: nat): real
    requires |matches| == |LanguageCategories| && k <= |LanguageCategories|
  {
    if k == 0 then 0.0
    else Penalty(matches, k - 1) + |matches[k - 1]| as real * PenaltyWeight(LanguageCategories[k - 1])
  }

  /** The compliance score before rounding: a tenth of the penalty, capped at
      10, taken off 10, and never below 0. */
  function ScoreFromPenalty(penalty: real): real
  {
    MaxR(0.0, 10.0 - MinR(10.0, penalty * 0.1))
  }

  function ComplianceScore(matches: seq<seq<Match>>): real
    requires |matches| == |LanguageCategories|
  {
    ScoreFromPenalty(Penalty(matches, |LanguageCategories|))
  }

  function ComplianceLevelFor(score: real): ComplianceLevel
  {
    if score >= 8.0 then HighCompliance
    else if score >= 5.0 then ModerateCompliance
    else LowCompliance
  }

  // ---------------------------------------------------------------------------
  // Grouping and recommendations

  /** The issues of category c, in their original order. */
  function IssuesOf(issues: seq<LanguageIssue>, c: LanguageCategory): seq<LanguageIssue>
  {
    if issues == [] then []
    else IssuesOf(issues[..|issues| - 1], c)
         + (if issues[|issues| - 1].category == c then [issues[|issues| - 1]] else [])
  }

  /** The issues grouped by category: a category is a key once it has an issue,
      and each issue joins the end of its category's list. */
  function Grouped(issues: seq<LanguageIssue>): map<LanguageCategory, seq<LanguageIssue>>
  {
    if issues == [] then map[]
    else
      var g := Grouped(issues[..|issues| - 1]);
      var x := issues[|issues| - 1];
      if x.category in g then g[x.category := g[x.category] + [x]] else g[x.category := [x]]
  }

  /** Some issue of the list has category c. */
  predicate HasCategory(issues: seq<LanguageIssue>, c: LanguageCategory)
  {
    exists i :: 0 <= i < |issues| && issues[i].category == c
  }

  /** Advice for each of the first k categories that has a group. */
  function AdviceUpTo(groups: map<LanguageCategory, seq<LanguageIssue>>, k: nat): seq<LanguageRecommendation>
    requires k <= |LanguageCategories|
  {
    if k == 0 then []
    else AdviceUpTo(groups, k - 1)
         + (if LanguageCategories[k - 1] in groups then [Advice(LanguageCategories[k - 1])] else [])
  }

  function LanguageRecommendations(issues: seq<LanguageIssue>): seq<LanguageRecommendation>
  {
    var advice := AdviceUpTo(Grouped(issues), |LanguageCategories|);
    if advice == [] then [GoodProfessionalCompliance] else advice
  }

  /** The dictionary of issue lists keyed by category, built in one pass. */
  method GroupByCategory(issues: seq<LanguageIssue>)
    returns (byCategory: map<LanguageCategory, seq<LanguageIssue>>)
    ensures byCategory == Grouped(issues)
  {
    byCategory := map[];
    var i := 0;
    while i < |issues|
      invariant 0 <= i <= |issues|
      invariant byCategory == Grouped(issues[..i])
    {
      var category := issues[i].category;
      assert issues[..i + 1][..i] == issues[..i];
      if category in byCategory {
        byCategory := byCategory[category := byCategory[category] + [issues[i]]];
      } else {
        byCategory := byCategory[category := [issues[i]]];
      }
      i := i + 1;
    }
    assert issues[..i] == issues;
  }

  /** The recommendations, checked category by category against the groups. */
  method GenerateRecommendations(issues: seq<LanguageIssue>)
    returns (recs: seq<LanguageRecommendation>)
    ensures recs == LanguageRecommendations(issues)
  {
    var byCategory := GroupByCategory(issues);
    recs := [];
    if DeficitLanguage in byCategory { recs := recs + [Advice(DeficitLanguage)]; }
    assert recs == AdviceUpTo(byCategory, 1);
    if MedicalModel in byCategory { recs := recs + [Advice(MedicalModel)]; }
    assert recs == AdviceUpTo(byCategory, 2);
    if LabelsNotPeople in byCategory { recs := recs + [Advice(LabelsNotPeople)]; }
    assert recs == AdviceUpTo(byCategory, 3);
    if JudgmentalLanguage in byCategory { recs := recs + [Advice(JudgmentalLanguage)]; }
    assert recs == AdviceUpTo(byCategory, 4);
    if UnsupportedGeneralizations in byCategory { recs := recs + [Advice(UnsupportedGeneralizations)]; }
    assert recs == AdviceUpTo(byCategory, 5);
    if recs == [] {
      recs := [GoodProfessionalCompliance];
    }
  }

  // ---------------------------------------------------------------------------
  // The analyzer

  /** The issue for one match: the stripped context window and the category's
      severity. */
  method IssueForMatch(text: String, c: LanguageCategory, m: Match) returns (issue: LanguageIssue)
    ensures issue == MakeIssue(text, c, m)
  {
    var start := Max(0, m.start - ContextWidth);
    var end := Min(|text|, m.end + ContextWidth);
    var context := Strip(Slice(text, start, end));
    issue := LanguageIssue(c, m.text, context, CategorySeverity(c));
  }

  /** The loop over one category's matches: counts them and records an issue
      for each. */
  method ScanCategory(text: String, c: LanguageCategory, ms: seq<Match>)
    returns (found: seq<LanguageIssue>, categoryIssues: nat)
    ensures found == CategoryIssues(text, c, ms)
    ensures categoryIssues == |ms|
  {
    found := [];
    categoryIssues := 0;
    var j := 0;
    while j < |ms|
      invariant 0 <= j <= |ms|
      invariant found == CategoryIssues(text, c, ms[..j])
      invariant categoryIssues == j
    {
      var issue := IssueForMatch(text, c, ms[j]);
      assert ms[..j + 1][..j] == ms[..j];
      found := found + [issue];
      categoryIssues := categoryIssues + 1;
      j := j + 1;
    }
    assert ms[..j] == ms;
  }

  /** One category's turn: its issues are appended and its weighted issue count
      is added to the penalty. */
  method AddCategory(text: String, matches: seq<seq<Match>>, k: nat,
                     issues: seq<LanguageIssue>, total: real)
    returns (issues': seq<LanguageIssue>, total': real)
    requires |matches| == |LanguageCategories| && k < |LanguageCategories|
    requires issues == IssuesUpTo(text, matches, k)
    requires total == Penalty(matches, k)
    ensures issues' == IssuesUpTo(text, matches, k + 1)
    ensures total' == Penalty(matches, k + 1)
  {
    var c := LanguageCategories[k];
    var found, categoryIssues := ScanCategory(text, c, matches[k]);
    if CategorySeverity(c) == High {
      total' := total + categoryIssues as real * 1.5;
    } else {
      total' := total + categoryIssues as real * 0.8;
    }
    issues' := issues + found;
  }

  /** The loop over the categories: collects the issues and the penalty. */
  method ScanCategories(text: String, matches: seq<seq<Match>>)
    returns (issues: seq<LanguageIssue>, total: real)
    requires |matches| == |LanguageCategories|
    ensures issues == IssuesUpTo(text, matches, |LanguageCategories|)
    ensures total == Penalty(matches, |LanguageCategories|)
  {
    issues := [];
    total := 0.0;
    var k := 0;
    while k < |LanguageCategories|
      invariant 0 <= k <= |LanguageCategories|
      invariant issues == IssuesUpTo(text, matches, k)
      invariant total == Penalty(matches, k)
    {
      issues, total := AddCategory(text, matches, k, issues, total);
      k := k + 1;
    }
  }

  method AnalyzeProfessionalCompliance(text: String, matches: seq<seq<Match>>)
    returns (issues: seq<LanguageIssue>, complianceScore: real, level: ComplianceLevel,
             totalIssues: nat, recommendations: seq<LanguageRecommendation>)
    requires |matches| == |LanguageCategories|
    ensures issues == IssuesUpTo(text, matches, |LanguageCategories|)
    ensures totalIssues == |issues| == TotalLength(matches)
    ensures complianceScore == Round(ComplianceScore(matches), 1)
    ensures level == ComplianceLevelFor(ComplianceScore(matches))
    ensures recommendations == LanguageRecommendations(issues)
  {
    var total;
    issues, total := ScanCategories(text, matches);
    var score := MaxR(0.0, 10.0 - MinR(10.0, total * 0.1));
    if score >= 8.0 {
      level := HighCompliance;
    } else if score >= 5.0 {
      level := ModerateCompliance;
    } else {
      level := LowCompliance;
    }
    recommendations := GenerateRecommendations(issues);
    complianceScore := Round(score, 1);
    totalIssues := |issues|;
    IssueCount(text, matches, |LanguageCategories|);
    assert matches[..|LanguageCategories|] == matches;
  }

  // ---------------------------------------------------------------------------
  // Properties of the score

  /** One issue per match of the first k categories. */
  lemma {:induction false} IssueCount(text: String, matches: seq<seq<Match>>, k: nat)
    requires |matches| == |LanguageCategories| && k <= |LanguageCategories|
    ensures |IssuesUpTo(text, matches, k)| == TotalLength(matches[..k])
  {
    if k > 0 {
      IssueCount(text, matches, k - 1);
      assert matches[..k][..k - 1] == matches[..k - 1];
    }
  }

  /** The penalty is 0.8 per medium-severity issue and 1.5 per high-severity
      issue. */
  lemma PenaltyClosedForm(matches: seq<seq<Match>>)
    requires |matches| == |LanguageCategories|
    ensures Penalty(matches, |LanguageCategories|)
            == 0.8 * (|matches[0]| + |matches[4]|) as real
               + 1.5 * (|matches[1]| + |matches[2]| + |matches[3]|) as real
  {
    assert Penalty(matches, 1) == |matches[0]| as real * 0.8;
    assert Penalty(matches, 2) == Penalty(matches, 1) + |matches[1]| as real * 1.5;
    assert Penalty(matches, 3) == Penalty(matches, 2) + |matches[2]| as real * 1.5;
    assert Penalty(matches, 4) == Penalty(matches, 3) + |matches[3]| as real * 1.5;
  }

  lemma {:induction false} PenaltyNonNegative(matches: seq<seq<Match>>, k: nat)
    requires |matches| == |LanguageCategories| && k <= |LanguageCategories|
    ensures Penalty(matches, k) >= 0.0
  {
    if k > 0 {
      PenaltyNonNegative(matches, k - 1);
    }
  }

  /** For any non-negative penalty the score is 10 minus a tenth of it, down to
      0 once the penalty reaches 100: the lower bound of 0 never binds. */
  lemma ScoreFromPenaltyValue(penalty: real)
    requires penalty >= 0.0
    ensures penalty < 100.0 ==> ScoreFromPenalty(penalty) == 10.0 - penalty * 0.1
    ensures penalty >= 100.0 ==> ScoreFromPenalty(penalty) == 0.0
    ensures ScoreFromPenalty(penalty) == 10.0 - MinR(10.0, penalty * 0.1)
    ensures InTen(ScoreFromPenalty(penalty))
  {
  }

  /** The score lies in [0, 10], before and after rounding. */
  lemma ComplianceScoreInRange(matches: seq<seq<Match>>)
    requires |matches| == |LanguageCategories|
    ensures InTen(ComplianceScore(matches)) && InTen(Round(ComplianceScore(matches), 1))
  {
    PenaltyNonNegative(matches, |LanguageCategories|);
    RoundWithin(ComplianceScore(matches), 1, 0.0, 10.0, 0, 100);
  }

  /** More matches in any category never raise the penalty's share of the
      score: the score only falls. */
  lemma {:induction false} PenaltyMonotone(matches: seq<seq<Match>>, more: seq<seq<Match>>, k: nat)
    requires |matches| == |more| == |LanguageCategories| && k <= |LanguageCategories|
    requires forall c :: 0 <= c < |LanguageCategories| ==> |matches[c]| <= |more[c]|
    ensures Penalty(matches, k) <= Penalty(more, k)
  {
    if k > 0 {
      PenaltyMonotone(matches, more, k - 1);
      ScaleMono(|matches[k - 1]| as real, |more[k - 1]| as real, PenaltyWeight(LanguageCategories[k - 1]));
    }
  }

  function RankOf(l: ComplianceLevel): nat
  {
    match l
    case LowCompliance => 0
    case ModerateCompliance => 1
    case HighCompliance => 2
  }

  lemma ComplianceScoreAntitone(matches: seq<seq<Match>>, more: seq<seq<Match>>)
    requires |matches| == |more| == |LanguageCategories|
    requires forall c :: 0 <= c < |LanguageCategories| ==> |matches[c]| <= |more[c]|
    ensures ComplianceScore(more) <= ComplianceScore(matches)
    ensures RankOf(ComplianceLevelFor(ComplianceScore(more))) <= RankOf(ComplianceLevelFor(ComplianceScore(matches)))
  {
    PenaltyMonotone(matches, more, |LanguageCategories|);
  }

  /** Each level covers its band of scores, and a higher score never gets a
      lower level. */
  lemma ComplianceLevelBands(s: real, t: real)
    requires s <= t
    ensures ComplianceLevelFor(s) == HighCompliance <==> s >= 8.0
    ensures ComplianceLevelFor(s) == ModerateCompliance <==> 5.0 <= s < 8.0
    ensures ComplianceLevelFor(s) == LowCompliance <==> s < 5.0
    ensures RankOf(ComplianceLevelFor(s)) <= RankOf(ComplianceLevelFor(t))
  {
  }

  /** Every issue carries its category's severity. */
  lemma {:induction false} IssueSeverities(text: String, matches: seq<seq<Match>>, k: nat)
    requires |matches| == |LanguageCategories| && k <= |LanguageCategories|
    ensures forall i :: 0 <= i < |IssuesUpTo(text, matches, k)| ==>
              IssuesUpTo(text, matches, k)[i].severity == CategorySeverity(IssuesUpTo(text, matches, k)[i].category)
  {
    if k > 0 {
      IssueSeverities(text, matches, k - 1);
      var before: seq<LanguageIssue> := IssuesUpTo(text, matches, k - 1);
      var here: seq<LanguageIssue> := CategoryIssues(text, LanguageCategories[k - 1], matches[k - 1]);
      assert IssuesUpTo(text, matches, k) == before + here;
      forall i | |before| <= i < |before| + |here|
        ensures (before + here)[i] == MakeIssue(text, LanguageCategories[k - 1], matches[k - 1][i - |before|])
      {
        CategoryIssueAt(text, LanguageCategories[k - 1], matches[k - 1], i - |before|);
      }
    }
  }

  /** When the matches lie in the text, every issue's context is a piece of the
      text at most 100 characters wider than its match on either side. */
  lemma {:induction false} IssueContexts(text: String, matches: seq<seq<Match>>, k: nat)
    requires |matches| == |LanguageCategories| && k <= |LanguageCategories|
    requires forall c, j :: 0 <= c < |matches| && 0 <= j < |matches[c]| ==> MatchIn(matches[c][j], text)
    ensures forall i :: 0 <= i < |IssuesUpTo(text, matches, k)| ==>
              var x := IssuesUpTo(text, matches, k)[i];
              |x.context| <= |x.issue| + 2 * ContextWidth && Contains(text, x.context)
  {
    if k > 0 {
      IssueContexts(text, matches, k - 1);
      var before: seq<LanguageIssue> := IssuesUpTo(text, matches, k - 1);
      var here: seq<LanguageIssue> := CategoryIssues(text, LanguageCategories[k - 1], matches[k - 1]);
      assert IssuesUpTo(text, matches, k) == before + here;
      forall i | |before| <= i < |before| + |here|
        ensures |(before + here)[i].context| <= |(before + here)[i].issue| + 2 * ContextWidth
                && Contains(text, (before + here)[i].context)
      {
        var m := matches[k - 1][i - |before|];
        CategoryIssueAt(text, LanguageCategories[k - 1], matches[k - 1], i - |before|);
        assert (before + here)[i] == MakeIssue(text, LanguageCategories[k - 1], m);
        StrippedWindowBounded(text, m, ContextWidth);
      }
    }
  }

  // ---------------------------------------------------------------------------
  // Properties of the grouping and the recommendations

  /** A category's list holds exactly the issues of that category. */
  lemma {:induction false} InIssuesOf(issues: seq<LanguageIssue>, c: LanguageCategory, x: LanguageIssue)
    ensures x in IssuesOf(issues, c) <==> x in issues && x.category == c
  {
    if issues != [] {
      InIssuesOf(issues[..|issues| - 1], c, x);
      assert issues == issues[..|issues| - 1] + [issues[|issues| - 1]];
    }
  }

  /** The grouping has a key for exactly the categories that occur, and each key
      maps to the issues of its category, in their original order. */
  lemma {:induction false} GroupedExact(issues: seq<LanguageIssue>, c: LanguageCategory)
    ensures c in Grouped(issues) <==> HasCategory(issues, c)
    ensures c in Grouped(issues) ==> Grouped(issues)[c] == IssuesOf(issues, c)
    ensures c !in Grouped(issues) ==> IssuesOf(issues, c) == []
  {
    if issues != [] {
      var init := issues[..|issues| - 1];
      var x := issues[|issues| - 1];
      GroupedExact(init, c);
      if HasCategory(issues, c) && x.category != c {
        var i :| 0 <= i < |issues| && issues[i].category == c;
        assert init[i] == issues[i];
      }
      if HasCategory(init, c) {
        var i :| 0 <= i < |init| && init[i].category == c;
        assert issues[i] == init[i];
      }
      if x.category == c {
        assert issues[|issues| - 1].category == c;
      }
    }
  }

  /** Advice for a category appears exactly when it has a group, and never the
      compliance note. */
  lemma {:induction false} AdviceExact(groups: map<LanguageCategory, seq<LanguageIssue>>, k: nat)
    requires k <= |LanguageCategories|
    ensures forall c :: Advice(c) in AdviceUpTo(groups, k) <==> CategoryIndex(c) < k && c in groups
    ensures GoodProfessionalCompliance !in AdviceUpTo(groups, k)
    ensures AdviceUpTo(groups, k) == [] <==> forall i :: 0 <= i < k ==> LanguageCategories[i] !in groups
  {
    if k > 0 {
      AdviceExact(groups, k - 1);
      assert CategoryIndex(LanguageCategories[k - 1]) == k - 1;
    }
  }

  /** The advice for category c is given exactly when some issue has category c,
      and the compliance note exactly when there is no issue at all. */
  lemma RecommendationsExact(issues: seq<LanguageIssue>)
    ensures forall c :: Advice(c) in LanguageRecommendations(issues) <==> HasCategory(issues, c)
    ensures GoodProfessionalCompliance in LanguageRecommendations(issues) <==> issues == []
    ensures |LanguageRecommendations(issues)| <= |LanguageCategories|
  {
    var g := Grouped(issues);
    AdviceExact(g, |LanguageCategories|);
    AdviceLength(g, |LanguageCategories|);
    forall c ensures c in g <==> HasCategory(issues, c) {
      GroupedExact(issues, c);
    }
    if issues != [] {
      var c := issues[0].category;
      assert HasCategory(issues, c);
      assert Advice(c) in AdviceUpTo(g, |LanguageCategories|);
    }
  }

  lemma {:induction false} AdviceLength(groups: map<LanguageCategory, seq<LanguageIssue>>, k: nat)
    requires k <= |LanguageCategories|
    ensures |AdviceUpTo(groups, k)| <= k
  {
    if k > 0 {
      AdviceLength(groups, k - 1);
    }
  }

  lemma HasCategoryAppend(a: seq<LanguageIssue>, b: seq<LanguageIssue>, c: LanguageCategory)
    ensures HasCategory(a + b, c) <==> HasCategory(a, c) || HasCategory(b, c)
  {
    var all := a + b;
    if HasCategory(all, c) {
      var i :| 0 <= i < |all| && all[i].category == c;
      if i < |a| {
        assert a[i] == all[i];
      } else {
        assert b[i - |a|] == all[i];
      }
    }
    if HasCategory(a, c) {
      var i :| 0 <= i < |a| && a[i].category == c;
      assert all[i] == a[i];
    }
    if HasCategory(b, c) {
      var i :| 0 <= i < |b| && b[i].category == c;
      assert all[|a| + i] == b[i];
    }
  }

  /** The issues of category d have category c exactly when c is d and there is
      at least one match. */
  lemma OneCategoryIssues(text: String, d: LanguageCategory, ms: seq<Match>, c: LanguageCategory)
    ensures HasCategory(CategoryIssues(text, d, ms), c) <==> c == d && ms != []
  {
    var here := CategoryIssues(text, d, ms);
    if HasCategory(here, c) {
      var i :| 0 <= i < |here| && here[i].category == c;
      CategoryIssueAt(text, d, ms, i);
    }
    if ms != [] {
      CategoryIssueAt(text, d, ms, 0);
      assert here[0].category == d;
    }
  }

  /** Some issue of the first k categories has category c exactly when c is
      among them and has a match. */
  lemma {:induction false} IssueCategories(text: String, matches: seq<seq<Match>>, k: nat, c: LanguageCategory)
    requires |matches| == |LanguageCategories| && k <= |LanguageCategories|
    ensures HasCategory(IssuesUpTo(text, matches, k), c) <==> CategoryIndex(c) < k && matches[CategoryIndex(c)] != []
  {
    if k > 0 {
      IssueCategories(text, matches, k - 1, c);
      var d := LanguageCategories[k - 1];
      HasCategoryAppend(IssuesUpTo(text, matches, k - 1), CategoryIssues(text, d, matches[k - 1]), c);
      OneCategoryIssues(text, d, matches[k - 1], c);
      assert c == d <==> CategoryIndex(c) == k - 1;
    }
  }

  /** The analyzer recommends a category's advice exactly when one of that
      category's patterns matched. */
  lemma AnalyzerRecommendations(text: String, matches: seq<seq<Match>>)
    requires |matches| == |LanguageCategories|
    ensures var issues := IssuesUpTo(text, matches, |LanguageCategories|);
            forall c :: Advice(c) in LanguageRecommendations(issues) <==> matches[CategoryIndex(c)] != []
  {
    var issues := IssuesUpTo(text, matches, |LanguageCategories|);
    RecommendationsExact(issues);
    forall c ensures HasCategory(issues, c) <==> matches[CategoryIndex(c)] != [] {
      IssueCategories(text, matches, |LanguageCategories|, c);
    }
  }

  /** With no match anywhere the score is 10, the level high and the only
      recommendation the compliance note. */
  lemma NoIssuesFullCompliance(text: String, matches: seq<seq<Match>>)
    requires |matches| == |LanguageCategories|
    requires forall c :: 0 <= c < |LanguageCategories| ==> matches[c] == []
    ensures ComplianceScore(matches) == 10.0
    ensures ComplianceLevelFor(ComplianceScore(matches)) == HighCompliance
    ensures LanguageRecommendations(IssuesUpTo(text, matches, |LanguageCategories|)) == [GoodProfessionalCompliance]
  {
    PenaltyClosedForm(matches);
    var issues := IssuesUpTo(text, matches, |LanguageCategories|);
    var g := Grouped(issues);
    forall i | 0 <= i < |LanguageCategories| ensures LanguageCategories[i] !in g {
      var c := LanguageCategories[i];
      IssueCategories(text, matches, |LanguageCategories|, c);
      GroupedExact(issues, c);
    }
    AdviceExact(g, |LanguageCategories|);
  }
}
