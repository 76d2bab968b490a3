/** The NDIS goals-alignment scorer: for each of the seven NDIS plan goals, a
    family-alignment score and a Public Guardian alignment score from the
    counts of four indicator groups, then the mean of each axis over the
    goals, their differential and the recommendation and QCAT-argument
    ladders on it. */
module NdisGoals {
  import opened Seqs
  import opened Text
  import opened Numeric
  import opened Models
  import GuardianshipRisk

  /** The NDIS plan goals G1 to G7, in catalogue order. */
  datatype Goal = G1 | G2 | G3 | G4 | G5 | G6 | G7

  const Goals: seq<Goal> := [G1, G2, G3, G4, G5, G6, G7]

  function GoalIndex(g: Goal): (k: nat)
    ensures k < |Goals| && Goals[k] == g
  {
    match g
    case G1 => 0
    case G2 => 1
    case G3 => 2
    case G4 => 3
    case G5 => 4
    case G6 => 5
    case G7 => 6
  }

  /** The matches of one goal's four indicator groups, each group's patterns
      in catalogue order and each pattern's matches in text order. */
  datatype GoalMatches = GoalMatches(
    familyPositive: seq<Match>,
    familyNegative: seq<Match>,
    pgPositive: seq<Match>,
    pgNegative: seq<Match>)

  /** Characters of context kept on each side of a match. */
  const ContextWidth: nat := 100
  /** Characters of the context quoted in an evidence line. */
  const ExcerptLength: nat := 80
  /** Evidence lines kept per goal and axis. */
  const EvidenceLimit: nat := 5

  /** The evidence line for a match: the matched text in quotes, a dash, and the
      first 80 characters of its stripped context, followed by an ellipsis. */
  function EvidenceLine(text: String, m: Match): String
  {
    "\"" + m.text + "\" - " + Take(Strip(Window(text, m, ContextWidth)), ExcerptLength) + "..."
  }

  /** One evidence line per match, in match order. */
  function EvidenceLines(text: String, ms: seq<Match>): (r: seq<String>)
    ensures |r| == |ms|
  {
    if ms == [] then []
    else EvidenceLines(text, ms[..|ms| - 1]) + [EvidenceLine(text, ms[|ms| - 1])]
  }

  lemma {:induction false} EvidenceLineAt(text: String, ms: seq<Match>, j: nat)
    requires j < |ms|
    ensures EvidenceLines(text, ms)[j] == EvidenceLine(text, ms[j])
  {
    if j < |ms| - 1 {
      EvidenceLineAt(text, ms[..|ms| - 1], j);
    }
  }

  /** The Public Guardian score: 5.0 without indicators, otherwise the share of
      positive indicators when each negative one weighs 1.5, on a 0-10 scale
      and never below 0. */
  function PgScore(positive: nat, negative: nat): (s: real)
    ensures 0.0 <= s <= 10.0
    ensures positive + negative == 0 ==> s == 5.0
    ensures positive > 0 && negative == 0 ==> s == 10.0
    ensures positive == 0 && negative > 0 ==> s == 0.0
  {
    if positive + negative == 0 then 5.0
    else
      var share := positive as real / (positive as real + negative as real * 1.5);
      QuotientBelow(positive as real, positive as real + negative as real * 1.5, 1.0);
      MaxR(0.0, share * 10.0)
  }

  /** The verdict of one goal on its unrounded family-minus-PG differential. */
  datatype GoalVerdict =
    | StrongFamilyAdvantage
    | FamilyAdvantage
    | StrongPgAdvantage
    | PgAdvantage
    | NeutralGoal

  function GoalVerdictFor(differential: real): GoalVerdict
  {
    if differential >= 3.0 then StrongFamilyAdvantage
    else if differential >= 1.0 then FamilyAdvantage
    else if differential <= -3.0 then StrongPgAdvantage
    else if differential <= -1.0 then PgAdvantage
    else NeutralGoal
  }

  /** The per-goal record: both scores rounded to one decimal, the first five
      evidence lines for the family and against the Public Guardian, and the
      goal's verdict. */
  datatype GoalResult = GoalResult(
    goal: Goal,
    familyScore: real,
    pgScore: real,
    evidenceForFamily: seq<String>,
    evidenceAgainstPg: seq<String>,
    verdict: GoalVerdict)

  function GoalResultFor(g: Goal, text: String, gm: GoalMatches): GoalResult
  {
    var family := GuardianshipRisk.RatioScore(|gm.familyPositive|, |gm.familyNegative|);
    var pg := PgScore(|gm.pgPositive|, |gm.pgNegative|);
    GoalResult(g, Round(family, 1), Round(pg, 1),
               Take(EvidenceLines(text, gm.familyPositive), EvidenceLimit),
               Take(EvidenceLines(text, gm.pgNegative), EvidenceLimit),
               GoalVerdictFor(family - pg))
  }

  /** The results of the first k goals, in goal order. */
  function GoalResultsUpTo(text: String, gms: seq<GoalMatches>, k: nat): (r: seq<GoalResult>)
    requires |gms| == |Goals| && k <= |Goals|
    ensures |r| == k
  {
    if k == 0 then []
    else GoalResultsUpTo(text, gms, k - 1) + [GoalResultFor(Goals[k - 1], text, gms[k - 1])]
  }

  lemma {:induction false} GoalResultAt(text: String, gms: seq<GoalMatches>, k: nat, i: nat)
    requires |gms| == |Goals| && i < k <= |Goals|
    ensures GoalResultsUpTo(text, gms, k)[i] == GoalResultFor(Goals[i], text, gms[i])
  {
    if i < k - 1 {
      GoalResultAt(text, gms, k - 1, i);
    }
  }

  /** Sums of the rounded per-goal scores. */
  function FamilyTotal(results: seq<GoalResult>): real
  {
    if results == [] then 0.0 else FamilyTotal(results[..|results| - 1]) + results[|results| - 1].familyScore
  }

  function PgTotal(results: seq<GoalResult>): real
  {
    if results == [] then 0.0 else PgTotal(results[..|results| - 1]) + results[|results| - 1].pgScore
  }

  datatype Recommendation =
    | StrongFamilyRecommendation
    | FamilyRecommendation
    | StrongPgRecommendation
    | PgRecommendation
    | NoClearPreference

  /** The recommendation on the overall differential; the executive summary's
      finding follows the same ladder. */
  function RecommendationFor(differential: real): Recommendation
  {
    if differential >= 2.0 then StrongFamilyRecommendation
    else if differential >= 0.5 then FamilyRecommendation
    else if differential <= -2.0 then StrongPgRecommendation
    else if differential <= -0.5 then PgRecommendation
    else NoClearPreference
  }

  /** The QCAT argument: for the family it lists the goals whose rounded family
      score exceeds their rounded PG score. */
  datatype QcatArgument = FamilyArgument(advantaged: seq<Goal>) | PgArgument | NeutralConsideration

  /** The goals, in order, whose family score exceeds their PG score. */
  function FamilyAdvantaged(results: seq<GoalResult>): seq<Goal>
  {
    if results == [] then []
    else FamilyAdvantaged(results[..|results| - 1])
         + (var r := results[|results| - 1]; if r.familyScore > r.pgScore then [r.goal] else [])
  }

  function QcatArgumentFor(results: seq<GoalResult>, differential: real): QcatArgument
  {
    if differential >= 1.0 then FamilyArgument(FamilyAdvantaged(results))
    else if differential <= -1.0 then PgArgument
    else NeutralConsideration
  }

  datatype Alignment = Alignment(
    goals: seq<GoalResult>,
    overallFamily: real,
    overallPg: real,
    differential: real,
    recommendation: Recommendation,
    qcat: QcatArgument)

  // ---------------------------------------------------------------------------
  // The scorer

  /** Counts the matches of one indicator group and makes an evidence line for
      each. */
  method CollectEvidence(text: String, ms: seq<Match>) returns (count: nat, evidence: seq<String>)
    ensures count == |ms|
    ensures evidence == EvidenceLines(text, ms)
  {
    count := 0;
    evidence := [];
    var j := 0;
    while j < |ms|
      invariant 0 <= j <= |ms|
      invariant count == j
      invariant evidence == EvidenceLines(text, ms[..j])
    {
      var m := ms[j];
      var start := Max(0, m.start - ContextWidth);
      var end := Min(|text|, m.end + ContextWidth);
      var excerpt := Strip(Slice(text, start, end));
      assert ms[..j + 1][..j] == ms[..j];
      evidence := evidence + ["\"" + m.text + "\" - " + Take(excerpt, ExcerptLength) + "..."];
      count := count + 1;
      j := j + 1;
    }
    assert ms[..j] == ms;
  }

  /** The family score: neutral without indicators, otherwise the positive
      share. */
  method FamilyAlignment(positive: nat, negative: nat) returns (score: real)
    ensures score == GuardianshipRisk.RatioScore(positive, negative)
  {
    if positive + negative == 0 {
      score := 5.0;
    } else {
      score := (positive as real / (positive + negative) as real) * 10.0;
    }
  }

  /** The Public Guardian score, with the negatives weighted 1.5. */
  method PgAlignment(positive: nat, negative: nat) returns (score: real)
    ensures score == PgScore(positive, negative)
  {
    if positive + negative == 0 {
      score := 5.0;
    } else {
      var weightedNegative := negative as real * 1.5;
      score := MaxR(0.0, (positive as real / (positive as real + weightedNegative)) * 10.0);
    }
  }

  method AnalyzeSingleGoal(g: Goal, text: String, gm: GoalMatches) returns (r: GoalResult)
    ensures r == GoalResultFor(g, text, gm)
  {
    var familyPositive, familyEvidence := CollectEvidence(text, gm.familyPositive);
    var familyNegative := |gm.familyNegative|;
    var pgPositive, pgPositiveEvidence := CollectEvidence(text, gm.pgPositive);
    var pgNegative, pgNegativeEvidence := CollectEvidence(text, gm.pgNegative);
    var familyScore := FamilyAlignment(familyPositive, familyNegative);
    var pgScore := PgAlignment(pgPositive, pgNegative);
    var verdict := GoalVerdictFor(familyScore - pgScore);
    r := GoalResult(g, Round(familyScore, 1), Round(pgScore, 1),
                    Take(familyEvidence, EvidenceLimit), Take(pgNegativeEvidence, EvidenceLimit), verdict);
  }

  /** The loop over the goals: one result per goal and the running totals of
      the rounded scores. */
  method AnalyzeGoals(text: String, gms: seq<GoalMatches>)
    returns (results: seq<GoalResult>, totalFamily: real, totalPg: real)
    requires |gms| == |Goals|
    ensures results == GoalResultsUpTo(text, gms, |Goals|)
    ensures totalFamily == FamilyTotal(results) && totalPg == PgTotal(results)
  {
    results := [];
    totalFamily, totalPg := 0.0, 0.0;
    var k := 0;
    while k < |Goals|
      invariant 0 <= k <= |Goals|
      invariant results == GoalResultsUpTo(text, gms, k)
      invariant totalFamily == FamilyTotal(results) && totalPg == PgTotal(results)
    {
      var r := AnalyzeSingleGoal(Goals[k], text, gms[k]);
      assert (results + [r])[..|results|] == results;
      totalFamily := totalFamily + r.familyScore;
      totalPg := totalPg + r.pgScore;
      results := results + [r];
      k := k + 1;
    }
  }

  method AnalyzeGoalsAlignment(text: String, gms: seq<GoalMatches>) returns (a: Alignment)
    requires |gms| == |Goals|
    ensures a.goals == GoalResultsUpTo(text, gms, |Goals|)
    ensures a.overallFamily == Round(FamilyTotal(a.goals) / |Goals| as real, 1)
    ensures a.overallPg == Round(PgTotal(a.goals) / |Goals| as real, 1)
    ensures a.differential == Round(a.overallFamily - a.overallPg, 1)
    ensures a.recommendation == RecommendationFor(a.differential)
    ensures a.qcat == QcatArgumentFor(a.goals, a.differential)
  {
    var results, totalFamily, totalPg := AnalyzeGoals(text, gms);
    var numGoals := |Goals|;
    var overallFamily := Round(totalFamily / numGoals as real, 1);
    var overallPg := Round(totalPg / numGoals as real, 1);
    var differential := Round(overallFamily - overallPg, 1);
    a := Alignment(results, overallFamily, overallPg, differential,
                   RecommendationFor(differential), QcatArgumentFor(results, differential));
  }

  // ---------------------------------------------------------------------------
  // Properties of the two axes

  lemma MulStrict(q: real, d1: real, d2: real)
    requires q > 0.0 && d1 < d2
    ensures q * d1 < q * d2
  {
  }

  lemma CancelRight(x: real, y: real, d: real)
    requires d > 0.0 && x * d < y * d
    ensures x < y
  {
  }

  /** A larger denominator gives a smaller quotient. */
  lemma QuotientStrict(a: real, d1: real, d2: real)
    requires a > 0.0 && 0.0 < d1 < d2
    ensures a / d2 < a / d1
  {
    var q1, q2 := a / d1, a / d2;
    MulDiv(a, d1);
    MulDiv(a, d2);
    assert q1 > 0.0;
    MulStrict(q1, d1, d2);
    CancelRight(q2, q1, d2);
  }

  /** With the same positive and negative counts on both axes, the Public
      Guardian score is strictly below the family score: its negatives weigh
      1.5 times as much. */
  lemma PgBelowFamily(p: nat, n: nat)
    requires p > 0 && n > 0
    ensures PgScore(p, n) < GuardianshipRisk.RatioScore(p, n)
  {
    var a, b := p as real, n as real;
    QuotientStrict(a, a + b, a + b * 1.5);
    assert (p + n) as real == a + b;
    var sp, sf := a / (a + b * 1.5), a / (a + b);
    assert sp * 10.0 < sf * 10.0;
  }

  /** Two positive and two negative indicators score 5.0 for the family and
      4.0 for the Public Guardian. */
  lemma TwoAndTwo()
    ensures GuardianshipRisk.RatioScore(2, 2) == 5.0
    ensures PgScore(2, 2) == 4.0
  {
    assert 2.0 / (2.0 + 2.0 * 1.5) == 0.4;
  }

  /** More positive indicators never lower the PG score, more negative ones
      never raise it. */
  lemma PgScoreMonotone(p: nat, n: nat, p': nat, n': nat)
    requires p + n > 0 && p <= p' && n' <= n
    ensures PgScore(p, n) <= PgScore(p', n')
  {
    if p > 0 && n' > 0 {
      var a, b, c, d := p as real, n as real * 1.5, p' as real, n' as real * 1.5;
      ScaleMono(n' as real, n as real, 1.5);
      GuardianshipRisk.ShareMono(a, b, c, d);
      ScaleMono(a / (a + b), c / (c + d), 10.0);
    }
  }

  // ---------------------------------------------------------------------------
  // Properties of a goal's record

  /** The rounded scores lie in [0, 10]; the evidence is the lines of the
      first five matches (or of all of them when fewer), in order; the verdict
      follows the ladder on the unrounded differential. */
  lemma GoalResultValid(g: Goal, text: String, gm: GoalMatches)
    ensures var r := GoalResultFor(g, text, gm);
      && InTen(r.familyScore) && InTen(r.pgScore)
      && |r.evidenceForFamily| == Min(EvidenceLimit, |gm.familyPositive|)
      && |r.evidenceAgainstPg| == Min(EvidenceLimit, |gm.pgNegative|)
      && (forall j :: 0 <= j < |r.evidenceForFamily| ==> r.evidenceForFamily[j] == EvidenceLine(text, gm.familyPositive[j]))
      && (forall j :: 0 <= j < |r.evidenceAgainstPg| ==> r.evidenceAgainstPg[j] == EvidenceLine(text, gm.pgNegative[j]))
      && r.verdict == GoalVerdictFor(GuardianshipRisk.RatioScore(|gm.familyPositive|, |gm.familyNegative|)
                                     - PgScore(|gm.pgPositive|, |gm.pgNegative|))
  {
    var family := GuardianshipRisk.RatioScore(|gm.familyPositive|, |gm.familyNegative|);
    var pg := PgScore(|gm.pgPositive|, |gm.pgNegative|);
    RoundWithin(family, 1, 0.0, 10.0, 0, 100);
    RoundWithin(pg, 1, 0.0, 10.0, 0, 100);
    var r := GoalResultFor(g, text, gm);
    forall j | 0 <= j < |r.evidenceForFamily|
      ensures r.evidenceForFamily[j] == EvidenceLine(text, gm.familyPositive[j])
    {
      EvidenceLineAt(text, gm.familyPositive, j);
    }
    forall j | 0 <= j < |r.evidenceAgainstPg|
      ensures r.evidenceAgainstPg[j] == EvidenceLine(text, gm.pgNegative[j])
    {
      EvidenceLineAt(text, gm.pgNegative, j);
    }
  }

  function VerdictRank(v: GoalVerdict): nat
  {
    match v
    case StrongPgAdvantage => 0
    case PgAdvantage => 1
    case NeutralGoal => 2
    case FamilyAdvantage => 3
    case StrongFamilyAdvantage => 4
  }

  /** Each verdict covers its band of differentials, and a larger differential
      never gets a verdict further towards the Public Guardian. */
  lemma GoalVerdictBands(d: real, e: real)
    requires d <= e
    ensures GoalVerdictFor(d) == StrongFamilyAdvantage <==> d >= 3.0
    ensures GoalVerdictFor(d) == FamilyAdvantage <==> 1.0 <= d < 3.0
    ensures GoalVerdictFor(d) == NeutralGoal <==> -1.0 < d < 1.0
    ensures GoalVerdictFor(d) == PgAdvantage <==> -3.0 < d <= -1.0
    ensures GoalVerdictFor(d) == StrongPgAdvantage <==> d <= -3.0
    ensures VerdictRank(GoalVerdictFor(d)) <= VerdictRank(GoalVerdictFor(e))
  {
  }

  // ---------------------------------------------------------------------------
  // Properties of the overall alignment

  lemma {:induction false} TotalsWithin(results: seq<GoalResult>)
    requires forall i :: 0 <= i < |results| ==> InTen(results[i].familyScore) && InTen(results[i].pgScore)
    ensures 0.0 <= FamilyTotal(results) <= 10.0 * |results| as real
    ensures 0.0 <= PgTotal(results) <= 10.0 * |results| as real
  {
    if results != [] {
      var init := results[..|results| - 1];
      assert forall i :: 0 <= i < |init| ==> init[i] == results[i];
      TotalsWithin(init);
    }
  }

  /** Every goal's rounded scores lie in [0, 10]. */
  lemma AllGoalsInRange(text: String, gms: seq<GoalMatches>)
    requires |gms| == |Goals|
    ensures var results := GoalResultsUpTo(text, gms, |Goals|);
            forall i :: 0 <= i < |results| ==> InTen(results[i].familyScore) && InTen(results[i].pgScore)
  {
    var results := GoalResultsUpTo(text, gms, |Goals|);
    forall i | 0 <= i < |results| ensures InTen(results[i].familyScore) && InTen(results[i].pgScore) {
      GoalResultAt(text, gms, |Goals|, i);
      GoalResultValid(Goals[i], text, gms[i]);
    }
  }

  /** A mean over the seven goals of rounded scores in [0, 10], itself rounded,
      stays in [0, 10]. */
  lemma OverallWithin(total: real)
    requires 0.0 <= total <= 10.0 * |Goals| as real
    ensures InTen(Round(total / |Goals| as real, 1))
  {
    var n := |Goals| as real;
    QuotientAbove(total, n, 0.0);
    QuotientBelow(total, n, 10.0);
    RoundWithin(total / n, 1, 0.0, 10.0, 0, 100);
  }

  /** One-decimal scores differ by a one-decimal amount, so rounding the
      differential changes nothing: it is exactly the difference of the
      overall scores. */
  lemma DifferentialExact(x: real, y: real)
    ensures Round(Round(x, 1) - Round(y, 1), 1) == Round(x, 1) - Round(y, 1)
  {
    var kx := RoundHalfEven(x * 10.0);
    var ky := RoundHalfEven(y * 10.0);
    assert Round(x, 1) == kx as real / 10.0;
    assert Round(y, 1) == ky as real / 10.0;
    assert Round(x, 1) - Round(y, 1) == (kx - ky) as real / 10.0;
    RoundOnGrid(Round(x, 1) - Round(y, 1), 1, kx - ky);
  }

  /** Both overall scores lie in [0, 10], and the differential is their exact
      difference, so it lies in [-10, 10]. */
  lemma AlignmentInRange(text: String, gms: seq<GoalMatches>)
    requires |gms| == |Goals|
    ensures var results := GoalResultsUpTo(text, gms, |Goals|);
            var f := Round(FamilyTotal(results) / |Goals| as real, 1);
            var p := Round(PgTotal(results) / |Goals| as real, 1);
            InTen(f) && InTen(p) && Round(f - p, 1) == f - p && -10.0 <= f - p <= 10.0
  {
    AllGoalsInRange(text, gms);
    OverallScoresWithin(GoalResultsUpTo(text, gms, |Goals|));
  }

  lemma {:induction false} OverallScoresWithin(results: seq<GoalResult>)
    requires |results| == |Goals|
    requires forall i :: 0 <= i < |results| ==> InTen(results[i].familyScore) && InTen(results[i].pgScore)
    ensures var f := Round(FamilyTotal(results) / |Goals| as real, 1);
            var p := Round(PgTotal(results) / |Goals| as real, 1);
            InTen(f) && InTen(p) && Round(f - p, 1) == f - p && -10.0 <= f - p <= 10.0
  {
    TotalsWithin(results);
    OverallWithin(FamilyTotal(results));
    OverallWithin(PgTotal(results));
    DifferentialExact(FamilyTotal(results) / |Goals| as real, PgTotal(results) / |Goals| as real);
  }

  function RecommendationRank(r: Recommendation): nat
  {
    match r
    case StrongPgRecommendation => 0
    case PgRecommendation => 1
    case NoClearPreference => 2
    case FamilyRecommendation => 3
    case StrongFamilyRecommendation => 4
  }

  /** Each recommendation covers its band of differentials, and a larger
      differential never moves the recommendation towards the Public
      Guardian. */
  lemma RecommendationBands(d: real, e: real)
    requires d <= e
    ensures RecommendationFor(d) == StrongFamilyRecommendation <==> d >= 2.0
    ensures RecommendationFor(d) == FamilyRecommendation <==> 0.5 <= d < 2.0
    ensures RecommendationFor(d) == NoClearPreference <==> -0.5 < d < 0.5
    ensures RecommendationFor(d) == PgRecommendation <==> -2.0 < d <= -0.5
    ensures RecommendationFor(d) == StrongPgRecommendation <==> d <= -2.0
    ensures RecommendationRank(RecommendationFor(d)) <= RecommendationRank(RecommendationFor(e))
  {
  }

  /** The QCAT argument takes the family branch exactly when the differential
      is at least 1.0 and the Public Guardian branch exactly when it is at most
      -1.0. */
  lemma QcatBranches(results: seq<GoalResult>, d: real)
    ensures QcatArgumentFor(results, d).FamilyArgument? <==> d >= 1.0
    ensures QcatArgumentFor(results, d).PgArgument? <==> d <= -1.0
    ensures QcatArgumentFor(results, d).NeutralConsideration? <==> -1.0 < d < 1.0
  {
  }

  /** When the results are those of the first goals in order, a goal is listed
      as family-advantaged exactly when its rounded family score exceeds its
      rounded PG score. */
  lemma {:induction false} FamilyAdvantagedExact(results: seq<GoalResult>)
    requires |results| <= |Goals|
    requires forall i :: 0 <= i < |results| ==> results[i].goal == Goals[i]
    ensures forall g :: g in FamilyAdvantaged(results) <==>
              GoalIndex(g) < |results| && results[GoalIndex(g)].familyScore > results[GoalIndex(g)].pgScore
  {
    if results != [] {
      var init := results[..|results| - 1];
      assert forall i :: 0 <= i < |init| ==> init[i] == results[i];
      FamilyAdvantagedExact(init);
      var last := results[|results| - 1];
      assert GoalIndex(last.goal) == |results| - 1;
    }
  }

  /** The goals listed in the family argument are exactly those where the family
      scores higher. */
  lemma QcatListsAdvantagedGoals(text: String, gms: seq<GoalMatches>, d: real)
    requires |gms| == |Goals| && d >= 1.0
    ensures var results := GoalResultsUpTo(text, gms, |Goals|);
            forall g :: g in QcatArgumentFor(results, d).advantaged <==>
              results[GoalIndex(g)].familyScore > results[GoalIndex(g)].pgScore
  {
    var results := GoalResultsUpTo(text, gms, |Goals|);
    forall i | 0 <= i < |results| ensures results[i].goal == Goals[i] {
      GoalResultAt(text, gms, |Goals|, i);
    }
    FamilyAdvantagedExact(results);
  }
}
