/** The guardianship risk-assessment scorer: five factors, each scored from its
    positive and negative indicator counts, sorted into protective and risk
    factors, averaged into an overall compliance score, rated on a ladder and
    turned into recommendations. */
module GuardianshipRisk {
  import opened Seqs
  import opened Text
  import opened Numeric
  import opened Models

  /** The assessment factors, in catalogue order. */
  datatype Factor =
    | Restrictiveness
    | WillAndPreferences
    | FamilyInvolvement
    | CulturalConsiderations
    | EvidenceQuality

  const Factors: seq<Factor> := [Restrictiveness, WillAndPreferences, FamilyInvolvement,
                                 CulturalConsiderations, EvidenceQuality]

  function FactorIndex(f: Factor): (k: nat)
    ensures k < |Factors| && Factors[k] == f
  {
    match f
    case Restrictiveness => 0
    case WillAndPreferences => 1
    case FamilyInvolvement => 2
    case CulturalConsiderations => 3
    case EvidenceQuality => 4
  }

  /** The catalogue key of a factor. */
  function FactorName(f: Factor): String
  {
    match f
    case Restrictiveness => "restrictiveness"
    case WillAndPreferences => "will_and_preferences"
    case FamilyInvolvement => "family_involvement"
    case CulturalConsiderations => "cultural_considerations"
    case EvidenceQuality => "evidence_quality"
  }

  /** The names of the score fields of the assessment record. */
  const ScoreFieldNames: set<String> :=
    {"restrictiveness_score", "will_preferences_score", "family_involvement_score",
     "cultural_considerations_score", "evidence_quality_score", "overall_compliance_score"}

  /** The names of the list fields of the assessment record. */
  const ListFieldNames: set<String> :=
    {"risk_factors", "protective_factors", "compliance_issues", "recommendations"}

  /** A protective entry records the factor's positive count, a risk entry its
      negative count. */
  datatype FactorNote = FactorNote(factor: Factor, indicators: nat)

  /** A compliance issue records the factor's unrounded score. */
  datatype ComplianceIssue = ComplianceIssue(factor: Factor, score: real)

  /** One fixed recommendation per weak factor, or the single "good compliance"
      note. */
  datatype Recommendation = Improve(factor: Factor) | GoodCompliance

  datatype ComplianceRating = HighCompliance | ModerateCompliance | LowCompliance | NonCompliant

  // ---------------------------------------------------------------------------
  // Scoring

  /** 5.0 without indicators, otherwise the share of positive indicators on a
      0-10 scale. */
  function RatioScore(positive: nat, negative: nat): (s: real)
    ensures 0.0 <= s <= 10.0
    ensures positive + negative == 0 ==> s == 5.0
    ensures positive > 0 && negative == 0 ==> s == 10.0
    ensures positive == 0 && negative > 0 ==> s == 0.0
  {
    if positive + negative == 0 then 5.0
    else (positive as real / (positive + negative) as real) * 10.0
  }

  /** More positive indicators never lower the score, more negative ones never
      raise it. */
  lemma RatioScoreMonotone(p: nat, n: nat, p': nat, n': nat)
    requires p + n > 0 && p <= p' && n' <= n
    ensures RatioScore(p, n) <= RatioScore(p', n')
  {
    if p > 0 && n' > 0 {
      var a, b, c, d := p as real, n as real, p' as real, n' as real;
      ShareMono(a, b, c, d);
      assert (p + n) as real == a + b && (p' + n') as real == c + d;
      ScaleMono(a / (a + b), c / (c + d), 10.0);
    }
  }

  /** a / (a + b) <= c / (c + d) when a <= c and d <= b. */
  lemma ShareMono(a: real, b: real, c: real, d: real)
    requires 0.0 < a <= c && 0.0 < d <= b
    ensures a / (a + b) <= c / (c + d)
  {
    ScaleMono(a, c, d);
    ScaleMono(d, b, c);
    CrossStep(a, b, c, d);
    DivCross(a, a + b, c, c + d);
  }

  lemma CrossStep(a: real, b: real, c: real, d: real)
    requires a * d <= c * d && d * c <= b * c
    ensures a * (c + d) <= c * (a + b)
  {
  }

  /** Cross-multiplication: a / b <= c / d when a d <= c b. */
  lemma DivCross(a: real, b: real, c: real, d: real)
    requires b > 0.0 && d > 0.0 && a * d <= c * b
    ensures a / b <= c / d
  {
    MulDiv(a, b);
    MulDiv(c, d);
  }

  /** Per-factor indicator totals: the sums of each factor's per-pattern match
      counts. */
  function Totals(counts: seq<seq<nat>>): (t: seq<nat>)
    ensures |t| == |counts|
    ensures forall k :: 0 <= k < |counts| ==> t[k] == SumN(counts[k])
  {
    if counts == [] then [] else Totals(counts[..|counts| - 1]) + [SumN(counts[|counts| - 1])]
  }

  /** The unrounded factor scores, from the positive and negative totals. */
  function RawScores(positive: seq<nat>, negative: seq<nat>): (s: seq<real>)
    requires |positive| == |negative|
    ensures |s| == |positive|
  {
    if positive == [] then []
    else RawScores(positive[..|positive| - 1], negative[..|negative| - 1])
         + [RatioScore(positive[|positive| - 1], negative[|negative| - 1])]
  }

  lemma {:induction false} RawScoresAt(positive: seq<nat>, negative: seq<nat>, k: nat)
    requires |positive| == |negative| && k < |positive|
    ensures RawScores(positive, negative)[k] == RatioScore(positive[k], negative[k])
  {
    if k < |positive| - 1 {
      RawScoresAt(positive[..|positive| - 1], negative[..|negative| - 1], k);
    }
  }

  /** Protective entries of the first k factors: those whose raw score is at
      least 6.0, with their positive totals. */
  function ProtectiveUpTo(raw: seq<real>, positive: seq<nat>, k: nat): seq<FactorNote>
    requires |raw| == |positive| == |Factors| && k <= |Factors|
  {
    if k == 0 then []
    else ProtectiveUpTo(raw, positive, k - 1)
         + (if raw[k - 1] >= 6.0 then [FactorNote(Factors[k - 1], positive[k - 1])] else [])
  }

  /** Risk entries of the first k factors: those whose raw score is below 6.0,
      with their negative totals. */
  function RiskUpTo(raw: seq<real>, negative: seq<nat>, k: nat): seq<FactorNote>
    requires |raw| == |negative| == |Factors| && k <= |Factors|
  {
    if k == 0 then []
    else RiskUpTo(raw, negative, k - 1)
         + (if raw[k - 1] >= 6.0 then [] else [FactorNote(Factors[k - 1], negative[k - 1])])
  }

  /** Compliance issues of the first k factors: those whose raw score is below
      5.0. */
  function IssuesUpTo(raw: seq<real>, k: nat): seq<ComplianceIssue>
    requires |raw| == |Factors| && k <= |Factors|
  {
    if k == 0 then []
    else IssuesUpTo(raw, k - 1)
         + (if raw[k - 1] < 5.0 then [ComplianceIssue(Factors[k - 1], raw[k - 1])] else [])
  }

  /** The factor appears in the list. */
  predicate Listed(notes: seq<FactorNote>, f: Factor)
  {
    exists j :: 0 <= j < |notes| && notes[j].factor == f
  }

  /** The entries follow catalogue order. */
  predicate InCatalogueOrder(notes: seq<FactorNote>)
  {
    forall j, j' :: 0 <= j < j' < |notes| ==> FactorIndex(notes[j].factor) < FactorIndex(notes[j'].factor)
  }

  /** Each protective entry is an earlier factor scoring at least 6.0, carrying
      its positive total, and the entries keep catalogue order. */
  lemma {:induction false} ProtectiveSound(raw: seq<real>, positive: seq<nat>, k: nat)
    requires |raw| == |positive| == |Factors| && k <= |Factors|
    ensures var p := ProtectiveUpTo(raw, positive, k);
            InCatalogueOrder(p)
            && forall j :: 0 <= j < |p| ==>
                 (FactorIndex(p[j].factor) < k && raw[FactorIndex(p[j].factor)] >= 6.0
                  && p[j].indicators == positive[FactorIndex(p[j].factor)])
  {
    if k > 0 {
      ProtectiveSound(raw, positive, k - 1);
      assert FactorIndex(Factors[k - 1]) == k - 1;
    }
  }

  /** Each risk entry is an earlier factor scoring below 6.0, carrying its
      negative total, and the entries keep catalogue order. */
  lemma {:induction false} RiskSound(raw: seq<real>, negative: seq<nat>, k: nat)
    requires |raw| == |negative| == |Factors| && k <= |Factors|
    ensures var r := RiskUpTo(raw, negative, k);
            InCatalogueOrder(r)
            && forall j :: 0 <= j < |r| ==>
                 (FactorIndex(r[j].factor) < k && raw[FactorIndex(r[j].factor)] < 6.0
                  && r[j].indicators == negative[FactorIndex(r[j].factor)])
  {
    if k > 0 {
      RiskSound(raw, negative, k - 1);
      assert FactorIndex(Factors[k - 1]) == k - 1;
    }
  }

  lemma ListedAppend(notes: seq<FactorNote>, extra: seq<FactorNote>, f: Factor)
    requires |extra| <= 1
    ensures Listed(notes + extra, f) <==> Listed(notes, f) || (extra != [] && extra[0].factor == f)
  {
    if Listed(notes + extra, f) {
      var j :| 0 <= j < |notes + extra| && (notes + extra)[j].factor == f;
      if j < |notes| {
        assert notes[j].factor == f;
      }
    }
    if Listed(notes, f) {
      var j :| 0 <= j < |notes| && notes[j].factor == f;
      assert (notes + extra)[j].factor == f;
    }
    if extra != [] && extra[0].factor == f {
      assert (notes + extra)[|notes|].factor == f;
    }
  }

  /** Every factor lands in exactly one of the protective and risk lists: the
      protective list when its unrounded score is at least 6.0, the risk list
      otherwise. */
  lemma {:induction false} FactorsPartitioned(raw: seq<real>, positive: seq<nat>, negative: seq<nat>, k: nat)
    requires |raw| == |positive| == |negative| == |Factors| && k <= |Factors|
    ensures var p, r := ProtectiveUpTo(raw, positive, k), RiskUpTo(raw, negative, k);
            |p| + |r| == k
            && forall i :: 0 <= i < k ==>
                 (Listed(p, Factors[i]) <==> raw[i] >= 6.0) && (Listed(r, Factors[i]) <==> raw[i] < 6.0)
  {
    if k > 0 {
      FactorsPartitioned(raw, positive, negative, k - 1);
      var p0, r0 := ProtectiveUpTo(raw, positive, k - 1), RiskUpTo(raw, negative, k - 1);
      var pe: seq<FactorNote> := if raw[k - 1] >= 6.0 then [FactorNote(Factors[k - 1], positive[k - 1])] else [];
      var re: seq<FactorNote> := if raw[k - 1] >= 6.0 then [] else [FactorNote(Factors[k - 1], negative[k - 1])];
      assert ProtectiveUpTo(raw, positive, k) == p0 + pe;
      assert RiskUpTo(raw, negative, k) == r0 + re;
      forall i | 0 <= i < k
        ensures (Listed(p0 + pe, Factors[i]) <==> raw[i] >= 6.0)
                && (Listed(r0 + re, Factors[i]) <==> raw[i] < 6.0)
      {
        ListedAppend(p0, pe, Factors[i]);
        ListedAppend(r0, re, Factors[i]);
        assert FactorIndex(Factors[i]) == i;
        if i < k - 1 {
          assert Factors[i] != Factors[k - 1] by {
            assert FactorIndex(Factors[k - 1]) == k - 1;
          }
        } else {
          assert !Listed(p0, Factors[i]) && !Listed(r0, Factors[i]) by {
            ProtectiveSound(raw, positive, k - 1);
            RiskSound(raw, negative, k - 1);
          }
        }
      }
    }
  }

  /** Every compliance issue belongs to a factor that is also a risk factor, and
      records its raw score, which is below 5.0. */
  lemma {:induction false} IssuesAreRisks(raw: seq<real>, negative: seq<nat>, k: nat)
    requires |raw| == |negative| == |Factors| && k <= |Factors|
    ensures var c, r := IssuesUpTo(raw, k), RiskUpTo(raw, negative, k);
            |c| <= |r|
            && forall j :: 0 <= j < |c| ==>
                 (c[j].score < 5.0 && c[j].score == raw[FactorIndex(c[j].factor)] && Listed(r, c[j].factor))
  {
    if k > 0 {
      IssuesAreRisks(raw, negative, k - 1);
      var c0, r0 := IssuesUpTo(raw, k - 1), RiskUpTo(raw, negative, k - 1);
      var ce: seq<ComplianceIssue> := if raw[k - 1] < 5.0 then [ComplianceIssue(Factors[k - 1], raw[k - 1])] else [];
      var re: seq<FactorNote> := if raw[k - 1] >= 6.0 then [] else [FactorNote(Factors[k - 1], negative[k - 1])];
      assert IssuesUpTo(raw, k) == c0 + ce;
      assert RiskUpTo(raw, negative, k) == r0 + re;
      assert FactorIndex(Factors[k - 1]) == k - 1;
      forall j | 0 <= j < |c0 + ce|
        ensures (c0 + ce)[j].score < 5.0 && (c0 + ce)[j].score == raw[FactorIndex((c0 + ce)[j].factor)]
                && Listed(r0 + re, (c0 + ce)[j].factor)
      {
        ListedAppend(r0, re, (c0 + ce)[j].factor);
        if j < |c0| {
          assert (c0 + ce)[j] == c0[j];
        }
      }
    }
  }

  // ---------------------------------------------------------------------------
  // The assessment record

  class Assessment {
    var restrictivenessScore: real
    var willPreferencesScore: real
    var familyInvolvementScore: real
    var culturalConsiderationsScore: real
    var evidenceQualityScore: real
    var overallComplianceScore: real
    var riskFactors: seq<FactorNote>
    var protectiveFactors: seq<FactorNote>
    var complianceIssues: seq<ComplianceIssue>
    var recommendations: seq<Recommendation>

    /** A fresh record: every score 0.0, every list empty. */
    constructor ()
      ensures Scores() == [0.0, 0.0, 0.0, 0.0, 0.0] && overallComplianceScore == 0.0
      ensures riskFactors == [] && protectiveFactors == [] && complianceIssues == []
      ensures recommendations == []
    {
      restrictivenessScore, willPreferencesScore, familyInvolvementScore := 0.0, 0.0, 0.0;
      culturalConsiderationsScore, evidenceQualityScore, overallComplianceScore := 0.0, 0.0, 0.0;
      riskFactors, protectiveFactors, complianceIssues, recommendations := [], [], [], [];
    }

    /** The five factor scores in catalogue order. */
    function Scores(): (s: seq<real>)
      reads this
      ensures |s| == |Factors|
    {
      [restrictivenessScore, willPreferencesScore, familyInvolvementScore,
       culturalConsiderationsScore, evidenceQualityScore]
    }

    /** Stores the score of factor f in that factor's field. */
    method SetScore(f: Factor, v: real)
      modifies this
      ensures Scores() == old(Scores())[FactorIndex(f) := v]
      ensures overallComplianceScore == old(overallComplianceScore)
      ensures riskFactors == old(riskFactors) && protectiveFactors == old(protectiveFactors)
      ensures complianceIssues == old(complianceIssues) && recommendations == old(recommendations)
    {
      match f
      case Restrictiveness => restrictivenessScore := v;
      case WillAndPreferences => willPreferencesScore := v;
      case FamilyInvolvement => familyInvolvementScore := v;
      case CulturalConsiderations => culturalConsiderationsScore := v;
      case EvidenceQuality => evidenceQualityScore := v;
    }

    /** Setting a score field by name: a known field is assigned; a name that
        is no field of the record raises (ok is false) and nothing changes. */
    method SetAttr(name: String, v: real) returns (ok: bool)
      requires name !in ListFieldNames
      modifies this
      ensures ok <==> name in ScoreFieldNames
      ensures !ok ==> Scores() == old(Scores()) && overallComplianceScore == old(overallComplianceScore)
      ensures forall f :: name == ScoreFieldName(f) ==> Scores() == old(Scores())[FactorIndex(f) := v]
      ensures name == "overall_compliance_score" ==> Scores() == old(Scores()) && overallComplianceScore == v
      ensures riskFactors == old(riskFactors) && protectiveFactors == old(protectiveFactors)
      ensures complianceIssues == old(complianceIssues) && recommendations == old(recommendations)
    {
      ok := true;
      if name == "restrictiveness_score" {
        restrictivenessScore := v;
      } else if name == "will_preferences_score" {
        willPreferencesScore := v;
      } else if name == "family_involvement_score" {
        familyInvolvementScore := v;
      } else if name == "cultural_considerations_score" {
        culturalConsiderationsScore := v;
      } else if name == "evidence_quality_score" {
        evidenceQualityScore := v;
      } else if name == "overall_compliance_score" {
        overallComplianceScore := v;
      } else {
        ok := false;
      }
    }
  }

  /** Sum of a factor's per-pattern match counts. */
  method CountIndicators(counts: seq<nat>) returns (total: nat)
    ensures total == SumN(counts)
  {
    total := 0;
    var i := 0;
    while i < |counts|
      invariant 0 <= i <= |counts|
      invariant total == SumN(counts[..i])
    {
      assert counts[..i + 1][..i] == counts[..i];
      total := total + counts[i];
      i := i + 1;
    }
    assert counts[..i] == counts;
  }

  /** The rounded factor scores of the first k factors, in catalogue order. */
  function RoundedUpTo(raw: seq<real>, k: nat): (s: seq<real>)
    requires k <= |raw|
    ensures |s| == k
  {
    if k == 0 then [] else RoundedUpTo(raw, k - 1) + [Round(raw[k - 1], 1)]
  }

  lemma {:induction false} RoundedUpToAt(raw: seq<real>, k: nat, i: nat)
    requires i < k <= |raw|
    ensures RoundedUpTo(raw, k)[i] == Round(raw[i], 1)
  {
    if i < k - 1 {
      RoundedUpToAt(raw, k - 1, i);
    }
  }

  /** The factor score: 5.0 without indicators, otherwise the positive share
      on a 0-10 scale. */
  method ScoreFactor(positivePatterns: seq<nat>, negativePatterns: seq<nat>)
    returns (positiveCount: nat, negativeCount: nat, score: real)
    ensures positiveCount == SumN(positivePatterns) && negativeCount == SumN(negativePatterns)
    ensures score == RatioScore(positiveCount, negativeCount)
  {
    positiveCount := CountIndicators(positivePatterns);
    negativeCount := CountIndicators(negativePatterns);
    if positiveCount + negativeCount == 0 {
      score := 5.0;
    } else {
      score := (positiveCount as real / (positiveCount + negativeCount) as real) * 10.0;
    }
  }

  /** One pass of the factor loop: stores the rounded score of factor k and
      files the factor on its unrounded score. */
  method RecordFactor(a: Assessment, k: nat, positiveCount: nat, negativeCount: nat, score: real)
    requires k < |Factors|
    modifies a
    ensures a.Scores() == old(a.Scores())[k := Round(score, 1)]
    ensures a.protectiveFactors == old(a.protectiveFactors)
              + (if score >= 6.0 then [FactorNote(Factors[k], positiveCount)] else [])
    ensures a.riskFactors == old(a.riskFactors)
              + (if score >= 6.0 then [] else [FactorNote(Factors[k], negativeCount)])
    ensures a.complianceIssues == old(a.complianceIssues)
              + (if score < 5.0 then [ComplianceIssue(Factors[k], score)] else [])
    ensures a.overallComplianceScore == old(a.overallComplianceScore)
    ensures a.recommendations == old(a.recommendations)
  {
    var f := Factors[k];
    a.SetScore(f, Round(score, 1));
    if score >= 6.0 {
      a.protectiveFactors := a.protectiveFactors + [FactorNote(f, positiveCount)];
    } else {
      a.riskFactors := a.riskFactors + [FactorNote(f, negativeCount)];
    }
    if score < 5.0 {
      a.complianceIssues := a.complianceIssues + [ComplianceIssue(f, score)];
    }
  }

  /** The factor loop: stores each rounded score and files the factor as
      protective or risk, and as a compliance issue, on its unrounded score. */
  method ScoreFactors(a: Assessment, positives: seq<seq<nat>>, negatives: seq<seq<nat>>)
    requires |positives| == |negatives| == |Factors|
    requires a.protectiveFactors == [] && a.riskFactors == [] && a.complianceIssues == []
    modifies a
    ensures var raw := RawScores(Totals(positives), Totals(negatives));
            && a.Scores() == RoundedUpTo(raw, |Factors|)
            && a.protectiveFactors == ProtectiveUpTo(raw, Totals(positives), |Factors|)
            && a.riskFactors == RiskUpTo(raw, Totals(negatives), |Factors|)
            && a.complianceIssues == IssuesUpTo(raw, |Factors|)
    ensures a.overallComplianceScore == old(a.overallComplianceScore)
    ensures a.recommendations == old(a.recommendations)
  {
    ghost var pt, nt := Totals(positives), Totals(negatives);
    ghost var raw := RawScores(pt, nt);
    var k := 0;
    while k < |Factors|
      invariant 0 <= k <= |Factors|
      invariant a.Scores()[..k] == RoundedUpTo(raw, k)
      invariant a.protectiveFactors == ProtectiveUpTo(raw, pt, k)
      invariant a.riskFactors == RiskUpTo(raw, nt, k)
      invariant a.complianceIssues == IssuesUpTo(raw, k)
      invariant a.overallComplianceScore == old(a.overallComplianceScore)
      invariant a.recommendations == old(a.recommendations)
    {
      var positiveCount, negativeCount, score := ScoreFactor(positives[k], negatives[k]);
      RawScoresAt(pt, nt, k);
      ghost var before := a.Scores();
      RecordFactor(a, k, positiveCount, negativeCount, score);
      assert a.Scores()[..k + 1] == before[..k] + [Round(raw[k], 1)];
      k := k + 1;
    }
    assert a.Scores()[..k] == a.Scores();
  }

  /** Scores the five factors; `positives[k]` and `negatives[k]` hold the match
      counts of factor k's positive and negative indicator patterns. */
  method AnalyzeGuardianshipRisk(positives: seq<seq<nat>>, negatives: seq<seq<nat>>)
    returns (a: Assessment, rating: ComplianceRating)
    requires |positives| == |negatives| == |Factors|
    ensures fresh(a)
    ensures var raw := RawScores(Totals(positives), Totals(negatives));
            && a.Scores() == RoundedUpTo(raw, |Factors|)
            && a.protectiveFactors == ProtectiveUpTo(raw, Totals(positives), |Factors|)
            && a.riskFactors == RiskUpTo(raw, Totals(negatives), |Factors|)
            && a.complianceIssues == IssuesUpTo(raw, |Factors|)
    ensures a.overallComplianceScore == Round(SumR(a.Scores()) / 5.0, 1)
    ensures a.recommendations == RecommendationsFor(a.Scores())
    ensures rating == RatingFor(a.overallComplianceScore)
  {
    a := new Assessment();
    ScoreFactors(a, positives, negatives);
    SumOfFive(a.restrictivenessScore, a.willPreferencesScore, a.familyInvolvementScore,
              a.culturalConsiderationsScore, a.evidenceQualityScore);
    a.overallComplianceScore :=
      Round((a.restrictivenessScore + a.willPreferencesScore + a.familyInvolvementScore
             + a.culturalConsiderationsScore + a.evidenceQualityScore) / 5.0, 1);
    var recs := GenerateRecommendations(a.Scores());
    a.recommendations := recs;
    rating := RatingFor(a.overallComplianceScore);
  }

  lemma SumOfFive(r: real, w: real, f: real, c: real, e: real)
    ensures SumR([r, w, f, c, e]) == r + w + f + c + e
  {
    assert [r][..0] == [];
    assert SumR([r]) == r;
    assert [r, w][..1] == [r];
    assert SumR([r, w]) == r + w;
    assert [r, w, f][..2] == [r, w];
    assert SumR([r, w, f]) == r + w + f;
    assert [r, w, f, c][..3] == [r, w, f];
    assert SumR([r, w, f, c]) == r + w + f + c;
    assert [r, w, f, c, e][..4] == [r, w, f, c];
  }

  /** Every rounded factor score lies in [0, 10], and so does the overall score. */
  lemma ScoresInRange(positive: seq<nat>, negative: seq<nat>)
    requires |positive| == |negative| == |Factors|
    ensures var s := RoundedUpTo(RawScores(positive, negative), |Factors|);
            (forall i :: 0 <= i < |s| ==> InTen(s[i])) && InTen(Round(SumR(s) / 5.0, 1))
  {
    var raw := RawScores(positive, negative);
    forall i | 0 <= i < |raw| ensures InTen(raw[i]) {
      RawScoresAt(positive, negative, i);
    }
    RoundedInRange(raw);
  }

  lemma RoundedInRange(raw: seq<real>)
    requires |raw| == |Factors|
    requires forall i :: 0 <= i < |raw| ==> InTen(raw[i])
    ensures var s := RoundedUpTo(raw, |Factors|);
            (forall i :: 0 <= i < |s| ==> InTen(s[i])) && InTen(Round(SumR(s) / 5.0, 1))
  {
    var s := RoundedUpTo(raw, |Factors|);
    forall i | 0 <= i < |s| ensures InTen(s[i]) {
      RoundedUpToAt(raw, |Factors|, i);
      RoundWithin(raw[i], 1, 0.0, 10.0, 0, 100);
    }
    MeanWithin(s, 0.0, 10.0);
    RoundWithin(SumR(s) / 5.0, 1, 0.0, 10.0, 0, 100);
  }

  // ---------------------------------------------------------------------------
  // Rating and recommendations

  function RatingFor(score: real): ComplianceRating
  {
    if score >= 8.0 then HighCompliance
    else if score >= 6.0 then ModerateCompliance
    else if score >= 4.0 then LowCompliance
    else NonCompliant
  }

  function RatingRank(r: ComplianceRating): nat
  {
    match r
    case NonCompliant => 0
    case LowCompliance => 1
    case ModerateCompliance => 2
    case HighCompliance => 3
  }

  /** A higher overall score never gets a lower rating, and each rating covers
      its band of scores. */
  lemma RatingMonotone(s: real, t: real)
    requires s <= t
    ensures RatingRank(RatingFor(s)) <= RatingRank(RatingFor(t))
    ensures RatingFor(s) == HighCompliance <==> s >= 8.0
    ensures RatingFor(s) == NonCompliant <==> s < 4.0
  {
  }

  /** Recommendations for the scores of the first k factors below 6.0. */
  function LowScoreRecommendations(scores: seq<real>, k: nat): seq<Recommendation>
    requires |scores| == |Factors| && k <= |Factors|
  {
    if k == 0 then []
    else LowScoreRecommendations(scores, k - 1)
         + (if scores[k - 1] < 6.0 then [Improve(Factors[k - 1])] else [])
  }

  function RecommendationsFor(scores: seq<real>): seq<Recommendation>
    requires |scores| == |Factors|
  {
    var low := LowScoreRecommendations(scores, |Factors|);
    if low == [] then [GoodCompliance] else low
  }

  /** The recommendations, checked factor by factor. */
  method GenerateRecommendations(scores: seq<real>) returns (recs: seq<Recommendation>)
    requires |scores| == |Factors|
    ensures recs == RecommendationsFor(scores)
  {
    recs := [];
    if scores[0] < 6.0 { recs := recs + [Improve(Restrictiveness)]; }
    assert recs == LowScoreRecommendations(scores, 1);
    if scores[1] < 6.0 { recs := recs + [Improve(WillAndPreferences)]; }
    assert recs == LowScoreRecommendations(scores, 2);
    if scores[2] < 6.0 { recs := recs + [Improve(FamilyInvolvement)]; }
    assert recs == LowScoreRecommendations(scores, 3);
    if scores[3] < 6.0 { recs := recs + [Improve(CulturalConsiderations)]; }
    assert recs == LowScoreRecommendations(scores, 4);
    if scores[4] < 6.0 { recs := recs + [Improve(EvidenceQuality)]; }
    assert recs == LowScoreRecommendations(scores, 5);
    if recs == [] {
      recs := [GoodCompliance];
    }
  }

  /** A factor is recommended for improvement exactly when its score is below
      6.0, and the "good compliance" note appears exactly when none is. */
  lemma {:induction false} RecommendationsExact(scores: seq<real>, k: nat)
    requires |scores| == |Factors| && k <= |Factors|
    ensures forall f :: Improve(f) in LowScoreRecommendations(scores, k) <==>
                          FactorIndex(f) < k && scores[FactorIndex(f)] < 6.0
    ensures GoodCompliance !in LowScoreRecommendations(scores, k)
  {
    if k > 0 {
      RecommendationsExact(scores, k - 1);
      assert FactorIndex(Factors[k - 1]) == k - 1;
    }
  }

  /** No recommendation for improvement exactly when every factor so far scores
      at least 6.0. */
  lemma {:induction false} NoLowScores(scores: seq<real>, k: nat)
    requires |scores| == |Factors| && k <= |Factors|
    ensures LowScoreRecommendations(scores, k) == [] <==> forall i :: 0 <= i < k ==> scores[i] >= 6.0
  {
    if k > 0 {
      NoLowScores(scores, k - 1);
    }
  }

  /** The "good compliance" note appears exactly when every factor scores at
      least 6.0, and a factor is recommended for improvement exactly when it
      scores below 6.0. */
  lemma GoodComplianceIff(scores: seq<real>)
    requires |scores| == |Factors|
    ensures GoodCompliance in RecommendationsFor(scores) <==> forall i :: 0 <= i < |scores| ==> scores[i] >= 6.0
    ensures forall f :: Improve(f) in RecommendationsFor(scores) <==> scores[FactorIndex(f)] < 6.0
  {
    RecommendationsExact(scores, |Factors|);
    NoLowScores(scores, |Factors|);
  }

  /** Membership in the risk list uses the unrounded score, recommendations the
      rounded one: 299 positive and 202 negative indicators make a risk factor
      (5.968...) whose rounded score 6.0 draws no recommendation. */
  lemma RiskFactorWithoutRecommendation()
    ensures RatioScore(299, 202) < 6.0
    ensures Round(RatioScore(299, 202), 1) == 6.0
  {
    var x := RatioScore(299, 202);
    assert x == 2990.0 / 501.0;
    assert x * 10.0 == 29900.0 / 501.0;
    assert (x * 10.0).Floor == 59;
    assert RoundHalfEven(x * 10.0) == 60;
    RoundAtValue(x, 10.0, 60);
  }

  // ---------------------------------------------------------------------------
  // The score fields as the analyzer names them

  /** The name the analyzer uses for a factor's score field: the factor key
      followed by "_score". */
  function AsWrittenFieldName(f: Factor): String
  {
    FactorName(f) + "_score"
  }

  /** The field that actually holds a factor's score. */
  function ScoreFieldName(f: Factor): String
  {
    match f
    case Restrictiveness => "restrictiveness_score"
    case WillAndPreferences => "will_preferences_score"
    case FamilyInvolvement => "family_involvement_score"
    case CulturalConsiderations => "cultural_considerations_score"
    case EvidenceQuality => "evidence_quality_score"
  }

  /** The derived name is the record's field for four factors, but for
      will_and_preferences it names no field at all. */
  lemma AsWrittenFieldNames()
    ensures forall f :: f != WillAndPreferences ==> AsWrittenFieldName(f) == ScoreFieldName(f)
    ensures AsWrittenFieldName(WillAndPreferences) !in ScoreFieldNames
    ensures AsWrittenFieldName(WillAndPreferences) !in ListFieldNames
    ensures forall f :: ScoreFieldName(f) in ScoreFieldNames
  {
    assert AsWrittenFieldName(WillAndPreferences) == "will_and_preferences_score";
  }

  /** The factor loop as written, storing each rounded score through the
      derived field name: the first factor is stored, and setting the second
      raises, whatever the counts. */
  method AnalyzeAsWritten(positives: seq<seq<nat>>, negatives: seq<seq<nat>>)
    returns (a: Assessment, raised: bool)
    requires |positives| == |negatives| == |Factors|
    ensures fresh(a)
    ensures raised
    ensures a.Scores() == [Round(RatioScore(SumN(positives[0]), SumN(negatives[0])), 1), 0.0, 0.0, 0.0, 0.0]
  {
    a := new Assessment();
    AsWrittenFieldNames();
    raised := false;
    var k := 0;
    while k < |Factors| && !raised
      invariant 0 <= k <= 1
      invariant raised ==> k == 1
      invariant k == 0 ==> a.Scores() == [0.0, 0.0, 0.0, 0.0, 0.0]
      invariant k == 1 ==> a.Scores() == [Round(RatioScore(SumN(positives[0]), SumN(negatives[0])), 1), 0.0, 0.0, 0.0, 0.0]
      decreases |Factors| - k, if raised then 0 else 1
    {
      var positiveCount, negativeCount, score := ScoreFactor(positives[k], negatives[k]);
      var name := AsWrittenFieldName(Factors[k]);
      if k == 0 {
        assert name == ScoreFieldName(Restrictiveness);
      } else {
        assert name !in ScoreFieldNames;
      }
      var ok := a.SetAttr(name, Round(score, 1));
      if ok {
        k := k + 1;
      } else {
        raised := true;
      }
    }
  }
}
