/** The state-guardianship bias detector: one indicator per match of four bias
    categories, a weighted count capped at 10, and a three-step bias level. */
module StateBias {
  import opened Seqs
  import opened Text
  import opened Numeric
  import opened Models

  /** The bias categories, in catalogue order. */
  datatype BiasCategory =
    | StatePreference
    | FamilyDismissal
    | StateIdealization
    | UnsupportedClaims

  const BiasCategories: seq<BiasCategory> :=
    [StatePreference, FamilyDismissal, StateIdealization, UnsupportedClaims]

  /** State preference and family dismissal are the categories of high concern. */
  predicate IsPrimary(c: BiasCategory)
  {
    c == StatePreference || c == FamilyDismissal
  }

  /** Score added per match of the category. */
  function BiasWeight(c: BiasCategory): real
  {
    if IsPrimary(c) then 0.8 else 0.5
  }

  /** Characters of context kept on each side of a match. */
  const ContextWidth: nat := 100

  datatype BiasIndicator = BiasIndicator(
    category: BiasCategory,
    text: String,
    context: String,
    concernLevel: Severity)

  datatype BiasLevel = LowBias | ModerateBias | HighBias

  // ---------------------------------------------------------------------------
  // Indicators

  /** The indicator recorded for match m of category c. */
  function MakeIndicator(text: String, c: BiasCategory, m: Match): BiasIndicator
  {
    BiasIndicator(c, m.text, Strip(Window(text, m, ContextWidth)),
                  if IsPrimary(c) then High else Medium)
  }

  /** The indicators of one category: one per match, in match order. */
  function CategoryIndicators(text: String, c: BiasCategory, ms: seq<Match>): (r: seq<BiasIndicator>)
    ensures |r| == |ms|
  {
    if ms == [] then []
    else CategoryIndicators(text, c, ms[..|ms| - 1]) + [MakeIndicator(text, c, ms[|ms| - 1])]
  }

  /** The j-th indicator of a category is the one made from its j-th match. */
  lemma {:induction false} CategoryIndicatorAt(text: String, c: BiasCategory, ms: seq<Match>, j: nat)
    requires j < |ms|
    ensures CategoryIndicators(text, c, ms)[j] == MakeIndicator(text, c, ms[j])
  {
    if j < |ms| - 1 {
      CategoryIndicatorAt(text, c, ms[..|ms| - 1], j);
    }
  }

  /** Indicators of the first k categories; `matches[k]` holds the matches of
      the patterns of `BiasCategories[k]`, pattern by pattern, each in text
      order. */
  function IndicatorsUpTo(text: String, matches: seq<seq<Match>>, k: nat): seq<BiasIndicator>
    requires |matches| == |BiasCategories| && k <= |BiasCategories|
  {
    if k == 0 then []
    else IndicatorsUpTo(text, matches, k - 1)
         + CategoryIndicators(text, BiasCategories[k - 1], matches[k - 1])
  }

  /** The weighted match count of the first k categories, before the cap. */
  function WeightedCount(matches: seq<seq<Match>>, k: nat): real
    requires |matches| == |BiasCategories| && k <= |BiasCategories|
  {
    if k == 0 then 0.0
    else WeightedCount(matches, k - 1) + |matches[k - 1]| as real * BiasWeight(BiasCategories[k - 1])
  }

  /** The bias score before rounding: the weighted count, capped at 10. */
  function BiasScore(matches: seq<seq<Match>>): real
    requires |matches| == |BiasCategories|
  {
    MinR(10.0, WeightedCount(matches, |BiasCategories|))
  }

  function BiasLevelFor(score: real): BiasLevel
  {
    if score >= 7.0 then HighBias
    else if score >= 4.0 then ModerateBias
    else LowBias
  }

  // ---------------------------------------------------------------------------
  // The detector

  /** The indicator for one match: the stripped context window and the
      category's concern level. */
  method IndicatorForMatch(text: String, c: BiasCategory, m: Match) returns (ind: BiasIndicator)
    ensures ind == MakeIndicator(text, c, m)
  {
    var start := Max(0, m.start - ContextWidth);
    var end := Min(|text|, m.end + ContextWidth);
    var context := Strip(Slice(text, start, end));
    var concern := if c == StatePreference || c == FamilyDismissal then High else Medium;
    ind := BiasIndicator(c, m.text, context, concern);
  }

  /** The loop over one category's matches: counts them and records an
      indicator for each. */
  method ScanCategory(text: String, c: BiasCategory, ms: seq<Match>)
    returns (found: seq<BiasIndicator>, categoryMatches: nat)
    ensures found == CategoryIndicators(text, c, ms)
    ensures categoryMatches == |ms|
  {
    found := [];
    categoryMatches := 0;
    var j := 0;
    while j < |ms|
      invariant 0 <= j <= |ms|
      invariant found == CategoryIndicators(text, c, ms[..j])
      invariant categoryMatches == j
    {
      var ind := IndicatorForMatch(text, c, ms[j]);
      assert ms[..j + 1][..j] == ms[..j];
      found := found + [ind];
      categoryMatches := categoryMatches + 1;
      j := j + 1;
    }
    assert ms[..j] == ms;
  }

  /** One category's turn: its indicators are appended and its weighted match
      count is added to the score. */
  method AddCategory(text: String, matches: seq<seq<Match>>, k: nat,
                     indicators: seq<BiasIndicator>, score: real)
    returns (indicators': seq<BiasIndicator>, score': real)
    requires |matches| == |BiasCategories| && k < |BiasCategories|
    requires indicators == IndicatorsUpTo(text, matches, k)
    requires score == WeightedCount(matches, k)
    ensures indicators' == IndicatorsUpTo(text, matches, k + 1)
    ensures score' == WeightedCount(matches, k + 1)
  {
    var c := BiasCategories[k];
    var found, categoryMatches := ScanCategory(text, c, matches[k]);
    if c == StatePreference || c == FamilyDismissal {
      score' := score + categoryMatches as real * 0.8;
    } else {
      score' := score + categoryMatches as real * 0.5;
    }
    indicators' := indicators + found;
  }

  /** The loop over the categories: collects the indicators and the weighted
      match count. */
  method ScanCategories(text: String, matches: seq<seq<Match>>)
    returns (indicators: seq<BiasIndicator>, score: real)
    requires |matches| == |BiasCategories|
    ensures indicators == IndicatorsUpTo(text, matches, |BiasCategories|)
    ensures score == WeightedCount(matches, |BiasCategories|)
  {
    indicators := [];
    score := 0.0;
    var k := 0;
    while k < |BiasCategories|
      invariant 0 <= k <= |BiasCategories|
      invariant indicators == IndicatorsUpTo(text, matches, k)
      invariant score == WeightedCount(matches, k)
    {
      indicators, score := AddCategory(text, matches, k, indicators, score);
      k := k + 1;
    }
  }

  method DetectStateGuardianshipBias(text: String, matches: seq<seq<Match>>)
    returns (indicators: seq<BiasIndicator>, biasScore: real, biasLevel: BiasLevel, totalIndicators: nat)
    requires |matches| == |BiasCategories|
    ensures indicators == IndicatorsUpTo(text, matches, |BiasCategories|)
    ensures totalIndicators == |indicators| == TotalLength(matches)
    ensures biasScore == Round(BiasScore(matches), 1)
    ensures biasLevel == BiasLevelFor(BiasScore(matches))
  {
    var score;
    indicators, score := ScanCategories(text, matches);
    score := MinR(10.0, score);
    if score >= 7.0 {
      biasLevel := HighBias;
    } else if score >= 4.0 {
      biasLevel := ModerateBias;
    } else {
      biasLevel := LowBias;
    }
    biasScore := Round(score, 1);
    totalIndicators := |indicators|;
    IndicatorCount(text, matches, |BiasCategories|);
    assert matches[..|BiasCategories|] == matches;
  }

  // ---------------------------------------------------------------------------
  // Properties

  /** One indicator per match of the first k categories. */
  lemma {:induction false} IndicatorCount(text: String, matches: seq<seq<Match>>, k: nat)
    requires |matches| == |BiasCategories| && k <= |BiasCategories|
    ensures |IndicatorsUpTo(text, matches, k)| == TotalLength(matches[..k])
  {
    if k > 0 {
      IndicatorCount(text, matches, k - 1);
      assert matches[..k][..k - 1] == matches[..k - 1];
    }
  }

  /** Every indicator has high concern exactly when its category is state
      preference or family dismissal, and medium concern otherwise. */
  lemma {:induction false} ConcernLevels(text: String, matches: seq<seq<Match>>, k: nat)
    requires |matches| == |BiasCategories| && k <= |BiasCategories|
    ensures forall i :: 0 <= i < |IndicatorsUpTo(text, matches, k)| ==>
              var ind := IndicatorsUpTo(text, matches, k)[i];
              (ind.concernLevel == High <==> IsPrimary(ind.category))
              && (ind.concernLevel == High || ind.concernLevel == Medium)
  {
    if k > 0 {
      ConcernLevels(text, matches, k - 1);
      var before: seq<BiasIndicator> := IndicatorsUpTo(text, matches, k - 1);
      var here: seq<BiasIndicator> := CategoryIndicators(text, BiasCategories[k - 1], matches[k - 1]);
      assert IndicatorsUpTo(text, matches, k) == before + here;
      forall i | |before| <= i < |before| + |here|
        ensures (before + here)[i] == MakeIndicator(text, BiasCategories[k - 1], matches[k - 1][i - |before|])
      {
        CategoryIndicatorAt(text, BiasCategories[k - 1], matches[k - 1], i - |before|);
      }
    }
  }

  /** The weighted count is 0.8 per match of the two primary categories and 0.5
      per match of the other two. */
  lemma WeightedCountClosedForm(matches: seq<seq<Match>>)
    requires |matches| == |BiasCategories|
    ensures WeightedCount(matches, |BiasCategories|)
            == 0.8 * (|matches[0]| + |matches[1]|) as real + 0.5 * (|matches[2]| + |matches[3]|) as real
  {
    assert WeightedCount(matches, 1) == |matches[0]| as real * 0.8;
    assert WeightedCount(matches, 2) == WeightedCount(matches, 1) + |matches[1]| as real * 0.8;
    assert WeightedCount(matches, 3) == WeightedCount(matches, 2) + |matches[2]| as real * 0.5;
  }

  /** The score lies in [0, 10], before and after rounding. */
  lemma BiasScoreInRange(matches: seq<seq<Match>>)
    requires |matches| == |BiasCategories|
    ensures InTen(BiasScore(matches)) && InTen(Round(BiasScore(matches), 1))
  {
    WeightedCountNonNegative(matches, |BiasCategories|);
    RoundWithin(BiasScore(matches), 1, 0.0, 10.0, 0, 100);
  }

  lemma {:induction false} WeightedCountNonNegative(matches: seq<seq<Match>>, k: nat)
    requires |matches| == |BiasCategories| && k <= |BiasCategories|
    ensures WeightedCount(matches, k) >= 0.0
  {
    if k > 0 {
      WeightedCountNonNegative(matches, k - 1);
    }
  }

  /** More matches in any category never lower the score. */
  lemma {:induction false} WeightedCountMonotone(matches: seq<seq<Match>>, more: seq<seq<Match>>, k: nat)
    requires |matches| == |more| == |BiasCategories| && k <= |BiasCategories|
    requires forall c :: 0 <= c < |BiasCategories| ==> |matches[c]| <= |more[c]|
    ensures WeightedCount(matches, k) <= WeightedCount(more, k)
  {
    if k > 0 {
      WeightedCountMonotone(matches, more, k - 1);
      ScaleMono(|matches[k - 1]| as real, |more[k - 1]| as real, BiasWeight(BiasCategories[k - 1]));
    }
  }

  lemma BiasScoreMonotone(matches: seq<seq<Match>>, more: seq<seq<Match>>)
    requires |matches| == |more| == |BiasCategories|
    requires forall c :: 0 <= c < |BiasCategories| ==> |matches[c]| <= |more[c]|
    ensures BiasScore(matches) <= BiasScore(more)
    ensures RankOf(BiasLevelFor(BiasScore(matches))) <= RankOf(BiasLevelFor(BiasScore(more)))
  {
    WeightedCountMonotone(matches, more, |BiasCategories|);
  }

  function RankOf(l: BiasLevel): nat
  {
    match l
    case LowBias => 0
    case ModerateBias => 1
    case HighBias => 2
  }

  /** Each level covers its band of scores, and a higher score never gets a
      lower level. */
  lemma BiasLevelBands(s: real, t: real)
    requires s <= t
    ensures BiasLevelFor(s) == HighBias <==> s >= 7.0
    ensures BiasLevelFor(s) == ModerateBias <==> 4.0 <= s < 7.0
    ensures BiasLevelFor(s) == LowBias <==> s < 4.0
    ensures RankOf(BiasLevelFor(s)) <= RankOf(BiasLevelFor(t))
  {
  }

  /** With no match at all the score is 0 and the level low. */
  lemma NoMatchesNoBias(matches: seq<seq<Match>>)
    requires |matches| == |BiasCategories|
    requires forall c :: 0 <= c < |BiasCategories| ==> matches[c] == []
    ensures BiasScore(matches) == 0.0 && BiasLevelFor(BiasScore(matches)) == LowBias
  {
    WeightedCountClosedForm(matches);
  }

  /** When the matches lie in the text, every indicator's context is a piece of
      the text at most 100 characters wider than its match on either side. */
  lemma {:induction false} IndicatorContexts(text: String, matches: seq<seq<Match>>, k: nat)
    requires |matches| == |BiasCategories| && k <= |BiasCategories|
    requires forall c, j :: 0 <= c < |matches| && 0 <= j < |matches[c]| ==> MatchIn(matches[c][j], text)
    ensures forall i :: 0 <= i < |IndicatorsUpTo(text, matches, k)| ==>
              var ind := IndicatorsUpTo(text, matches, k)[i];
              |ind.context| <= |ind.text| + 2 * ContextWidth && Contains(text, ind.context)
  {
    if k > 0 {
      IndicatorContexts(text, matches, k - 1);
      var before: seq<BiasIndicator> := IndicatorsUpTo(text, matches, k - 1);
      var here: seq<BiasIndicator> := CategoryIndicators(text, BiasCategories[k - 1], matches[k - 1]);
      assert IndicatorsUpTo(text, matches, k) == before + here;
      forall i | |before| <= i < |before| + |here|
        ensures |(before + here)[i].context| <= |(before + here)[i].text| + 2 * ContextWidth
                && Contains(text, (before + here)[i].context)
      {
        var m := matches[k - 1][i - |before|];
        CategoryIndicatorAt(text, BiasCategories[k - 1], matches[k - 1], i - |before|);
        assert (before + here)[i] == MakeIndicator(text, BiasCategories[k - 1], m);
        StrippedWindowBounded(text, m, ContextWidth);
      }
    }
  }
}
