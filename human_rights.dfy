/** The human-rights breach analyzer: one breach per indicator match of six
    rights categories, a page lookup over the page texts, and a capped risk
    score. */
module HumanRights {
  import opened Seqs
  import opened Text
  import opened Numeric
  import opened Models

  /** The rights categories, in catalogue order. */
  datatype Right =
    | PrivacyAndReputation
    | ProtectionOfFamilies
    | CulturalRights
    | FreedomOfExpression
    | FreedomOfMovement
    | RightToLiberty

  const Rights: seq<Right> := [PrivacyAndReputation, ProtectionOfFamilies, CulturalRights,
                               FreedomOfExpression, FreedomOfMovement, RightToLiberty]

  /** Section of the Human Rights Act 2019 (Qld) each category rests on. */
  function Section(r: Right): nat
  {
    match r
    case PrivacyAndReputation => 25
    case ProtectionOfFamilies => 26
    case CulturalRights => 28
    case FreedomOfExpression => 21
    case FreedomOfMovement => 19
    case RightToLiberty => 29
  }

  function Weight(r: Right): real
  {
    match r
    case PrivacyAndReputation => 0.9
    case ProtectionOfFamilies => 1.0
    case CulturalRights => 0.95
    case FreedomOfExpression => 0.85
    case FreedomOfMovement => 0.85
    case RightToLiberty => 0.95
  }

  /** Characters of context kept on each side of a match. */
  const ContextWidth: nat := 150

  datatype Breach = Breach(
    right: Right,
    section: nat,
    description: String,
    context: String,
    severity: Severity,
    pageNumber: Option<int>)

  // ---------------------------------------------------------------------------
  // Page lookup

  /** Total length of the page texts. */
  function CumLen(pages: seq<PageText>): nat
  {
    if pages == [] then 0 else CumLen(pages[..|pages| - 1]) + |pages[|pages| - 1].text|
  }

  /** Running text length of the pages up to and including page j. */
  function RunLen(pages: seq<PageText>, j: nat): nat
    requires j < |pages|
  {
    CumLen(pages[..j + 1])
  }

  /** Index of the first page whose running text length reaches `position`, or
      the number of pages when none does. */
  function FirstReaching(pages: seq<PageText>, position: nat): (k: nat)
    ensures k <= |pages|
    ensures k < |pages| ==> RunLen(pages, k) >= position
    ensures forall j :: 0 <= j < k ==> RunLen(pages, j) < position
  {
    if pages == [] then 0
    else
      var init := pages[..|pages| - 1];
      var k := FirstReaching(init, position);
      RunLenPrefix(pages);
      if k < |init| then k
      else if CumLen(pages) >= position then
        assert pages[..|init| + 1] == pages;
        |init|
      else
        assert pages[..|init| + 1] == pages;
        |pages|
  }

  /** Dropping the last page leaves the running lengths of the others alone. */
  lemma RunLenPrefix(pages: seq<PageText>)
    requires pages != []
    ensures forall j :: 0 <= j < |pages| - 1 ==> RunLen(pages[..|pages| - 1], j) == RunLen(pages, j)
  {
    var init := pages[..|pages| - 1];
    forall j | 0 <= j < |init| ensures RunLen(init, j) == RunLen(pages, j) {
      assert init[..j + 1] == pages[..j + 1];
    }
  }

  /** The page number reported for a character position: none without pages,
      else the number of the first page whose running length reaches the
      position, else the page count. */
  function PageNumberFor(pages: seq<PageText>, position: nat): (r: Option<int>)
  {
    if pages == [] then None
    else
      var k := FirstReaching(pages, position);
      if k < |pages| then Some(pages[k].pageNumber) else Some(|pages|)
  }

  /** Walks the pages keeping a running character count. */
  method FindPageNumber(pages: seq<PageText>, position: nat) returns (r: Option<int>)
    ensures r == None <==> pages == []
    ensures r == PageNumberFor(pages, position)
  {
    if pages == [] {
      return None;
    }
    var charCount := 0;
    var i := 0;
    while i < |pages|
      invariant 0 <= i <= |pages|
      invariant charCount == CumLen(pages[..i])
      invariant forall j :: 0 <= j < i ==> RunLen(pages, j) < position
    {
      charCount := charCount + |pages[i].text|;
      assert pages[..i + 1][..i] == pages[..i];
      assert charCount == RunLen(pages, i);
      if charCount >= position {
        FirstReachingLeast(pages, position, i);
        return Some(pages[i].pageNumber);
      }
      i := i + 1;
    }
    return Some(|pages|);
  }

  /** An index that reaches the position, with no earlier one, is the first. */
  lemma FirstReachingLeast(pages: seq<PageText>, position: nat, i: nat)
    requires i < |pages| && RunLen(pages, i) >= position
    requires forall j :: 0 <= j < i ==> RunLen(pages, j) < position
    ensures FirstReaching(pages, position) == i
  {
  }

  /** A later position is never placed on an earlier page index. */
  lemma FirstReachingMono(pages: seq<PageText>, p1: nat, p2: nat)
    requires p1 <= p2
    ensures FirstReaching(pages, p1) <= FirstReaching(pages, p2)
  {
  }

  /** With valid pages the reported page number is at least 1. */
  lemma PageNumberValid(pages: seq<PageText>, position: nat)
    requires ValidPages(pages)
    ensures PageNumberFor(pages, position).Some? ==> PageNumberFor(pages, position).value >= 1
  {
  }

  // ---------------------------------------------------------------------------
  // Breaches

  function SeverityFor(r: Right): Severity
  {
    if Weight(r) >= 0.9 then High else Medium
  }

  /** The breach recorded for match m of category r. */
  function MakeBreach(text: String, pages: seq<PageText>, r: Right, m: Match): Breach
  {
    Breach(r, Section(r), m.text, Strip(Window(text, m, ContextWidth)), SeverityFor(r),
           PageNumberFor(pages, m.start))
  }

  /** The breaches of one category: one per match, in match order. */
  function CategoryBreachList(text: String, pages: seq<PageText>, r: Right, ms: seq<Match>)
    : (bs: seq<Breach>)
    ensures |bs| == |ms|
    ensures forall j :: 0 <= j < |ms| ==> bs[j] == MakeBreach(text, pages, r, ms[j])
  {
    if ms == [] then []
    else CategoryBreachList(text, pages, r, ms[..|ms| - 1]) + [MakeBreach(text, pages, r, ms[|ms| - 1])]
  }

  /** Breaches of the first k categories; `matches[k]` holds the matches of the
      patterns of `Rights[k]`, pattern by pattern, each in text order. */
  function BreachesUpTo(text: String, pages: seq<PageText>, matches: seq<seq<Match>>, k: nat)
    : seq<Breach>
    requires |matches| == |Rights| && k <= |Rights|
  {
    if k == 0 then []
    else BreachesUpTo(text, pages, matches, k - 1)
         + CategoryBreachList(text, pages, Rights[k - 1], matches[k - 1])
  }

  function Breaches(text: String, pages: seq<PageText>, matches: seq<seq<Match>>): seq<Breach>
    requires |matches| == |Rights|
  {
    BreachesUpTo(text, pages, matches, |Rights|)
  }

  predicate IsHigh(b: Breach)
  {
    b.severity == High
  }

  /** `min(10, 0.5 * total + 1.5 * high)` before rounding. */
  function RiskScore(breaches: seq<Breach>): (r: real)
    ensures 0.0 <= r <= 10.0
  {
    MinR(10.0, 0.5 * |breaches| as real + 1.5 * CountWhere(IsHigh, breaches) as real)
  }

  /** The breach for one match: the stripped context window, the page holding
      the match start, and the category's severity. */
  method BreachForMatch(text: String, pages: seq<PageText>, r: Right, m: Match) returns (b: Breach)
    ensures b == MakeBreach(text, pages, r, m)
  {
    var start := Max(0, m.start - ContextWidth);
    var end := Min(|text|, m.end + ContextWidth);
    var context := Strip(Slice(text, start, end));
    var page := FindPageNumber(pages, m.start);
    var severity := if Weight(r) >= 0.9 then High else Medium;
    b := Breach(r, Section(r), m.text, context, severity, page);
  }

  /** The inner loop over one category's matches. */
  method CategoryBreaches(text: String, pages: seq<PageText>, r: Right, ms: seq<Match>)
    returns (bs: seq<Breach>)
    ensures bs == CategoryBreachList(text, pages, r, ms)
  {
    bs := [];
    var j := 0;
    while j < |ms|
      invariant 0 <= j <= |ms|
      invariant bs == CategoryBreachList(text, pages, r, ms[..j])
    {
      var b := BreachForMatch(text, pages, r, ms[j]);
      assert ms[..j + 1][..j] == ms[..j];
      bs := bs + [b];
      j := j + 1;
    }
    assert ms[..j] == ms;
  }

  /** Number of high-severity breaches. */
  method CountHigh(breaches: seq<Breach>) returns (high: nat)
    ensures high == CountWhere(IsHigh, breaches)
  {
    high := 0;
    var i := 0;
    while i < |breaches|
      invariant 0 <= i <= |breaches|
      invariant high == CountWhere(IsHigh, breaches[..i])
    {
      assert breaches[..i + 1][..i] == breaches[..i];
      if breaches[i].severity == High {
        high := high + 1;
      }
      i := i + 1;
    }
    assert breaches[..i] == breaches;
  }

  /** Runs over the categories, their matches, and the breaches found. */
  method AnalyzeHumanRightsBreaches(text: String, pages: seq<PageText>, matches: seq<seq<Match>>)
    returns (breaches: seq<Breach>, totalBreaches: nat, riskScore: real)
    requires |matches| == |Rights|
    ensures breaches == Breaches(text, pages, matches)
    ensures totalBreaches == |breaches| == TotalLength(matches)
    ensures riskScore == Round(RiskScore(breaches), 1)
    ensures 0.0 <= riskScore <= 10.0
  {
    breaches := [];
    var k := 0;
    while k < |Rights|
      invariant 0 <= k <= |Rights|
      invariant breaches == BreachesUpTo(text, pages, matches, k)
    {
      var more := CategoryBreaches(text, pages, Rights[k], matches[k]);
      breaches := breaches + more;
      k := k + 1;
    }
    totalBreaches := |breaches|;
    BreachCount(text, pages, matches, |Rights|);
    assert matches[..|Rights|] == matches;
    var high := CountHigh(breaches);
    riskScore := Round(MinR(10.0, totalBreaches as real * 0.5 + high as real * 1.5), 1);
    RoundWithin(RiskScore(breaches), 1, 0.0, 10.0, 0, 100);
  }

  /** One breach per match of the first k categories. */
  lemma {:induction false} BreachCount(text: String, pages: seq<PageText>,
                                       matches: seq<seq<Match>>, k: nat)
    requires |matches| == |Rights| && k <= |Rights|
    ensures |BreachesUpTo(text, pages, matches, k)| == TotalLength(matches[..k])
  {
    if k > 0 {
      BreachCount(text, pages, matches, k - 1);
      assert matches[..k][..k - 1] == matches[..k - 1];
    }
  }

  /** The breaches of k categories are a prefix of those of more categories. */
  lemma {:induction false} BreachesPrefix(text: String, pages: seq<PageText>,
                                          matches: seq<seq<Match>>, k: nat, l: nat)
    requires |matches| == |Rights| && k <= l <= |Rights|
    ensures BreachesUpTo(text, pages, matches, k) <= BreachesUpTo(text, pages, matches, l)
    decreases l - k
  {
    if k < l {
      BreachesPrefix(text, pages, matches, k, l - 1);
    }
  }

  /** Match j of category k produces the breach at offset j after the breaches
      of the earlier categories. */
  lemma BreachAt(text: String, pages: seq<PageText>, matches: seq<seq<Match>>, k: nat, j: nat)
    requires |matches| == |Rights| && k < |Rights| && j < |matches[k]|
    ensures TotalLength(matches[..k]) + j < |Breaches(text, pages, matches)|
    ensures Breaches(text, pages, matches)[TotalLength(matches[..k]) + j]
            == MakeBreach(text, pages, Rights[k], matches[k][j])
  {
    BreachCount(text, pages, matches, k);
    BreachesPrefix(text, pages, matches, k + 1, |Rights|);
    var all := Breaches(text, pages, matches);
    var upto := BreachesUpTo(text, pages, matches, k + 1);
    var before := BreachesUpTo(text, pages, matches, k);
    var here := CategoryBreachList(text, pages, Rights[k], matches[k]);
    assert upto == before + here;
    var i := |before| + j;
    assert upto[i] == here[j];
    assert all[i] == upto[i];
    assert i == TotalLength(matches[..k]) + j;
    assert here[j] == MakeBreach(text, pages, Rights[k], matches[k][j]);
  }

  /** Every breach comes from some match: it is the breach of match j of
      category c, for some c and j. */
  lemma {:induction false} BreachFrom(text: String, pages: seq<PageText>,
                                      matches: seq<seq<Match>>, k: nat, i: nat)
    requires |matches| == |Rights| && k <= |Rights|
    requires i < |BreachesUpTo(text, pages, matches, k)|
    ensures exists c, j :: 0 <= c < k && 0 <= j < |matches[c]|
              && BreachesUpTo(text, pages, matches, k)[i] == MakeBreach(text, pages, Rights[c], matches[c][j])
  {
    var all := BreachesUpTo(text, pages, matches, k);
    var before := BreachesUpTo(text, pages, matches, k - 1);
    var here := CategoryBreachList(text, pages, Rights[k - 1], matches[k - 1]);
    assert all == before + here;
    if i < |before| {
      BreachFrom(text, pages, matches, k - 1, i);
      var c, j :| 0 <= c < k - 1 && 0 <= j < |matches[c]|
                  && before[i] == MakeBreach(text, pages, Rights[c], matches[c][j]);
      assert all[i] == before[i];
      assert 0 <= c < k && all[i] == MakeBreach(text, pages, Rights[c], matches[c][j]);
    } else {
      var j := i - |before|;
      assert all[i] == here[j];
      assert all[i] == MakeBreach(text, pages, Rights[k - 1], matches[k - 1][j]);
    }
  }

  /** Every breach is high exactly when its category weighs at least 0.9, and
      medium otherwise. */
  lemma BreachSeverity(text: String, pages: seq<PageText>, matches: seq<seq<Match>>, i: nat)
    requires |matches| == |Rights| && i < |Breaches(text, pages, matches)|
    ensures var b := Breaches(text, pages, matches)[i];
            (b.severity == High <==> Weight(b.right) >= 0.9)
            && (b.severity == High || b.severity == Medium)
  {
    BreachFrom(text, pages, matches, |Rights|, i);
  }

  /** When the matches lie in the text, every breach carries a stripped context
      that is a piece of the text at most 150 characters wider than its match
      on either side. */
  lemma BreachContext(text: String, pages: seq<PageText>, matches: seq<seq<Match>>, i: nat)
    requires |matches| == |Rights| && i < |Breaches(text, pages, matches)|
    requires forall c, j :: 0 <= c < |matches| && 0 <= j < |matches[c]| ==> MatchIn(matches[c][j], text)
    ensures var b := Breaches(text, pages, matches)[i];
            |b.context| <= |b.description| + 2 * ContextWidth && Contains(text, b.context)
  {
    BreachFrom(text, pages, matches, |Rights|, i);
    var c, j :| 0 <= c < |Rights| && 0 <= j < |matches[c]|
                && Breaches(text, pages, matches)[i] == MakeBreach(text, pages, Rights[c], matches[c][j]);
    StrippedWindowBounded(text, matches[c][j], ContextWidth);
  }

  /** Adding a breach never lowers the risk score. */
  lemma RiskScoreMonotone(breaches: seq<Breach>, b: Breach)
    ensures RiskScore(breaches) <= RiskScore(breaches + [b])
  {
    FilterAppend(IsHigh, breaches, [b]);
  }

  /** No breaches give a zero score; twenty or more breaches give the cap. */
  lemma RiskScoreEnds(breaches: seq<Breach>)
    ensures breaches == [] ==> RiskScore(breaches) == 0.0
    ensures |breaches| >= 20 ==> RiskScore(breaches) == 10.0
  {
  }
}
