/** The bias and racism detector: six detectors that flag one segment per
    match with a fixed category and severity, the page each segment is placed
    on, per-category risk scores (frequency plus mean severity weight, with a
    confidence), and the overall-severity ladder. */
module BiasDetection {
  import opened Seqs
  import opened Text
  import opened Numeric
  import opened Models
  import opened Pages

  /** The detector categories, in the order the analysis runs them. */
  datatype Category =
    | ExplicitRacism
    | ImplicitBias
    | CulturalInsensitivity
    | StigmatizingLanguage
    | DeficitLanguage
    | FamilyUndermining

  const Detectors: seq<Category> :=
    [ExplicitRacism, ImplicitBias, CulturalInsensitivity,
     StigmatizingLanguage, DeficitLanguage, FamilyUndermining]

  function DetectorIndex(c: Category): (i: nat)
    ensures i < |Detectors| && Detectors[i] == c
  {
    match c
    case ExplicitRacism => 0
    case ImplicitBias => 1
    case CulturalInsensitivity => 2
    case StigmatizingLanguage => 3
    case DeficitLanguage => 4
    case FamilyUndermining => 5
  }

  /** The severity every segment of a detector carries. */
  function DetectorSeverity(c: Category): Severity
  {
    match c
    case ExplicitRacism => Critical
    case StigmatizingLanguage => Medium
    case DeficitLanguage => Low
    case _ => High
  }

  /** Weight of a severity in the risk score. */
  function SeverityWeight(s: Severity): nat
  {
    match s
    case Low => 1
    case Medium => 3
    case High => 7
    case Critical => 10
  }

  /** A category's name in its risk score: the identifier with spaces for
      underscores, title-cased. */
  function Label(c: Category): String
  {
    match c
    case ExplicitRacism => "Explicit Racism"
    case ImplicitBias => "Implicit Bias"
    case CulturalInsensitivity => "Cultural Insensitivity"
    case StigmatizingLanguage => "Stigmatizing Language"
    case DeficitLanguage => "Deficit Language"
    case FamilyUndermining => "Family Undermining"
  }

  /** The detectors' default context width on each side of a match. */
  const DefaultContextWindow: nat := 100

  /** A flagged segment; the page number is 0 until the page mapping runs. */
  datatype FlaggedSegment = FlaggedSegment(
    text: String,
    pageNumber: int,
    context: String,
    severity: Severity,
    category: Category)

  // ---------------------------------------------------------------------------
  // Detection

  /** The segment a detector flags for one match: the unstripped window of w
      characters on each side. */
  function MakeSegment(text: String, c: Category, m: Match, w: nat): FlaggedSegment
  {
    FlaggedSegment(m.text, 0, Window(text, m, w), DetectorSeverity(c), c)
  }

  /** The segments of one detector: one per match, in match order. */
  function DetectorSegments(text: String, c: Category, ms: seq<Match>, w: nat): (r: seq<FlaggedSegment>)
    ensures |r| == |ms|
  {
    if ms == [] then []
    else DetectorSegments(text, c, ms[..|ms| - 1], w) + [MakeSegment(text, c, ms[|ms| - 1], w)]
  }

  lemma {:induction false} DetectorSegmentAt(text: String, c: Category, ms: seq<Match>, w: nat, j: nat)
    requires j < |ms|
    ensures DetectorSegments(text, c, ms, w)[j] == MakeSegment(text, c, ms[j], w)
  {
    if j < |ms| - 1 {
      DetectorSegmentAt(text, c, ms[..|ms| - 1], w, j);
    }
  }

  /** The segments of the first k detectors with the default window;
      `matches[k]` holds the matches of the patterns of `Detectors[k]`,
      pattern by pattern, each in text order. */
  function SegmentsUpTo(text: String, matches: seq<seq<Match>>, k: nat): seq<FlaggedSegment>
    requires |matches| == |Detectors| && k <= |Detectors|
  {
    if k == 0 then []
    else SegmentsUpTo(text, matches, k - 1)
         + DetectorSegments(text, Detectors[k - 1], matches[k - 1], DefaultContextWindow)
  }

  /** One detector: flags every match of its patterns. */
  method Detect(text: String, c: Category, ms: seq<Match>, contextWindow: nat)
    returns (flagged: seq<FlaggedSegment>)
    ensures flagged == DetectorSegments(text, c, ms, contextWindow)
  {
    flagged := [];
    var j := 0;
    while j < |ms|
      invariant 0 <= j <= |ms|
      invariant flagged == DetectorSegments(text, c, ms[..j], contextWindow)
    {
      var m := ms[j];
      var start := Max(0, m.start - contextWindow);
      var end := Min(|text|, m.end + contextWindow);
      var context := Slice(text, start, end);
      assert ms[..j + 1][..j] == ms[..j];
      flagged := flagged + [FlaggedSegment(m.text, 0, context, DetectorSeverity(c), c)];
      j := j + 1;
    }
    assert ms[..j] == ms;
  }

  /** The six detectors run one after the other, their segments concatenated. */
  method DetectAll(text: String, matches: seq<seq<Match>>) returns (all: seq<FlaggedSegment>)
    requires |matches| == |Detectors|
    ensures all == SegmentsUpTo(text, matches, |Detectors|)
  {
    var found := Detect(text, ExplicitRacism, matches[0], DefaultContextWindow);
    all := found;
    assert all == SegmentsUpTo(text, matches, 1);
    found := Detect(text, ImplicitBias, matches[1], DefaultContextWindow);
    all := all + found;
    assert all == SegmentsUpTo(text, matches, 2);
    found := Detect(text, CulturalInsensitivity, matches[2], DefaultContextWindow);
    all := all + found;
    assert all == SegmentsUpTo(text, matches, 3);
    found := Detect(text, StigmatizingLanguage, matches[3], DefaultContextWindow);
    all := all + found;
    assert all == SegmentsUpTo(text, matches, 4);
    found := Detect(text, DeficitLanguage, matches[4], DefaultContextWindow);
    all := all + found;
    assert all == SegmentsUpTo(text, matches, 5);
    found := Detect(text, FamilyUndermining, matches[5], DefaultContextWindow);
    all := all + found;
  }

  // ---------------------------------------------------------------------------
  // Page mapping

  /** The segment after the page mapping: the number of the first page holding
      its text, or its page number unchanged when no page does. */
  function Located(s: FlaggedSegment, pages: seq<PageText>): FlaggedSegment
  {
    match PageContaining(pages, s.text)
    case None => s
    case Some(p) => s.(pageNumber := p)
  }

  /** Updates the page number of every segment, in place. */
  method MapPages(segments: array<FlaggedSegment>, pages: seq<PageText>)
    modifies segments
    ensures forall i :: 0 <= i < segments.Length ==> segments[i] == Located(old(segments[i]), pages)
  {
    for i := 0 to segments.Length
      invariant forall j :: 0 <= j < i ==> segments[j] == Located(old(segments[j]), pages)
      invariant forall j :: i <= j < segments.Length ==> segments[j] == old(segments[j])
    {
      var located := Locate(segments[i], pages);
      segments[i] := located;
    }
  }

  /** The page mapping of one segment: the scan over the pages, then the
      update of its page number when a page holds its text. */
  method Locate(s: FlaggedSegment, pages: seq<PageText>) returns (t: FlaggedSegment)
    ensures t == Located(s, pages)
  {
    t := s;
    var page := LookUpPage(pages, s.text);
    if page.Some? {
      t := t.(pageNumber := page.value);
    }
  }

  // ---------------------------------------------------------------------------
  // Risk scores

  /** The segments of category c, in segment order. */
  function OfCategory(segs: seq<FlaggedSegment>, c: Category): (r: seq<FlaggedSegment>)
    ensures |r| <= |segs|
  {
    if segs == [] then []
    else OfCategory(segs[..|segs| - 1], c)
         + (if segs[|segs| - 1].category == c then [segs[|segs| - 1]] else [])
  }

  /** The severity weights of a list of segments, in order. */
  function WeightsOf(xs: seq<FlaggedSegment>): (r: seq<nat>)
    ensures |r| == |xs|
  {
    if xs == [] then [] else WeightsOf(xs[..|xs| - 1]) + [SeverityWeight(xs[|xs| - 1].severity)]
  }

  /** The quoted texts of a list of segments, in order. */
  function QuotesOf(xs: seq<FlaggedSegment>): (r: seq<String>)
    ensures |r| == |xs|
  {
    if xs == [] then [] else QuotesOf(xs[..|xs| - 1]) + ["\"" + xs[|xs| - 1].text + "\""]
  }

  /** The score of a non-empty list of severity weights before rounding: half
      a point per weight plus their mean, capped at 10. */
  function ScoreFrom(ws: seq<nat>): real
    requires ws != []
  {
    MinR(10.0, |ws| as real * 0.5 + SumN(ws) as real / |ws| as real)
  }

  /** The confidence before rounding: a tenth per segment, capped at 1. */
  function ConfidenceFrom(n: nat): real
  {
    MinR(1.0, n as real / 10.0)
  }

  /** The score of category c before rounding. */
  function RawScore(segs: seq<FlaggedSegment>, c: Category): real
    requires OfCategory(segs, c) != []
  {
    ScoreFrom(WeightsOf(OfCategory(segs, c)))
  }

  /** The confidence of category c before rounding. */
  function RawConfidence(segs: seq<FlaggedSegment>, c: Category): real
  {
    ConfidenceFrom(|OfCategory(segs, c)|)
  }

  /** The risk score built from the weights and quotes of a category's
      segments. */
  function RiskFrom(c: Category, ws: seq<nat>, quotes: seq<String>): RiskScore
    requires ws != []
  {
    RiskScore(Label(c), Round(ScoreFrom(ws), 2), Round(ConfidenceFrom(|ws|), 2), Take(quotes, 5))
  }

  /** The risk score of a category that has segments. */
  function RiskFor(segs: seq<FlaggedSegment>, c: Category): RiskScore
    requires OfCategory(segs, c) != []
  {
    RiskFrom(c, WeightsOf(OfCategory(segs, c)), QuotesOf(OfCategory(segs, c)))
  }

  /** One risk score per category that has at least one segment. */
  function RiskScores(segs: seq<FlaggedSegment>): map<Category, RiskScore>
  {
    map c | c in Detectors && OfCategory(segs, c) != [] :: RiskFor(segs, c)
  }

  /** What the counting loop has gathered about category c after reading `segs`. */
  predicate TalliedAt(segs: seq<FlaggedSegment>, counts: map<Category, nat>,
                      severities: map<Category, seq<nat>>, c: Category)
  {
    && (c in counts <==> OfCategory(segs, c) != [])
    && (c in severities <==> c in counts)
    && (c in counts ==> counts[c] == |OfCategory(segs, c)|)
    && (c in severities ==> severities[c] == WeightsOf(OfCategory(segs, c)))
  }

  predicate Tallied(segs: seq<FlaggedSegment>, counts: map<Category, nat>, severities: map<Category, seq<nat>>)
  {
    forall c :: TalliedAt(segs, counts, severities, c)
  }

  /** Counts one more segment and records its weight under its category. */
  method Tally(segs: seq<FlaggedSegment>, i: nat, counts: map<Category, nat>, severities: map<Category, seq<nat>>)
    returns (counts': map<Category, nat>, severities': map<Category, seq<nat>>)
    requires i < |segs| && Tallied(segs[..i], counts, severities)
    ensures Tallied(segs[..i + 1], counts', severities')
  {
    var s := segs[i];
    var w := SeverityWeight(s.severity);
    assert TalliedAt(segs[..i], counts, severities, s.category);
    if s.category in counts {
      counts' := counts[s.category := counts[s.category] + 1];
      severities' := severities[s.category := severities[s.category] + [w]];
    } else {
      counts' := counts[s.category := 1];
      severities' := severities[s.category := [w]];
    }
    ghost var read := segs[..i + 1];
    assert read[..i] == segs[..i];
    forall c
      ensures TalliedAt(read, counts', severities', c)
    {
      assert TalliedAt(segs[..i], counts, severities, c);
      var before := OfCategory(segs[..i], c);
      if s.category == c {
        assert OfCategory(read, c) == before + [s];
        assert (before + [s])[..|before|] == before;
      } else {
        assert OfCategory(read, c) == before;
      }
    }
  }

  /** The counting loop: per category, the number of segments and their
      severity weights. */
  method CountSegments(segments: seq<FlaggedSegment>)
    returns (counts: map<Category, nat>, severities: map<Category, seq<nat>>)
    ensures Tallied(segments, counts, severities)
  {
    counts := map[];
    severities := map[];
    for i := 0 to |segments|
      invariant Tallied(segments[..i], counts, severities)
    {
      counts, severities := Tally(segments, i, counts, severities);
    }
    assert segments[..|segments|] == segments;
  }

  method CalculateRiskScores(segments: seq<FlaggedSegment>) returns (riskScores: map<Category, RiskScore>)
    ensures riskScores == RiskScores(segments)
  {
    var counts, severities := CountSegments(segments);
    riskScores := map[];
    for k := 0 to |Detectors|
      invariant forall c :: c in riskScores <==> c in Detectors[..k] && c in counts
      invariant forall c :: c in riskScores ==>
                  OfCategory(segments, c) != [] && riskScores[c] == RiskFor(segments, c)
    {
      var c := Detectors[k];
      if c in counts {
        var risk := ScoreCategory(segments, c, counts, severities);
        riskScores := riskScores[c := risk];
      }
    }
    assert Detectors[..|Detectors|] == Detectors;
    ghost var spec := RiskScores(segments);
    forall c
      ensures c in riskScores <==> c in spec
      ensures c in riskScores ==> riskScores[c] == spec[c]
    {
      AllDetectors(c);
      assert TalliedAt(segments, counts, severities, c);
    }
  }

  /** The risk score of one category from its count and its list of weights. */
  method ScoreCategory(segments: seq<FlaggedSegment>, c: Category,
                       counts: map<Category, nat>, severities: map<Category, seq<nat>>)
    returns (risk: RiskScore)
    requires c in counts && TalliedAt(segments, counts, severities, c)
    ensures OfCategory(segments, c) != [] && risk == RiskFor(segments, c)
  {
    var n := counts[c];
    var ws := severities[c];
    var avg := SumN(ws) as real / |ws| as real;
    var score := MinR(10.0, n as real * 0.5 + avg);
    var confidence := MinR(1.0, n as real / 10.0);
    var evidence := Take(QuotesOf(OfCategory(segments, c)), 5);
    risk := RiskScore(Label(c), Round(score, 2), Round(confidence, 2), evidence);
  }

  /** The detectors are distinct: each one's index is its position. */
  lemma IndexOfDetector(j: nat)
    requires j < |Detectors|
    ensures DetectorIndex(Detectors[j]) == j
  {
    if j == 0 {} else if j == 1 {} else if j == 2 {} else if j == 3 {} else if j == 4 {} else {}
  }

  lemma AllDetectors(c: Category)
    ensures c in Detectors
  {
    assert Detectors[0] == ExplicitRacism && Detectors[5] == FamilyUndermining;
    assert Detectors[1] == ImplicitBias && Detectors[2] == CulturalInsensitivity;
    assert Detectors[3] == StigmatizingLanguage && Detectors[4] == DeficitLanguage;
  }

  // ---------------------------------------------------------------------------
  // Overall severity

  function CountSeverity(segs: seq<FlaggedSegment>, s: Severity): nat
  {
    if segs == [] then 0
    else CountSeverity(segs[..|segs| - 1], s) + (if segs[|segs| - 1].severity == s then 1 else 0)
  }

  /** Critical when any segment is critical, else high with more than three
      high segments, else medium with more than five medium ones, else low. */
  function OverallSeverity(segs: seq<FlaggedSegment>): Severity
  {
    if exists i :: 0 <= i < |segs| && segs[i].severity == Critical then Critical
    else if CountSeverity(segs, High) > 3 then High
    else if CountSeverity(segs, Medium) > 5 then Medium
    else Low
  }

  /** The categories with at least one segment. */
  function CategoriesOf(segs: seq<FlaggedSegment>): set<Category>
  {
    set i | 0 <= i < |segs| :: segs[i].category
  }

  // ---------------------------------------------------------------------------
  // The analysis

  /** Detection, page mapping, risk scores, overall severity and the
      categories found; the narrative report is not modelled. */
  method AnalyzeForBias(text: String, pages: seq<PageText>, matches: seq<seq<Match>>)
    returns (flagged: seq<FlaggedSegment>, riskScores: map<Category, RiskScore>,
             overallSeverity: Severity, categoriesDetected: set<Category>)
    requires |matches| == |Detectors|
    ensures |flagged| == |SegmentsUpTo(text, matches, |Detectors|)|
    ensures forall i :: 0 <= i < |flagged| ==>
              flagged[i] == Located(SegmentsUpTo(text, matches, |Detectors|)[i], pages)
    ensures riskScores == RiskScores(flagged)
    ensures overallSeverity == OverallSeverity(flagged)
    ensures categoriesDetected == CategoriesOf(flagged)
  {
    var detected := DetectAll(text, matches);
    var segments := new FlaggedSegment[|detected|](i requires 0 <= i < |detected| => detected[i]);
    MapPages(segments, pages);
    flagged := segments[..];
    riskScores := CalculateRiskScores(flagged);
    if exists i :: 0 <= i < |flagged| && flagged[i].severity == Critical {
      overallSeverity := Critical;
    } else if CountSeverity(flagged, High) > 3 {
      overallSeverity := High;
    } else if CountSeverity(flagged, Medium) > 5 {
      overallSeverity := Medium;
    } else {
      overallSeverity := Low;
    }
    categoriesDetected := set i | 0 <= i < |flagged| :: flagged[i].category;
  }

  // ---------------------------------------------------------------------------
  // Properties of the detectors

  /** One segment per match of the first k detectors. */
  lemma {:induction false} SegmentCount(text: String, matches: seq<seq<Match>>, k: nat)
    requires |matches| == |Detectors| && k <= |Detectors|
    ensures |SegmentsUpTo(text, matches, k)| == TotalLength(matches[..k])
  {
    if k > 0 {
      SegmentCount(text, matches, k - 1);
      assert matches[..k][..k - 1] == matches[..k - 1];
    }
  }

  /** Every segment carries its detector's severity. */
  predicate Consistent(segs: seq<FlaggedSegment>)
  {
    forall i :: 0 <= i < |segs| ==> segs[i].severity == DetectorSeverity(segs[i].category)
  }

  /** Detected segments carry their detector's severity and page 0. */
  lemma {:induction false} SegmentFields(text: String, matches: seq<seq<Match>>, k: nat)
    requires |matches| == |Detectors| && k <= |Detectors|
    ensures Consistent(SegmentsUpTo(text, matches, k))
    ensures forall i :: 0 <= i < |SegmentsUpTo(text, matches, k)| ==> SegmentsUpTo(text, matches, k)[i].pageNumber == 0
  {
    if k > 0 {
      SegmentFields(text, matches, k - 1);
      var before: seq<FlaggedSegment> := SegmentsUpTo(text, matches, k - 1);
      var here: seq<FlaggedSegment> := DetectorSegments(text, Detectors[k - 1], matches[k - 1], DefaultContextWindow);
      assert SegmentsUpTo(text, matches, k) == before + here;
      forall i | |before| <= i < |before| + |here|
        ensures (before + here)[i] == MakeSegment(text, Detectors[k - 1], matches[k - 1][i - |before|], DefaultContextWindow)
      {
        DetectorSegmentAt(text, Detectors[k - 1], matches[k - 1], DefaultContextWindow, i - |before|);
      }
    }
  }

  /** When the match lies in the text, its segment's context is a piece of the
      text that holds the matched text and is at most 2w characters longer. */
  lemma SegmentContext(text: String, c: Category, m: Match, w: nat)
    requires MatchIn(m, text)
    ensures var x := MakeSegment(text, c, m, w);
      && |x.context| <= |x.text| + 2 * w
      && Contains(text, x.context)
      && Contains(x.context, x.text)
  {
    var win := Window(text, m, w);
    var lo := Max(0, m.start - w);
    WindowAroundMatch(text, m, w);
    assert OccursAt(text, win, lo);
    assert OccursAt(win, m.text, m.start - lo);
  }

  /** The segments of one detector that have category c: all of them when c is
      the detector's category, none otherwise. */
  lemma {:induction false} OfDetector(text: String, d: Category, ms: seq<Match>, w: nat, c: Category)
    ensures OfCategory(DetectorSegments(text, d, ms, w), c) == if c == d then DetectorSegments(text, d, ms, w) else []
  {
    if ms != [] {
      OfDetector(text, d, ms[..|ms| - 1], w, c);
      var all := DetectorSegments(text, d, ms, w);
      assert all[..|all| - 1] == DetectorSegments(text, d, ms[..|ms| - 1], w);
    }
  }

  lemma {:induction false} OfCategoryAppend(a: seq<FlaggedSegment>, b: seq<FlaggedSegment>, c: Category)
    ensures OfCategory(a + b, c) == OfCategory(a, c) + OfCategory(b, c)
    decreases |b|
  {
    if b == [] {
      assert a + b == a;
    } else {
      var b' := b[..|b| - 1];
      assert (a + b)[..|a + b| - 1] == a + b';
      OfCategoryAppend(a, b', c);
    }
  }

  /** The detected segments of category c are exactly the segments its
      detector made, one per match of its patterns. */
  lemma {:induction false} CategorySegments(text: String, matches: seq<seq<Match>>, k: nat, c: Category)
    requires |matches| == |Detectors| && k <= |Detectors|
    ensures OfCategory(SegmentsUpTo(text, matches, k), c)
            == if DetectorIndex(c) < k then DetectorSegments(text, c, matches[DetectorIndex(c)], DefaultContextWindow) else []
  {
    if k > 0 {
      CategorySegments(text, matches, k - 1, c);
      var d := Detectors[k - 1];
      IndexOfDetector(k - 1);
      var before := SegmentsUpTo(text, matches, k - 1);
      var made := DetectorSegments(text, d, matches[k - 1], DefaultContextWindow);
      assert SegmentsUpTo(text, matches, k) == before + made;
      OfCategoryAppend(before, made, c);
      OfDetector(text, d, matches[k - 1], DefaultContextWindow, c);
      var earlier := OfCategory(before, c);
      var here := OfCategory(made, c);
      assert OfCategory(SegmentsUpTo(text, matches, k), c) == earlier + here;
      if DetectorIndex(c) == k - 1 {
        assert earlier == [];
        assert earlier + here == here;
      } else {
        assert c != d && here == [];
        assert earlier + here == earlier;
      }
    }
  }

  /** A category's list holds exactly the segments of that category. */
  lemma {:induction false} InOfCategory(segs: seq<FlaggedSegment>, c: Category, x: FlaggedSegment)
    ensures x in OfCategory(segs, c) <==> x in segs && x.category == c
  {
    if segs != [] {
      InOfCategory(segs[..|segs| - 1], c, x);
      assert segs == segs[..|segs| - 1] + [segs[|segs| - 1]];
    }
  }

  /** A category is detected exactly when it has segments. */
  lemma CategoriesOfExact(segs: seq<FlaggedSegment>, c: Category)
    ensures c in CategoriesOf(segs) <==> OfCategory(segs, c) != []
  {
    if c in CategoriesOf(segs) {
      var i :| 0 <= i < |segs| && segs[i].category == c;
      InOfCategory(segs, c, segs[i]);
    }
    if OfCategory(segs, c) != [] {
      var x := OfCategory(segs, c)[0];
      InOfCategory(segs, c, x);
      var i :| 0 <= i < |segs| && segs[i] == x;
    }
  }

  // ---------------------------------------------------------------------------
  // Properties of the risk scores

  lemma {:induction false} WeightsOfAt(xs: seq<FlaggedSegment>, j: nat)
    requires j < |xs|
    ensures WeightsOf(xs)[j] == SeverityWeight(xs[j].severity)
  {
    if j < |xs| - 1 {
      WeightsOfAt(xs[..|xs| - 1], j);
    }
  }

  lemma {:induction false} QuotesOfAt(xs: seq<FlaggedSegment>, j: nat)
    requires j < |xs|
    ensures QuotesOf(xs)[j] == "\"" + xs[j].text + "\""
  {
    if j < |xs| - 1 {
      QuotesOfAt(xs[..|xs| - 1], j);
    }
  }

  /** Every weight is at least 1, so the weights sum to at least their count. */
  lemma {:induction false} WeightSumAtLeastCount(xs: seq<FlaggedSegment>)
    ensures SumN(WeightsOf(xs)) >= |xs|
  {
    if xs != [] {
      WeightSumAtLeastCount(xs[..|xs| - 1]);
    }
  }

  /** Segments that share one severity have weights summing to count times
      that severity's weight. */
  lemma {:induction false} UniformWeightSum(xs: seq<FlaggedSegment>, sev: Severity)
    requires forall i :: 0 <= i < |xs| ==> xs[i].severity == sev
    ensures SumN(WeightsOf(xs)) == |xs| * SeverityWeight(sev)
  {
    if xs != [] {
      UniformWeightSum(xs[..|xs| - 1], sev);
    }
  }

  /** A category with segments scores in [1.5, 10] with a confidence in
      [0.1, 1], which is 1 from ten segments on. */
  lemma RawRiskBounds(segs: seq<FlaggedSegment>, c: Category)
    requires OfCategory(segs, c) != []
    ensures 1.5 <= RawScore(segs, c) <= 10.0
    ensures 0.1 <= RawConfidence(segs, c) <= 1.0
    ensures |OfCategory(segs, c)| >= 10 ==> RawConfidence(segs, c) == 1.0
  {
    var xs := OfCategory(segs, c);
    var ws := WeightsOf(xs);
    WeightSumAtLeastCount(xs);
    ScoreFormulaBounds(|ws|, SumN(ws));
    ConfidenceFormulaBounds(|xs|);
  }

  lemma ScoreFormulaBounds(n: nat, sum: nat)
    requires 1 <= n <= sum
    ensures 1.5 <= MinR(10.0, n as real * 0.5 + sum as real / n as real) <= 10.0
  {
    QuotientAbove(sum as real, n as real, 1.0);
  }

  lemma ConfidenceFormulaBounds(n: nat)
    requires 1 <= n
    ensures 0.1 <= MinR(1.0, n as real / 10.0) <= 1.0
    ensures n >= 10 ==> MinR(1.0, n as real / 10.0) == 1.0
  {
    QuotientAbove(n as real, 10.0, 0.1);
    if n >= 10 {
      QuotientAbove(n as real, 10.0, 1.0);
    }
  }

  /** The rounded score and confidence keep those bounds, so the record is
      valid. */
  lemma RiskBounds(segs: seq<FlaggedSegment>, c: Category)
    requires OfCategory(segs, c) != []
    ensures 1.5 <= RiskFor(segs, c).score && ValidRiskScore(RiskFor(segs, c))
    ensures 0.1 <= RiskFor(segs, c).confidence
    ensures |OfCategory(segs, c)| >= 10 ==> RiskFor(segs, c).confidence == 1.0
  {
    RawRiskBounds(segs, c);
    RoundWithin(RawScore(segs, c), 2, 1.5, 10.0, 150, 1000);
    RoundWithin(RawConfidence(segs, c), 2, 0.1, 1.0, 10, 100);
    if |OfCategory(segs, c)| >= 10 {
      RoundOnGrid(1.0, 2, 100);
    }
  }

  /** Risk scores exist for exactly the detected categories, and each is a
      valid record scoring at least 1.5. */
  lemma RiskScoresValid(segs: seq<FlaggedSegment>)
    ensures RiskScores(segs).Keys == CategoriesOf(segs)
    ensures forall c :: c in RiskScores(segs) ==>
              ValidRiskScore(RiskScores(segs)[c]) && RiskScores(segs)[c].score >= 1.5
  {
    forall c ensures c in RiskScores(segs) <==> c in CategoriesOf(segs) {
      CategoriesOfExact(segs, c);
      AllDetectors(c);
    }
    forall c | c in RiskScores(segs)
      ensures ValidRiskScore(RiskScores(segs)[c]) && RiskScores(segs)[c].score >= 1.5
    {
      RiskBounds(segs, c);
    }
  }

  /** The evidence is the quoted texts of the first five segments of the
      category, in segment order. */
  lemma EvidenceFirstFive(segs: seq<FlaggedSegment>, c: Category)
    requires OfCategory(segs, c) != []
    ensures var ev := RiskFor(segs, c).evidence;
      && |ev| == Min(5, |OfCategory(segs, c)|)
      && forall j :: 0 <= j < |ev| ==>
           ev[j] == "\"" + OfCategory(segs, c)[j].text + "\"" && OfCategory(segs, c)[j] in segs
           && OfCategory(segs, c)[j].category == c
  {
    var xs := OfCategory(segs, c);
    forall j | 0 <= j < |RiskFor(segs, c).evidence|
      ensures RiskFor(segs, c).evidence[j] == "\"" + xs[j].text + "\"" && xs[j] in segs && xs[j].category == c
    {
      QuotesOfAt(xs, j);
      InOfCategory(segs, c, xs[j]);
    }
  }

  /** When every segment carries its detector's severity, the mean weight of a
      category is its severity's weight, so its score is half a point per
      segment plus that weight, capped at 10. */
  lemma SingleSeverityScore(segs: seq<FlaggedSegment>, c: Category)
    requires Consistent(segs) && OfCategory(segs, c) != []
    ensures RawScore(segs, c)
            == MinR(10.0, |OfCategory(segs, c)| as real * 0.5 + SeverityWeight(DetectorSeverity(c)) as real)
  {
    var xs := OfCategory(segs, c);
    forall i | 0 <= i < |xs| ensures xs[i].severity == DetectorSeverity(c) {
      InOfCategory(segs, c, xs[i]);
    }
    UniformWeightSum(xs, DetectorSeverity(c));
    UniformMean(|xs|, SeverityWeight(DetectorSeverity(c)));
  }

  lemma UniformMean(n: nat, w: nat)
    requires n >= 1
    ensures (n * w) as real / n as real == w as real
  {
    assert (n * w) as real == w as real * n as real;
    DivBack((n * w) as real, w as real, n as real);
  }

  /** Adding a segment never lowers a category's score, as long as every
      segment carries its detector's severity. */
  lemma ScoreNeverDrops(segs: seq<FlaggedSegment>, s: FlaggedSegment, c: Category)
    requires Consistent(segs + [s]) && OfCategory(segs, c) != []
    ensures OfCategory(segs + [s], c) != []
    ensures RawScore(segs, c) <= RawScore(segs + [s], c)
  {
    var more := segs + [s];
    assert more[..|more| - 1] == segs;
    assert Consistent(segs) by {
      forall i | 0 <= i < |segs| ensures segs[i].severity == DetectorSeverity(segs[i].category) {
        assert segs[i] == more[i];
      }
    }
    SingleSeverityScore(segs, c);
    SingleSeverityScore(more, c);
  }

  /** The detected segments of category c are one per match of its detector. */
  lemma DetectedOfCategory(text: String, matches: seq<seq<Match>>, c: Category)
    requires |matches| == |Detectors|
    ensures |OfCategory(SegmentsUpTo(text, matches, |Detectors|), c)| == |matches[DetectorIndex(c)]|
  {
    CategorySegments(text, matches, |Detectors|, c);
  }

  /** A detector gives its category a risk score exactly when it has a match. */
  lemma DetectorRiskPresent(text: String, matches: seq<seq<Match>>, c: Category)
    requires |matches| == |Detectors|
    ensures c in RiskScores(SegmentsUpTo(text, matches, |Detectors|)) <==> matches[DetectorIndex(c)] != []
  {
    DetectedOfCategory(text, matches, c);
    AllDetectors(c);
  }

  /** That score is half a point per match plus the weight of the detector's
      severity, capped at 10. */
  lemma DetectorRisk(text: String, matches: seq<seq<Match>>, c: Category)
    requires |matches| == |Detectors| && matches[DetectorIndex(c)] != []
    ensures var segs := SegmentsUpTo(text, matches, |Detectors|);
      && OfCategory(segs, c) != []
      && RawScore(segs, c) == MinR(10.0, |matches[DetectorIndex(c)]| as real * 0.5
                                         + SeverityWeight(DetectorSeverity(c)) as real)
  {
    var segs := SegmentsUpTo(text, matches, |Detectors|);
    DetectedOfCategory(text, matches, c);
    SegmentFields(text, matches, |Detectors|);
    SingleSeverityScore(segs, c);
  }

  // ---------------------------------------------------------------------------
  // Properties of the overall severity

  lemma {:induction false} CountSeverityAppend(a: seq<FlaggedSegment>, b: seq<FlaggedSegment>, s: Severity)
    ensures CountSeverity(a + b, s) == CountSeverity(a, s) + CountSeverity(b, s)
    decreases |b|
  {
    if b == [] {
      assert a + b == a;
    } else {
      var b' := b[..|b| - 1];
      assert (a + b)[..|a + b| - 1] == a + b';
      CountSeverityAppend(a, b', s);
    }
  }

  /** More segments never lower the overall severity. */
  lemma OverallSeverityMonotone(segs: seq<FlaggedSegment>, more: seq<FlaggedSegment>)
    ensures Rank(OverallSeverity(segs)) <= Rank(OverallSeverity(segs + more))
  {
    var all := segs + more;
    CountSeverityAppend(segs, more, High);
    CountSeverityAppend(segs, more, Medium);
    if exists i :: 0 <= i < |segs| && segs[i].severity == Critical {
      var i :| 0 <= i < |segs| && segs[i].severity == Critical;
      assert all[i] == segs[i];
    }
  }

  /** Without segments the overall severity is low. */
  lemma NoSegmentsLow()
    ensures OverallSeverity([]) == Low
  {
  }

  /** The analysis is critical exactly when the explicit-racism detector has a
      match, since no other detector flags critical segments. */
  lemma CriticalIffExplicitRacism(text: String, matches: seq<seq<Match>>)
    requires |matches| == |Detectors|
    ensures OverallSeverity(SegmentsUpTo(text, matches, |Detectors|)) == Critical <==> matches[0] != []
  {
    CriticalOnlyFromExplicitRacism(text, matches);
    ExplicitRacismIsCritical(text, matches);
  }

  /** A critical segment is an explicit-racism segment, so it comes from a
      match of that detector. */
  lemma CriticalOnlyFromExplicitRacism(text: String, matches: seq<seq<Match>>)
    requires |matches| == |Detectors|
    ensures OverallSeverity(SegmentsUpTo(text, matches, |Detectors|)) == Critical ==> matches[0] != []
  {
    var segs := SegmentsUpTo(text, matches, |Detectors|);
    if exists i :: 0 <= i < |segs| && segs[i].severity == Critical {
      var i :| 0 <= i < |segs| && segs[i].severity == Critical;
      SegmentFields(text, matches, |Detectors|);
      assert segs[i].category == ExplicitRacism;
      CategorySegments(text, matches, |Detectors|, ExplicitRacism);
      InOfCategory(segs, ExplicitRacism, segs[i]);
    }
  }

  /** A match of the explicit-racism detector gives a critical segment. */
  lemma ExplicitRacismIsCritical(text: String, matches: seq<seq<Match>>)
    requires |matches| == |Detectors|
    ensures matches[0] != [] ==> OverallSeverity(SegmentsUpTo(text, matches, |Detectors|)) == Critical
  {
    var segs := SegmentsUpTo(text, matches, |Detectors|);
    if matches[0] != [] {
      CategorySegments(text, matches, |Detectors|, ExplicitRacism);
      var racist := OfCategory(segs, ExplicitRacism);
      var x := racist[0];
      InOfCategory(segs, ExplicitRacism, x);
      var i :| 0 <= i < |segs| && segs[i] == x;
      SegmentFields(text, matches, |Detectors|);
      assert segs[i].severity == Critical;
    }
  }

  // ---------------------------------------------------------------------------
  // Properties of the page mapping

  /** The page mapping changes only the page number: to the number of the
      first page holding the segment's text, or not at all when no page
      holds it. */
  lemma LocatedSpec(s: FlaggedSegment, pages: seq<PageText>)
    ensures var t := Located(s, pages);
      && t.text == s.text && t.context == s.context && t.severity == s.severity && t.category == s.category
      && ((forall j :: 0 <= j < |pages| ==> !OnPage(pages[j], s.text)) ==> t.pageNumber == s.pageNumber)
      && ((exists j :: 0 <= j < |pages| && OnPage(pages[j], s.text)) ==>
            exists k :: 0 <= k < |pages| && OnPage(pages[k], s.text) && t.pageNumber == pages[k].pageNumber
              && forall j :: 0 <= j < k ==> !OnPage(pages[j], s.text))
  {
    PageContainingSpec(pages, s.text);
  }

  /** Two segment lists that agree on everything but page numbers. */
  predicate SameFindings(a: seq<FlaggedSegment>, b: seq<FlaggedSegment>)
  {
    |a| == |b| &&
    forall i :: 0 <= i < |a| ==>
      a[i].text == b[i].text && a[i].severity == b[i].severity && a[i].category == b[i].category
  }

  lemma {:induction false} SameFindingsLists(a: seq<FlaggedSegment>, b: seq<FlaggedSegment>, c: Category)
    requires SameFindings(a, b)
    ensures SameFindings(OfCategory(a, c), OfCategory(b, c))
    ensures CountSeverity(a, High) == CountSeverity(b, High)
    ensures CountSeverity(a, Medium) == CountSeverity(b, Medium)
  {
    if a != [] {
      var a', b' := a[..|a| - 1], b[..|b| - 1];
      assert SameFindings(a', b') by {
        forall i | 0 <= i < |a'| ensures a'[i] == a[i] && b'[i] == b[i] { }
      }
      SameFindingsLists(a', b', c);
    }
  }

  lemma {:induction false} SameFindingsWeights(a: seq<FlaggedSegment>, b: seq<FlaggedSegment>)
    requires SameFindings(a, b)
    ensures WeightsOf(a) == WeightsOf(b) && QuotesOf(a) == QuotesOf(b)
  {
    if a != [] {
      var a', b' := a[..|a| - 1], b[..|b| - 1];
      assert SameFindings(a', b') by {
        forall i | 0 <= i < |a'| ensures a'[i] == a[i] && b'[i] == b[i] { }
      }
      SameFindingsWeights(a', b');
    }
  }

  /** Segment lists that differ only in page numbers get the same risk
      scores. */
  lemma SameFindingsRisk(a: seq<FlaggedSegment>, b: seq<FlaggedSegment>)
    requires SameFindings(a, b)
    ensures RiskScores(a) == RiskScores(b)
  {
    forall c
      ensures c in RiskScores(a) <==> c in RiskScores(b)
      ensures c in RiskScores(a) ==> RiskScores(a)[c] == RiskScores(b)[c]
    {
      SameFindingsLists(a, b, c);
      SameFindingsWeights(OfCategory(a, c), OfCategory(b, c));
      if OfCategory(a, c) != [] {
        SameFindingsRiskFor(a, b, c);
      }
    }
  }

  lemma SameFindingsRiskFor(a: seq<FlaggedSegment>, b: seq<FlaggedSegment>, c: Category)
    requires OfCategory(a, c) != []
    requires WeightsOf(OfCategory(a, c)) == WeightsOf(OfCategory(b, c))
    requires QuotesOf(OfCategory(a, c)) == QuotesOf(OfCategory(b, c))
    ensures OfCategory(b, c) != [] && RiskFor(a, c) == RiskFor(b, c)
  {
    assert |OfCategory(a, c)| == |OfCategory(b, c)|;
  }

  /** ... and the same overall severity and detected categories. */
  lemma SameFindingsSeverity(a: seq<FlaggedSegment>, b: seq<FlaggedSegment>)
    requires SameFindings(a, b)
    ensures OverallSeverity(a) == OverallSeverity(b)
    ensures CategoriesOf(a) == CategoriesOf(b)
  {
    SameFindingsLists(a, b, ExplicitRacism);
    if exists i :: 0 <= i < |a| && a[i].severity == Critical {
      var i :| 0 <= i < |a| && a[i].severity == Critical;
      assert b[i].severity == Critical;
    }
    if exists i :: 0 <= i < |b| && b[i].severity == Critical {
      var i :| 0 <= i < |b| && b[i].severity == Critical;
      assert a[i].severity == Critical;
    }
    forall c ensures c in CategoriesOf(a) <==> c in CategoriesOf(b) {
      if c in CategoriesOf(a) {
        var i :| 0 <= i < |a| && a[i].category == c;
        assert b[i].category == c;
      }
      if c in CategoriesOf(b) {
        var i :| 0 <= i < |b| && b[i].category == c;
        assert a[i].category == c;
      }
    }
  }

  /** The page mapping changes no risk score, no overall severity and no
      detected category. */
  lemma MappingKeepsScores(detected: seq<FlaggedSegment>, flagged: seq<FlaggedSegment>, pages: seq<PageText>)
    requires |flagged| == |detected|
    requires forall i :: 0 <= i < |flagged| ==> flagged[i] == Located(detected[i], pages)
    ensures RiskScores(flagged) == RiskScores(detected)
    ensures OverallSeverity(flagged) == OverallSeverity(detected)
    ensures CategoriesOf(flagged) == CategoriesOf(detected)
  {
    assert SameFindings(flagged, detected) by {
      forall i | 0 <= i < |flagged|
        ensures flagged[i].text == detected[i].text && flagged[i].severity == detected[i].severity
                && flagged[i].category == detected[i].category
      {
        LocatedSpec(detected[i], pages);
      }
    }
    SameFindingsRisk(flagged, detected);
    SameFindingsSeverity(flagged, detected);
  }
}
