/** The comparison tools: similarity and differences between two documents,
    the same with a bias comparison added, and the behavioural contradiction
    matrix between the first two of a list of documents. */
module Comparison {
  import opened Seqs
  import opened Text
  import opened Numeric
  import opened Models
  import Timeline
  import DocumentAnalysis

  // ---------------------------------------------------------------------------
  // Similarity

  /** The reported similarity: the matcher's ratio as a percentage, rounded
      to two decimals. */
  function SimilarityScore(ratio: real): real
  {
    Round(ratio * 100.0, 2)
  }

  /** A ratio in [0, 1] gives a similarity in [0, 100]. */
  lemma SimilarityBounds(ratio: real)
    requires 0.0 <= ratio <= 1.0
    ensures 0.0 <= SimilarityScore(ratio) <= 100.0
  {
    RoundWithin(ratio * 100.0, 2, 0.0, 100.0, 0, 10000);
  }

  // ---------------------------------------------------------------------------
  // Content unique to one document

  predicate NoTerminator(s: String)
  {
    forall i :: 0 <= i < |s| ==> !IsSentenceEnd(s[i])
  }

  /** `re.split(r'[.!?]+', s)`: the pieces between runs of terminators,
      empty pieces included. */
  function SplitSentences(s: String): (r: seq<String>)
    ensures |r| >= 1
  {
    if s == [] then [[]]
    else if IsSentenceEnd(s[0]) then
      if |s| > 1 && IsSentenceEnd(s[1]) then SplitSentences(s[1..]) else [[]] + SplitSentences(s[1..])
    else
      var rest := SplitSentences(s[1..]);
      [[s[0]] + rest[0]] + rest[1..]
  }

  /** A run of terminators before a piece that does not start with one
      splits off one empty piece. */
  lemma {:induction false} SplitRun(sep: String, b: String)
    requires sep != [] && forall i :: 0 <= i < |sep| ==> IsSentenceEnd(sep[i])
    requires b == [] || !IsSentenceEnd(b[0])
    ensures SplitSentences(sep + b) == [[]] + SplitSentences(b)
  {
    var s := sep + b;
    assert s[1..] == sep[1..] + b;
    if |sep| > 1 {
      SplitRun(sep[1..], b);
    }
  }

  /** A sentence, a run of terminators, and the rest: the sentence is the
      first piece. */
  lemma {:induction false} SplitSentencesFront(a: String, sep: String, b: String)
    requires NoTerminator(a)
    requires sep != [] && forall i :: 0 <= i < |sep| ==> IsSentenceEnd(sep[i])
    requires b == [] || !IsSentenceEnd(b[0])
    ensures SplitSentences(a + sep + b) == [a] + SplitSentences(b)
  {
    if a == [] {
      assert a + sep + b == sep + b;
      SplitRun(sep, b);
    } else {
      var s := a + sep + b;
      assert s[0] == a[0] && !IsSentenceEnd(s[0]);
      assert s[1..] == a[1..] + sep + b;
      SplitSentencesFront(a[1..], sep, b);
      var rest := SplitSentences(s[1..]);
      assert rest == [a[1..]] + SplitSentences(b);
      assert SplitSentences(s) == [[s[0]] + rest[0]] + rest[1..];
      assert [a[0]] + a[1..] == a;
      assert rest[1..] == SplitSentences(b);
    }
  }

  /** Text that opens with a terminator opens with an empty piece. */
  lemma {:induction false} SplitAtTerminator(s: String)
    requires s != [] && IsSentenceEnd(s[0])
    ensures SplitSentences(s)[0] == []
  {
    if |s| > 1 && IsSentenceEnd(s[1]) {
      SplitAtTerminator(s[1..]);
    }
  }

  /** Every piece is free of terminators and is a piece of the text; the
      first piece is a prefix of the text. */
  lemma {:induction false} SentencePieces(s: String)
    ensures forall k :: 0 <= k < |SplitSentences(s)| ==>
              NoTerminator(SplitSentences(s)[k]) && exists i :: OccursAt(s, SplitSentences(s)[k], i)
    ensures |SplitSentences(s)[0]| <= |s| && SplitSentences(s)[0] == s[..|SplitSentences(s)[0]|]
  {
    if s != [] {
      var tail := s[1..];
      SentencePieces(tail);
      var rest := SplitSentences(tail);
      var r := SplitSentences(s);
      forall k | 0 <= k < |rest| ensures exists i :: OccursAt(s, rest[k], i) {
        var i :| OccursAt(tail, rest[k], i);
        assert OccursAt(s, rest[k], i + 1) by {
          assert s[i + 1..i + 1 + |rest[k]|] == tail[i..i + |rest[k]|];
        }
      }
      if !IsSentenceEnd(s[0]) {
        var first := [s[0]] + rest[0];
        assert first == s[..|first|];
        assert OccursAt(s, first, 0);
        assert r == [first] + rest[1..];
        forall k | 0 <= k < |r|
          ensures NoTerminator(r[k]) && exists i :: OccursAt(s, r[k], i)
        {
          if k > 0 {
            assert r[k] == rest[k];
          } else {
            forall t | 0 <= t < |first| ensures !IsSentenceEnd(first[t]) {
              if t > 0 {
                assert first[t] == rest[0][t - 1];
              }
            }
          }
        }
      } else if |s| > 1 && IsSentenceEnd(s[1]) {
        assert r == rest;
        SplitAtTerminator(tail);
        assert r[0] == [];
        forall k | 0 <= k < |r|
          ensures NoTerminator(r[k]) && exists i :: OccursAt(s, r[k], i)
        {
          assert r[k] == rest[k];
        }
      } else {
        assert r == [[]] + rest;
        assert OccursAt(s, [], 0);
        forall k | 0 <= k < |r|
          ensures NoTerminator(r[k]) && exists i :: OccursAt(s, r[k], i)
        {
          if k > 0 {
            assert r[k] == rest[k - 1];
          }
        }
      }
    } else {
      assert OccursAt(s, [], 0);
    }
  }

  /** A stripped piece long enough and absent, ignoring case, from the other
      text. */
  predicate Unique(piece: String, other: String, minLength: int)
  {
    |Strip(piece)| > minLength && !Contains(Lower(other), Lower(Strip(piece)))
  }

  /** The stripped unique pieces among the first k, in order. */
  function UniqueUpTo(pieces: seq<String>, other: String, minLength: int, k: nat): (r: seq<String>)
    requires k <= |pieces|
    ensures |r| <= k
  {
    if k == 0 then []
    else
      UniqueUpTo(pieces, other, minLength, k - 1)
      + (if Unique(pieces[k - 1], other, minLength) then [Strip(pieces[k - 1])] else [])
  }

  /** All unique sentences of text1 with respect to text2. */
  function AllUnique(text1: String, text2: String, minLength: int): seq<String>
  {
    var pieces := SplitSentences(text1);
    UniqueUpTo(pieces, text2, minLength, |pieces|)
  }

  /** `find_unique_content`: the first ten. */
  function UniqueContent(text1: String, text2: String, minLength: int): seq<String>
  {
    Take(AllUnique(text1, text2, minLength), 10)
  }

  /** The loop over the sentences of text1. */
  method FindUniqueContent(text1: String, text2: String, minLength: int) returns (unique: seq<String>)
    ensures unique == UniqueContent(text1, text2, minLength)
  {
    var sentences := SplitSentences(text1);
    var other := Lower(text2);
    var blocks: seq<String> := [];
    for k := 0 to |sentences|
      invariant blocks == UniqueUpTo(sentences, text2, minLength, k)
    {
      var sentence := Strip(sentences[k]);
      if |sentence| > minLength && !Contains(other, Lower(sentence)) {
        blocks := blocks + [sentence];
      }
    }
    unique := Take(blocks, 10);
  }

  /** The unique list holds exactly the stripped unique pieces, in order. */
  lemma {:induction false} UniqueUpToSpec(pieces: seq<String>, other: String, minLength: int, k: nat)
    requires k <= |pieces|
    ensures forall x :: x in UniqueUpTo(pieces, other, minLength, k) ==>
              exists i :: 0 <= i < k && Unique(pieces[i], other, minLength) && x == Strip(pieces[i])
    ensures forall i :: 0 <= i < k && Unique(pieces[i], other, minLength) ==>
              Strip(pieces[i]) in UniqueUpTo(pieces, other, minLength, k)
  {
    if k > 0 {
      UniqueUpToSpec(pieces, other, minLength, k - 1);
    }
  }

  /** At most ten sentences are reported; each is longer than the minimum,
      holds no terminator, occurs in text1 and does not occur in text2,
      ignoring case; when there are at most ten such sentences all are
      reported. */
  lemma UniqueContentSpec(text1: String, text2: String, minLength: int)
    ensures |UniqueContent(text1, text2, minLength)| <= 10
    ensures UniqueContent(text1, text2, minLength) <= AllUnique(text1, text2, minLength)
    ensures |AllUnique(text1, text2, minLength)| <= 10 ==>
              UniqueContent(text1, text2, minLength) == AllUnique(text1, text2, minLength)
    ensures forall x :: x in UniqueContent(text1, text2, minLength) ==>
              |x| > minLength && NoTerminator(x) && Contains(text1, x)
              && !Contains(Lower(text2), Lower(x))
  {
    var pieces := SplitSentences(text1);
    UniqueUpToSpec(pieces, text2, minLength, |pieces|);
    SentencePieces(text1);
    forall x | x in UniqueContent(text1, text2, minLength)
      ensures |x| > minLength && NoTerminator(x) && Contains(text1, x)
              && !Contains(Lower(text2), Lower(x))
    {
      assert x in AllUnique(text1, text2, minLength);
      var i :| 0 <= i < |pieces| && Unique(pieces[i], text2, minLength) && x == Strip(pieces[i]);
      StrippedPiece(text1, pieces[i]);
    }
  }

  /** The stripped piece of a text is a piece of that text, and has no
      terminator when the piece has none. */
  lemma StrippedPiece(s: String, piece: String)
    requires NoTerminator(piece) && exists i :: OccursAt(s, piece, i)
    ensures NoTerminator(Strip(piece)) && exists i :: 0 <= i && OccursAt(s, Strip(piece), i)
  {
    var i :| OccursAt(s, piece, i);
    StripIsTrimmedInfix(piece);
    var j :| OccursAt(piece, Strip(piece), j);
    OccursTransitive(s, piece, i, Strip(piece), j);
    forall t | 0 <= t < |Strip(piece)| ensures !IsSentenceEnd(Strip(piece)[t]) {
      assert Strip(piece)[t] == piece[j + t];
    }
  }

  /** Lower-casing keeps an occurrence. */
  lemma LowerOccurs(s: String, sub: String, i: int)
    requires OccursAt(s, sub, i)
    ensures OccursAt(Lower(s), Lower(sub), i)
  {
    LowerSlice(s, i, i + |sub|);
  }

  /** No sentence of a document is unique with respect to the document
      itself. */
  lemma NothingUniqueToItself(t: String, minLength: int)
    ensures AllUnique(t, t, minLength) == []
    ensures UniqueContent(t, t, minLength) == []
  {
    var pieces := SplitSentences(t);
    UniqueUpToSpec(pieces, t, minLength, |pieces|);
    SentencePieces(t);
    forall i | 0 <= i < |pieces| ensures !Unique(pieces[i], t, minLength) {
      StrippedPiece(t, pieces[i]);
      var j :| 0 <= j && OccursAt(t, Strip(pieces[i]), j);
      LowerOccurs(t, Strip(pieces[i]), j);
    }
    UniqueUpToNone(pieces, t, minLength, |pieces|);
  }

  /** With no unique piece among the first k, nothing is collected. */
  lemma {:induction false} UniqueUpToNone(pieces: seq<String>, other: String, minLength: int, k: nat)
    requires k <= |pieces|
    requires forall i :: 0 <= i < k ==> !Unique(pieces[i], other, minLength)
    ensures UniqueUpTo(pieces, other, minLength, k) == []
  {
    if k > 0 {
      UniqueUpToNone(pieces, other, minLength, k - 1);
    }
  }

  // ---------------------------------------------------------------------------
  // Keyword counts

  /** The number of whole-word matches of w (ignoring case) among the
      positions before n. */
  function WholeWordCountUpTo(s: String, w: String, n: nat): nat
  {
    if n == 0 then 0
    else WholeWordCountUpTo(s, w, n - 1) + (if WholeWordAt(s, w, n - 1) then 1 else 0)
  }

  /** `len(re.findall(rf'\b{w}\b', s, re.IGNORECASE))`: the number of
      positions where w occurs as a whole word (see WholeWordsDisjoint for
      why every such position is found). */
  function WholeWordCount(s: String, w: String): nat
  {
    WholeWordCountUpTo(s, w, |s| + 1)
  }

  predicate AllWordChars(w: String)
  {
    forall i :: 0 <= i < |w| ==> IsWordChar(w[i])
  }

  /** A position strictly inside a match of a word made of word
      characters has a word character before it. */
  lemma InsideWholeWord(s: String, w: String, i: int, j: int)
    requires AllWordChars(w) && OccursAt(Lower(s), w, i)
    ensures i < j < i + |w| ==> WordBefore(s, j)
  {
    if i < j < i + |w| {
      var l := Lower(s);
      assert l[j - 1] == l[i..i + |w|][j - 1 - i] == w[j - 1 - i];
      assert IsWordChar(LowerChar(s[j - 1]));
    }
  }

  /** Two whole-word matches of a word made of word characters never
      overlap, so the left-to-right scan of `findall` meets each of them. */
  lemma WholeWordsDisjoint(s: String, w: String, i: int, j: int)
    requires AllWordChars(w)
    requires WholeWordAt(s, w, i) && WholeWordAt(s, w, j) && i < j
    ensures i + |w| <= j
  {
    InsideWholeWord(s, w, i, j);
  }

  /** The count is positive exactly when some position before n matches. */
  lemma {:induction false} WholeWordCountUpToPositive(s: String, w: String, n: nat)
    ensures WholeWordCountUpTo(s, w, n) > 0 <==> exists i :: 0 <= i < n && WholeWordAt(s, w, i)
  {
    if n > 0 {
      WholeWordCountUpToPositive(s, w, n - 1);
    }
  }

  /** Some whole-word match exists exactly when the count is positive. */
  lemma WholeWordCountPositive(s: String, w: String)
    ensures WholeWordCount(s, w) > 0 <==> HasWord(s, [w])
  {
    WholeWordCountUpToPositive(s, w, |s| + 1);
    if HasWord(s, [w]) {
      var k, i :| 0 <= k < 1 && 0 <= i <= |s| && WholeWordAt(s, [w][k], i);
      assert WholeWordAt(s, w, i);
    }
    if WholeWordCount(s, w) > 0 {
      var i :| 0 <= i < |s| + 1 && WholeWordAt(s, w, i);
      assert WholeWordAt(s, [w][0], i);
    }
  }

  /** `sum(len(re.findall(rf'\b{kw}\b', s, re.IGNORECASE)) for kw in kws)`. */
  function TotalMentions(s: String, kws: seq<String>): nat
  {
    if kws == [] then 0 else TotalMentions(s, kws[..|kws| - 1]) + WholeWordCount(s, kws[|kws| - 1])
  }

  /** The total is positive exactly when one of the keywords occurs as a
      whole word. */
  lemma {:induction false} TotalMentionsPositive(s: String, kws: seq<String>)
    ensures TotalMentions(s, kws) > 0 <==> HasWord(s, kws)
  {
    if kws != [] {
      var init := kws[..|kws| - 1];
      var last := kws[|kws| - 1];
      TotalMentionsPositive(s, init);
      WholeWordCountPositive(s, last);
      if HasWord(s, kws) {
        var k, i :| 0 <= k < |kws| && 0 <= i <= |s| && WholeWordAt(s, kws[k], i);
        if k < |init| {
          assert WholeWordAt(s, init[k], i);
        } else {
          assert WholeWordAt(s, [last][0], i);
        }
      }
      if HasWord(s, init) {
        var k, i :| 0 <= k < |init| && 0 <= i <= |s| && WholeWordAt(s, init[k], i);
        assert WholeWordAt(s, kws[k], i);
      }
      if HasWord(s, [last]) {
        var k, i :| 0 <= k < 1 && 0 <= i <= |s| && WholeWordAt(s, [last][k], i);
        assert WholeWordAt(s, kws[|kws| - 1], i);
      }
    } else {
      assert !HasWord(s, kws);
    }
  }

  const RiskKeywords: seq<String> := ["risk", "danger", "concern", "issue", "problem"]
  const FamilyKeywords: seq<String> := ["family", "parent", "mother", "father", "sibling"]

  // ---------------------------------------------------------------------------
  // Key differences

  /** The outcome of one bias analysis that the comparison reports: its
      overall severity and the number of flagged segments. */
  datatype BiasOutcome = BiasOutcome(overallSeverity: Severity, flaggedSegments: nat)

  /** A categorical difference between documents A and B; the page fields
      of the record are always empty. The reported texts are rendered from
      the fields by the functions below. */
  datatype Difference =
    | RecommendationDifference(recommendationA: String, recommendationB: String)
    | RiskLanguageDifference(riskTermsA: nat, riskTermsB: nat)
    | FamilyInvolvementDifference(familyMentionsA: nat, familyMentionsB: nat)
    | BiasDifference(biasA: BiasOutcome, biasB: BiasOutcome)

  function CategoryName(d: Difference): String
  {
    match d
    case RecommendationDifference(_, _) => "recommendation"
    case RiskLanguageDifference(_, _) => "risk_assessment"
    case FamilyInvolvementDifference(_, _) => "family_involvement"
    case BiasDifference(_, _) => "bias_analysis"
  }

  function Description(d: Difference): String
  {
    match d
    case RecommendationDifference(_, _) => "Different recommendations between documents"
    case RiskLanguageDifference(_, _) => "Significant difference in risk language"
    case FamilyInvolvementDifference(_, _) => "Different emphasis on family involvement"
    case BiasDifference(_, _) => "Bias severity comparison"
  }

  /** The severity as the bias analysis reports it. */
  function SeverityText(s: Severity): String
  {
    match s
    case Low => "low"
    case Medium => "medium"
    case High => "high"
    case Critical => "critical"
  }

  function BiasText(b: BiasOutcome): String
  {
    "Overall severity: " + SeverityText(b.overallSeverity) + ", " + Timeline.Numeral(b.flaggedSegments) + " flagged segments"
  }

  function DocumentAContent(d: Difference): String
  {
    match d
    case RecommendationDifference(a, _) => a
    case RiskLanguageDifference(a, _) => Timeline.Numeral(a) + " risk-related terms"
    case FamilyInvolvementDifference(a, _) => Timeline.Numeral(a) + " family-related mentions"
    case BiasDifference(a, _) => BiasText(a)
  }

  function DocumentBContent(d: Difference): String
  {
    match d
    case RecommendationDifference(_, b) => b
    case RiskLanguageDifference(_, b) => Timeline.Numeral(b) + " risk-related terms"
    case FamilyInvolvementDifference(_, b) => Timeline.Numeral(b) + " family-related mentions"
    case BiasDifference(_, b) => BiasText(b)
  }

  /** Recommendations and a changed bias severity are high; the rest medium. */
  function Significance(d: Difference): Severity
  {
    match d
    case RecommendationDifference(_, _) => High
    case RiskLanguageDifference(_, _) => Medium
    case FamilyInvolvementDifference(_, _) => Medium
    case BiasDifference(a, b) => if a.overallSeverity != b.overallSeverity then High else Medium
  }

  /** The position of a difference's kind in the report. */
  function KindOrder(d: Difference): nat
  {
    match d
    case RecommendationDifference(_, _) => 0
    case RiskLanguageDifference(_, _) => 1
    case FamilyInvolvementDifference(_, _) => 2
    case BiasDifference(_, _) => 3
  }

  /** The same difference seen from the other document. */
  function Swap(d: Difference): Difference
  {
    match d
    case RecommendationDifference(a, b) => RecommendationDifference(b, a)
    case RiskLanguageDifference(a, b) => RiskLanguageDifference(b, a)
    case FamilyInvolvementDifference(a, b) => FamilyInvolvementDifference(b, a)
    case BiasDifference(a, b) => BiasDifference(b, a)
  }

  function SwapAll(ds: seq<Difference>): (r: seq<Difference>)
    ensures |r| == |ds| && forall i :: 0 <= i < |ds| ==> r[i] == Swap(ds[i])
  {
    if ds == [] then [] else SwapAll(ds[..|ds| - 1]) + [Swap(ds[|ds| - 1])]
  }

  function Abs(x: int): nat
  {
    if x < 0 then -x else x
  }

  /** The recommendation difference: the first recommendation found in each
      document, when both have one and they differ ignoring case, each cut
      to 200 characters. */
  function RecommendationPart(recs1: seq<String>, recs2: seq<String>): (r: seq<Difference>)
    ensures r != [] <==> recs1 != [] && recs2 != [] && Lower(recs1[0]) != Lower(recs2[0])
  {
    if recs1 != [] && recs2 != [] && Lower(recs1[0]) != Lower(recs2[0]) then
      [RecommendationDifference(Take(recs1[0], 200), Take(recs2[0], 200))]
    else []
  }

  /** The differences found from the recommendations of each document and
      the risk and family term counts of each. */
  function DifferencesFrom(recs1: seq<String>, recs2: seq<String>, risk1: nat, risk2: nat,
                           family1: nat, family2: nat): seq<Difference>
  {
    RecommendationPart(recs1, recs2) + RiskPart(risk1, risk2) + FamilyPart(family1, family2)
  }

  /** A count of keyword mentions in a text; the tool's own count is
      `TotalMentions`. The key differences are stated for every count. */
  type Counter = (String, seq<String>) -> nat

  /** `identify_key_differences`; recs1 and recs2 are the captures of the
      recommendation pattern in each text, in order. */
  function KeyDifferences(count: Counter, text1: String, text2: String, recs1: seq<String>, recs2: seq<String>)
    : seq<Difference>
  {
    DifferencesFrom(recs1, recs2, count(text1, RiskKeywords), count(text2, RiskKeywords),
                    count(text1, FamilyKeywords), count(text2, FamilyKeywords))
  }

  predicate HasKind(ds: seq<Difference>, kind: nat)
  {
    exists i :: 0 <= i < |ds| && KindOrder(ds[i]) == kind
  }

  function RiskPart(risk1: nat, risk2: nat): seq<Difference>
  {
    if Abs(risk1 - risk2) > 5 then [RiskLanguageDifference(risk1, risk2)] else []
  }

  function FamilyPart(family1: nat, family2: nat): seq<Difference>
  {
    if Abs(family1 - family2) > 5 then [FamilyInvolvementDifference(family1, family2)] else []
  }

  /** At most three differences, in the order recommendation, risk, family;
      each is reported exactly when its condition holds. */
  lemma DifferencesFromKinds(recs1: seq<String>, recs2: seq<String>, risk1: nat, risk2: nat,
                             family1: nat, family2: nat)
    ensures var r := DifferencesFrom(recs1, recs2, risk1, risk2, family1, family2);
      && |r| <= 3 && KindsIncreasing(r, 2)
      && (HasKind(r, 0) <==> RecommendationPart(recs1, recs2) != [])
      && (HasKind(r, 1) <==> Abs(risk1 - risk2) > 5)
      && (HasKind(r, 2) <==> Abs(family1 - family2) > 5)
      && !HasKind(r, 3)
  {
    var r := DifferencesFrom(recs1, recs2, risk1, risk2, family1, family2);
    var p, q, f := RecommendationPart(recs1, recs2), RiskPart(risk1, risk2), FamilyPart(family1, family2);
    assert r == p + q + f;
    PartKinds(p, 0);
    PartKinds(q, 1);
    PartKinds(f, 2);
    KindsAppend(p, q, 0, 1);
    KindsAppend(p + q, f, 1, 2);
  }

  /** Every difference of ds is of the given kind. */
  predicate AllOfKind(ds: seq<Difference>, kind: nat)
  {
    forall i :: 0 <= i < |ds| ==> KindOrder(ds[i]) == kind
  }

  /** The kinds of ds increase strictly and are at most `top`. */
  predicate KindsIncreasing(ds: seq<Difference>, top: nat)
  {
    forall i, j :: 0 <= i < j < |ds| ==> KindOrder(ds[i]) < KindOrder(ds[j]) <= top
  }

  lemma PartKinds(p: seq<Difference>, kind: nat)
    requires |p| <= 1 && AllOfKind(p, kind)
    ensures KindsIncreasing(p, kind) && (HasKind(p, kind) <==> p != [])
    ensures forall k :: k != kind ==> !HasKind(p, k)
  {
    if p != [] {
      assert KindOrder(p[0]) == kind;
    }
  }

  /** Appending differences of a later kind keeps the kinds increasing, and
      the kinds present are those of either part. */
  lemma KindsAppend(a: seq<Difference>, b: seq<Difference>, top: nat, kind: nat)
    requires KindsIncreasing(a, top) && top < kind
    requires forall i :: 0 <= i < |a| ==> KindOrder(a[i]) <= top
    requires |b| <= 1 && AllOfKind(b, kind)
    ensures KindsIncreasing(a + b, kind)
    ensures forall i :: 0 <= i < |a + b| ==> KindOrder((a + b)[i]) <= kind
    ensures forall k :: HasKind(a + b, k) <==> HasKind(a, k) || HasKind(b, k)
  {
    forall k | HasKind(a + b, k) ensures HasKind(a, k) || HasKind(b, k) {
      var i :| 0 <= i < |a + b| && KindOrder((a + b)[i]) == k;
      if i < |a| {
        assert (a + b)[i] == a[i];
      } else {
        assert (a + b)[i] == b[i - |a|];
      }
    }
    forall k | HasKind(a, k) || HasKind(b, k) ensures HasKind(a + b, k) {
      if HasKind(a, k) {
        var i :| 0 <= i < |a| && KindOrder(a[i]) == k;
        assert (a + b)[i] == a[i];
      } else {
        var i :| 0 <= i < |b| && KindOrder(b[i]) == k;
        assert (a + b)[|a| + i] == b[i];
      }
    }
  }

  /** Each difference carries the values it was found from: the first
      recommendations cut to 200 characters, and the two term counts. */
  lemma DifferencesFromValues(recs1: seq<String>, recs2: seq<String>, risk1: nat, risk2: nat,
                              family1: nat, family2: nat)
    ensures var r := DifferencesFrom(recs1, recs2, risk1, risk2, family1, family2);
      forall i :: 0 <= i < |r| ==> match r[i]
        case RecommendationDifference(a, b) =>
          recs1 != [] && recs2 != [] && a == Take(recs1[0], 200) && b == Take(recs2[0], 200)
        case RiskLanguageDifference(a, b) => a == risk1 && b == risk2
        case FamilyInvolvementDifference(a, b) => a == family1 && b == family2
        case BiasDifference(_, _) => false
  {
    var r := DifferencesFrom(recs1, recs2, risk1, risk2, family1, family2);
    var p, q, f := RecommendationPart(recs1, recs2), RiskPart(risk1, risk2), FamilyPart(family1, family2);
    assert r == p + q + f;
    forall i | 0 <= i < |r| ensures r[i] in p || r[i] in q || r[i] in f {
      if i < |p| {
        assert r[i] == p[i];
      } else if i < |p| + |q| {
        assert r[i] == q[i - |p|];
      } else {
        assert r[i] == f[i - |p| - |q|];
      }
    }
  }

  /** Swapping distributes over concatenation. */
  lemma {:induction false} SwapAllAppend(a: seq<Difference>, b: seq<Difference>)
    ensures SwapAll(a + b) == SwapAll(a) + SwapAll(b)
  {
  }

  /** Comparing B with A reports the same differences with the two sides
      exchanged. */
  lemma DifferencesFromSwap(recs1: seq<String>, recs2: seq<String>, risk1: nat, risk2: nat,
                            family1: nat, family2: nat)
    ensures DifferencesFrom(recs2, recs1, risk2, risk1, family2, family1)
            == SwapAll(DifferencesFrom(recs1, recs2, risk1, risk2, family1, family2))
  {
    var p, q, f := RecommendationPart(recs1, recs2), RiskPart(risk1, risk2), FamilyPart(family1, family2);
    SwapAllAppend(p + q, f);
    SwapAllAppend(p, q);
    assert RecommendationPart(recs2, recs1) == SwapAll(p);
    assert Abs(risk2 - risk1) == Abs(risk1 - risk2) && Abs(family2 - family1) == Abs(family1 - family2);
    assert RiskPart(risk2, risk1) == SwapAll(q);
    assert FamilyPart(family2, family1) == SwapAll(f);
  }

  /** A document has no key differences with itself. */
  lemma NoDifferencesWithItself(count: Counter, text: String, recs: seq<String>)
    ensures KeyDifferences(count, text, text, recs, recs) == []
  {
  }

  /** The key differences of two texts: at most three, in the order
      recommendation, risk, family; the recommendation one exactly when
      both texts recommend something and the first recommendations differ
      ignoring case, the risk one exactly when the risk-term counts differ
      by more than five, the family one likewise. */
  lemma KeyDifferencesSpec(count: Counter, text1: String, text2: String, recs1: seq<String>, recs2: seq<String>)
    ensures var r := KeyDifferences(count, text1, text2, recs1, recs2);
      && |r| <= 3 && KindsIncreasing(r, 2)
      && (HasKind(r, 0) <==> recs1 != [] && recs2 != [] && Lower(recs1[0]) != Lower(recs2[0]))
      && (HasKind(r, 1) <==> Abs(count(text1, RiskKeywords) - count(text2, RiskKeywords)) > 5)
      && (HasKind(r, 2) <==> Abs(count(text1, FamilyKeywords) - count(text2, FamilyKeywords)) > 5)
  {
    DifferencesFromKinds(recs1, recs2, count(text1, RiskKeywords), count(text2, RiskKeywords),
                         count(text1, FamilyKeywords), count(text2, FamilyKeywords));
  }

  /** Comparing text2 with text1 reports the same key differences with the
      sides exchanged. */
  lemma KeyDifferencesSwap(count: Counter, text1: String, text2: String, recs1: seq<String>, recs2: seq<String>)
    ensures KeyDifferences(count, text2, text1, recs2, recs1) == SwapAll(KeyDifferences(count, text1, text2, recs1, recs2))
  {
    DifferencesFromSwap(recs1, recs2, count(text1, RiskKeywords), count(text2, RiskKeywords),
                        count(text1, FamilyKeywords), count(text2, FamilyKeywords));
  }

  /** Mention totals that differ by more than five mean that one of the
      texts uses one of the keywords as a whole word. */
  lemma MentionsDiffer(text1: String, text2: String, kws: seq<String>)
    requires Abs(TotalMentions(text1, kws) - TotalMentions(text2, kws)) > 5
    ensures HasWord(text1, kws) || HasWord(text2, kws)
  {
    TotalMentionsPositive(text1, kws);
    TotalMentionsPositive(text2, kws);
  }

  // ---------------------------------------------------------------------------
  // The comparison report

  /** The comparison of two documents; the summary and narrative texts are
      not modelled. */
  datatype ComparisonReport = ComparisonReport(
    documentA: String, documentB: String, similarityScore: real, differences: seq<Difference>,
    uniqueContentA: seq<String>, uniqueContentB: seq<String>)

  /** The report's similarity lies within its declared [0, 100]. */
  predicate ValidReport(r: ComparisonReport)
  {
    0.0 <= r.similarityScore <= 100.0
  }

  /** `compare_pdf_documents` on extracted texts: `ratio` is the sequence
      matcher's ratio for the two texts and recsA, recsB the captures of the
      recommendation pattern. */
  function ComparisonFor(a: DocumentAnalysis.Document, b: DocumentAnalysis.Document, ratio: real,
                         recsA: seq<String>, recsB: seq<String>): ComparisonReport
  {
    ComparisonReport(a.path, b.path, SimilarityScore(ratio), KeyDifferences(TotalMentions, a.text, b.text, recsA, recsB),
                     UniqueContent(a.text, b.text, 50), UniqueContent(b.text, a.text, 50))
  }

  method CompareDocuments(a: DocumentAnalysis.Document, b: DocumentAnalysis.Document, ratio: real,
                          recsA: seq<String>, recsB: seq<String>) returns (report: ComparisonReport)
    ensures report == ComparisonFor(a, b, ratio, recsA, recsB)
  {
    var similarity := SimilarityScore(ratio);
    var uniqueA := FindUniqueContent(a.text, b.text, 50);
    var uniqueB := FindUniqueContent(b.text, a.text, 50);
    var differences := KeyDifferences(TotalMentions, a.text, b.text, recsA, recsB);
    report := ComparisonReport(a.path, b.path, similarity, differences, uniqueA, uniqueB);
  }

  /** The report is valid for a ratio in [0, 1], has at most three
      differences and at most ten unique sentences per side. */
  lemma ComparisonSpec(a: DocumentAnalysis.Document, b: DocumentAnalysis.Document, ratio: real,
                       recsA: seq<String>, recsB: seq<String>)
    requires 0.0 <= ratio <= 1.0
    ensures var r := ComparisonFor(a, b, ratio, recsA, recsB);
      ValidReport(r) && |r.differences| <= 3 && |r.uniqueContentA| <= 10 && |r.uniqueContentB| <= 10
  {
    SimilarityBounds(ratio);
    KeyDifferencesSpec(TotalMentions, a.text, b.text, recsA, recsB);
    UniqueContentSpec(a.text, b.text, 50);
    UniqueContentSpec(b.text, a.text, 50);
  }

  /** A document compared with itself (the matcher's ratio is then 1) is
      100% similar, with no differences and no unique content. */
  lemma SelfComparison(d: DocumentAnalysis.Document, recs: seq<String>)
    ensures var r := ComparisonFor(d, d, 1.0, recs, recs);
      r.similarityScore == 100.0 && r.differences == [] && r.uniqueContentA == [] && r.uniqueContentB == []
  {
    RoundWithin(100.0, 2, 100.0, 100.0, 10000, 10000);
    NoDifferencesWithItself(TotalMentions, d.text, recs);
    NothingUniqueToItself(d.text, 50);
  }

  /** `analyze_and_compare_pdfs`: the comparison, with a bias difference
      added when both bias analyses succeed (None for an analysis that
      raised). */
  function AnalyzeAndCompare(report: ComparisonReport, biasA: Option<BiasOutcome>, biasB: Option<BiasOutcome>)
    : ComparisonReport
  {
    if biasA.Some? && biasB.Some? then
      report.(differences := report.differences + [BiasDifference(biasA.value, biasB.value)])
    else report
  }

  /** Only the differences change; one bias difference is appended exactly
      when both analyses succeed, and it is high exactly when the overall
      severities differ. */
  lemma AnalyzeAndCompareSpec(report: ComparisonReport, biasA: Option<BiasOutcome>, biasB: Option<BiasOutcome>)
    ensures var r := AnalyzeAndCompare(report, biasA, biasB);
      && r.(differences := report.differences) == report
      && report.differences <= r.differences
      && (|r.differences| == |report.differences| + 1 <==> biasA.Some? && biasB.Some?)
      && (|r.differences| == |report.differences| <==> !(biasA.Some? && biasB.Some?))
      && (biasA.Some? && biasB.Some? ==>
            && r.differences[|r.differences| - 1] == BiasDifference(biasA.value, biasB.value)
            && (Significance(r.differences[|r.differences| - 1]) == High
                <==> biasA.value.overallSeverity != biasB.value.overallSeverity))
  {
  }

  // ---------------------------------------------------------------------------
  // Contradiction matrix

  /** The behaviour pairs (positive, negative) compared, in order. */
  const BehaviorPairs: seq<(String, String)> :=
    [("cooperative", "uncooperative"), ("aggressive", "calm"), ("compliant", "non-compliant"),
     ("stable", "unstable"), ("capable", "incapable")]

  /** One row of the matrix: the behaviour pair, the word each document is
      described with, and the two document paths. The reported texts are
      rendered from the fields by the functions below. */
  datatype MatrixRow = MatrixRow(
    positive: String, negative: String, word1: String, word2: String, source1: String, source2: String)

  function MatrixTopic(r: MatrixRow): String
  {
    "Behavioral assessment: " + r.positive + "/" + r.negative
  }

  function Version1(r: MatrixRow): String
  {
    "Described as " + r.word1
  }

  function Version2(r: MatrixRow): String
  {
    "Described as " + r.word2
  }

  const Conflict: String := "Contradictory behavioral characterization"

  function MatrixExplanation(r: MatrixRow): String
  {
    "Document 1 characterizes client as " + r.word1 + ", while Document 2 characterizes as " + r.word2
  }

  /** One document uses the positive word and the other the negative one
      (each searched as a whole word, ignoring case, for `HasWord`). */
  predicate PairConflict(search: Search, text1: String, text2: String, pair: (String, String))
  {
    (search(text1, [pair.0]) && search(text2, [pair.1])) || (search(text1, [pair.1]) && search(text2, [pair.0]))
  }

  /** The row as the tool builds it: each document is described by the
      positive word whenever it uses it, whichever branch found the
      conflict. */
  function RowAsWritten(search: Search, d1: DocumentAnalysis.Document, d2: DocumentAnalysis.Document,
                        pair: (String, String)): MatrixRow
  {
    MatrixRow(pair.0, pair.1,
              if search(d1.text, [pair.0]) then pair.0 else pair.1,
              if search(d2.text, [pair.0]) then pair.0 else pair.1,
              d1.path, d2.path)
  }

  /** The row that reports the conflict found: the words of the first
      branch that holds (positive in document 1 and negative in document 2,
      else the reverse). */
  function RowFor(search: Search, d1: DocumentAnalysis.Document, d2: DocumentAnalysis.Document,
                  pair: (String, String)): MatrixRow
  {
    if search(d1.text, [pair.0]) && search(d2.text, [pair.1]) then MatrixRow(pair.0, pair.1, pair.0, pair.1, d1.path, d2.path)
    else MatrixRow(pair.0, pair.1, pair.1, pair.0, d1.path, d2.path)
  }

  /** The rows for the first k behaviour pairs, in pair order. */
  function RowsUpTo(search: Search, d1: DocumentAnalysis.Document, d2: DocumentAnalysis.Document, k: nat)
    : (r: seq<MatrixRow>)
    requires k <= |BehaviorPairs|
    ensures |r| <= k
  {
    if k == 0 then []
    else
      RowsUpTo(search, d1, d2, k - 1)
      + (if PairConflict(search, d1.text, d2.text, BehaviorPairs[k - 1]) then [RowFor(search, d1, d2, BehaviorPairs[k - 1])] else [])
  }

  /** Only the first two documents are compared; fewer than two give no rows. */
  function Matrix(search: Search, docs: seq<DocumentAnalysis.Document>): seq<MatrixRow>
  {
    if |docs| >= 2 then RowsUpTo(search, docs[0], docs[1], |BehaviorPairs|) else []
  }

  function Paths(docs: seq<DocumentAnalysis.Document>): (r: seq<String>)
    ensures |r| == |docs| && forall i :: 0 <= i < |docs| ==> r[i] == docs[i].path
  {
    if docs == [] then [] else Paths(docs[..|docs| - 1]) + [docs[|docs| - 1].path]
  }

  /** The matrix response; the summary text is not modelled. */
  datatype MatrixResponse = MatrixResponse(documents: seq<String>, matrix: seq<MatrixRow>, totalContradictions: nat)

  function MatrixFor(search: Search, docs: seq<DocumentAnalysis.Document>): MatrixResponse
  {
    var m := Matrix(search, docs);
    MatrixResponse(Paths(docs), m, |m|)
  }

  /** The row of one pair, from the tool's four whole-word searches. */
  method MatrixRowFor(d1: DocumentAnalysis.Document, d2: DocumentAnalysis.Document, pair: (String, String))
    returns (row: Option<MatrixRow>)
    ensures row == if PairConflict(HasWord, d1.text, d2.text, pair) then Some(RowFor(HasWord, d1, d2, pair)) else None
  {
    var hasPos1 := HasWord(d1.text, [pair.0]);
    var hasNeg1 := HasWord(d1.text, [pair.1]);
    var hasPos2 := HasWord(d2.text, [pair.0]);
    var hasNeg2 := HasWord(d2.text, [pair.1]);
    if hasPos1 && hasNeg2 {
      row := Some(MatrixRow(pair.0, pair.1, pair.0, pair.1, d1.path, d2.path));
    } else if hasNeg1 && hasPos2 {
      row := Some(MatrixRow(pair.0, pair.1, pair.1, pair.0, d1.path, d2.path));
    } else {
      row := None;
    }
  }

  /** `generate_contradiction_matrix` on the extracted documents. */
  method GenerateContradictionMatrix(docs: seq<DocumentAnalysis.Document>) returns (response: MatrixResponse)
    ensures response == MatrixFor(HasWord, docs)
  {
    var matrix: seq<MatrixRow> := [];
    if |docs| >= 2 {
      var doc1, doc2 := docs[0], docs[1];
      for k := 0 to |BehaviorPairs|
        invariant matrix == RowsUpTo(HasWord, doc1, doc2, k)
      {
        var row := MatrixRowFor(doc1, doc2, BehaviorPairs[k]);
        matrix := matrix + OptionList(row);
      }
    }
    response := MatrixResponse(Paths(docs), matrix, |matrix|);
  }

  /** The row is that of a conflicting pair among the first k. */
  predicate RowOfConflict(search: Search, d1: DocumentAnalysis.Document, d2: DocumentAnalysis.Document, k: nat, row: MatrixRow)
    requires k <= |BehaviorPairs|
  {
    exists p :: 0 <= p < k && PairConflict(search, d1.text, d2.text, BehaviorPairs[p])
                && row == RowFor(search, d1, d2, BehaviorPairs[p])
  }

  /** Every row of the first k pairs is the row of a conflicting pair. */
  lemma {:induction false} RowsFromConflicts(search: Search, d1: DocumentAnalysis.Document, d2: DocumentAnalysis.Document, k: nat)
    requires k <= |BehaviorPairs|
    ensures forall j :: 0 <= j < |RowsUpTo(search, d1, d2, k)| ==>
              RowOfConflict(search, d1, d2, k, RowsUpTo(search, d1, d2, k)[j])
  {
    if k > 0 {
      RowsFromConflicts(search, d1, d2, k - 1);
      var r := RowsUpTo(search, d1, d2, k);
      var prev := RowsUpTo(search, d1, d2, k - 1);
      var last := if PairConflict(search, d1.text, d2.text, BehaviorPairs[k - 1]) then [RowFor(search, d1, d2, BehaviorPairs[k - 1])] else [];
      assert r == prev + last;
      forall j | 0 <= j < |r| ensures RowOfConflict(search, d1, d2, k, r[j]) {
        if j < |prev| {
          assert RowOfConflict(search, d1, d2, k - 1, prev[j]);
          var p :| 0 <= p < k - 1 && PairConflict(search, d1.text, d2.text, BehaviorPairs[p])
                   && prev[j] == RowFor(search, d1, d2, BehaviorPairs[p]);
          assert r[j] == prev[j];
        } else {
          assert r[j] == last[0] == RowFor(search, d1, d2, BehaviorPairs[k - 1]);
        }
      }
    }
  }

  /** Every conflicting pair among the first k has its row. */
  lemma {:induction false} RowsCoverConflicts(search: Search, d1: DocumentAnalysis.Document, d2: DocumentAnalysis.Document, k: nat)
    requires k <= |BehaviorPairs|
    ensures forall p :: 0 <= p < k && PairConflict(search, d1.text, d2.text, BehaviorPairs[p]) ==>
              RowFor(search, d1, d2, BehaviorPairs[p]) in RowsUpTo(search, d1, d2, k)
  {
    if k > 0 {
      RowsCoverConflicts(search, d1, d2, k - 1);
    }
  }

  /** A reported row contradicts: the two documents are described with the
      two different words of the pair, and each document uses the word it
      is described with. */
  lemma RowForContradicts(search: Search, d1: DocumentAnalysis.Document, d2: DocumentAnalysis.Document, p: nat)
    requires p < |BehaviorPairs| && PairConflict(search, d1.text, d2.text, BehaviorPairs[p])
    ensures var row := RowFor(search, d1, d2, BehaviorPairs[p]);
      && row.positive == BehaviorPairs[p].0 && row.negative == BehaviorPairs[p].1
      && row.word1 != row.word2
      && (row.word1 == row.positive || row.word1 == row.negative)
      && (row.word2 == row.positive || row.word2 == row.negative)
      && search(d1.text, [row.word1]) && search(d2.text, [row.word2])
      && row.source1 == d1.path && row.source2 == d2.path
  {
    var pair := BehaviorPairs[p];
    assert |pair.0| != |pair.1|;
  }

  /** At most one row per pair; none for fewer than two documents; only
      the first two documents matter; the total is the number of rows and
      the documents are the requested paths. */
  lemma MatrixSpec(search: Search, docs: seq<DocumentAnalysis.Document>)
    ensures var m := MatrixFor(search, docs);
      && |m.matrix| <= |BehaviorPairs|
      && m.totalContradictions == |m.matrix|
      && m.documents == Paths(docs)
      && (|docs| < 2 ==> m.matrix == [])
      && (|docs| >= 2 ==> m.matrix == Matrix(search, docs[..2]))
  {
  }

  /** Exchanging the two documents reports the same behaviour pairs, in
      the same order. */
  lemma {:induction false} RowsSwap(search: Search, d1: DocumentAnalysis.Document, d2: DocumentAnalysis.Document, k: nat)
    requires k <= |BehaviorPairs|
    ensures var r, s := RowsUpTo(search, d1, d2, k), RowsUpTo(search, d2, d1, k);
      |r| == |s| && forall j :: 0 <= j < |r| ==> r[j].positive == s[j].positive && r[j].negative == s[j].negative
  {
    if k > 0 {
      RowsSwap(search, d1, d2, k - 1);
      assert PairConflict(search, d1.text, d2.text, BehaviorPairs[k - 1])
             == PairConflict(search, d2.text, d1.text, BehaviorPairs[k - 1]);
    }
  }

  // ---------------------------------------------------------------------------
  // The repeated description in the tool's rows

  /** Text without upper-case letters is its own lower case. */
  lemma LowerOfLowerCase(s: String)
    requires forall i :: 0 <= i < |s| ==> !('A' <= s[i] <= 'Z')
    ensures Lower(s) == s
  {
  }

  /** A word longer than the text does not occur in it. */
  lemma NoLongerWord(s: String, w: String)
    requires |w| > |s|
    ensures !HasWord(s, [w])
  {
  }

  /** In the tool's rows both documents can be described with the same
      word: a document saying only "non-compliant" also uses "compliant" as
      a whole word (the hyphen is a word boundary), so against a document
      saying "compliant" the pair conflicts and both versions read
      "Described as compliant". The corrected row describes the first
      document as non-compliant. */
  lemma AsWrittenRowRepeats()
    ensures var d1, d2 := DocumentAnalysis.Document("a", "non-compliant"), DocumentAnalysis.Document("b", "compliant");
      && PairConflict(HasWord, d1.text, d2.text, BehaviorPairs[2])
      && RowAsWritten(HasWord, d1, d2, BehaviorPairs[2]).word1 == "compliant"
      && RowAsWritten(HasWord, d1, d2, BehaviorPairs[2]).word2 == "compliant"
      && RowFor(HasWord, d1, d2, BehaviorPairs[2]).word1 == "non-compliant"
      && RowFor(HasWord, d1, d2, BehaviorPairs[2]).word2 == "compliant"
  {
    assert BehaviorPairs[2] == ("compliant", "non-compliant");
    NonCompliantWords();
    CompliantWords();
  }

  /** "non-compliant" uses both words of the pair as whole words. */
  lemma NonCompliantWords()
    ensures HasWord("non-compliant", ["compliant"]) && HasWord("non-compliant", ["non-compliant"])
  {
    var t: String := "non-compliant";
    LowerOfLowerCase(t);
    assert t[4..13] == "compliant";
    assert WholeWordAt(t, ["compliant"][0], 4);
    assert WholeWordAt(t, [t][0], 0);
  }

  /** "compliant" uses the positive word only. */
  lemma CompliantWords()
    ensures HasWord("compliant", ["compliant"]) && !HasWord("compliant", ["non-compliant"])
  {
    var t: String := "compliant";
    LowerOfLowerCase(t);
    assert WholeWordAt(t, [t][0], 0);
    NoLongerWord(t, "non-compliant");
  }
}
