/** The four document-analysis tools: behavioural contradictions between
    documents, template reuse across documents, omitted context, and claims
    made without evidence. */
module DocumentAnalysis {
  import opened Seqs
  import opened Text
  import opened Numeric
  import opened Models

  // ---------------------------------------------------------------------------
  // Behavioural contradictions

  /** The behavioural descriptors compared across documents, in order. */
  const Behaviors: seq<String> :=
    ["aggressive", "calm", "cooperative", "uncooperative", "violent",
     "peaceful", "compliant", "non-compliant", "stable", "unstable",
     "capable", "incapable", "independent", "dependent"]

  /** The negated forms searched for a descriptor. */
  function NegativeForms(b: String): seq<String>
  {
    ["not " + b, "never " + b, "rarely " + b, "un" + b, "non-" + b]
  }

  /** The document uses the descriptor (as a whole word, ignoring case, for
      `HasWord`). */
  predicate HasPositive(search: Search, doc: String, b: String)
  {
    search(doc, [b])
  }

  /** The document uses one of the negated forms as a whole word. */
  predicate HasNegative(search: Search, doc: String, b: String)
  {
    search(doc, NegativeForms(b))
  }

  /** One document affirms the descriptor and the other negates it. */
  predicate Conflicting(search: Search, doc1: String, doc2: String, b: String)
  {
    (HasPositive(search, doc1, b) && HasNegative(search, doc2, b)) || (HasNegative(search, doc1, b) && HasPositive(search, doc2, b))
  }

  /** A contradiction between two documents about one descriptor, and which
      document affirms it; its page numbers are always 0 and its severity
      always medium. The reported texts are rendered from the descriptor by
      the functions below. */
  datatype ContradictionItem = ContradictionItem(
    behavior: String,
    document1Affirms: bool,
    document1Page: int,
    document2Page: int,
    severity: Severity)

  function Topic(c: ContradictionItem): String
  {
    "Behavioral assessment: " + c.behavior
  }

  function Affirmation(b: String): String
  {
    "Document describes client as " + b
  }

  function Denial(b: String): String
  {
    "Document describes client as not " + b
  }

  function Document1Statement(c: ContradictionItem): String
  {
    if c.document1Affirms then Affirmation(c.behavior) else Denial(c.behavior)
  }

  function Document2Statement(c: ContradictionItem): String
  {
    if c.document1Affirms then Denial(c.behavior) else Affirmation(c.behavior)
  }

  function Explanation(c: ContradictionItem): String
  {
    "Contradictory statements about client being " + c.behavior
  }

  function BehaviorItem(b: String, doc1Positive: bool): ContradictionItem
  {
    ContradictionItem(b, doc1Positive, 0, 0, Medium)
  }

  /** The contradiction recorded for descriptor b, if any: the branch where
      the first document affirms is tried first. */
  function ContradictionFor(search: Search, doc1: String, doc2: String, b: String): Option<ContradictionItem>
  {
    if HasPositive(search, doc1, b) && HasNegative(search, doc2, b) then Some(BehaviorItem(b, true))
    else if HasNegative(search, doc1, b) && HasPositive(search, doc2, b) then Some(BehaviorItem(b, false))
    else None
  }

  /** The contradictions about the first k descriptors of bs, in descriptor
      order. */
  function ContradictionsUpTo(search: Search, doc1: String, doc2: String, bs: seq<String>, k: nat): (r: seq<ContradictionItem>)
    requires k <= |bs|
    ensures |r| <= k
  {
    if k == 0 then []
    else ContradictionsUpTo(search, doc1, doc2, bs, k - 1) + OptionList(ContradictionFor(search, doc1, doc2, bs[k - 1]))
  }

  function Contradictions(search: Search, doc1: String, doc2: String, bs: seq<String>): seq<ContradictionItem>
  {
    ContradictionsUpTo(search, doc1, doc2, bs, |bs|)
  }

  /** One descriptor: the four searches, then the check in which the first
      document affirming wins. */
  method CompareBehavior(search: Search, doc1: String, doc2: String, b: String)
    returns (found: Option<ContradictionItem>)
    ensures found == ContradictionFor(search, doc1, doc2, b)
  {
    var doc1Positive := search(doc1, [b]);
    var doc2Positive := search(doc2, [b]);
    var doc1Negative := search(doc1, NegativeForms(b));
    var doc2Negative := search(doc2, NegativeForms(b));
    if doc1Positive && doc2Negative {
      found := Some(BehaviorItem(b, true));
    } else if doc1Negative && doc2Positive {
      found := Some(BehaviorItem(b, false));
    } else {
      found := None;
    }
  }

  /** The comparison of two documents over the descriptors bs, one by one. */
  method CompareOn(search: Search, doc1: String, doc2: String, bs: seq<String>)
    returns (contradictions: seq<ContradictionItem>)
    ensures contradictions == Contradictions(search, doc1, doc2, bs)
  {
    contradictions := [];
    for k := 0 to |bs|
      invariant contradictions == ContradictionsUpTo(search, doc1, doc2, bs, k)
    {
      var found := CompareBehavior(search, doc1, doc2, bs[k]);
      if found.Some? {
        contradictions := contradictions + [found.value];
      }
    }
  }

  /** The comparison of two documents over the fixed descriptor list. */
  method CompareDescriptions(doc1: String, doc2: String) returns (contradictions: seq<ContradictionItem>)
    ensures contradictions == Contradictions(HasWord, doc1, doc2, Behaviors)
  {
    contradictions := CompareOn(HasWord, doc1, doc2, Behaviors);
  }

  /** A descriptor yields a contradiction exactly when the documents conflict
      on it, and then the first document is the affirming one whenever it
      affirms and the second negates. */
  lemma ContradictionForSpec(search: Search, doc1: String, doc2: String, b: String)
    ensures ContradictionFor(search, doc1, doc2, b).Some? <==> Conflicting(search, doc1, doc2, b)
    ensures ContradictionFor(search, doc1, doc2, b).Some? ==>
              ContradictionFor(search, doc1, doc2, b).value
              == BehaviorItem(b, HasPositive(search, doc1, b) && HasNegative(search, doc2, b))
  {
  }

  /** The list of two documents' contradictions: at most one per descriptor;
      every conflicting descriptor has its item in the list, and every item
      is the item of a conflicting descriptor. */
  lemma {:induction false} ContradictionsSpec(search: Search, doc1: String, doc2: String, bs: seq<String>, k: nat)
    requires k <= |bs|
    ensures |ContradictionsUpTo(search, doc1, doc2, bs, k)| <= k
    ensures forall i :: 0 <= i < k && Conflicting(search, doc1, doc2, bs[i]) ==>
              ContradictionFor(search, doc1, doc2, bs[i]).value in ContradictionsUpTo(search, doc1, doc2, bs, k)
    ensures forall x :: x in ContradictionsUpTo(search, doc1, doc2, bs, k) ==>
              exists i :: 0 <= i < k && Conflicting(search, doc1, doc2, bs[i])
                && x == ContradictionFor(search, doc1, doc2, bs[i]).value
  {
    if k > 0 {
      ContradictionsSpec(search, doc1, doc2, bs, k - 1);
      var prev := ContradictionsUpTo(search, doc1, doc2, bs, k - 1);
      var here := OptionList(ContradictionFor(search, doc1, doc2, bs[k - 1]));
      assert ContradictionsUpTo(search, doc1, doc2, bs, k) == prev + here;
      ContradictionForSpec(search, doc1, doc2, bs[k - 1]);
      forall x | x in prev + here
        ensures exists i :: 0 <= i < k && Conflicting(search, doc1, doc2, bs[i])
                  && x == ContradictionFor(search, doc1, doc2, bs[i]).value
      {
        if x !in prev {
          assert x in here;
        }
      }
    }
  }

  /** The severity flag of a contradiction count. */
  function InconsistencySeverity(n: nat): Severity
  {
    if n > 10 then High else if n > 5 then Medium else Low
  }

  /** The flag is high above 10, medium from 6 to 10 and low up to 5, and
      more contradictions never lower it. */
  lemma InconsistencySeverityLadder(n: nat, m: nat)
    ensures InconsistencySeverity(n) == High <==> n > 10
    ensures InconsistencySeverity(n) == Medium <==> 5 < n <= 10
    ensures InconsistencySeverity(n) == Low <==> n <= 5
    ensures n <= m ==> Rank(InconsistencySeverity(n)) <= Rank(InconsistencySeverity(m))
  {
  }

  /** The contradictions of document i with documents i+1 .. j-1. */
  function PairContradictions(search: Search, docs: seq<String>, bs: seq<String>, i: nat, j: nat): seq<ContradictionItem>
    requires i < |docs| && j <= |docs|
  {
    if j <= i + 1 then []
    else PairContradictions(search, docs, bs, i, j - 1) + Contradictions(search, docs[i], docs[j - 1], bs)
  }

  /** The contradictions of every pair whose first document is before i, pair
      by pair in the order (0,1), (0,2), ..., (1,2), ... */
  function AllContradictions(search: Search, docs: seq<String>, bs: seq<String>, i: nat): seq<ContradictionItem>
    requires i <= |docs|
  {
    if i == 0 then []
    else AllContradictions(search, docs, bs, i - 1) + PairContradictions(search, docs, bs, i - 1, |docs|)
  }

  /** The inner loop: document i against every later document. */
  method CompareWithLater(search: Search, docs: seq<String>, bs: seq<String>, i: nat)
    returns (found: seq<ContradictionItem>)
    requires i < |docs|
    ensures found == PairContradictions(search, docs, bs, i, |docs|)
  {
    found := [];
    for j := i + 1 to |docs|
      invariant found == PairContradictions(search, docs, bs, i, j)
    {
      var behaviorContradictions := CompareOn(search, docs[i], docs[j], bs);
      found := found + behaviorContradictions;
    }
  }

  /** All pairs of documents compared over the descriptors bs. */
  method CompareAllPairs(search: Search, docs: seq<String>, bs: seq<String>)
    returns (contradictions: seq<ContradictionItem>)
    ensures contradictions == AllContradictions(search, docs, bs, |docs|)
  {
    contradictions := [];
    for i := 0 to |docs|
      invariant contradictions == AllContradictions(search, docs, bs, i)
    {
      var found := CompareWithLater(search, docs, bs, i);
      contradictions := contradictions + found;
    }
  }

  /** The inconsistency tool over the documents' texts. */
  method DetectInconsistentStatements(docs: seq<String>)
    returns (contradictions: seq<ContradictionItem>, severityFlag: Severity)
    ensures contradictions == AllContradictions(HasWord, docs, Behaviors, |docs|)
    ensures severityFlag == InconsistencySeverity(|contradictions|)
  {
    contradictions := CompareAllPairs(HasWord, docs, Behaviors);
    if |contradictions| > 10 {
      severityFlag := High;
    } else if |contradictions| > 5 {
      severityFlag := Medium;
    } else {
      severityFlag := Low;
    }
  }

  /** Number of later documents document i is compared with, up to j. */
  function PairCount(i: nat, j: nat): nat
  {
    if j <= i + 1 then 0 else j - i - 1
  }

  lemma {:induction false} PairContradictionsBound(search: Search, docs: seq<String>, bs: seq<String>, i: nat, j: nat)
    requires i < |docs| && j <= |docs|
    ensures |PairContradictions(search, docs, bs, i, j)| <= |bs| * PairCount(i, j)
  {
    if j > i + 1 {
      PairContradictionsBound(search, docs, bs, i, j - 1);
      var c := Contradictions(search, docs[i], docs[j - 1], bs);
      assert |PairContradictions(search, docs, bs, i, j)| == |PairContradictions(search, docs, bs, i, j - 1)| + |c|;
      PairStep(|bs|, PairCount(i, j - 1));
      assert PairCount(i, j) == PairCount(i, j - 1) + 1;
    }
  }

  lemma PairStep(m: nat, p: nat)
    ensures m * p + m == m * (p + 1)
  {
  }

  /** Number of pairs whose first document is before i, among n documents. */
  function PairsBefore(i: nat, n: nat): nat
  {
    if i == 0 then 0 else PairsBefore(i - 1, n) + PairCount(i - 1, n)
  }

  /** The pairs of n documents number n (n - 1) / 2. */
  lemma {:induction false} PairsBeforeValue(i: nat, n: nat)
    requires i <= n
    ensures 2 * PairsBefore(i, n) == i * (2 * n - 1 - i)
  {
    if i > 0 {
      PairsBeforeValue(i - 1, n);
      assert PairsBefore(i, n) == PairsBefore(i - 1, n) + PairCount(i - 1, n);
      assert PairCount(i - 1, n) == n - i;
      var w := 2 * n - i;
      assert (i - 1) * w == i * w - w;
      assert i * w - i == i * (w - 1);
    }
  }

  lemma AddBounds(a: nat, b: nat, m: nat, x: nat, y: nat)
    requires a <= m * x && b <= m * y
    ensures a + b <= m * (x + y)
  {
    assert m * x + m * y == m * (x + y);
  }

  /** At most one contradiction per descriptor and pair of documents. */
  lemma {:induction false} AllContradictionsBound(search: Search, docs: seq<String>, bs: seq<String>, i: nat)
    requires i <= |docs|
    ensures |AllContradictions(search, docs, bs, i)| <= |bs| * PairsBefore(i, |docs|)
  {
    if i > 0 {
      AllContradictionsBound(search, docs, bs, i - 1);
      PairContradictionsBound(search, docs, bs, i - 1, |docs|);
      var earlier := AllContradictions(search, docs, bs, i - 1);
      var pair := PairContradictions(search, docs, bs, i - 1, |docs|);
      assert AllContradictions(search, docs, bs, i) == earlier + pair;
      AddBounds(|earlier|, |pair|, |bs|, PairsBefore(i - 1, |docs|), PairCount(i - 1, |docs|));
    }
  }

  /** With n documents and m descriptors, at most m n (n - 1) / 2
      contradictions: 7 n (n - 1) for the fourteen fixed descriptors. */
  lemma InconsistencyBound(search: Search, docs: seq<String>, bs: seq<String>)
    ensures 2 * |AllContradictions(search, docs, bs, |docs|)| <= |bs| * (|docs| * (|docs| - 1))
  {
    AllContradictionsBound(search, docs, bs, |docs|);
    PairsBeforeValue(|docs|, |docs|);
    BoundValue(|AllContradictions(search, docs, bs, |docs|)|, |bs|, PairsBefore(|docs|, |docs|), |docs|);
  }

  lemma BoundValue(c: nat, m: nat, p: nat, n: int)
    requires c <= m * p && 2 * p == n * (2 * n - 1 - n)
    ensures 2 * c <= m * (n * (n - 1))
  {
    assert 2 * (m * p) == m * (2 * p);
  }

  /** With two documents only the pair (0, 1) is compared. */
  lemma TwoDocuments(search: Search, docs: seq<String>, bs: seq<String>)
    requires |docs| == 2
    ensures AllContradictions(search, docs, bs, 2) == Contradictions(search, docs[0], docs[1], bs)
  {
    assert PairContradictions(search, docs, bs, 1, 2) == [];
    assert PairContradictions(search, docs, bs, 0, 1) == [];
    assert PairContradictions(search, docs, bs, 0, 2) == Contradictions(search, docs[0], docs[1], bs);
    assert AllContradictions(search, docs, bs, 1) == PairContradictions(search, docs, bs, 0, 2);
  }

  // ---------------------------------------------------------------------------
  // Template reuse

  /** A document's path and full text. */
  datatype Document = Document(path: String, text: String)

  /** A matching block reported by the sequence matcher: `size` characters
      from offset `a` of the first text equal those from offset `b` of the
      second. */
  datatype RawBlock = RawBlock(a: nat, b: nat, size: nat)

  /** A block of text shared by two documents. */
  datatype MatchingBlock = MatchingBlock(
    text: String, documents: seq<String>, pages: map<String, int>, length: nat, similarity: real)

  /** The configured reuse threshold (a fraction of 1). */
  const TemplateReuseThreshold: real := 0.75

  /** A block longer than 100 characters whose text is more than 50
      characters once stripped. */
  predicate Significant(text1: String, blk: RawBlock)
  {
    blk.size > 100 && |Strip(Slice(text1, blk.a, blk.a + blk.size))| > 50
  }

  /** The reported text of a block: the first 200 characters and an ellipsis
      when it is longer. */
  function Excerpt(t: String): (r: String)
    ensures |r| <= 203
  {
    if |t| > 200 then t[..200] + "..." else t
  }

  /** The record of a significant block of the pair (d1, d2). */
  function MakeBlock(d1: Document, d2: Document, blk: RawBlock): MatchingBlock
    requires Significant(d1.text, blk)
  {
    var matching := Slice(d1.text, blk.a, blk.a + blk.size);
    StripShorter(matching);
    MatchingBlock(Excerpt(matching), [d1.path, d2.path], map[d1.path := 0, d2.path := 0], blk.size,
                  Round(blk.size as real / Max(|d1.text|, |d2.text|) as real, 3))
  }

  /** Stripping never lengthens a string. */
  lemma StripShorter(s: String)
    ensures |Strip(s)| <= |s|
  {
    StripLeftSuffix(s);
    StripRightPrefix(StripLeft(s));
  }

  /** The significant blocks of one pair, in the matcher's order. */
  function PairBlocks(d1: Document, d2: Document, raw: seq<RawBlock>): (r: seq<MatchingBlock>)
    ensures |r| <= |raw|
  {
    if raw == [] then []
    else
      var blk := raw[|raw| - 1];
      PairBlocks(d1, d2, raw[..|raw| - 1]) + (if Significant(d1.text, blk) then [MakeBlock(d1, d2, blk)] else [])
  }

  /** The blocks of document i with documents i+1 .. j-1; `matcher` is the
      sequence matcher's list of matching blocks for two texts. */
  function BlocksWith(docs: seq<Document>, matcher: (String, String) -> seq<RawBlock>, i: nat, j: nat)
    : seq<MatchingBlock>
    requires i < |docs| && j <= |docs|
  {
    if j <= i + 1 then []
    else BlocksWith(docs, matcher, i, j - 1)
         + PairBlocks(docs[i], docs[j - 1], matcher(docs[i].text, docs[j - 1].text))
  }

  /** The blocks of every pair whose first document is before i. */
  function AllBlocks(docs: seq<Document>, matcher: (String, String) -> seq<RawBlock>, i: nat)
    : seq<MatchingBlock>
    requires i <= |docs|
  {
    if i == 0 then [] else AllBlocks(docs, matcher, i - 1) + BlocksWith(docs, matcher, i - 1, |docs|)
  }

  function SimilaritySum(blocks: seq<MatchingBlock>): real
  {
    if blocks == [] then 0.0 else SimilaritySum(blocks[..|blocks| - 1]) + blocks[|blocks| - 1].similarity
  }

  /** The overall similarity in percent: the summed block similarities per
      document, capped at 100, and 0 for fewer than two documents. */
  function Percentage(documents: nat, total: real): real
  {
    if documents >= 2 then MinR(100.0, total / documents as real * 100.0) else 0.0
  }

  predicate IsTemplateReused(percentage: real)
  {
    percentage > TemplateReuseThreshold * 100.0
  }

  function ReuseSeverity(percentage: real): Severity
  {
    if IsTemplateReused(percentage) && percentage > 80.0 then High
    else if IsTemplateReused(percentage) then Medium
    else Low
  }

  datatype TemplateReuseResponse = TemplateReuseResponse(
    matchingBlocks: seq<MatchingBlock>, percentageSimilarity: real, isTemplateReused: bool, severity: Severity)

  function TemplateReuse(docs: seq<Document>, matcher: (String, String) -> seq<RawBlock>): TemplateReuseResponse
  {
    var blocks := AllBlocks(docs, matcher, |docs|);
    var percentage := Percentage(|docs|, SimilaritySum(blocks));
    TemplateReuseResponse(blocks, Round(percentage, 2), IsTemplateReused(percentage), ReuseSeverity(percentage))
  }

  /** The blocks of one pair. */
  method CollectPairBlocks(d1: Document, d2: Document, raw: seq<RawBlock>) returns (blocks: seq<MatchingBlock>)
    ensures blocks == PairBlocks(d1, d2, raw)
  {
    blocks := [];
    for k := 0 to |raw|
      invariant blocks == PairBlocks(d1, d2, raw[..k])
    {
      var blk := raw[k];
      assert raw[..k + 1][..k] == raw[..k];
      assert PairBlocks(d1, d2, raw[..k + 1])
          == blocks + (if Significant(d1.text, blk) then [MakeBlock(d1, d2, blk)] else []);
      if blk.size > 100 {
        var matchingText := Slice(d1.text, blk.a, blk.a + blk.size);
        if |Strip(matchingText)| > 50 {
          StripShorter(matchingText);
          var similarity := blk.size as real / Max(|d1.text|, |d2.text|) as real;
          var text := if |matchingText| > 200 then matchingText[..200] + "..." else matchingText;
          var block := MatchingBlock(text, [d1.path, d2.path], map[d1.path := 0, d2.path := 0],
                                     blk.size, Round(similarity, 3));
          assert block == MakeBlock(d1, d2, blk);
          blocks := blocks + [block];
        }
      }
    }
    assert raw[..|raw|] == raw;
  }

  /** The inner loop: document i against every later document. */
  method BlocksWithLater(docs: seq<Document>, matcher: (String, String) -> seq<RawBlock>, i: nat)
    returns (blocks: seq<MatchingBlock>)
    requires i < |docs|
    ensures blocks == BlocksWith(docs, matcher, i, |docs|)
  {
    blocks := [];
    for j := i + 1 to |docs|
      invariant blocks == BlocksWith(docs, matcher, i, j)
    {
      var found := CollectPairBlocks(docs[i], docs[j], matcher(docs[i].text, docs[j].text));
      blocks := blocks + found;
    }
  }

  /** Sum of the similarities, block by block. */
  method SumSimilarities(blocks: seq<MatchingBlock>) returns (total: real)
    ensures total == SimilaritySum(blocks)
  {
    total := 0.0;
    for k := 0 to |blocks|
      invariant total == SimilaritySum(blocks[..k])
    {
      assert blocks[..k + 1][..k] == blocks[..k];
      total := total + blocks[k].similarity;
    }
    assert blocks[..|blocks|] == blocks;
  }

  /** The template-reuse tool over the documents. */
  method DetectTemplateReuse(docs: seq<Document>, matcher: (String, String) -> seq<RawBlock>)
    returns (r: TemplateReuseResponse)
    ensures r == TemplateReuse(docs, matcher)
  {
    var matchingBlocks := [];
    for i := 0 to |docs|
      invariant matchingBlocks == AllBlocks(docs, matcher, i)
    {
      var found := BlocksWithLater(docs, matcher, i);
      matchingBlocks := matchingBlocks + found;
    }
    var percentage := 0.0;
    if |docs| >= 2 {
      var total := SumSimilarities(matchingBlocks);
      percentage := MinR(100.0, (total / |docs| as real) * 100.0);
    }
    var reused := percentage > TemplateReuseThreshold * 100.0;
    var severity;
    if reused && percentage > 80.0 {
      severity := High;
    } else if reused {
      severity := Medium;
    } else {
      severity := Low;
    }
    r := TemplateReuseResponse(matchingBlocks, Round(percentage, 2), reused, severity);
  }

  /** A significant block is more than 100 characters long, reports at most
      203 characters of the first document's text and names both documents. */
  lemma MakeBlockShape(d1: Document, d2: Document, blk: RawBlock)
    requires Significant(d1.text, blk)
    ensures var m := MakeBlock(d1, d2, blk);
      && m.length > 100 && |m.text| <= 203 && m.documents == [d1.path, d2.path]
      && m.pages.Keys == {d1.path, d2.path}
  {
  }

  /** The similarity of a significant block is not negative. */
  lemma MakeBlockSimilarity(d1: Document, d2: Document, blk: RawBlock)
    requires Significant(d1.text, blk)
    ensures MakeBlock(d1, d2, blk).similarity >= 0.0
  {
    var longest := Max(|d1.text|, |d2.text|);
    var x := blk.size as real / longest as real;
    assert MakeBlock(d1, d2, blk).similarity == Round(x, 3);
    QuotientAbove(blk.size as real, longest as real, 0.0);
    QuotientAtMost(blk.size, longest);
    assert Scale(3) == 1000.0;
    RoundWithin(x, 3, 0.0, blk.size as real, 0, 1000 * blk.size);
  }

  /** The similarity is at most 1 when the block lies inside the first text
      (as the matcher's blocks do). */
  lemma MakeBlockSimilarityAtMostOne(d1: Document, d2: Document, blk: RawBlock)
    requires Significant(d1.text, blk) && blk.a + blk.size <= |d1.text|
    ensures MakeBlock(d1, d2, blk).similarity <= 1.0
  {
    var longest := Max(|d1.text|, |d2.text|);
    var x := blk.size as real / longest as real;
    assert MakeBlock(d1, d2, blk).similarity == Round(x, 3);
    QuotientAbove(blk.size as real, longest as real, 0.0);
    QuotientBelow(blk.size as real, longest as real, 1.0);
    assert Scale(3) == 1000.0;
    RoundWithin(x, 3, 0.0, 1.0, 0, 1000);
  }

  lemma QuotientAtMost(x: nat, n: nat)
    requires n >= 1
    ensures x as real / n as real <= x as real
  {
    assert x as real <= n as real * x as real by {
      assert (n - 1) as real * x as real >= 0.0;
    }
    QuotientBelow(x as real, n as real, x as real);
  }

  /** The similarities of significant blocks sum to a non-negative total. */
  lemma {:induction false} SimilaritySumNonNegative(blocks: seq<MatchingBlock>)
    requires forall k :: 0 <= k < |blocks| ==> blocks[k].similarity >= 0.0
    ensures SimilaritySum(blocks) >= 0.0
  {
    if blocks != [] {
      SimilaritySumNonNegative(blocks[..|blocks| - 1]);
    }
  }

  /** Every block of a pair list has a non-negative similarity. */
  lemma {:induction false} PairBlocksNonNegative(d1: Document, d2: Document, raw: seq<RawBlock>)
    ensures forall k :: 0 <= k < |PairBlocks(d1, d2, raw)| ==> PairBlocks(d1, d2, raw)[k].similarity >= 0.0
  {
    if raw != [] {
      PairBlocksNonNegative(d1, d2, raw[..|raw| - 1]);
      var blk := raw[|raw| - 1];
      if Significant(d1.text, blk) {
        MakeBlockSimilarity(d1, d2, blk);
      }
    }
  }

  lemma {:induction false} BlocksWithNonNegative(docs: seq<Document>, matcher: (String, String) -> seq<RawBlock>,
                                                 i: nat, j: nat)
    requires i < |docs| && j <= |docs|
    ensures forall k :: 0 <= k < |BlocksWith(docs, matcher, i, j)| ==> BlocksWith(docs, matcher, i, j)[k].similarity >= 0.0
  {
    if j > i + 1 {
      BlocksWithNonNegative(docs, matcher, i, j - 1);
      PairBlocksNonNegative(docs[i], docs[j - 1], matcher(docs[i].text, docs[j - 1].text));
    }
  }

  lemma {:induction false} AllBlocksNonNegative(docs: seq<Document>, matcher: (String, String) -> seq<RawBlock>, i: nat)
    requires i <= |docs|
    ensures forall k :: 0 <= k < |AllBlocks(docs, matcher, i)| ==> AllBlocks(docs, matcher, i)[k].similarity >= 0.0
  {
    if i > 0 {
      AllBlocksNonNegative(docs, matcher, i - 1);
      BlocksWithNonNegative(docs, matcher, i - 1, |docs|);
    }
  }

  /** The percentage lies in [0, 100] for a non-negative total. */
  lemma PercentageBounds(documents: nat, total: real)
    requires total >= 0.0
    ensures 0.0 <= Percentage(documents, total) <= 100.0
  {
    if documents >= 2 {
      QuotientAbove(total, documents as real, 0.0);
    }
  }

  /** The reported percentage lies in [0, 100]; reuse is reported exactly when
      the unrounded percentage exceeds 75; the severity is high exactly when
      it also exceeds 80, medium when reused otherwise, and low exactly when
      not reused; fewer than two documents never show reuse. */
  lemma TemplateReuseSpec(docs: seq<Document>, matcher: (String, String) -> seq<RawBlock>)
    ensures var r := TemplateReuse(docs, matcher);
      var p := Percentage(|docs|, SimilaritySum(AllBlocks(docs, matcher, |docs|)));
      && 0.0 <= r.percentageSimilarity <= 100.0
      && (r.isTemplateReused <==> p > 75.0)
      && (r.severity == High <==> p > 80.0)
      && (r.severity == Medium <==> 75.0 < p <= 80.0)
      && (r.severity == Low <==> !r.isTemplateReused)
      && (|docs| < 2 ==> !r.isTemplateReused && r.percentageSimilarity == 0.0)
  {
    var blocks := AllBlocks(docs, matcher, |docs|);
    AllBlocksNonNegative(docs, matcher, |docs|);
    SimilaritySumNonNegative(blocks);
    var p := Percentage(|docs|, SimilaritySum(blocks));
    PercentageBounds(|docs|, SimilaritySum(blocks));
    RoundWithin(p, 2, 0.0, 100.0, 0, 10000);
    if |docs| < 2 {
      RoundOnGrid(0.0, 2, 0);
    }
  }

  // ---------------------------------------------------------------------------
  // Omitted context

  /** The five kinds of context a report should give. */
  datatype ContextCategory =
    | Antecedents | PositiveBehaviors | FamilyInvolvement | EnvironmentalFactors | ClientPerspective

  const ContextCategories: seq<ContextCategory> :=
    [Antecedents, PositiveBehaviors, FamilyInvolvement, EnvironmentalFactors, ClientPerspective]

  function CategoryName(c: ContextCategory): String
  {
    match c
    case Antecedents => "antecedents"
    case PositiveBehaviors => "positive_behaviors"
    case FamilyInvolvement => "family_involvement"
    case EnvironmentalFactors => "environmental_factors"
    case ClientPerspective => "client_perspective"
  }

  /** The words whose presence shows a category, the optional suffixes of the
      patterns written out. */
  function ContextWords(c: ContextCategory): seq<String>
  {
    match c
    case Antecedents => ["before", "prior to", "leading up to", "antecedent", "trigger", "triggered"]
    case PositiveBehaviors =>
      ["positive", "success", "successful", "achievement", "strength", "capable", "improvement"]
    case FamilyInvolvement => ["family", "parent", "parents", "mother", "father", "sibling", "support", "supported"]
    case EnvironmentalFactors =>
      ["environment", "setting", "context", "circumstance", "circumstances", "situation"]
    case ClientPerspective =>
      ["client state", "client states", "client report", "client reports", "client say", "client says",
       "client feel", "client feels", "client believe", "client believes",
       "clients view", "clients perspective", "clients opinion",
       "client's view", "client's perspective", "client's opinion"]
  }

  predicate ContextPresent(search: Search, text: String, c: ContextCategory)
  {
    search(text, ContextWords(c))
  }

  /** Presence of each category, one entry per category. */
  method CheckContextPresence(text: String) returns (presence: map<ContextCategory, bool>)
    ensures forall c :: c in presence && presence[c] == ContextPresent(HasWord, text, c)
  {
    presence := map[];
    for k := 0 to |ContextCategories|
      invariant forall i :: 0 <= i < k ==> ContextCategories[i] in presence
      invariant forall c :: c in presence ==> presence[c] == ContextPresent(HasWord, text, c)
    {
      var category := ContextCategories[k];
      var found := HasWord(text, ContextWords(category));
      presence := presence[category := found];
    }
    forall c ensures c in presence {
      assert c == ContextCategories[CategoryIndex(c)];
    }
  }

  function CategoryIndex(c: ContextCategory): (i: nat)
    ensures i < |ContextCategories| && ContextCategories[i] == c
  {
    match c
    case Antecedents => 0
    case PositiveBehaviors => 1
    case FamilyInvolvement => 2
    case EnvironmentalFactors => 3
    case ClientPerspective => 4
  }

  /** An omitted category (reported under its `CategoryName`); it is never
      tied to a page. */
  datatype OmittedContextItem = OmittedContextItem(category: ContextCategory, pageNumber: Option<int>, severity: Severity)

  /** Environmental factors are a medium omission, every other one high. */
  function OmissionSeverity(c: ContextCategory): Severity
  {
    if c == EnvironmentalFactors then Medium else High
  }

  function OmittedItem(c: ContextCategory): OmittedContextItem
  {
    OmittedContextItem(c, None, OmissionSeverity(c))
  }

  /** The items of the absent categories among the first k, in order. */
  function OmittedUpTo(search: Search, text: String, k: nat): (r: seq<OmittedContextItem>)
    requires k <= |ContextCategories|
    ensures |r| <= k
  {
    if k == 0 then []
    else OmittedUpTo(search, text, k - 1)
         + (if ContextPresent(search, text, ContextCategories[k - 1]) then [] else [OmittedItem(ContextCategories[k - 1])])
  }

  function ItemCategories(items: seq<OmittedContextItem>): (r: seq<ContextCategory>)
    ensures |r| == |items|
  {
    if items == [] then [] else ItemCategories(items[..|items| - 1]) + [items[|items| - 1].category]
  }

  /** The omission score: the share of absent categories among the five on a
      0-10 scale. */
  function OmissionScore(missing: nat): real
  {
    missing as real / 5.0 * 10.0
  }

  datatype OmittedContextResponse = OmittedContextResponse(
    missingContextItems: seq<OmittedContextItem>, omissionSeverityScore: real, categories: seq<ContextCategory>)

  /** The response for a list of omitted items. */
  function OmittedResponse(items: seq<OmittedContextItem>): OmittedContextResponse
  {
    OmittedContextResponse(items, Round(OmissionScore(|items|), 2), ItemCategories(items))
  }

  function OmittedContext(search: Search, text: String): OmittedContextResponse
  {
    OmittedResponse(OmittedUpTo(search, text, |ContextCategories|))
  }

  /** Appends the item of category c when it is absent. */
  method NoteIfMissing(presence: map<ContextCategory, bool>, c: ContextCategory, items: seq<OmittedContextItem>)
    returns (items': seq<OmittedContextItem>)
    requires c in presence
    ensures items' == items + (if presence[c] then [] else [OmittedItem(c)])
  {
    items' := items;
    if !presence[c] {
      items' := items' + [OmittedContextItem(c, None, if c == EnvironmentalFactors then Medium else High)];
    }
  }

  /** The five checks, in category order. */
  method CollectOmitted(presence: map<ContextCategory, bool>) returns (items: seq<OmittedContextItem>)
    requires forall c :: c in presence
    ensures items == OmittedFrom(presence, |ContextCategories|)
  {
    items := [];
    items := NoteIfMissing(presence, Antecedents, items);
    assert items == OmittedFrom(presence, 1);
    items := NoteIfMissing(presence, PositiveBehaviors, items);
    assert items == OmittedFrom(presence, 2);
    items := NoteIfMissing(presence, FamilyInvolvement, items);
    assert items == OmittedFrom(presence, 3);
    items := NoteIfMissing(presence, EnvironmentalFactors, items);
    assert items == OmittedFrom(presence, 4);
    items := NoteIfMissing(presence, ClientPerspective, items);
  }

  /** The omitted-context tool over a document's text. */
  method DetectOmittedContext(text: String) returns (r: OmittedContextResponse)
    ensures r == OmittedContext(HasWord, text)
  {
    var presence := CheckContextPresence(text);
    var items := CollectOmitted(presence);
    PresenceDecides(HasWord, text, presence, |ContextCategories|);
    var score := OmissionScore(|items|);
    var categories := ItemCategories(items);
    r := OmittedContextResponse(items, Round(score, 2), categories);
  }

  /** The items of the absent categories among the first k, read off the
      presence map. */
  function OmittedFrom(presence: map<ContextCategory, bool>, k: nat): seq<OmittedContextItem>
    requires k <= |ContextCategories|
    requires forall c :: c in presence
  {
    if k == 0 then []
    else OmittedFrom(presence, k - 1)
         + (if presence[ContextCategories[k - 1]] then [] else [OmittedItem(ContextCategories[k - 1])])
  }

  /** A presence map that records the search's answers yields the items of
      the specification. */
  lemma {:induction false} PresenceDecides(search: Search, text: String, presence: map<ContextCategory, bool>, k: nat)
    requires k <= |ContextCategories|
    requires forall c :: c in presence && presence[c] == ContextPresent(search, text, c)
    ensures OmittedFrom(presence, k) == OmittedUpTo(search, text, k)
  {
    if k > 0 {
      PresenceDecides(search, text, presence, k - 1);
    }
  }

  /** The item of category i is in the list exactly when the category is
      absent, and every item is the item of an absent category among the
      first k (so its severity is medium exactly for environmental
      factors). */
  lemma {:induction false} OmittedSpec(search: Search, text: String, k: nat)
    requires k <= |ContextCategories|
    ensures forall i :: 0 <= i < k ==>
              (OmittedItem(ContextCategories[i]) in OmittedUpTo(search, text, k)
               <==> !ContextPresent(search, text, ContextCategories[i]))
    ensures forall x :: x in OmittedUpTo(search, text, k) ==>
              CategoryIndex(x.category) < k && !ContextPresent(search, text, x.category)
              && x == OmittedItem(x.category)
  {
    if k > 0 {
      OmittedSpec(search, text, k - 1);
      var c := ContextCategories[k - 1];
      assert CategoryIndex(c) == k - 1 by {
        assert k - 1 == 0 || k - 1 == 1 || k - 1 == 2 || k - 1 == 3 || k - 1 == 4;
      }
      assert OmittedUpTo(search, text, k)
             == OmittedUpTo(search, text, k - 1) + (if ContextPresent(search, text, c) then [] else [OmittedItem(c)]);
    }
  }

  /** The score is twice the number of absent categories, so it lies in
      [0, 10] and rounding keeps it. */
  lemma OmittedContextScore(search: Search, text: String)
    ensures var r := OmittedContext(search, text);
      && |r.missingContextItems| <= 5
      && r.omissionSeverityScore == 2.0 * |r.missingContextItems| as real
      && 0.0 <= r.omissionSeverityScore <= 10.0
      && |r.categories| == |r.missingContextItems|
  {
    var n := |OmittedUpTo(search, text, |ContextCategories|)|;
    assert OmissionScore(n) == (200 * n) as real / Scale(2);
    RoundOnGrid(OmissionScore(n), 2, 200 * n);
  }

  /** The categories list names the items, in item order. */
  lemma {:induction false} ItemCategoriesAt(items: seq<OmittedContextItem>, j: nat)
    requires j < |items|
    ensures ItemCategories(items)[j] == items[j].category
  {
    if j < |items| - 1 {
      ItemCategoriesAt(items[..|items| - 1], j);
    }
  }

  // ---------------------------------------------------------------------------
  // Claims without evidence

  /** Whether an evidence marker (a date or time after "on"/"at", "for
      example", "specifically", "including", "such as", "witnessed",
      "observed", "documented") occurs in the window around the first
      occurrence of the statement; `markerIn` is the marker search over a
      window. */
  predicate HasEvidenceMarkers(text: String, statement: String, markerIn: String -> bool)
  {
    var pos := Find(text, statement);
    pos != -1 && markerIn(Slice(text, Max(0, pos - 100), Min(|text|, pos + |statement| + 100)))
  }

  /** A statement flagged as lacking evidence; never tied to a page. */
  datatype UnsupportedClaim = UnsupportedClaim(statement: String, pageNumber: int, severity: Severity)

  /** The claims among the matches of one group of patterns, in match order:
      one per match with no evidence marker near its statement. */
  function ClaimsFor(text: String, ms: seq<Match>, severity: Severity, markerIn: String -> bool)
    : (r: seq<UnsupportedClaim>)
    ensures |r| <= |ms|
  {
    if ms == [] then []
    else
      var m := ms[|ms| - 1];
      ClaimsFor(text, ms[..|ms| - 1], severity, markerIn)
      + (if HasEvidenceMarkers(text, m.text, markerIn) then [] else [UnsupportedClaim(m.text, 0, severity)])
  }

  /** The claims of the absolute statements (high) and then of the
      generalised ones (medium). */
  function AllClaims(text: String, absolute: seq<Match>, generalized: seq<Match>, markerIn: String -> bool)
    : seq<UnsupportedClaim>
  {
    ClaimsFor(text, absolute, High, markerIn) + ClaimsFor(text, generalized, Medium, markerIn)
  }

  /** Number of maximal runs of `.`, `!` and `?` (the matches of `[.!?]+`). */
  function SentenceCount(s: String): (n: nat)
    ensures n <= |s|
  {
    if s == [] then 0
    else SentenceCount(s[..|s| - 1])
         + (if IsSentenceEnd(s[|s| - 1]) && (|s| == 1 || !IsSentenceEnd(s[|s| - 2])) then 1 else 0)
  }

  /** The justification score: 10 less the claims per ten sentences (at
      least one), never below 0. */
  function JustificationScore(claims: nat, sentences: nat): real
  {
    MaxR(0.0, 10.0 - claims as real / MaxR(1.0, sentences as real / 10.0))
  }

  datatype NonEvidenceBasedResponse = NonEvidenceBasedResponse(
    unsupportedClaims: seq<UnsupportedClaim>, justificationScore: real)

  /** The response: the score is computed over every claim and only the
      first 20 claims are reported. */
  function NonEvidenceBased(text: String, absolute: seq<Match>, generalized: seq<Match>, markerIn: String -> bool)
    : NonEvidenceBasedResponse
  {
    var claims := AllClaims(text, absolute, generalized, markerIn);
    NonEvidenceBasedResponse(Take(claims, 20), Round(JustificationScore(|claims|, SentenceCount(text)), 2))
  }

  /** The marker check of one statement. */
  method CheckEvidenceMarkers(text: String, statement: String, markerIn: String -> bool) returns (found: bool)
    ensures found == HasEvidenceMarkers(text, statement, markerIn)
  {
    var pos := Find(text, statement);
    if pos == -1 {
      return false;
    }
    var start := Max(0, pos - 100);
    var end := Min(|text|, pos + |statement| + 100);
    found := markerIn(Slice(text, start, end));
  }

  /** The loop over one group's matches, appending to the claims. */
  method CollectClaims(text: String, ms: seq<Match>, severity: Severity, markerIn: String -> bool,
                       claims: seq<UnsupportedClaim>)
    returns (claims': seq<UnsupportedClaim>)
    ensures claims' == claims + ClaimsFor(text, ms, severity, markerIn)
  {
    claims' := claims;
    for j := 0 to |ms|
      invariant claims' == claims + ClaimsFor(text, ms[..j], severity, markerIn)
    {
      var statement := ms[j].text;
      var hasEvidence := CheckEvidenceMarkers(text, statement, markerIn);
      assert ms[..j + 1][..j] == ms[..j];
      var here := if hasEvidence then [] else [UnsupportedClaim(statement, 0, severity)];
      assert ClaimsFor(text, ms[..j + 1], severity, markerIn) == ClaimsFor(text, ms[..j], severity, markerIn) + here;
      assert claims + ClaimsFor(text, ms[..j + 1], severity, markerIn) == claims' + here;
      claims' := claims' + here;
    }
    assert ms[..|ms|] == ms;
  }

  /** The non-evidence-based-statement tool: `absolute` and `generalized`
      hold the matches of the two pattern groups, pattern by pattern. */
  method DetectNonEvidenceBasedStatements(text: String, absolute: seq<Match>, generalized: seq<Match>,
                                          markerIn: String -> bool)
    returns (r: NonEvidenceBasedResponse)
    ensures r == NonEvidenceBased(text, absolute, generalized, markerIn)
  {
    var unsupportedClaims := CollectClaims(text, absolute, High, markerIn, []);
    unsupportedClaims := CollectClaims(text, generalized, Medium, markerIn, unsupportedClaims);
    assert unsupportedClaims == AllClaims(text, absolute, generalized, markerIn);
    var totalSentences := SentenceCount(text);
    var justificationScore := JustificationScore(|unsupportedClaims|, totalSentences);
    r := NonEvidenceBasedResponse(Take(unsupportedClaims, 20), Round(justificationScore, 2));
  }

  /** No marker is found for a statement absent from the text; for a
      statement matched in the text, the window examined is the one around
      its first occurrence, which is at or before the match. */
  lemma EvidenceMarkersSpec(text: String, m: Match, markerIn: String -> bool)
    ensures !Contains(text, m.text) ==> !HasEvidenceMarkers(text, m.text, markerIn)
    ensures MatchIn(m, text) ==>
              var pos := Find(text, m.text);
              && 0 <= pos <= m.start
              && (HasEvidenceMarkers(text, m.text, markerIn)
                  <==> markerIn(Slice(text, Max(0, pos - 100), Min(|text|, pos + |m.text| + 100))))
  {
    if MatchIn(m, text) {
      assert OccursAt(text, m.text, m.start);
    }
  }

  /** The score lies in [0, 10]; it is 10 exactly when there is no claim and
      more claims never raise it. */
  lemma JustificationBounds(claims: nat, more: nat, sentences: nat)
    ensures 0.0 <= JustificationScore(claims, sentences) <= 10.0
    ensures JustificationScore(claims, sentences) == 10.0 <==> claims == 0
    ensures claims <= more ==> JustificationScore(more, sentences) <= JustificationScore(claims, sentences)
  {
    var d := MaxR(1.0, sentences as real / 10.0);
    QuotientAbove(claims as real, d, 0.0);
    if claims > 0 {
      QuotientPositive(claims as real, d);
    }
    if claims <= more {
      DivMono(claims as real, more as real, d);
    }
  }

  lemma QuotientPositive(x: real, d: real)
    requires x > 0.0 && d > 0.0
    ensures x / d > 0.0
  {
  }

  /** Every reported claim is a flagged claim and at most 20 are reported; the
      rounded score stays in [0, 10] and counts every claim, reported or
      not. */
  lemma NonEvidenceBasedSpec(text: String, absolute: seq<Match>, generalized: seq<Match>, markerIn: String -> bool)
    ensures var r := NonEvidenceBased(text, absolute, generalized, markerIn);
      var all := AllClaims(text, absolute, generalized, markerIn);
      && r.unsupportedClaims <= all
      && |r.unsupportedClaims| == Min(20, |all|)
      && 0.0 <= r.justificationScore <= 10.0
      && (all == [] ==> r.justificationScore == 10.0)
  {
    var all := AllClaims(text, absolute, generalized, markerIn);
    var j := JustificationScore(|all|, SentenceCount(text));
    JustificationBounds(|all|, |all|, SentenceCount(text));
    RoundWithin(j, 2, 0.0, 10.0, 0, 1000);
    if all == [] {
      RoundOnGrid(10.0, 2, 1000);
    }
  }

  /** Claims come only from matches without markers: claim j of a group is
      the statement of one of its matches with the group's severity. */
  lemma {:induction false} ClaimsFrom(text: String, ms: seq<Match>, severity: Severity, markerIn: String -> bool,
                                      x: UnsupportedClaim)
    requires x in ClaimsFor(text, ms, severity, markerIn)
    ensures x.severity == severity && x.pageNumber == 0
    ensures exists j :: 0 <= j < |ms| && x.statement == ms[j].text && !HasEvidenceMarkers(text, ms[j].text, markerIn)
  {
    var init := ms[..|ms| - 1];
    var m := ms[|ms| - 1];
    if x in ClaimsFor(text, init, severity, markerIn) {
      ClaimsFrom(text, init, severity, markerIn, x);
      var j :| 0 <= j < |init| && x.statement == init[j].text && !HasEvidenceMarkers(text, init[j].text, markerIn);
      assert ms[j] == init[j];
    } else {
      assert x.statement == ms[|ms| - 1].text;
    }
  }

  /** A text without `.`, `!` or `?` counts no sentence, so the score is
      10 less the claim count. */
  lemma {:induction false} NoSentenceEnds(s: String)
    requires forall i :: 0 <= i < |s| ==> !IsSentenceEnd(s[i])
    ensures SentenceCount(s) == 0
  {
    if s != [] {
      NoSentenceEnds(s[..|s| - 1]);
    }
  }
}
