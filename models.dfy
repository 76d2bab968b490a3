/** The result records shared by the analyzers and the bounds their fields are
    declared with. A record whose field breaks its bound cannot be built (the
    record library raises a validation error), so each bound is a validity
    predicate that the scorers are proved to meet. */
module Models {
  import opened Text

  /** Severity labels used across the analyzers. */
  datatype Severity = Low | Medium | High | Critical

  /** The order of the severity labels. */
  function Rank(s: Severity): nat
  {
    match s
    case Low => 0
    case Medium => 1
    case High => 2
    case Critical => 3
  }

  /** Text of one page of a document; page numbers start at 1. */
  datatype PageText = PageText(pageNumber: int, text: String)

  predicate ValidPageText(p: PageText)
  {
    p.pageNumber >= 1
  }

  predicate ValidPages(pages: seq<PageText>)
  {
    forall i :: 0 <= i < |pages| ==> ValidPageText(pages[i])
  }

  /** A piece of evidence found in a document, with a relevance in [0, 1]. */
  datatype EvidenceItem = EvidenceItem(
    text: String, pageNumber: int, category: String, relevance: real, context: String)

  predicate ValidEvidenceItem(e: EvidenceItem)
  {
    0.0 <= e.relevance <= 1.0
  }

  /** A per-category risk score in [0, 10] with a confidence in [0, 1]. */
  datatype RiskScore = RiskScore(
    category: String, score: real, confidence: real, evidence: seq<String>)

  predicate ValidRiskScore(r: RiskScore)
  {
    0.0 <= r.score <= 10.0 && 0.0 <= r.confidence <= 1.0
  }

  /** Goal-alignment scores, each in [0, 10]. */
  datatype AlignmentScore = AlignmentScore(
    goalId: String, score: real, familySupportScore: real, publicGuardianImpactScore: real)

  predicate ValidAlignmentScore(a: AlignmentScore)
  {
    InTen(a.score) && InTen(a.familySupportScore) && InTen(a.publicGuardianImpactScore)
  }

  /** A value on the common 0-10 scale. */
  predicate InTen(x: real)
  {
    0.0 <= x <= 10.0
  }
}
