/** The page lookup shared by the bias detector and the evidence extractors: a
    matched text is placed on the first page whose lower-cased text contains
    the lower-cased matched text. */
module Pages {
  import opened Seqs
  import opened Text
  import opened Models

  /** Python's `needle.lower() in page.text.lower()`. */
  predicate OnPage(p: PageText, needle: String)
  {
    Contains(Lower(p.text), Lower(needle))
  }

  /** Index of the first page holding the needle, or the page count when no
      page does. */
  function FirstHolding(pages: seq<PageText>, needle: String): (k: nat)
    ensures k <= |pages|
  {
    if pages == [] then 0
    else if OnPage(pages[0], needle) then 0
    else 1 + FirstHolding(pages[1..], needle)
  }

  lemma {:induction false} FirstHoldingSpec(pages: seq<PageText>, needle: String)
    ensures forall j :: 0 <= j < FirstHolding(pages, needle) ==> !OnPage(pages[j], needle)
    ensures FirstHolding(pages, needle) < |pages| ==> OnPage(pages[FirstHolding(pages, needle)], needle)
  {
    if pages != [] && !OnPage(pages[0], needle) {
      FirstHoldingSpec(pages[1..], needle);
    }
  }

  /** The page number of the first page holding the needle, if any. */
  function PageContaining(pages: seq<PageText>, needle: String): Option<int>
  {
    var k := FirstHolding(pages, needle);
    if k < |pages| then Some(pages[k].pageNumber) else None
  }

  /** The scan over the pages that stops at the first page holding the needle. */
  method LookUpPage(pages: seq<PageText>, needle: String) returns (r: Option<int>)
    ensures r == PageContaining(pages, needle)
  {
    ghost var k := FirstHolding(pages, needle);
    FirstHoldingSpec(pages, needle);
    var i := 0;
    while i < |pages|
      invariant 0 <= i <= k
    {
      if Contains(Lower(pages[i].text), Lower(needle)) {
        return Some(pages[i].pageNumber);
      }
      i := i + 1;
    }
    return None;
  }

  /** No page is found exactly when no page holds the needle; a page that is
      found holds it, every earlier page does not, and its number is at least
      1 when the pages are valid. */
  lemma PageContainingSpec(pages: seq<PageText>, needle: String)
    ensures PageContaining(pages, needle).None?
            <==> forall j :: 0 <= j < |pages| ==> !OnPage(pages[j], needle)
    ensures PageContaining(pages, needle).Some? ==>
              exists k :: 0 <= k < |pages| && OnPage(pages[k], needle)
                && PageContaining(pages, needle).value == pages[k].pageNumber
                && forall j :: 0 <= j < k ==> !OnPage(pages[j], needle)
    ensures ValidPages(pages) && PageContaining(pages, needle).Some? ==>
              PageContaining(pages, needle).value >= 1
  {
    var k := FirstHolding(pages, needle);
    FirstHoldingSpec(pages, needle);
    if k == |pages| {
      assert forall j :: 0 <= j < |pages| ==> !OnPage(pages[j], needle);
    } else {
      assert ValidPages(pages) ==> ValidPageText(pages[k]);
    }
  }
}
