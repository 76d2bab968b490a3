/** The two evidence extractors: family-support evidence in six themes and
    Public Guardian limitations in six categories. Each emits one evidence
    item per match with the stripped context around it, the page it is found
    on and a relevance computed from markers in the context; the service
    functions concatenate the six lists and count the non-empty ones. */
module EvidenceExtraction {
  import opened Seqs
  import opened Text
  import opened Numeric
  import opened Models
  import opened Pages

  // ---------------------------------------------------------------------------
  // Markers searched for in a context

  /** n digits from position i. */
  predicate DigitsAt(s: String, i: int, n: nat)
  {
    0 <= i && i + n <= |s| && forall j :: i <= j < i + n ==> IsDigit(s[j])
  }

  /** A date separator, `/` or `-`, at position i. */
  predicate SeparatorAt(s: String, i: int)
  {
    0 <= i < |s| && (s[i] == '/' || s[i] == '-')
  }

  /** `\b\d{a}[/-]\d{b}[/-]\d{c}\b` matches at i. */
  predicate DateShapeAt(s: String, i: int, a: nat, b: nat, c: nat)
  {
    && !WordBefore(s, i)
    && DigitsAt(s, i, a) && SeparatorAt(s, i + a)
    && DigitsAt(s, i + a + 1, b) && SeparatorAt(s, i + a + 1 + b)
    && DigitsAt(s, i + a + b + 2, c) && !WordAt(s, i + a + b + 2 + c)
  }

  /** `re.search(r'\b\d{1,2}[/-]\d{1,2}[/-]\d{2,4}\b', s)` finds a match. */
  predicate HasDate(s: String)
  {
    exists i, a, b, c :: 0 <= i <= |s| && 1 <= a <= 2 && 1 <= b <= 2 && 2 <= c <= 4
                         && DateShapeAt(s, i, a, b, c)
  }

  /** Words that mark a specific account, in the family extractor's order. */
  const SpecificityWords: seq<String> := ["specifically", "example", "instance"]

  /** The same words in the Public Guardian extractor's order. */
  const ExampleWords: seq<String> := ["example", "specifically", "instance"]

  /** Words that mark a repeated behaviour. */
  const FrequencyWords: seq<String> := ["always", "regularly", "frequently", "often"]

  // ---------------------------------------------------------------------------
  // Relevance

  /** The three specificity indicators of the family extractor. */
  datatype Indicator = DateIndicator | SpecificityIndicator | FrequencyIndicator

  const FamilyIndicators: seq<Indicator> := [DateIndicator, SpecificityIndicator, FrequencyIndicator]

  predicate Found(ind: Indicator, context: String)
  {
    match ind
    case DateIndicator => HasDate(context)
    case SpecificityIndicator => HasWord(context, SpecificityWords)
    case FrequencyIndicator => HasWord(context, FrequencyWords)
  }

  /** How many of the first k family indicators the context holds. */
  function FoundCount(context: String, k: nat): (n: nat)
    requires k <= |FamilyIndicators|
    ensures n <= k
  {
    if k == 0 then 0
    else FoundCount(context, k - 1) + (if Found(FamilyIndicators[k - 1], context) then 1 else 0)
  }

  /** Family relevance: 0.5 plus 0.15 per indicator found, capped at 1. */
  function FamilyRelevance(context: String): real
  {
    MinR(1.0, 0.5 + 0.15 * FoundCount(context, |FamilyIndicators|) as real)
  }

  /** The loop over the indicators that raises the relevance. */
  method ScoreFamilyRelevance(context: String) returns (score: real)
    ensures score == FamilyRelevance(context)
  {
    score := 0.5;
    for k := 0 to |FamilyIndicators|
      invariant score == 0.5 + 0.15 * FoundCount(context, k) as real
    {
      if Found(FamilyIndicators[k], context) {
        score := score + 0.15;
      }
    }
    score := MinR(1.0, score);
  }

  /** Public Guardian relevance: 0.7, raised to 0.9 by an example marker,
      then 0.1 more (capped at 1) when the context holds a date. */
  function GuardianRelevance(context: String): real
  {
    var base := if HasWord(context, ExampleWords) then 0.9 else 0.7;
    if HasDate(context) then MinR(1.0, base + 0.1) else base
  }

  /** The family relevance is 0.5, 0.65, 0.8 or 0.95, one step per indicator
      found; it is 0.5 exactly when none is found and 0.95 exactly when all
      three are; the cap is never reached and rounding to two places keeps
      it. */
  lemma FamilyRelevanceValues(context: String)
    ensures var n := FoundCount(context, |FamilyIndicators|);
      && FamilyRelevance(context) == 0.5 + 0.15 * n as real
      && (FamilyRelevance(context) == 0.5 <==> forall k :: 0 <= k < |FamilyIndicators| ==> !Found(FamilyIndicators[k], context))
      && (FamilyRelevance(context) == 0.95 <==> forall k :: 0 <= k < |FamilyIndicators| ==> Found(FamilyIndicators[k], context))
    ensures 0.5 <= FamilyRelevance(context) <= 0.95
    ensures Round(FamilyRelevance(context), 2) == FamilyRelevance(context)
  {
    var n := FoundCount(context, |FamilyIndicators|);
    var d, s, f := Found(DateIndicator, context), Found(SpecificityIndicator, context), Found(FrequencyIndicator, context);
    assert FoundCount(context, 1) == if d then 1 else 0;
    assert FoundCount(context, 2) == FoundCount(context, 1) + if s then 1 else 0;
    assert n == FoundCount(context, 2) + if f then 1 else 0;
    assert (forall k :: 0 <= k < |FamilyIndicators| ==> !Found(FamilyIndicators[k], context)) <==> !d && !s && !f by {
      if !d && !s && !f {
        forall k | 0 <= k < |FamilyIndicators| ensures !Found(FamilyIndicators[k], context) {
          assert FamilyIndicators[k] in {DateIndicator, SpecificityIndicator, FrequencyIndicator};
        }
      }
      assert FamilyIndicators[0] == DateIndicator && FamilyIndicators[1] == SpecificityIndicator
             && FamilyIndicators[2] == FrequencyIndicator;
    }
    assert (forall k :: 0 <= k < |FamilyIndicators| ==> Found(FamilyIndicators[k], context)) <==> d && s && f by {
      if d && s && f {
        forall k | 0 <= k < |FamilyIndicators| ensures Found(FamilyIndicators[k], context) {
          assert FamilyIndicators[k] in {DateIndicator, SpecificityIndicator, FrequencyIndicator};
        }
      }
      assert FamilyIndicators[0] == DateIndicator && FamilyIndicators[1] == SpecificityIndicator
             && FamilyIndicators[2] == FrequencyIndicator;
    }
    RoundOnGrid(FamilyRelevance(context), 2, 50 + 15 * n);
  }

  /** The Public Guardian relevance is one of 0.7, 0.8, 0.9, 1.0; which one is
      decided by the two markers, and rounding to two places keeps it. */
  lemma GuardianRelevanceValues(context: String)
    ensures var ex, date := HasWord(context, ExampleWords), HasDate(context);
      && (GuardianRelevance(context) == 0.7 <==> !ex && !date)
      && (GuardianRelevance(context) == 0.8 <==> !ex && date)
      && (GuardianRelevance(context) == 0.9 <==> ex && !date)
      && (GuardianRelevance(context) == 1.0 <==> ex && date)
    ensures Round(GuardianRelevance(context), 2) == GuardianRelevance(context)
  {
    var r := GuardianRelevance(context);
    if r == 0.7 {
      RoundOnGrid(r, 2, 70);
    } else if r == 0.8 {
      RoundOnGrid(r, 2, 80);
    } else if r == 0.9 {
      RoundOnGrid(r, 2, 90);
    } else {
      RoundOnGrid(r, 2, 100);
    }
  }

  // ---------------------------------------------------------------------------
  // Evidence items

  /** Which of the two extractors builds an item. */
  datatype Extractor = FamilyExtractor | GuardianExtractor

  /** Context width on each side of a match. */
  function ContextWindow(e: Extractor): nat
  {
    match e
    case FamilyExtractor => 100
    case GuardianExtractor => 150
  }

  function Relevance(e: Extractor, context: String): real
  {
    match e
    case FamilyExtractor => FamilyRelevance(context)
    case GuardianExtractor => GuardianRelevance(context)
  }

  /** The page number of the first page holding the needle, or 0. */
  function PageOrZero(pages: seq<PageText>, needle: String): int
  {
    match PageContaining(pages, needle)
    case Some(p) => p
    case None => 0
  }

  /** The item an extractor emits for one match. */
  function ItemFor(e: Extractor, text: String, m: Match, category: String, pages: seq<PageText>): EvidenceItem
  {
    var context := Strip(Window(text, m, ContextWindow(e)));
    EvidenceItem(m.text, PageOrZero(pages, m.text), category, Round(Relevance(e, context), 2), context)
  }

  /** The items of one theme or category: one per match, in match order;
      `ms` holds the matches of the patterns, pattern by pattern, each in
      text order. */
  function ItemsFor(e: Extractor, text: String, ms: seq<Match>, category: String, pages: seq<PageText>)
    : (r: seq<EvidenceItem>)
    ensures |r| == |ms|
  {
    if ms == [] then []
    else ItemsFor(e, text, ms[..|ms| - 1], category, pages) + [ItemFor(e, text, ms[|ms| - 1], category, pages)]
  }

  lemma {:induction false} ItemAt(e: Extractor, text: String, ms: seq<Match>, category: String,
                                  pages: seq<PageText>, j: nat)
    requires j < |ms|
    ensures ItemsFor(e, text, ms, category, pages)[j] == ItemFor(e, text, ms[j], category, pages)
  {
    if j < |ms| - 1 {
      ItemAt(e, text, ms[..|ms| - 1], category, pages, j);
    }
  }

  /** The item for one match: its context, its page and its relevance. */
  method MakeItem(e: Extractor, text: String, m: Match, category: String, pages: seq<PageText>)
    returns (item: EvidenceItem)
    ensures item == ItemFor(e, text, m, category, pages)
  {
    var start := Max(0, m.start - ContextWindow(e));
    var end := Min(|text|, m.end + ContextWindow(e));
    var context := Strip(Slice(text, start, end));
    var pageNum := 0;
    var page := LookUpPage(pages, m.text);
    if page.Some? {
      pageNum := page.value;
    }
    var relevance;
    if e == FamilyExtractor {
      relevance := ScoreFamilyRelevance(context);
    } else {
      relevance := GuardianRelevance(context);
    }
    item := EvidenceItem(m.text, pageNum, category, Round(relevance, 2), context);
  }

  /** The family extractor of one theme. */
  method ExtractByTheme(text: String, ms: seq<Match>, theme: String, pages: seq<PageText>)
    returns (items: seq<EvidenceItem>)
    ensures items == ItemsFor(FamilyExtractor, text, ms, theme, pages)
  {
    items := [];
    for j := 0 to |ms|
      invariant items == ItemsFor(FamilyExtractor, text, ms[..j], theme, pages)
    {
      var item := MakeItem(FamilyExtractor, text, ms[j], theme, pages);
      assert ms[..j + 1][..j] == ms[..j];
      items := items + [item];
    }
    assert ms[..|ms|] == ms;
  }

  /** The Public Guardian extractor of one category. */
  method ExtractLimitations(text: String, ms: seq<Match>, category: String, pages: seq<PageText>)
    returns (items: seq<EvidenceItem>)
    ensures items == ItemsFor(GuardianExtractor, text, ms, category, pages)
  {
    items := [];
    for j := 0 to |ms|
      invariant items == ItemsFor(GuardianExtractor, text, ms[..j], category, pages)
    {
      var item := MakeItem(GuardianExtractor, text, ms[j], category, pages);
      assert ms[..j + 1][..j] == ms[..j];
      items := items + [item];
    }
    assert ms[..|ms|] == ms;
  }

  /** The page number is 0 when no page holds the needle; otherwise it is the
      number of the first page holding it. With valid pages it is 0 exactly
      when no page holds the needle. */
  lemma PageOrZeroSpec(pages: seq<PageText>, needle: String)
    ensures (forall j :: 0 <= j < |pages| ==> !OnPage(pages[j], needle)) ==> PageOrZero(pages, needle) == 0
    ensures (exists j :: 0 <= j < |pages| && OnPage(pages[j], needle)) ==>
              exists k :: 0 <= k < |pages| && OnPage(pages[k], needle)
                && PageOrZero(pages, needle) == pages[k].pageNumber
                && forall j :: 0 <= j < k ==> !OnPage(pages[j], needle)
    ensures ValidPages(pages) ==>
              PageOrZero(pages, needle) >= 0
              && (PageOrZero(pages, needle) == 0 <==> forall j :: 0 <= j < |pages| ==> !OnPage(pages[j], needle))
  {
    PageContainingSpec(pages, needle);
  }

  /** An item carries the matched text and its category, a context of the
      text at most the match plus the window on each side, and a valid
      relevance in the extractor's range. */
  lemma ItemSpec(e: Extractor, text: String, m: Match, category: String, pages: seq<PageText>)
    requires MatchIn(m, text)
    ensures var item := ItemFor(e, text, m, category, pages);
      && item.text == m.text && item.category == category
      && item.pageNumber == PageOrZero(pages, m.text)
      && |item.context| <= |m.text| + 2 * ContextWindow(e)
      && Contains(text, item.context)
      && ValidEvidenceItem(item)
      && (e == FamilyExtractor ==> 0.5 <= item.relevance <= 0.95)
      && (e == GuardianExtractor ==> 0.7 <= item.relevance <= 1.0)
  {
    var context := Strip(Window(text, m, ContextWindow(e)));
    StrippedWindowBounded(text, m, ContextWindow(e));
    if e == FamilyExtractor {
      FamilyRelevanceValues(context);
    } else {
      GuardianRelevanceValues(context);
    }
  }

  // ---------------------------------------------------------------------------
  // The two service functions

  /** The six lists of a response. The Public Guardian service fills the same
      six fields with its categories: barriers, family separation, cultural
      disconnect, personal knowledge gaps, goal conflicts and delays. */
  datatype Themes = Themes(
    emotional: seq<EvidenceItem>,
    community: seq<EvidenceItem>,
    dailyLiving: seq<EvidenceItem>,
    cultural: seq<EvidenceItem>,
    employment: seq<EvidenceItem>,
    decisionMaking: seq<EvidenceItem>)

  /** The six lists in field order. */
  function ThemeLists(t: Themes): (r: seq<seq<EvidenceItem>>)
    ensures |r| == 6
  {
    [t.emotional, t.community, t.dailyLiving, t.cultural, t.employment, t.decisionMaking]
  }

  /** Six lists as the fields of a response, in order. */
  function ThemesOf(ls: seq<seq<EvidenceItem>>): (t: Themes)
    requires |ls| == 6
    ensures ThemeLists(t) == ls
  {
    Themes(ls[0], ls[1], ls[2], ls[3], ls[4], ls[5])
  }

  /** The category names the family service gives its six themes. */
  const FamilyThemeNames: seq<String> :=
    ["emotional", "community", "daily_living", "cultural", "employment", "decision_making"]

  /** The category names the Public Guardian service gives its six lists. */
  const GuardianCategoryNames: seq<String> :=
    ["barriers", "family_separation", "cultural_disconnect", "personal_knowledge_gaps",
     "goal_conflicts", "delays"]

  /** What a service returns: all instances, the six lists, the instance
      count and the number of lists with at least one instance (the
      summary's theme or category count). */
  datatype EvidenceResponse = EvidenceResponse(
    instances: seq<EvidenceItem>, themes: Themes, totalInstances: nat, listsFound: nat)

  /** Number of non-empty lists. */
  function NonEmptyCount<T>(ss: seq<seq<T>>): (n: nat)
    ensures n <= |ss|
  {
    if ss == [] then 0 else NonEmptyCount(ss[..|ss| - 1]) + (if ss[|ss| - 1] != [] then 1 else 0)
  }

  /** The first k lists of a service, `matches[i]` holding the matches of
      list i and `names[i]` its category name. */
  function ListsUpTo(e: Extractor, names: seq<String>, text: String, pages: seq<PageText>,
                     matches: seq<seq<Match>>, k: nat): (r: seq<seq<EvidenceItem>>)
    requires |names| == 6 && |matches| == 6 && k <= 6
    ensures |r| == k
  {
    if k == 0 then []
    else ListsUpTo(e, names, text, pages, matches, k - 1)
         + [ItemsFor(e, text, matches[k - 1], names[k - 1], pages)]
  }

  lemma {:induction false} ListAt(e: Extractor, names: seq<String>, text: String, pages: seq<PageText>,
                                  matches: seq<seq<Match>>, k: nat, i: nat)
    requires |names| == 6 && |matches| == 6 && i < k <= 6
    ensures ListsUpTo(e, names, text, pages, matches, k)[i] == ItemsFor(e, text, matches[i], names[i], pages)
  {
    if i < k - 1 {
      ListAt(e, names, text, pages, matches, k - 1, i);
    }
  }

  /** The six lists of a service, written out. */
  lemma ListsUpToSix(e: Extractor, names: seq<String>, text: String, pages: seq<PageText>,
                     matches: seq<seq<Match>>)
    requires |names| == 6 && |matches| == 6
    ensures var ls := ListsUpTo(e, names, text, pages, matches, 6);
      && ls[0] == ItemsFor(e, text, matches[0], names[0], pages)
      && ls[1] == ItemsFor(e, text, matches[1], names[1], pages)
      && ls[2] == ItemsFor(e, text, matches[2], names[2], pages)
      && ls[3] == ItemsFor(e, text, matches[3], names[3], pages)
      && ls[4] == ItemsFor(e, text, matches[4], names[4], pages)
      && ls[5] == ItemsFor(e, text, matches[5], names[5], pages)
  {
    ListAt(e, names, text, pages, matches, 6, 0);
    ListAt(e, names, text, pages, matches, 6, 1);
    ListAt(e, names, text, pages, matches, 6, 2);
    ListAt(e, names, text, pages, matches, 6, 3);
    ListAt(e, names, text, pages, matches, 6, 4);
    ListAt(e, names, text, pages, matches, 6, 5);
  }

  /** The response built from six lists: their concatenation in field order,
      its length, and the number of non-empty lists. */
  function ResponseOf(t: Themes): EvidenceResponse
  {
    var all := t.emotional + t.community + t.dailyLiving + t.cultural + t.employment + t.decisionMaking;
    EvidenceResponse(all, t, |all|, NonEmptyCount(ThemeLists(t)))
  }

  /** A service's response. */
  function ResponseFor(e: Extractor, names: seq<String>, text: String, pages: seq<PageText>,
                       matches: seq<seq<Match>>): EvidenceResponse
    requires |names| == 6 && |matches| == 6
  {
    ResponseOf(ThemesOf(ListsUpTo(e, names, text, pages, matches, 6)))
  }

  /** Family support evidence for the six themes. */
  method ExtractFamilySupportEvidence(text: String, pages: seq<PageText>, matches: seq<seq<Match>>)
    returns (r: EvidenceResponse)
    requires |matches| == 6
    ensures r == ResponseFor(FamilyExtractor, FamilyThemeNames, text, pages, matches)
  {
    var emotional := ExtractByTheme(text, matches[0], "emotional", pages);
    var community := ExtractByTheme(text, matches[1], "community", pages);
    var dailyLiving := ExtractByTheme(text, matches[2], "daily_living", pages);
    var cultural := ExtractByTheme(text, matches[3], "cultural", pages);
    var employment := ExtractByTheme(text, matches[4], "employment", pages);
    var decisionMaking := ExtractByTheme(text, matches[5], "decision_making", pages);
    ListsUpToSix(FamilyExtractor, FamilyThemeNames, text, pages, matches);
    var all := emotional + community + dailyLiving + cultural + employment + decisionMaking;
    var themes := Themes(emotional, community, dailyLiving, cultural, employment, decisionMaking);
    r := EvidenceResponse(all, themes, |all|, NonEmptyCount(ThemeLists(themes)));
  }

  /** Public Guardian limitations for the six categories. */
  method ExtractPublicGuardianLimitations(text: String, pages: seq<PageText>, matches: seq<seq<Match>>)
    returns (r: EvidenceResponse)
    requires |matches| == 6
    ensures r == ResponseFor(GuardianExtractor, GuardianCategoryNames, text, pages, matches)
  {
    var barriers := ExtractLimitations(text, matches[0], "barriers", pages);
    var familySeparation := ExtractLimitations(text, matches[1], "family_separation", pages);
    var culturalDisconnect := ExtractLimitations(text, matches[2], "cultural_disconnect", pages);
    var personalKnowledge := ExtractLimitations(text, matches[3], "personal_knowledge_gaps", pages);
    var goalConflicts := ExtractLimitations(text, matches[4], "goal_conflicts", pages);
    var delays := ExtractLimitations(text, matches[5], "delays", pages);
    ListsUpToSix(GuardianExtractor, GuardianCategoryNames, text, pages, matches);
    var all := barriers + familySeparation + culturalDisconnect + personalKnowledge + goalConflicts + delays;
    var themes := Themes(barriers, familySeparation, culturalDisconnect, personalKnowledge, goalConflicts, delays);
    r := EvidenceResponse(all, themes, |all|, NonEmptyCount(ThemeLists(themes)));
  }

  // ---------------------------------------------------------------------------
  // Properties of a response

  /** Lists of the same lengths have the same number of non-empty lists. */
  lemma {:induction false} NonEmptyCountLengths<S, T>(ss: seq<seq<S>>, ts: seq<seq<T>>)
    requires |ss| == |ts| && forall k :: 0 <= k < |ss| ==> |ss[k]| == |ts[k]|
    ensures NonEmptyCount(ss) == NonEmptyCount(ts)
  {
    if ss != [] {
      NonEmptyCountLengths(ss[..|ss| - 1], ts[..|ts| - 1]);
    }
  }

  /** No list is non-empty exactly when all lists are empty. */
  lemma {:induction false} NonEmptyCountZero<T>(ss: seq<seq<T>>)
    ensures NonEmptyCount(ss) == 0 <==> forall k :: 0 <= k < |ss| ==> ss[k] == []
  {
    if ss != [] {
      NonEmptyCountZero(ss[..|ss| - 1]);
    }
  }

  /** Flattening six lists concatenates them in order. */
  lemma FlattenSix<T>(ss: seq<seq<T>>)
    requires |ss| == 6
    ensures Flatten(ss) == ss[0] + ss[1] + ss[2] + ss[3] + ss[4] + ss[5]
  {
    assert ss[..1][..0] == [];
    assert Flatten(ss[..1]) == ss[0];
    assert ss[..2][..1] == ss[..1];
    assert Flatten(ss[..2]) == ss[0] + ss[1];
    assert ss[..3][..2] == ss[..2];
    assert Flatten(ss[..3]) == ss[0] + ss[1] + ss[2];
    assert ss[..4][..3] == ss[..3];
    assert Flatten(ss[..4]) == ss[0] + ss[1] + ss[2] + ss[3];
    assert ss[..5][..4] == ss[..4];
    assert Flatten(ss[..5]) == ss[0] + ss[1] + ss[2] + ss[3] + ss[4];
    assert ss[..6][..5] == ss[..5];
    assert ss[..6] == ss;
  }

  /** Item j of list k of a flattened list of lists. */
  lemma {:induction false} FlattenAt<T>(ss: seq<seq<T>>, k: nat, j: nat)
    requires k < |ss| && j < |ss[k]|
    ensures TotalLength(ss[..k]) + j < |Flatten(ss)|
    ensures Flatten(ss)[TotalLength(ss[..k]) + j] == ss[k][j]
  {
    var init := ss[..|ss| - 1];
    assert Flatten(ss) == Flatten(init) + ss[|ss| - 1];
    if k == |ss| - 1 {
      assert ss[..k] == init;
    } else {
      assert init[..k] == ss[..k];
      FlattenAt(init, k, j);
    }
  }

  /** Lists of the same lengths have prefixes of the same total length. */
  lemma {:induction false} LengthsPrefix<S, T>(ss: seq<seq<S>>, ts: seq<seq<T>>, k: nat)
    requires |ss| == |ts| && k <= |ss| && forall i :: 0 <= i < |ss| ==> |ss[i]| == |ts[i]|
    ensures TotalLength(ss[..k]) == TotalLength(ts[..k])
  {
    if k > 0 {
      LengthsPrefix(ss, ts, k - 1);
      assert ss[..k][..k - 1] == ss[..k - 1];
      assert ts[..k][..k - 1] == ts[..k - 1];
    }
  }

  /** The response of six lists: its instances are the lists flattened, its
      count of lists found is 0 exactly when it has no instance, and item j
      of list k sits after the items of the earlier lists. */
  lemma ResponseOfSpec(t: Themes)
    ensures ResponseOf(t).instances == Flatten(ThemeLists(t))
    ensures ResponseOf(t).totalInstances == |ResponseOf(t).instances| == TotalLength(ThemeLists(t))
    ensures ResponseOf(t).listsFound <= 6
    ensures ResponseOf(t).listsFound == 0 <==> ResponseOf(t).totalInstances == 0
  {
    var ls := ThemeLists(t);
    FlattenSix(ls);
    NonEmptyCountZero(ls);
  }

  /** Each list of a service has one item per match of its patterns. */
  lemma ListLengths(e: Extractor, names: seq<String>, text: String, pages: seq<PageText>,
                    matches: seq<seq<Match>>)
    requires |names| == 6 && |matches| == 6
    ensures forall k :: 0 <= k < 6 ==> |ListsUpTo(e, names, text, pages, matches, 6)[k]| == |matches[k]|
  {
    forall k | 0 <= k < 6 ensures |ListsUpTo(e, names, text, pages, matches, 6)[k]| == |matches[k]| {
      ListAt(e, names, text, pages, matches, 6, k);
    }
  }

  /** The instance count is the number of matches; the count of lists found
      is the number of lists with a match, and it is 0 exactly when there
      are no instances. */
  lemma ResponseCounts(e: Extractor, names: seq<String>, text: String, pages: seq<PageText>,
                       matches: seq<seq<Match>>)
    requires |names| == 6 && |matches| == 6
    ensures var r := ResponseFor(e, names, text, pages, matches);
      && r.totalInstances == |r.instances| == TotalLength(matches)
      && r.listsFound == NonEmptyCount(matches) <= 6
      && (r.listsFound == 0 <==> r.totalInstances == 0)
  {
    var ls := ListsUpTo(e, names, text, pages, matches, 6);
    ResponseOfSpec(ThemesOf(ls));
    ListLengths(e, names, text, pages, matches);
    NonEmptyCountLengths(ls, matches);
    LengthsPrefix(ls, matches, 6);
    assert ls[..6] == ls && matches[..6] == matches;
  }

  /** The instances are the items of the six lists, list by list: the item of
      match j of list k sits after the items of the earlier lists and carries
      list k's name. */
  lemma ResponseOrder(e: Extractor, names: seq<String>, text: String, pages: seq<PageText>,
                      matches: seq<seq<Match>>, k: nat, j: nat)
    requires |names| == 6 && |matches| == 6
    requires k < 6 && j < |matches[k]|
    ensures var r := ResponseFor(e, names, text, pages, matches);
      var before := TotalLength(matches[..k]);
      && before + j < |r.instances|
      && r.instances[before + j] == ItemFor(e, text, matches[k][j], names[k], pages)
  {
    var ls := ListsUpTo(e, names, text, pages, matches, 6);
    var instances := ResponseFor(e, names, text, pages, matches).instances;
    ResponseOfSpec(ThemesOf(ls));
    assert instances == Flatten(ls);
    ListLengths(e, names, text, pages, matches);
    LengthsPrefix(ls, matches, k);
    var before := TotalLength(matches[..k]);
    assert TotalLength(ls[..k]) == before;
    ListAt(e, names, text, pages, matches, 6, k);
    ItemAt(e, text, matches[k], names[k], pages, j);
    assert ls[k][j] == ItemFor(e, text, matches[k][j], names[k], pages);
    FlattenAt(ls, k, j);
  }

  /** Every instance of a response is valid and belongs to one of the six
      categories; with valid pages its page number is not negative. */
  lemma ResponseValid(e: Extractor, names: seq<String>, text: String, pages: seq<PageText>,
                      matches: seq<seq<Match>>, x: EvidenceItem)
    requires |names| == 6 && |matches| == 6
    requires forall k, j :: 0 <= k < 6 && 0 <= j < |matches[k]| ==> MatchIn(matches[k][j], text)
    requires x in ResponseFor(e, names, text, pages, matches).instances
    ensures ValidEvidenceItem(x) && x.category in names
    ensures ValidPages(pages) ==> x.pageNumber >= 0
  {
    var ls := ListsUpTo(e, names, text, pages, matches, 6);
    ResponseOfSpec(ThemesOf(ls));
    InFlatten(ls, x);
    var k :| 0 <= k < 6 && x in ls[k];
    ListAt(e, names, text, pages, matches, 6, k);
    var j :| 0 <= j < |ls[k]| && ls[k][j] == x;
    ItemAt(e, text, matches[k], names[k], pages, j);
    ItemValid(e, text, matches[k][j], names[k], pages);
  }

  /** An item is valid, carries its category, and with valid pages its page
      number is not negative. */
  lemma ItemValid(e: Extractor, text: String, m: Match, category: String, pages: seq<PageText>)
    requires MatchIn(m, text)
    ensures ValidEvidenceItem(ItemFor(e, text, m, category, pages))
    ensures ItemFor(e, text, m, category, pages).category == category
    ensures ValidPages(pages) ==> ItemFor(e, text, m, category, pages).pageNumber >= 0
  {
    ItemSpec(e, text, m, category, pages);
    PageOrZeroSpec(pages, m.text);
  }
}
