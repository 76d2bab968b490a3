/** The timeline extractor: dates found in a document are parsed in one of four
    formats, each becomes an event described by the sentence around it, the
    events are sorted by date and events with the same date and the same
    opening words are reported once. */
module Timeline {
  import opened Seqs
  import opened Text
  import opened Models

  // ---------------------------------------------------------------------------
  // Calendar dates

  /** A calendar date (the extractor's datetimes are all at midnight). */
  datatype Date = Date(year: int, month: int, day: int)

  predicate IsLeapYear(y: int)
  {
    y % 4 == 0 && (y % 100 != 0 || y % 400 == 0)
  }

  /** Days in a month of the Gregorian calendar. */
  function DaysInMonth(y: int, m: int): (n: int)
    requires 1 <= m <= 12
    ensures 28 <= n <= 31
  {
    if m == 2 then (if IsLeapYear(y) then 29 else 28)
    else if m == 4 || m == 6 || m == 9 || m == 11 then 30
    else 31
  }

  /** The dates the datetime constructor accepts: years 1 to 9999, months 1
      to 12, and a day that exists in that month. */
  predicate ValidDate(y: int, m: int, d: int)
  {
    1 <= y <= 9999 && 1 <= m <= 12 && 1 <= d <= DaysInMonth(y, m)
  }

  /** `datetime(year, month, day)`: the date, or nothing where the
      constructor raises. */
  function MakeDate(y: int, m: int, d: int): (r: Option<Date>)
    ensures r.Some? <==> ValidDate(y, m, d)
    ensures r.Some? ==> r.value == Date(y, m, d)
  {
    if ValidDate(y, m, d) then Some(Date(y, m, d)) else None
  }

  /** Datetimes compare by year, then month, then day. */
  predicate DateLe(a: Date, b: Date)
  {
    a.year < b.year
    || (a.year == b.year && (a.month < b.month || (a.month == b.month && a.day <= b.day)))
  }

  /** The date order is a total order. */
  lemma DateOrder(a: Date, b: Date, c: Date)
    ensures DateLe(a, a)
    ensures DateLe(a, b) || DateLe(b, a)
    ensures DateLe(a, b) && DateLe(b, a) ==> a == b
    ensures DateLe(a, b) && DateLe(b, c) ==> DateLe(a, c)
  {
  }

  // ---------------------------------------------------------------------------
  // Numerals

  function DigitValue(c: char): nat
    requires IsDigit(c)
  {
    c as int - '0' as int
  }

  predicate AllDigits(s: String)
  {
    forall i :: 0 <= i < |s| ==> IsDigit(s[i])
  }

  /** The value of a string of decimal digits. */
  function DecimalValue(s: String): nat
    requires AllDigits(s)
  {
    if s == [] then 0 else 10 * DecimalValue(s[..|s| - 1]) + DigitValue(s[|s| - 1])
  }

  /** `int(s)` on a string of digits; any other string raises. */
  function ParseInt(s: String): (r: Option<int>)
  {
    if s != [] && AllDigits(s) then Some(DecimalValue(s)) else None
  }

  /** The digit for 0 to 9. */
  function DigitChar(n: nat): (c: char)
    requires n < 10
    ensures IsDigit(c) && DigitValue(c) == n
  {
    ('0' as int + n) as char
  }

  /** The decimal numeral of n, as `str(n)` writes it. */
  function Numeral(n: nat): (r: String)
    ensures r != [] && AllDigits(r)
  {
    if n < 10 then [DigitChar(n)] else Numeral(n / 10) + [DigitChar(n % 10)]
  }

  /** Reading a numeral back gives the number. */
  lemma {:induction false} NumeralValue(n: nat)
    ensures ParseInt(Numeral(n)) == Some(n)
  {
    var r := Numeral(n);
    if n >= 10 {
      NumeralValue(n / 10);
      assert r[..|r| - 1] == Numeral(n / 10);
      assert DecimalValue(r) == 10 * (n / 10) + n % 10;
    }
  }

  /** A numeral of n has exactly four digits when n is 1000 to 9999. */
  lemma {:induction false} NumeralLength(n: nat)
    ensures n < 10 ==> |Numeral(n)| == 1
    ensures 10 <= n < 100 ==> |Numeral(n)| == 2
    ensures 100 <= n < 1000 ==> |Numeral(n)| == 3
    ensures 1000 <= n < 10000 ==> |Numeral(n)| == 4
  {
    if n >= 10 {
      NumeralLength(n / 10);
    }
  }

  // ---------------------------------------------------------------------------
  // Month names

  /** The month abbreviations, January first. */
  const MonthAbbreviations: seq<String> :=
    ["jan", "feb", "mar", "apr", "may", "jun", "jul", "aug", "sep", "oct", "nov", "dec"]

  /** The lookup table from abbreviation to month number. */
  const MonthMap: map<String, int> :=
    map["jan" := 1, "feb" := 2, "mar" := 3, "apr" := 4, "may" := 5, "jun" := 6,
        "jul" := 7, "aug" := 8, "sep" := 9, "oct" := 10, "nov" := 11, "dec" := 12]

  /** `MONTH_MAP.get(name[:3].lower())`. */
  function MonthNumber(name: String): Option<int>
  {
    var key := Lower(Take(name, 3));
    if key in MonthMap then Some(MonthMap[key]) else None
  }

  /** A month name is recognised exactly when its first three letters, in
      lower case, are one of the twelve abbreviations, and then it gives that
      abbreviation's place in the year. */
  lemma MonthNumberSpec(name: String)
    ensures MonthNumber(name).Some? <==> Lower(Take(name, 3)) in MonthAbbreviations
    ensures forall k :: 0 <= k < 12 && Lower(Take(name, 3)) == MonthAbbreviations[k] ==>
              MonthNumber(name) == Some(k + 1)
    ensures MonthNumber(name).Some? ==> 1 <= MonthNumber(name).value <= 12
  {
  }

  // ---------------------------------------------------------------------------
  // Parsing a matched date

  /** The four date formats the extractor searches for, in search order. */
  datatype DateFormat = DayMonthYear | YearMonthDay | MonthDayYear | DayMonthNameYear

  /** The separators of the numeric formats. */
  predicate IsSeparator(c: char)
  {
    c == '/' || c == '-'
  }

  /** `re.split(r'[/-]', s)`: the pieces between separators, empty pieces
      included. */
  function SplitDate(s: String): (r: seq<String>)
    ensures |r| >= 1
  {
    if s == [] then [[]]
    else
      var rest := SplitDate(s[1..]);
      if IsSeparator(s[0]) then [[]] + rest else [[s[0]] + rest[0]] + rest[1..]
  }

  predicate NoSeparator(s: String)
  {
    forall i :: 0 <= i < |s| ==> !IsSeparator(s[i])
  }

  /** A piece without separators followed by a separator splits off first. */
  lemma {:induction false} SplitDateFront(a: String, sep: char, b: String)
    requires NoSeparator(a) && IsSeparator(sep)
    ensures SplitDate(a + [sep] + b) == [a] + SplitDate(b)
  {
    if a == [] {
      assert a + [sep] + b == [sep] + b;
      assert ([sep] + b)[1..] == b;
    } else {
      SplitDateFront(a[1..], sep, b);
      assert (a + [sep] + b)[1..] == a[1..] + [sep] + b;
      assert [a[0]] + a[1..] == a;
    }
  }

  /** Text without separators is one piece. */
  lemma {:induction false} SplitDateWhole(a: String)
    requires NoSeparator(a)
    ensures SplitDate(a) == [a]
  {
    if a != [] {
      SplitDateWhole(a[1..]);
      assert [a[0]] + a[1..] == a;
    }
  }

  /** The numeric formats: three numbers, read as day, month, year or as
      year, month, day; fewer than three pieces or a piece that is not a
      number gives nothing, and pieces after the third are ignored. */
  function ParseNumeric(s: String, dayFirst: bool): (r: Option<Date>)
  {
    var parts := SplitDate(s);
    if |parts| < 3 then None
    else
      var p0, p1, p2 := ParseInt(parts[0]), ParseInt(parts[1]), ParseInt(parts[2]);
      if p0.None? || p1.None? || p2.None? then None
      else if dayFirst then MakeDate(p2.value, p1.value, p0.value)
      else MakeDate(p0.value, p1.value, p2.value)
  }

  /** The character classes of the month-name patterns: `[A-Za-z]`, `\s`
      and `\d`. */
  datatype CharClass = Letter | Space | Digit

  predicate InClass(c: char, k: CharClass)
  {
    match k
    case Letter => ('a' <= c <= 'z') || ('A' <= c <= 'Z')
    case Space => IsSpace(c)
    case Digit => IsDigit(c)
  }

  /** The end of the longest run of characters of class k starting at i. */
  function RunEnd(s: String, i: nat, k: CharClass): (r: nat)
    requires i <= |s|
    ensures i <= r <= |s|
    ensures forall j :: i <= j < r ==> InClass(s[j], k)
    ensures r < |s| ==> !InClass(s[r], k)
    decreases |s| - i
  {
    if i < |s| && InClass(s[i], k) then RunEnd(s, i + 1, k) else i
  }

  /** The three groups of a month-name date: month name, day and year. */
  datatype DateGroups = DateGroups(monthName: String, day: String, year: String)

  /** `re.match(r'([A-Za-z]+)\s+(\d{1,2}),?\s+(\d{4})', s)`. Every run is
      taken whole: a shorter run of letters, spaces or digits would leave a
      character of the same class where the next item needs another one. */
  function MatchMonthFirst(s: String): Option<DateGroups>
  {
    var b := RunEnd(s, 0, Letter);
    var c := RunEnd(s, b, Space);
    var d := RunEnd(s, c, Digit);
    var e := if d < |s| && s[d] == ',' then d + 1 else d;
    var f := RunEnd(s, e, Space);
    if 0 < b < c && c < d <= c + 2 && e < f && f + 4 <= |s| && AllDigits(s[f..f + 4])
    then Some(DateGroups(s[..b], s[c..d], s[f..f + 4]))
    else None
  }

  /** `re.match(r'(\d{1,2})\s+([A-Za-z]+)\s+(\d{4})', s)`. */
  function MatchDayFirst(s: String): Option<DateGroups>
  {
    var a := RunEnd(s, 0, Digit);
    var b := RunEnd(s, a, Space);
    var c := RunEnd(s, b, Letter);
    var d := RunEnd(s, c, Space);
    if 0 < a <= 2 && a < b && b < c && c < d && d + 4 <= |s| && AllDigits(s[d..d + 4])
    then Some(DateGroups(s[b..c], s[..a], s[d..d + 4]))
    else None
  }

  predicate WellFormedGroups(g: DateGroups)
  {
    g.day != [] && AllDigits(g.day) && g.year != [] && AllDigits(g.year)
  }

  /** The date named by the groups: the month through the abbreviation table,
      nothing for an unknown month. */
  function NamedDate(g: Option<DateGroups>): Option<Date>
  {
    if g.None? || !WellFormedGroups(g.value) then None
    else
      var m := MonthNumber(g.value.monthName);
      if m.None? then None
      else MakeDate(DecimalValue(g.value.year), m.value, DecimalValue(g.value.day))
  }

  /** `parse_date(date_str, format_type)`: the date, or nothing when the text
      does not fit the format or names no calendar date. */
  function ParseDate(s: String, f: DateFormat): (r: Option<Date>)
    ensures r.Some? ==> ValidDate(r.value.year, r.value.month, r.value.day)
  {
    match f
    case DayMonthYear => ParseNumeric(s, true)
    case YearMonthDay => ParseNumeric(s, false)
    case MonthDayYear => NamedDate(MatchMonthFirst(s))
    case DayMonthNameYear => NamedDate(MatchDayFirst(s))
  }

  /** Digits are not separators. */
  lemma DigitsNoSeparator(s: String)
    requires AllDigits(s)
    ensures NoSeparator(s)
  {
  }

  /** A numeric date whose three pieces are numbers is read day-month-year or
      year-month-day, and gives a date exactly when the calendar has it. */
  lemma NumericDateSpec(a: String, s1: char, b: String, s2: char, c: String)
    requires a != [] && b != [] && c != [] && AllDigits(a) && AllDigits(b) && AllDigits(c)
    requires IsSeparator(s1) && IsSeparator(s2)
    ensures ParseDate(a + [s1] + b + [s2] + c, DayMonthYear)
            == MakeDate(DecimalValue(c), DecimalValue(b), DecimalValue(a))
    ensures ParseDate(a + [s1] + b + [s2] + c, YearMonthDay)
            == MakeDate(DecimalValue(a), DecimalValue(b), DecimalValue(c))
  {
    DigitsNoSeparator(a);
    DigitsNoSeparator(b);
    DigitsNoSeparator(c);
    var s := a + [s1] + b + [s2] + c;
    assert s == a + [s1] + (b + [s2] + c);
    SplitDateFront(a, s1, b + [s2] + c);
    SplitDateFront(b, s2, c);
    SplitDateWhole(c);
    assert SplitDate(s) == [a, b, c];
  }

  /** Writing a calendar date as day/month/year or year/month/day and parsing
      it in that format gives the date back. */
  lemma NumericRoundTrip(d: Date)
    requires ValidDate(d.year, d.month, d.day)
    ensures ParseDate(Numeral(d.day) + "/" + Numeral(d.month) + "/" + Numeral(d.year), DayMonthYear) == Some(d)
    ensures ParseDate(Numeral(d.year) + "/" + Numeral(d.month) + "/" + Numeral(d.day), YearMonthDay) == Some(d)
  {
    NumeralValue(d.day);
    NumeralValue(d.month);
    NumeralValue(d.year);
    NumericDateSpec(Numeral(d.day), '/', Numeral(d.month), '/', Numeral(d.year));
    NumericDateSpec(Numeral(d.year), '/', Numeral(d.month), '/', Numeral(d.day));
  }

  /** A run of class k from i to j, stopped by the end or by a character of
      another class, is the longest run. */
  lemma {:induction false} RunEndAt(s: String, i: nat, j: nat, k: CharClass)
    requires i <= j <= |s|
    requires forall t :: i <= t < j ==> InClass(s[t], k)
    requires j < |s| ==> !InClass(s[j], k)
    ensures RunEnd(s, i, k) == j
    decreases j - i
  {
    if i < j {
      RunEndAt(s, i + 1, j, k);
    }
  }

  predicate AllLetters(s: String)
  {
    forall i :: 0 <= i < |s| ==> InClass(s[i], Letter)
  }

  /** The date a month-name format gives for a month name, a day of one or two
      digits and a four-digit year. */
  function NamedDateOf(name: String, day: String, year: String): Option<Date>
    requires AllDigits(day) && AllDigits(year)
  {
    var m := MonthNumber(name);
    if m.None? then None else MakeDate(DecimalValue(year), m.value, DecimalValue(day))
  }

  /** "Month DD, YYYY" (the comma optional, anything after the year ignored)
      reads the month from the name's first three letters, and gives nothing
      for an unknown month or a day the month does not have. */
  lemma MonthFirstSpec(name: String, day: String, comma: bool, year: String, rest: String)
    requires name != [] && AllLetters(name)
    requires 1 <= |day| <= 2 && AllDigits(day)
    requires |year| == 4 && AllDigits(year)
    ensures ParseDate(name + " " + day + (if comma then ", " else " ") + year + rest, MonthDayYear)
            == NamedDateOf(name, day, year)
  {
    var s := name + " " + day + (if comma then ", " else " ") + year + rest;
    MonthFirstLocated(name, day, comma, year, rest);
    assert MatchMonthFirst(s) == Some(DateGroups(name, day, year));
  }

  lemma MonthFirstLocated(name: String, day: String, comma: bool, year: String, rest: String)
    requires name != [] && AllLetters(name)
    requires 1 <= |day| <= 2 && AllDigits(day)
    requires |year| == 4 && AllDigits(year)
    ensures MatchMonthFirst(name + " " + day + (if comma then ", " else " ") + year + rest)
            == Some(DateGroups(name, day, year))
  {
    var gap := if comma then ", " else " ";
    var s := name + " " + day + gap + year + rest;
    var b, c, d := |name|, |name| + 1, |name| + 1 + |day|;
    var e := d + |gap| - 1;
    assert s[..b] == name;
    assert s[c..d] == day;
    assert s[e + 1..e + 5] == year;
    MonthFirstGroups(s, b, c, d, e);
  }

  /** The groups of a month-first date located by their offsets. */
  lemma MonthFirstGroups(s: String, b: nat, c: nat, d: nat, e: nat)
    requires 0 < b && c == b + 1 && c < d <= c + 2 && d <= e && e + 5 <= |s|
    requires forall t :: 0 <= t < b ==> InClass(s[t], Letter)
    requires forall t :: c <= t < d ==> InClass(s[t], Digit)
    requires s[b] == ' ' && s[e] == ' '
    requires e == d || (e == d + 1 && s[d] == ',')
    requires AllDigits(s[e + 1..e + 5])
    ensures MatchMonthFirst(s) == Some(DateGroups(s[..b], s[c..d], s[e + 1..e + 5]))
  {
    RunEndAt(s, 0, b, Letter);
    RunEndAt(s, b, c, Space);
    RunEndAt(s, c, d, Digit);
    RunEndAt(s, e, e + 1, Space);
  }

  /** "DD Month YYYY" reads the same three groups in the other order. */
  lemma DayFirstSpec(day: String, name: String, year: String, rest: String)
    requires name != [] && AllLetters(name)
    requires 1 <= |day| <= 2 && AllDigits(day)
    requires |year| == 4 && AllDigits(year)
    ensures ParseDate(day + " " + name + " " + year + rest, DayMonthNameYear)
            == NamedDateOf(name, day, year)
  {
    var s := day + " " + name + " " + year + rest;
    var a, b, c := |day|, |day| + 1, |day| + 1 + |name|;
    var d := c + 1;
    assert s[..a] == day;
    assert s[b..c] == name;
    assert s[d..d + 4] == year;
    RunEndAt(s, 0, a, Digit);
    RunEndAt(s, a, b, Space);
    RunEndAt(s, b, c, Letter);
    RunEndAt(s, c, d, Space);
    assert MatchDayFirst(s) == Some(DateGroups(name, day, year));
  }

  // ---------------------------------------------------------------------------
  // Events

  /** The kinds of event. */
  datatype EventCategory = Appointment | Assessment | Incident | Decision | Documentation | Other

  /** A matched date string, the format of the pattern that found it, and
      its span of the text. The matches of the four patterns come in pattern
      order, each pattern's in text order. */
  datatype DateMatch = DateMatch(m: Match, format: DateFormat)

  /** One timeline event: the date, the first 200 characters of the sentence
      around it, the offset of the match, and the category and significance
      of the whole sentence. */
  datatype TimelineEvent = TimelineEvent(
    date: Date, event: String, offset: nat, category: EventCategory, significance: Severity)

  /** The source note of an event. */
  function Source(e: TimelineEvent): String
  {
    "Document (approx. char " + Numeral(e.offset) + ")"
  }

  /** Some word of the list occurs in the (lower-cased) text. */
  predicate MentionsAny(lower: String, words: seq<String>)
  {
    exists k :: 0 <= k < |words| && Contains(lower, words[k])
  }

  const AppointmentWords: seq<String> := ["appointment", "meeting", "visit", "consultation"]
  const AssessmentWords: seq<String> := ["assessment", "evaluation", "review"]
  const IncidentWords: seq<String> := ["incident", "event", "occurred", "happened"]
  const DecisionWords: seq<String> := ["decision", "determination", "ruling"]
  const DocumentationWords: seq<String> := ["report", "document", "letter"]

  /** The words that make an event highly significant. */
  const HighSignificanceWords: seq<String> :=
    ["guardianship", "transfer", "appointment", "decision", "determination",
     "critical", "significant", "major", "important"]

  /** The category rules in the order they are tried. */
  const CategoryRules: seq<(EventCategory, seq<String>)> :=
    [(Appointment, AppointmentWords), (Assessment, AssessmentWords), (Incident, IncidentWords),
     (Decision, DecisionWords), (Documentation, DocumentationWords)]

  /** `_categorize_event`: the first category one of whose words occurs in
      the lower-cased text, and Other when none does. */
  function CategoryOf(t: String): EventCategory
  {
    var lower := Lower(t);
    if MentionsAny(lower, AppointmentWords) then Appointment
    else if MentionsAny(lower, AssessmentWords) then Assessment
    else if MentionsAny(lower, IncidentWords) then Incident
    else if MentionsAny(lower, DecisionWords) then Decision
    else if MentionsAny(lower, DocumentationWords) then Documentation
    else Other
  }

  /** The category is rule k's exactly when one of rule k's words occurs and
      none of an earlier rule's do; it is Other exactly when no rule's words
      occur. */
  lemma CategorySpec(t: String)
    ensures forall k :: 0 <= k < |CategoryRules| ==>
              (CategoryOf(t) == CategoryRules[k].0
               <==> RuleHit(Lower(t), k) && forall j :: 0 <= j < k ==> !RuleHit(Lower(t), j))
    ensures CategoryOf(t) == Other
            <==> forall j :: 0 <= j < |CategoryRules| ==> !RuleHit(Lower(t), j)
  {
    var lower := Lower(t);
    assert RuleHit(lower, 0) == MentionsAny(lower, AppointmentWords);
    assert RuleHit(lower, 1) == MentionsAny(lower, AssessmentWords);
    assert RuleHit(lower, 2) == MentionsAny(lower, IncidentWords);
    assert RuleHit(lower, 3) == MentionsAny(lower, DecisionWords);
    assert RuleHit(lower, 4) == MentionsAny(lower, DocumentationWords);
  }

  /** One of rule k's words occurs in the lower-cased text. */
  predicate RuleHit(lower: String, k: nat)
    requires k < |CategoryRules|
  {
    MentionsAny(lower, CategoryRules[k].1)
  }

  /** `_assess_significance`: high on a high-significance word, otherwise
      medium for a sentence longer than 100 characters, otherwise low. */
  function SignificanceOf(t: String): (r: Severity)
    ensures r != Critical
    ensures r == High <==> MentionsAny(Lower(t), HighSignificanceWords)
    ensures r == Medium <==> !MentionsAny(Lower(t), HighSignificanceWords) && |t| > 100
    ensures r == Low <==> !MentionsAny(Lower(t), HighSignificanceWords) && |t| <= 100
  {
    if MentionsAny(Lower(t), HighSignificanceWords) then High
    else if |t| > 100 then Medium
    else Low
  }

  /** The words shared by the two rule sets: a sentence mentioning an
      appointment is an appointment of high significance, and one mentioning
      a decision or determination is highly significant whatever comes first. */
  lemma SharedWords(t: String)
    ensures Contains(Lower(t), "appointment") ==> CategoryOf(t) == Appointment && SignificanceOf(t) == High
    ensures Contains(Lower(t), "decision") || Contains(Lower(t), "determination") ==> SignificanceOf(t) == High
  {
    if Contains(Lower(t), "appointment") {
      assert AppointmentWords[0] == "appointment";
      assert HighSignificanceWords[2] == "appointment";
    }
    if Contains(Lower(t), "decision") {
      assert HighSignificanceWords[3] == "decision";
    }
    if Contains(Lower(t), "determination") {
      assert HighSignificanceWords[4] == "determination";
    }
  }

  /** Where the sentence around a match starts: just after the last '.'
      before the match. */
  function SentenceFrom(text: String, m: Match): nat
  {
    LastIndexBefore(text, '.', m.start) + 1
  }

  /** Where the sentence around a match ends: at the next '.' after the
      match, or at the end of the text. */
  function SentenceTo(text: String, m: Match): nat
  {
    var next := IndexOfFrom(text, '.', m.end);
    if next == -1 then |text| else next
  }

  /** The sentence around a match, stripped. */
  function Sentence(text: String, m: Match): String
  {
    Strip(Slice(text, SentenceFrom(text, m), SentenceTo(text, m)))
  }

  /** The sentence starts just after the last '.' before the match, or at
      the start of the text: no '.' lies between its start and the match. */
  lemma SentenceStart(text: String, m: Match)
    requires MatchIn(m, text)
    ensures var from := SentenceFrom(text, m);
            && from <= m.start
            && (from > 0 ==> text[from - 1] == '.')
            && (forall i :: from <= i < m.start ==> text[i] != '.')
  {
    var last := LastIndexBefore(text, '.', m.start);
    assert -1 <= last < m.start;
  }

  /** The sentence ends at the first '.' after the match, or at the end of
      the text: no '.' lies between the match and its end. */
  lemma SentenceEnd(text: String, m: Match)
    requires MatchIn(m, text)
    ensures var to := SentenceTo(text, m);
            && m.end <= to <= |text|
            && (to < |text| ==> text[to] == '.')
            && (forall i :: m.end <= i < to ==> text[i] != '.')
  {
    var next := IndexOfFrom(text, '.', m.end);
    assert next == -1 || m.end <= next < |text|;
  }

  /** The sentence is the stripped text between those two bounds. */
  lemma SentenceText(text: String, m: Match)
    requires MatchIn(m, text)
    ensures SentenceFrom(text, m) <= SentenceTo(text, m) <= |text|
    ensures Sentence(text, m) == Strip(text[SentenceFrom(text, m)..SentenceTo(text, m)])
  {
    var from := SentenceFrom(text, m);
    var to := SentenceTo(text, m);
    assert from <= m.start && m.end <= to <= |text| by {
      SentenceStart(text, m);
      SentenceEnd(text, m);
    }
    SliceWithin(text, from, to);
  }

  /** The event for one match, when its text parses as a date. */
  function EventFor(text: String, dm: DateMatch): (r: Option<TimelineEvent>)
  {
    var d := ParseDate(dm.m.text, dm.format);
    if d.None? then None
    else
      var sentence := Sentence(text, dm.m);
      Some(TimelineEvent(d.value, Take(sentence, 200), dm.m.start, CategoryOf(sentence), SignificanceOf(sentence)))
  }

  /** A way of turning a match into an event. The list rules below hold for
      every such function; the extractor's own is `EventFor`. */
  type EventMaker = (String, DateMatch) -> Option<TimelineEvent>

  /** The events of the first k matches, in match order. */
  function EventsUpTo(make: EventMaker, text: String, found: seq<DateMatch>, k: nat): (r: seq<TimelineEvent>)
    requires k <= |found|
    ensures |r| <= k
  {
    if k == 0 then []
    else EventsUpTo(make, text, found, k - 1) + OptionList(make(text, found[k - 1]))
  }

  /** The loop over the date matches: one event per match that gives one,
      in match order; the extractor passes `EventFor`. */
  method CollectEvents(make: EventMaker, text: String, found: seq<DateMatch>) returns (events: seq<TimelineEvent>)
    ensures events == EventsUpTo(make, text, found, |found|)
  {
    events := [];
    for i := 0 to |found|
      invariant events == EventsUpTo(make, text, found, i)
    {
      var event := make(text, found[i]);
      events := events + OptionList(event);
    }
  }

  /** A match gives an event exactly when its text parses; the event has that
      date, which is a valid one, the offset of the match and at most 200
      characters of the sentence, whose category and significance it has. */
  lemma EventForSpec(text: String, dm: DateMatch)
    ensures var r := EventFor(text, dm);
            && (r.Some? <==> ParseDate(dm.m.text, dm.format).Some?)
            && (r.Some? ==>
                  && r.value.date == ParseDate(dm.m.text, dm.format).value
                  && ValidDate(r.value.date.year, r.value.date.month, r.value.date.day)
                  && r.value.offset == dm.m.start
                  && r.value.event == Take(Sentence(text, dm.m), 200)
                  && r.value.category == CategoryOf(Sentence(text, dm.m))
                  && r.value.significance == SignificanceOf(Sentence(text, dm.m)))
  {
  }

  /** The events are the events of the matches, in match order: each comes
      from one match, and each match that has an event has it in the list. */
  lemma {:induction false} EventsSpec(make: EventMaker, text: String, found: seq<DateMatch>, k: nat)
    requires k <= |found|
    ensures forall e :: e in EventsUpTo(make, text, found, k) ==>
              exists i :: 0 <= i < k && make(text, found[i]) == Some(e)
    ensures forall i :: 0 <= i < k && make(text, found[i]).Some? ==>
              make(text, found[i]).value in EventsUpTo(make, text, found, k)
  {
    if k > 0 {
      EventsSpec(make, text, found, k - 1);
      var prev := EventsUpTo(make, text, found, k - 1);
      var here := OptionList(make(text, found[k - 1]));
      assert EventsUpTo(make, text, found, k) == prev + here;
      forall e: TimelineEvent | e in prev + here
        ensures exists i :: 0 <= i < k && make(text, found[i]) == Some(e)
      {
        if e !in prev {
          assert make(text, found[k - 1]) == Some(e);
        }
      }
    }
  }

  // ---------------------------------------------------------------------------
  // Sorting by date

  /** Events in non-decreasing date order. */
  predicate SortedByDate(s: seq<TimelineEvent>)
  {
    forall i, j :: 0 <= i < j < |s| ==> DateLe(s[i].date, s[j].date)
  }

  /** Where a stable insertion puts x: after the last event dated no later
      than x. */
  function InsertionPoint(x: TimelineEvent, s: seq<TimelineEvent>): (j: nat)
    ensures j <= |s|
  {
    if s == [] then 0
    else if DateLe(s[|s| - 1].date, x.date) then |s|
    else InsertionPoint(x, s[..|s| - 1])
  }

  lemma {:induction false} InsertionPointSpec(x: TimelineEvent, s: seq<TimelineEvent>)
    ensures var j := InsertionPoint(x, s);
            && (j > 0 ==> DateLe(s[j - 1].date, x.date))
            && (forall t :: j <= t < |s| ==> !DateLe(s[t].date, x.date))
  {
    if s != [] && !DateLe(s[|s| - 1].date, x.date) {
      InsertionPointSpec(x, s[..|s| - 1]);
    }
  }

  /** x inserted after every event dated no later than it. */
  function Insert(x: TimelineEvent, s: seq<TimelineEvent>): seq<TimelineEvent>
  {
    var j := InsertionPoint(x, s);
    s[..j] + [x] + s[j..]
  }

  /** The stable sort by date: each event in turn is inserted into the sorted
      list of those before it. */
  function SortByDate(es: seq<TimelineEvent>): seq<TimelineEvent>
  {
    if es == [] then [] else Insert(es[|es| - 1], SortByDate(es[..|es| - 1]))
  }

  /** The events of a given date, in list order. */
  function WithDate(s: seq<TimelineEvent>, d: Date): seq<TimelineEvent>
  {
    if s == [] then []
    else WithDate(s[..|s| - 1], d) + (if s[|s| - 1].date == d then [s[|s| - 1]] else [])
  }

  lemma {:induction false} WithDateAppend(a: seq<TimelineEvent>, b: seq<TimelineEvent>, d: Date)
    ensures WithDate(a + b, d) == WithDate(a, d) + WithDate(b, d)
    decreases |b|
  {
    if b == [] {
      assert a + b == a;
    } else {
      assert (a + b)[..|a + b| - 1] == a + b[..|b| - 1];
      WithDateAppend(a, b[..|b| - 1], d);
    }
  }

  lemma {:induction false} WithDateNone(s: seq<TimelineEvent>, d: Date)
    requires forall t :: 0 <= t < |s| ==> s[t].date != d
    ensures WithDate(s, d) == []
  {
    if s != [] {
      WithDateNone(s[..|s| - 1], d);
    }
  }

  /** Inserting keeps a sorted list sorted. */
  lemma InsertSorted(x: TimelineEvent, s: seq<TimelineEvent>)
    requires SortedByDate(s)
    ensures SortedByDate(Insert(x, s))
  {
    var j := InsertionPoint(x, s);
    InsertionPointSpec(x, s);
    var r := Insert(x, s);
    assert r == s[..j] + [x] + s[j..];
    forall p, q | 0 <= p < q < |r| ensures DateLe(r[p].date, r[q].date) {
      if q < j {
        assert r[p] == s[p] && r[q] == s[q];
      } else if q == j {
        assert r[p] == s[p];
        assert DateLe(s[p].date, s[j - 1].date);
      } else if p == j {
        assert r[q] == s[q - 1];
        assert !DateLe(s[q - 1].date, x.date);
      } else if p < j {
        assert r[p] == s[p] && r[q] == s[q - 1];
      } else {
        assert r[p] == s[p - 1] && r[q] == s[q - 1];
      }
    }
  }

  /** Inserting adds exactly x. */
  lemma InsertContents(x: TimelineEvent, s: seq<TimelineEvent>)
    ensures multiset(Insert(x, s)) == multiset(s) + multiset{x}
  {
    var j := InsertionPoint(x, s);
    assert s == s[..j] + s[j..];
  }

  /** Inserting puts x after every event of its date and leaves the events
      of the other dates in place. */
  lemma InsertWithDate(x: TimelineEvent, s: seq<TimelineEvent>, d: Date)
    ensures WithDate(Insert(x, s), d) == WithDate(s, d) + (if x.date == d then [x] else [])
  {
    var j := InsertionPoint(x, s);
    InsertionPointSpec(x, s);
    var a, b := s[..j], s[j..];
    assert s == a + b;
    var ax := a + [x];
    assert Insert(x, s) == ax + b;
    assert ax[..|ax| - 1] == a;
    WithDateAppend(ax, b, d);
    WithDateAppend(a, b, d);
    if x.date == d {
      forall t | 0 <= t < |b| ensures b[t].date != d {
        assert b[t] == s[j + t];
      }
      WithDateNone(b, d);
    }
  }

  /** The sorted list is in date order, holds the same events, and keeps the
      events of each date in their original order (the sort is stable). */
  lemma {:induction false} SortSpec(es: seq<TimelineEvent>)
    ensures SortedByDate(SortByDate(es))
    ensures multiset(SortByDate(es)) == multiset(es)
    ensures forall d :: WithDate(SortByDate(es), d) == WithDate(es, d)
  {
    if es != [] {
      var init, x := es[..|es| - 1], es[|es| - 1];
      SortSpec(init);
      InsertSorted(x, SortByDate(init));
      InsertContents(x, SortByDate(init));
      assert es == init + [x];
      forall d ensures WithDate(SortByDate(es), d) == WithDate(es, d) {
        InsertWithDate(x, SortByDate(init), d);
      }
    }
  }

  /** An event of a date's list is an event of the list with that date. */
  lemma {:induction false} WithDateIn(s: seq<TimelineEvent>, d: Date, z: TimelineEvent)
    requires z in WithDate(s, d)
    ensures z in s && z.date == d
  {
    if s != [] && z !in WithDate(s[..|s| - 1], d) {
      assert z == s[|s| - 1];
    } else if s != [] {
      WithDateIn(s[..|s| - 1], d, z);
    }
  }

  /** The last event of a list is among the list's events of its date. */
  lemma WithDateLast(s: seq<TimelineEvent>)
    ensures s != [] ==> s[|s| - 1] in WithDate(s, s[|s| - 1].date)
  {
  }

  /** A list sorted by date is fixed by its events of each date in order, so
      every stable sort by date gives the same list as this one: a sorted
      list that keeps the events of each date in input order is the sort of
      the input. */
  lemma {:induction false} StableSortUnique(es: seq<TimelineEvent>, r: seq<TimelineEvent>)
    requires SortedByDate(r)
    requires forall d :: WithDate(r, d) == WithDate(es, d)
    ensures r == SortByDate(es)
  {
    SortSpec(es);
    SameDateListsEqual(r, SortByDate(es));
  }

  lemma {:induction false} SameDateListsEqual(a: seq<TimelineEvent>, b: seq<TimelineEvent>)
    requires SortedByDate(a) && SortedByDate(b)
    requires forall d :: WithDate(a, d) == WithDate(b, d)
    ensures a == b
    decreases |a| + |b|
  {
    WithDateLast(a);
    WithDateLast(b);
    if a != [] && b != [] {
      var a', b' := a[..|a| - 1], b[..|b| - 1];
      SameLastDate(a, b);
      assert a == a' + [a[|a| - 1]] && b == b' + [b[|b| - 1]];
      SameRest(a', a[|a| - 1], b', b[|b| - 1]);
      SameDateListsEqual(a', b');
      assert a == a' + [a[|a| - 1]] && b == b' + [b[|b| - 1]];
    }
  }

  /** Two sorted lists with the same events of each date end with events of
      the same date: each last event's date is the latest in both lists. */
  lemma SameLastDate(a: seq<TimelineEvent>, b: seq<TimelineEvent>)
    requires a != [] && b != [] && SortedByDate(a) && SortedByDate(b)
    requires forall d :: WithDate(a, d) == WithDate(b, d)
    ensures a[|a| - 1].date == b[|b| - 1].date
  {
    var x, y := a[|a| - 1], b[|b| - 1];
    WithDateLast(a);
    WithDateLast(b);
    assert y in WithDate(a, y.date);
    WithDateIn(a, y.date, y);
    assert x in WithDate(b, x.date);
    WithDateIn(b, x.date, x);
    var t :| 0 <= t < |a| && a[t] == y;
    var u :| 0 <= u < |b| && b[u] == x;
    assert DateLe(y.date, x.date) && DateLe(x.date, y.date);
    DateOrder(x.date, y.date, y.date);
  }

  /** The events of a date after appending one event. */
  lemma WithDateSnoc(s: seq<TimelineEvent>, x: TimelineEvent, d: Date)
    ensures WithDate(s + [x], d) == WithDate(s, d) + (if x.date == d then [x] else [])
  {
    assert (s + [x])[..|s|] == s;
  }

  /** ... and then the last events are the same, and the lists without them
      still have the same events of each date. */
  lemma SameRest(a: seq<TimelineEvent>, x: TimelineEvent, b: seq<TimelineEvent>, y: TimelineEvent)
    requires x.date == y.date
    requires forall d :: WithDate(a + [x], d) == WithDate(b + [y], d)
    ensures x == y
    ensures forall d :: WithDate(a, d) == WithDate(b, d)
  {
    WithDateSnoc(a, x, x.date);
    WithDateSnoc(b, y, x.date);
    var wa := WithDate(a + [x], x.date);
    assert wa == WithDate(a, x.date) + [x] == WithDate(b, x.date) + [y];
    assert x == wa[|wa| - 1] && y == wa[|wa| - 1];
    assert WithDate(a, x.date) == wa[..|wa| - 1] == WithDate(b, x.date);
    forall d | d != x.date ensures WithDate(a, d) == WithDate(b, d) {
      WithDateSnoc(a, x, d);
      WithDateSnoc(b, y, d);
      assert WithDate(a + [x], d) == WithDate(b + [y], d);
      assert WithDate(a, d) + [] == WithDate(a, d);
      assert WithDate(b, d) + [] == WithDate(b, d);
    }
  }

  /** One insertion: walk back from the end past the events dated later
      than x, and put x there. */
  method InsertEvent(s: seq<TimelineEvent>, x: TimelineEvent) returns (r: seq<TimelineEvent>)
    ensures r == Insert(x, s)
  {
    var j := |s|;
    assert s[..j] == s;
    while j > 0 && !DateLe(s[j - 1].date, x.date)
      invariant 0 <= j <= |s|
      invariant InsertionPoint(x, s) == InsertionPoint(x, s[..j])
    {
      assert s[..j - 1] == s[..j][..j - 1];
      j := j - 1;
    }
    assert s[..j][..j] == s[..j];
    r := s[..j] + [x] + s[j..];
  }

  /** `events.sort(key=lambda x: x.date)`, as insertion into a sorted list. */
  method SortEvents(events: seq<TimelineEvent>) returns (sorted: seq<TimelineEvent>)
    ensures sorted == SortByDate(events)
  {
    sorted := [];
    for i := 0 to |events|
      invariant sorted == SortByDate(events[..i])
    {
      assert events[..i + 1][..i] == events[..i];
      sorted := InsertEvent(sorted, events[i]);
    }
    assert events[..|events|] == events;
  }

  // ---------------------------------------------------------------------------
  // Removing duplicates

  /** Events count as the same when they share the date and the first 50
      characters of their text. */
  type EventKey = (Date, String)

  function KeyOf(e: TimelineEvent): EventKey
  {
    (e.date, Take(e.event, 50))
  }

  /** The keys of a list of events. */
  function Keys(s: seq<TimelineEvent>): set<EventKey>
  {
    if s == [] then {} else Keys(s[..|s| - 1]) + {KeyOf(s[|s| - 1])}
  }

  lemma {:induction false} InKeys(s: seq<TimelineEvent>, k: EventKey)
    ensures k in Keys(s) <==> exists t :: 0 <= t < |s| && KeyOf(s[t]) == k
  {
    if s != [] {
      InKeys(s[..|s| - 1], k);
      if k in Keys(s[..|s| - 1]) {
        var t :| 0 <= t < |s| - 1 && KeyOf(s[..|s| - 1][t]) == k;
        assert s[t] == s[..|s| - 1][t];
      }
      if exists t :: 0 <= t < |s| && KeyOf(s[t]) == k {
        var t :| 0 <= t < |s| && KeyOf(s[t]) == k;
        if t < |s| - 1 {
          assert s[..|s| - 1][t] == s[t];
        }
      }
    }
  }

  /** The events kept by the pass over the list that drops an event whose key
      was seen before. */
  function Dedupe(es: seq<TimelineEvent>): seq<TimelineEvent>
  {
    if es == [] then []
    else
      var kept := Dedupe(es[..|es| - 1]);
      if KeyOf(es[|es| - 1]) in Keys(kept) then kept else kept + [es[|es| - 1]]
  }

  /** The pass with the set of keys seen so far. */
  method DeduplicateEvents(events: seq<TimelineEvent>) returns (unique: seq<TimelineEvent>)
    ensures unique == Dedupe(events)
  {
    unique := [];
    var seen: set<EventKey> := {};
    for i := 0 to |events|
      invariant unique == Dedupe(events[..i])
      invariant seen == Keys(unique)
    {
      assert events[..i + 1] == events[..i] + [events[i]];
      DedupeSnoc(events[..i], events[i]);
      var key := KeyOf(events[i]);
      if key !in seen {
        KeysSnoc(unique, events[i]);
        seen := seen + {key};
        unique := unique + [events[i]];
      }
    }
    assert events[..|events|] == events;
  }

  /** One more event is kept exactly when its key is new. */
  lemma DedupeSnoc(es: seq<TimelineEvent>, x: TimelineEvent)
    ensures Dedupe(es + [x]) == if KeyOf(x) in Keys(Dedupe(es)) then Dedupe(es) else Dedupe(es) + [x]
  {
    assert (es + [x])[..|es|] == es;
  }

  lemma KeysSnoc(s: seq<TimelineEvent>, x: TimelineEvent)
    ensures Keys(s + [x]) == Keys(s) + {KeyOf(x)}
  {
    assert (s + [x])[..|s|] == s;
  }

  /** The kept events have the same keys as all the events. */
  lemma {:induction false} DedupeKeys(es: seq<TimelineEvent>)
    ensures Keys(Dedupe(es)) == Keys(es)
  {
    if es != [] {
      var init, x := es[..|es| - 1], es[|es| - 1];
      DedupeKeys(init);
      var kept := Dedupe(init);
      if KeyOf(x) !in Keys(kept) {
        var u := kept + [x];
        assert u[..|u| - 1] == kept;
      }
    }
  }

  /** Each kept event is one of the events. */
  lemma {:induction false} DedupeSubset(es: seq<TimelineEvent>)
    ensures forall x :: x in Dedupe(es) ==> x in es
  {
    if es != [] {
      var init := es[..|es| - 1];
      DedupeSubset(init);
      assert forall y :: y in init ==> y in es;
    }
  }

  /** No two kept events share a key. */
  lemma {:induction false} DedupeDistinct(es: seq<TimelineEvent>)
    ensures forall i, j :: 0 <= i < j < |Dedupe(es)| ==> KeyOf(Dedupe(es)[i]) != KeyOf(Dedupe(es)[j])
  {
    if es != [] {
      var init, x := es[..|es| - 1], es[|es| - 1];
      DedupeDistinct(init);
      var kept := Dedupe(init);
      if KeyOf(x) !in Keys(kept) {
        var u := kept + [x];
        InKeys(kept, KeyOf(x));
        forall i, j | 0 <= i < j < |u| ensures KeyOf(u[i]) != KeyOf(u[j]) {
          if j == |u| - 1 {
            assert u[i] == kept[i];
          } else {
            assert u[i] == kept[i] && u[j] == kept[j];
          }
        }
      }
    }
  }

  /** The first event is always kept, and the kept list only grows as the
      pass goes on. */
  lemma {:induction false} DedupeFirst(es: seq<TimelineEvent>)
    ensures es != [] ==> Dedupe(es) != [] && Dedupe(es)[0] == es[0]
  {
    if es != [] {
      var init := es[..|es| - 1];
      DedupeFirst(init);
      if init != [] {
        assert init[0] == es[0];
      }
    }
  }

  /** An event is dropped only for an earlier kept event with its key: for
      every event there is one at or before it, with the same key, that is
      kept. */
  lemma {:induction false} DedupeKeepsFirst(es: seq<TimelineEvent>, i: nat)
    requires i < |es|
    ensures exists j :: 0 <= j <= i && KeyOf(es[j]) == KeyOf(es[i]) && es[j] in Dedupe(es)
  {
    var n := |es| - 1;
    var init, x := es[..n], es[n];
    var kept := Dedupe(init);
    assert es == init + [x];
    assert Dedupe(es) == kept || Dedupe(es) == kept + [x];
    if i < n {
      DedupeKeepsFirst(init, i);
      var j :| 0 <= j <= i && KeyOf(init[j]) == KeyOf(init[i]) && init[j] in kept;
      assert es[j] == init[j] && es[i] == init[i];
    } else if KeyOf(x) in Keys(kept) {
      InKeys(kept, KeyOf(x));
      DedupeSubset(init);
      var t :| 0 <= t < |kept| && KeyOf(kept[t]) == KeyOf(x);
      assert kept[t] in init;
      var j :| 0 <= j < n && init[j] == kept[t];
      assert es[j] == init[j];
    } else {
      assert es[n] in Dedupe(es);
    }
  }

  /** Removing duplicates from a sorted list leaves it sorted. */
  lemma {:induction false} DedupeSorted(es: seq<TimelineEvent>)
    requires SortedByDate(es)
    ensures SortedByDate(Dedupe(es))
  {
    if es != [] {
      var n := |es| - 1;
      var init, x := es[..n], es[n];
      assert SortedByDate(init);
      DedupeSorted(init);
      DedupeSubset(init);
      var kept := Dedupe(init);
      if KeyOf(x) !in Keys(kept) {
        var u := kept + [x];
        forall i, j | 0 <= i < j < |u| ensures DateLe(u[i].date, u[j].date) {
          if j == |u| - 1 {
            assert u[i] == kept[i] && kept[i] in init;
            var t :| 0 <= t < n && init[t] == kept[i];
            assert es[t] == init[t];
          } else {
            assert u[i] == kept[i] && u[j] == kept[j];
          }
        }
      }
    }
  }

  // ---------------------------------------------------------------------------
  // The extractor and its response

  /** The timeline of a text: the events of the date matches, sorted by date,
      without duplicates. */
  function TimelineOf(make: EventMaker, text: String, found: seq<DateMatch>): seq<TimelineEvent>
  {
    Dedupe(SortByDate(EventsUpTo(make, text, found, |found|)))
  }

  /** `extract_timeline`: collect, sort, remove duplicates. */
  method ExtractTimeline(text: String, found: seq<DateMatch>) returns (timeline: seq<TimelineEvent>)
    ensures timeline == TimelineOf(EventFor, text, found)
  {
    var events := CollectEvents(EventFor, text, found);
    var sorted := SortEvents(events);
    timeline := DeduplicateEvents(sorted);
  }

  /** The timeline is in date order and no two of its events share a key. */
  lemma TimelineOrdered(make: EventMaker, text: String, found: seq<DateMatch>)
    ensures SortedByDate(TimelineOf(make, text, found))
    ensures forall i, j :: 0 <= i < j < |TimelineOf(make, text, found)| ==>
              KeyOf(TimelineOf(make, text, found)[i]) != KeyOf(TimelineOf(make, text, found)[j])
  {
    var sorted := SortByDate(EventsUpTo(make, text, found, |found|));
    SortSpec(EventsUpTo(make, text, found, |found|));
    DedupeSorted(sorted);
    DedupeDistinct(sorted);
  }

  /** Each event of the timeline is the event of one of the matches. */
  lemma TimelineFromMatches(make: EventMaker, text: String, found: seq<DateMatch>)
    ensures forall e :: e in TimelineOf(make, text, found) ==>
              exists i :: 0 <= i < |found| && make(text, found[i]) == Some(e)
  {
    var events := EventsUpTo(make, text, found, |found|);
    var sorted := SortByDate(events);
    SortSpec(events);
    DedupeSubset(sorted);
    EventsSpec(make, text, found, |found|);
    forall e | e in Dedupe(sorted)
      ensures exists i :: 0 <= i < |found| && make(text, found[i]) == Some(e)
    {
      assert e in multiset(sorted);
    }
  }

  /** Every match that gives an event has an event with its key in the
      timeline. */
  lemma TimelineCoversMatches(make: EventMaker, text: String, found: seq<DateMatch>)
    ensures forall i :: 0 <= i < |found| && make(text, found[i]).Some? ==>
              KeyOf(make(text, found[i]).value) in Keys(TimelineOf(make, text, found))
  {
    var events := EventsUpTo(make, text, found, |found|);
    var sorted := SortByDate(events);
    SortSpec(events);
    DedupeKeys(sorted);
    EventsSpec(make, text, found, |found|);
    forall i | 0 <= i < |found| && make(text, found[i]).Some?
      ensures KeyOf(make(text, found[i]).value) in Keys(Dedupe(sorted))
    {
      var e := make(text, found[i]).value;
      assert e in multiset(events);
      var t :| 0 <= t < |sorted| && sorted[t] == e;
      InKeys(sorted, KeyOf(e));
    }
  }

  /** The tool's response: the timeline, its length, and the dates of its
      first and last events (none for an empty timeline). */
  datatype TimelineResponse = TimelineResponse(
    timeline: seq<TimelineEvent>, totalEvents: int, firstDate: Option<Date>, lastDate: Option<Date>)

  function ResponseFor(timeline: seq<TimelineEvent>): (r: TimelineResponse)
  {
    if timeline == [] then TimelineResponse(timeline, 0, None, None)
    else TimelineResponse(timeline, |timeline|, Some(timeline[0].date), Some(timeline[|timeline| - 1].date))
  }

  /** `extract_timeline_events` on the text of a document. */
  method ExtractTimelineEvents(text: String, found: seq<DateMatch>) returns (response: TimelineResponse)
    ensures response == ResponseFor(TimelineOf(EventFor, text, found))
  {
    var timeline := ExtractTimeline(text, found);
    if timeline != [] {
      response := TimelineResponse(timeline, |timeline|, Some(timeline[0].date), Some(timeline[|timeline| - 1].date));
    } else {
      response := TimelineResponse(timeline, |timeline|, None, None);
    }
  }

  /** The response counts the timeline's events, and its date range is empty
      exactly for an empty timeline; for a timeline in date order both ends
      are dates of events and every event lies between them. */
  lemma ResponseSpec(t: seq<TimelineEvent>)
    ensures var r := ResponseFor(t);
            && r.timeline == t
            && r.totalEvents == |t|
            && (r.firstDate.None? <==> t == [])
            && (r.lastDate.None? <==> t == [])
            && (t != [] ==>
                  (exists i :: 0 <= i < |t| && t[i].date == r.firstDate.value)
                  && (exists i :: 0 <= i < |t| && t[i].date == r.lastDate.value))
            && (t != [] && SortedByDate(t) ==>
                  forall e :: e in t ==> DateLe(r.firstDate.value, e.date) && DateLe(e.date, r.lastDate.value))
  {
    if t != [] && SortedByDate(t) {
      forall e | e in t ensures DateLe(t[0].date, e.date) && DateLe(e.date, t[|t| - 1].date) {
        var k :| 0 <= k < |t| && t[k] == e;
        DateOrder(e.date, e.date, e.date);
      }
    }
  }
}
