/** Character and string operations the analyzers apply to document text:
    Python's `str.strip`, `str.lower`, `in`, `str.find`, `str.rfind`, slicing
    with clipped bounds, and the clipped context window cut around a match. */
module Text {
  import opened Seqs

  type String = seq<char>

  /** A match record from the (unmodelled) regular-expression engine: the span
      `[start, end)` of the full text and the matched string. */
  datatype Match = Match(start: nat, end: nat, text: String)

  /** A match that really is the text between its offsets. */
  predicate MatchIn(m: Match, full: String)
  {
    m.start <= m.end <= |full| && full[m.start..m.end] == m.text
  }

  /** Python's `str.isspace` set: the code points `strip()` removes. */
  predicate IsSpace(c: char)
  {
    var n := c as int;
    (9 <= n <= 13) || (28 <= n <= 32) || n == 0x85 || n == 0xA0 || n == 0x1680
    || (0x2000 <= n <= 0x200A) || n == 0x2028 || n == 0x2029 || n == 0x202F
    || n == 0x205F || n == 0x3000
  }

  function StripLeft(s: String): String
  {
    if s != [] && IsSpace(s[0]) then StripLeft(s[1..]) else s
  }

  function StripRight(s: String): String
  {
    if s != [] && IsSpace(s[|s| - 1]) then StripRight(s[..|s| - 1]) else s
  }

  /** Python's `s.strip()`: drop leading and trailing whitespace. */
  function Strip(s: String): String
  {
    StripRight(StripLeft(s))
  }

  /** `lstrip` keeps a suffix that does not start with whitespace, and only
      whitespace goes. */
  lemma {:induction false} StripLeftSuffix(s: String)
    ensures var r := StripLeft(s);
            |r| <= |s| && r == s[|s| - |r|..]
            && (r != [] ==> !IsSpace(r[0]))
            && (forall i :: 0 <= i < |s| - |r| ==> IsSpace(s[i]))
  {
    var r := StripLeft(s);
    if s != [] && IsSpace(s[0]) {
      var t := s[1..];
      StripLeftSuffix(t);
      assert r == StripLeft(t);
      var k := |s| - |r|;
      assert t[k - 1..] == s[k..];
      forall i | 0 <= i < k ensures IsSpace(s[i]) {
        if i > 0 {
          assert s[i] == t[i - 1];
        }
      }
    } else {
      assert r == s && s[0..] == s;
    }
  }

  /** `rstrip` keeps a prefix that does not end with whitespace, and only
      whitespace goes. */
  lemma {:induction false} StripRightPrefix(s: String)
    ensures var r := StripRight(s);
            |r| <= |s| && r == s[..|r|]
            && (r != [] ==> !IsSpace(r[|r| - 1]))
            && (forall i :: |r| <= i < |s| ==> IsSpace(s[i]))
  {
    var r := StripRight(s);
    if s != [] && IsSpace(s[|s| - 1]) {
      var t := s[..|s| - 1];
      StripRightPrefix(t);
      assert r == StripRight(t);
      assert t[..|r|] == s[..|r|];
      forall i | |r| <= i < |s| ensures IsSpace(s[i]) {
        if i < |t| {
          assert s[i] == t[i];
        }
      }
    } else {
      assert r == s && s[..|s|] == s;
    }
  }

  /** What is left is a contiguous piece of the input with no whitespace at either end,
      and only whitespace was removed. */
  lemma StripIsTrimmedInfix(s: String)
    ensures exists i :: OccursAt(s, Strip(s), i)
    ensures Strip(s) != [] ==> !IsSpace(Strip(s)[0]) && !IsSpace(Strip(s)[|Strip(s)| - 1])
    ensures Strip(s) == [] <==> forall i :: 0 <= i < |s| ==> IsSpace(s[i])
  {
    var l := StripLeft(s);
    StripLeftSuffix(s);
    var k := |s| - |l|;
    var r := StripRight(l);
    StripRightPrefix(l);
    assert s[k..][..|r|] == r;
    assert OccursAt(s, r, k);
    if r == [] {
      assert l == [];
    }
    if r != [] {
      assert l != [] && r[0] == l[0] && l[0] == s[k];
      assert !IsSpace(s[k]);
    }
    assert r == Strip(s);
    assert OccursAt(s, Strip(s), k);
  }

  /** A piece of a piece of s is a piece of s. */
  lemma OccursTransitive(s: String, t: String, a: nat, u: String, b: nat)
    requires OccursAt(s, t, a) && OccursAt(t, u, b)
    ensures OccursAt(s, u, a + b)
  {
    forall j | 0 <= j < |u| ensures u[j] == s[a + b + j] {
      assert u[j] == t[b + j];
      assert t[b + j] == s[a + b + j];
    }
  }

  /** Text without whitespace at either end is left unchanged. */
  lemma StripTrimmed(s: String)
    requires s != [] ==> !IsSpace(s[0]) && !IsSpace(s[|s| - 1])
    ensures Strip(s) == s
  {
  }

  function LowerChar(c: char): char
  {
    if 'A' <= c <= 'Z' then (c as int + 32) as char else c
  }

  /** Python's `str.lower()`, on the ASCII letters. */
  function Lower(s: String): (r: String)
    ensures |r| == |s|
    ensures forall i :: 0 <= i < |s| ==> r[i] == LowerChar(s[i])
  {
    if s == [] then [] else Lower(s[..|s| - 1]) + [LowerChar(s[|s| - 1])]
  }

  /** `sub` occurs in `s` starting at index i. */
  predicate OccursAt(s: String, sub: String, i: int)
  {
    0 <= i <= |s| - |sub| && s[i..i + |sub|] == sub
  }

  /** Python's `sub in s`. */
  predicate Contains(s: String, sub: String)
  {
    exists i | 0 <= i <= |s| - |sub| :: OccursAt(s, sub, i)
  }

  /** First index at or after `from` where `sub` occurs, if any. */
  function FindFrom(s: String, sub: String, from: nat): (r: int)
    requires from <= |s|
    ensures r == -1 || (from <= r && OccursAt(s, sub, r))
    ensures r == -1 ==> forall i :: from <= i ==> !OccursAt(s, sub, i)
    ensures r != -1 ==> forall i :: from <= i < r ==> !OccursAt(s, sub, i)
    decreases |s| - from
  {
    if |s| - from < |sub| then -1
    else if s[from..from + |sub|] == sub then from
    else FindFrom(s, sub, from + 1)
  }

  /** Python's `s.find(sub)`: the first occurrence, or -1. */
  function Find(s: String, sub: String): (r: int)
    ensures r == -1 <==> !Contains(s, sub)
    ensures r != -1 ==> OccursAt(s, sub, r)
    ensures r != -1 ==> forall i :: 0 <= i < r ==> !OccursAt(s, sub, i)
  {
    FindFrom(s, sub, 0)
  }

  /** Python's `s.find(c, from)` for one character: the first index `>= from`
      holding c, or -1. */
  function IndexOfFrom(s: String, c: char, from: nat): (r: int)
    ensures r == -1 || (from <= r < |s| && s[r] == c)
    ensures r == -1 ==> forall i :: from <= i < |s| ==> s[i] != c
    ensures r != -1 ==> forall i :: from <= i < r ==> s[i] != c
    decreases |s| - from
  {
    if from >= |s| then -1
    else if s[from] == c then from
    else IndexOfFrom(s, c, from + 1)
  }

  /** Python's `s.rfind(c, 0, hi)` for one character: the last index `< hi`
      holding c, or -1. */
  function LastIndexBefore(s: String, c: char, hi: nat): (r: int)
    ensures r == -1 || (0 <= r < hi && r < |s| && s[r] == c)
    ensures r == -1 ==> forall i :: 0 <= i < hi && i < |s| ==> s[i] != c
    ensures r != -1 ==> forall i :: r < i < hi && i < |s| ==> s[i] != c
  {
    if hi == 0 then -1
    else if hi - 1 < |s| && s[hi - 1] == c then hi - 1
    else LastIndexBefore(s, c, hi - 1)
  }

  /** Characters the regular-expression word boundary treats as word
      characters (ASCII letters, digits and the underscore). */
  predicate IsWordChar(c: char)
  {
    ('a' <= c <= 'z') || ('A' <= c <= 'Z') || ('0' <= c <= '9') || c == '_'
  }

  /** A word character just before position i. */
  predicate WordBefore(s: String, i: int)
  {
    0 < i <= |s| && IsWordChar(s[i - 1])
  }

  /** A word character at position i. */
  predicate WordAt(s: String, i: int)
  {
    0 <= i < |s| && IsWordChar(s[i])
  }

  /** `\bw\b` matches at i, ignoring case, for a lower-case literal w that
      starts and ends with a word character (so the two boundaries are "no
      word character before" and "no word character after"). */
  predicate WholeWordAt(s: String, w: String, i: int)
  {
    OccursAt(Lower(s), w, i) && !WordBefore(s, i) && !WordAt(s, i + |w|)
  }

  /** `re.search(r'\b(?:w1|w2|...)\b', s, re.IGNORECASE)` finds a match:
      one of the alternatives occurs as a whole word. */
  predicate HasWord(s: String, words: seq<String>)
  {
    exists k, i :: 0 <= k < |words| && 0 <= i <= |s| && WholeWordAt(s, words[k], i)
  }

  /** A search of a text for any of a list of alternatives. The analyzers'
      rules are stated for every search; the analyzers' own search is
      `HasWord`. */
  type Search = (String, seq<String>) -> bool

  /** The ASCII digits. */
  predicate IsDigit(c: char)
  {
    '0' <= c <= '9'
  }

  /** The sentence terminators '.', '!' and '?' (the class `[.!?]`). */
  predicate IsSentenceEnd(c: char)
  {
    c == '.' || c == '!' || c == '?'
  }

  /** Python's `s[lo:hi]` for non-negative bounds: both are clipped to the text. */
  function Slice(s: String, lo: nat, hi: nat): (r: String)
  {
    var h := Min(hi, |s|);
    if lo >= h then [] else s[lo..h]
  }

  /** Within the text, the clipped slice is the plain subsequence. */
  lemma SliceWithin(s: String, lo: nat, hi: nat)
    requires lo <= hi <= |s|
    ensures Slice(s, lo, hi) == s[lo..hi]
  {
  }

  /** The window `s[max(0, start - w) : min(len(s), end + w)]` around a match. */
  function Window(s: String, m: Match, w: nat): (r: String)
  {
    Slice(s, Max(0, m.start - w), Min(|s|, m.end + w))
  }

  /** The window holds the matched text at the offset the match had, extends at
      most w characters on either side, and is a piece of the text. */
  lemma WindowAroundMatch(s: String, m: Match, w: nat)
    requires MatchIn(m, s)
    ensures var lo := Max(0, m.start - w);
      && |Window(s, m, w)| <= |m.text| + 2 * w
      && lo <= m.start
      && Window(s, m, w)[m.start - lo..m.end - lo] == m.text
      && Window(s, m, w) == s[lo..lo + |Window(s, m, w)|]
  {
    var lo := Max(0, m.start - w);
    var hi := Min(|s|, m.end + w);
    assert Window(s, m, w) == s[lo..hi];
  }

  /** The stripped window is a piece of the text no longer than the match plus 2w. */
  lemma StrippedWindowBounded(s: String, m: Match, w: nat)
    requires MatchIn(m, s)
    ensures |Strip(Window(s, m, w))| <= |m.text| + 2 * w
    ensures Contains(s, Strip(Window(s, m, w)))
  {
    var win := Window(s, m, w);
    var lo := Max(0, m.start - w);
    WindowAroundMatch(s, m, w);
    assert OccursAt(s, win, lo);
    StripIsTrimmedInfix(win);
    var st := Strip(win);
    var i :| OccursAt(win, st, i);
    OccursTransitive(s, win, lo, st, i);
  }

  /** Lowering the text of a match lowers the matching piece of the text. */
  lemma LowerSlice(s: String, i: nat, j: nat)
    requires i <= j <= |s|
    ensures Lower(s[i..j]) == Lower(s)[i..j]
  {
    var t := s[i..j];
    var l, full := Lower(t), Lower(s);
    forall k | 0 <= k < j - i ensures l[k] == full[i + k] {
      assert t[k] == s[i + k];
      assert l[k] == LowerChar(t[k]);
      assert full[i + k] == LowerChar(s[i + k]);
    }
    assert l == full[i..j];
  }
}
