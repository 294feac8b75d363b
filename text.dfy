/**
 * The string operations of Python that the parser, the emitter and the reconciler
 * rely on: character classes, ASCII case mapping, substring search, whitespace
 * tokenisation (str.split), stripping, line splitting (str.splitlines), comma
 * removal, and the int()/float()/str() conversions, all written out on seq<char>.
 */
module Text {
  import opened Wrappers

  // ---------------------------------------------------------------------------
  // Character classes (ASCII for letters and digits)
  // ---------------------------------------------------------------------------

  predicate IsDigit(c: char) { '0' <= c <= '9' }
  predicate IsUpper(c: char) { 'A' <= c <= 'Z' }
  predicate IsLower(c: char) { 'a' <= c <= 'z' }
  predicate IsLetter(c: char) { IsUpper(c) || IsLower(c) }

  /** The characters \w and \b treat as word characters. */
  predicate IsWordChar(c: char) { IsLetter(c) || IsDigit(c) || c == '_' }

  /** Python's str.isspace(); str.split(), str.strip() and the regex class \s use the same set. */
  predicate IsSpace(c: char) {
    || c == ' '
    || ('\t' <= c <= '\r')
    || ('\U{1C}' <= c <= '\U{1F}')
    || c == '\U{85}' || c == '\U{A0}' || c == '\U{1680}'
    || ('\U{2000}' <= c <= '\U{200A}')
    || c == '\U{2028}' || c == '\U{2029}' || c == '\U{202F}' || c == '\U{205F}' || c == '\U{3000}'
  }


  /** The line boundaries at which Python's str.splitlines() cuts. */
  predicate IsLineBreak(c: char) {
    || c == '\n' || c == '\r' || c == '\U{0B}' || c == '\U{0C}'
    || ('\U{1C}' <= c <= '\U{1E}')
    || c == '\U{85}' || c == '\U{2028}' || c == '\U{2029}'
  }

  /** String letters and whitespace, the class [A-Z\s] under IGNORECASE. */
  predicate IsLetterOrSpace(c: char) { IsLetter(c) || IsSpace(c) }

  /** The character classes whose maximal runs are taken (see Runs). */
  datatype CharClass = NonSpace | Digit | WordChar

  predicate In(c: char, k: CharClass) {
    match k
    case NonSpace => !IsSpace(c)
    case Digit => IsDigit(c)
    case WordChar => IsWordChar(c)
  }

  lemma LineBreakIsSpace(c: char)
    requires IsLineBreak(c)
    ensures IsSpace(c)
  {
  }

  // ---------------------------------------------------------------------------
  // ASCII case mapping
  // ---------------------------------------------------------------------------

  function UpperChar(c: char): char {
    if IsLower(c) then (c as int - 32) as char else c
  }

  function LowerChar(c: char): char {
    if IsUpper(c) then (c as int + 32) as char else c
  }

  /** str.upper(), restricted to ASCII letters. */
  function Upper(s: string): (r: string)
    ensures |r| == |s|
    ensures forall i :: 0 <= i < |s| ==> r[i] == UpperChar(s[i])
  {
    seq(|s|, i requires 0 <= i < |s| => UpperChar(s[i]))
  }

  /** str.lower(), restricted to ASCII letters. */
  function Lower(s: string): (r: string)
    ensures |r| == |s|
    ensures forall i :: 0 <= i < |s| ==> r[i] == LowerChar(s[i])
  {
    seq(|s|, i requires 0 <= i < |s| => LowerChar(s[i]))
  }

  lemma UpperSlice(s: string, i: int, j: int)
    requires 0 <= i <= j <= |s|
    ensures Upper(s)[i..j] == Upper(s[i..j])
  {
  }

  // ---------------------------------------------------------------------------
  // Substrings
  // ---------------------------------------------------------------------------

  predicate OccursAt(s: string, t: string, i: int) {
    0 <= i && i + |t| <= |s| && s[i..i + |t|] == t
  }

  /** Python's `t in s`. */
  predicate Contains(s: string, t: string) {
    exists i :: 0 <= i <= |s| - |t| && OccursAt(s, t, i)
  }

  /** t occurs at position i of s.upper(), compared character by character. */
  predicate OccursAtUpper(s: string, t: string, i: int) {
    0 <= i && i + |t| <= |s| && forall k {:trigger t[k]} :: 0 <= k < |t| ==> UpperChar(s[i + k]) == t[k]
  }

  lemma OccursAtUpperMeaning(s: string, t: string, i: int)
    ensures OccursAtUpper(s, t, i) <==> OccursAt(Upper(s), t, i)
  {
    if 0 <= i && i + |t| <= |s| {
      var u := Upper(s)[i..i + |t|];
      forall k | 0 <= k < |t| ensures u[k] == UpperChar(s[i + k]) {
        assert u[k] == Upper(s)[i + k];
      }
    }
  }

  /** Python's `t in s.upper()` for an upper-case literal t. */
  predicate ContainsUpper(s: string, t: string) {
    exists i :: 0 <= i <= |s| - |t| && OccursAtUpper(s, t, i)
  }

  lemma ContainsUpperMeaning(s: string, t: string)
    ensures ContainsUpper(s, t) <==> Contains(Upper(s), t)
  {
    forall i ensures OccursAtUpper(s, t, i) <==> OccursAt(Upper(s), t, i) {
      OccursAtUpperMeaning(s, t, i);
    }
  }

  /** Python's s.upper().startswith(t) for an upper-case literal t. */
  predicate StartsWithUpper(s: string, t: string) {
    OccursAtUpper(s, t, 0)
  }

  predicate StartsWith(s: string, p: string) {
    |p| <= |s| && s[..|p|] == p
  }

  predicate EndsWith(s: string, p: string) {
    |p| <= |s| && s[|s| - |p|..] == p
  }

  // ---------------------------------------------------------------------------
  // Runs of characters: str.split() and the regex searches are built on these
  // ---------------------------------------------------------------------------

  /** Length of the longest prefix of s whose characters all are in class keep. */
  function SpanLen(s: string, keep: CharClass): (n: nat)
    ensures n <= |s|
    ensures forall i {:trigger In(s[i], keep)} :: 0 <= i < n ==> In(s[i], keep)
    ensures n < |s| ==> !In(s[n], keep)
  {
    if s == [] || !In(s[0], keep) then 0 else 1 + SpanLen(s[1..], keep)
  }

  // The scans below are written once per character class rather than over a
  // class parameter: the solver then never mixes the facts about two scans.

  /** The end of the whitespace run that starts at index i. */
  function SpaceEnd(s: string, i: nat): (j: nat)
    requires i <= |s|
    ensures i <= j <= |s|
    ensures forall k :: i <= k < j ==> IsSpace(s[k])
    ensures j < |s| ==> !IsSpace(s[j])
    decreases |s| - i
  {
    if i == |s| || !IsSpace(s[i]) then i else SpaceEnd(s, i + 1)
  }

  /** The end of the ASCII digit run that starts at index i. */
  function DigitEnd(s: string, i: nat): (j: nat)
    requires i <= |s|
    ensures i <= j <= |s|
    ensures forall k :: i <= k < j ==> IsDigit(s[k])
    ensures j < |s| ==> !IsDigit(s[j])
    decreases |s| - i
  {
    if i == |s| || !IsDigit(s[i]) then i else DigitEnd(s, i + 1)
  }

  /** Length of the leading ASCII digits of s. */
  function DigitSpan(s: string): (n: nat)
    ensures n <= |s|
    ensures forall i :: 0 <= i < n ==> IsDigit(s[i])
    ensures n < |s| ==> !IsDigit(s[n])
  {
    DigitEnd(s, 0)
  }

  /** Length of the leading upper-case ASCII letters of s. */
  function UpperSpan(s: string): (n: nat)
    ensures n <= |s|
    ensures forall i :: 0 <= i < n ==> IsUpper(s[i])
    ensures n < |s| ==> !IsUpper(s[n])
  {
    if s == [] || !IsUpper(s[0]) then 0 else 1 + UpperSpan(s[1..])
  }

  /** Length of the leading letters and whitespace of s. */
  function LabelSpan(s: string): (n: nat)
    ensures n <= |s|
    ensures forall i :: 0 <= i < n ==> IsLetterOrSpace(s[i])
    ensures n < |s| ==> !IsLetterOrSpace(s[n])
  {
    if s == [] || !IsLetterOrSpace(s[0]) then 0 else 1 + LabelSpan(s[1..])
  }

  /** Length of s up to its first line boundary. */
  function LineSpan(s: string): (n: nat)
    ensures n <= |s|
    ensures forall i :: 0 <= i < n ==> !IsLineBreak(s[i])
    ensures n < |s| ==> IsLineBreak(s[n])
  {
    if s == [] || IsLineBreak(s[0]) then 0 else 1 + LineSpan(s[1..])
  }

  predicate IsExpMark(c: char) { c == 'e' || c == 'E' }

  /** The index of the first exponent mark at or after i, |s| if there is none. */
  function ExpMarkFrom(s: string, i: nat): (j: nat)
    requires i <= |s|
    ensures i <= j <= |s|
    ensures forall k :: i <= k < j ==> !IsExpMark(s[k])
    ensures j < |s| ==> IsExpMark(s[j])
    decreases |s| - i
  {
    if i == |s| || IsExpMark(s[i]) then i else ExpMarkFrom(s, i + 1)
  }

  /** The index of the first c in s[i..j], j if there is none. */
  function CharFrom(s: string, i: nat, j: nat, c: char): (k: nat)
    requires i <= j <= |s|
    ensures i <= k <= j
    ensures forall m :: i <= m < k ==> s[m] != c
    ensures k < j ==> s[k] == c
    decreases j - i
  {
    if i == j || s[i] == c then i else CharFrom(s, i + 1, j, c)
  }

  /** s[i..j] is a maximal run of characters satisfying keep. */
  predicate IsRun(s: string, keep: CharClass, i: int, j: int) {
    && 0 <= i < j <= |s|
    && (i == 0 || !In(s[i - 1], keep))
    && (j == |s| || !In(s[j], keep))
    && forall m :: i <= m < j ==> In(s[m], keep)
  }

  /** The maximal runs of characters satisfying keep, from left to right. */
  function Runs(s: string, keep: CharClass): seq<string>
    decreases |s|
  {
    if s == [] then []
    else if !In(s[0], keep) then Runs(s[1..], keep)
    else
      var n := SpanLen(s, keep);
      [s[..n]] + Runs(s[n..], keep)
  }

  /** A maximal run of s[k..] is a maximal run of s, shifted by k. */
  lemma RunShift(s: string, keep: CharClass, k: int, i: int, j: int)
    requires 0 <= k <= |s|
    requires IsRun(s[k..], keep, i, j)
    requires i > 0 || k == 0 || !In(s[k - 1], keep)
    ensures IsRun(s, keep, i + k, j + k) && s[i + k..j + k] == s[k..][i..j]
  {
  }

  /** A maximal run of s that starts after k is a maximal run of s[k..]. */
  lemma RunUnshift(s: string, keep: CharClass, k: int, i: int, j: int)
    requires 0 <= k <= |s|
    requires IsRun(s, keep, i, j) && i >= k
    requires i > k || k == 0 || !In(s[k - 1], keep)
    ensures IsRun(s[k..], keep, i - k, j - k) && s[k..][i - k..j - k] == s[i..j]
  {
    var t := s[k..];
    assert forall m :: 0 <= m < |t| ==> t[m] == s[m + k];
    assert i - k > 0 ==> t[i - k - 1] == s[i - 1];
    assert j - k < |t| ==> t[j - k] == s[j];
    assert forall m :: i - k <= m < j - k ==> In(t[m], keep) by {
      forall m | i - k <= m < j - k ensures In(t[m], keep) {
        assert t[m] == s[m + k];
      }
    }
  }

  /** Every element of Runs is a maximal run. */
  lemma {:induction false} RunsSound(s: string, keep: CharClass, w: string)
    requires w in Runs(s, keep)
    ensures exists i, j :: IsRun(s, keep, i, j) && s[i..j] == w
    decreases |s|
  {
    if !In(s[0], keep) {
      RunsSound(s[1..], keep, w);
      var i, j :| IsRun(s[1..], keep, i, j) && s[1..][i..j] == w;
      RunShift(s, keep, 1, i, j);
    } else {
      var n := SpanLen(s, keep);
      if w != s[..n] {
        RunsSound(s[n..], keep, w);
        var i, j :| IsRun(s[n..], keep, i, j) && s[n..][i..j] == w;
        assert !In(s[n..][0], keep);
        assert i != 0;
        RunShift(s, keep, n, i, j);
      } else {
        assert IsRun(s, keep, 0, n);
      }
    }
  }

  /** Every maximal run is an element of Runs. */
  lemma {:induction false} RunsComplete(s: string, keep: CharClass, i: int, j: int)
    requires IsRun(s, keep, i, j)
    ensures s[i..j] in Runs(s, keep)
    decreases |s|
  {
    var n := if In(s[0], keep) then SpanLen(s, keep) else 1;
    if In(s[0], keep) && i == 0 {
      RunAtStart(s, keep, j);
      RunsHead(s, keep);
    } else {
      assert n <= i by {
        assert In(s[i], keep);
        assert i > 0 ==> !In(s[i - 1], keep);
      }
      RunUnshift(s, keep, n, i, j);
      RunsComplete(s[n..], keep, i - n, j - n);
      SliceOfSuffix(s, n, i - n, j - n);
      RunsOfSuffix(s, keep, n, s[i..j]);
    }
  }

  /** The first span of s is its first run. */
  lemma RunsHead(s: string, keep: CharClass)
    requires s != [] && In(s[0], keep)
    ensures s[0..SpanLen(s, keep)] in Runs(s, keep)
  {
    assert s[0..SpanLen(s, keep)] == s[..SpanLen(s, keep)];
  }

  /** A run of the rest of s after its first span (or first character) is a run in Runs(s). */
  lemma RunsOfSuffix(s: string, keep: CharClass, n: int, w: string)
    requires s != [] && n == (if In(s[0], keep) then SpanLen(s, keep) else 1)
    requires w in Runs(s[n..], keep)
    ensures w in Runs(s, keep)
  {
    if In(s[0], keep) {
      var rest := Runs(s[n..], keep);
      assert Runs(s, keep) == [s[..n]] + rest;
      InRight([s[..n]], rest, w);
    } else {
      assert Runs(s, keep) == Runs(s[1..], keep);
    }
  }

  lemma InRight<T>(a: seq<T>, b: seq<T>, x: T)
    requires x in b
    ensures x in a + b
  {
    var k :| 0 <= k < |b| && b[k] == x;
    assert (a + b)[|a| + k] == x;
  }

  lemma SliceOfSuffix(s: string, a: int, i: int, j: int)
    requires 0 <= a <= |s| && 0 <= i <= j <= |s| - a
    ensures s[a..][i..j] == s[a + i..a + j]
  {
  }

  /** A maximal run at the start of s is the span SpanLen measures. */
  lemma RunAtStart(s: string, keep: CharClass, j: int)
    requires IsRun(s, keep, 0, j)
    ensures j == SpanLen(s, keep)
  {
    var n := SpanLen(s, keep);
    assert j < |s| ==> !In(s[j], keep);
    assert n < |s| ==> !In(s[n], keep);
  }

  /** The runs Runs lists are exactly the maximal runs of s. */
  lemma RunsAreMaximalRuns(s: string, keep: CharClass, w: string)
    ensures w in Runs(s, keep) <==> exists i, j :: IsRun(s, keep, i, j) && s[i..j] == w
  {
    if w in Runs(s, keep) {
      RunsSound(s, keep, w);
    }
    if exists i, j :: IsRun(s, keep, i, j) && s[i..j] == w {
      var i, j :| IsRun(s, keep, i, j) && s[i..j] == w;
      RunsComplete(s, keep, i, j);
    }
  }

  /** Python's str.split() with no argument: the maximal runs of non-whitespace. */
  function Tokens(s: string): seq<string> {
    Runs(s, NonSpace)
  }

  /** sep.join(ws) */
  function Join(ws: seq<string>, sep: string): string {
    if ws == [] then "" else if |ws| == 1 then ws[0] else ws[0] + sep + Join(ws[1..], sep)
  }

  // ---------------------------------------------------------------------------
  // Stripping and line splitting
  // ---------------------------------------------------------------------------

  /** The index just past the last non-whitespace character of s[a..j], a if there is none. */
  function TrailEnd(s: string, a: nat, j: nat): (b: nat)
    requires a <= j <= |s|
    ensures a <= b <= j
    ensures forall k :: b <= k < j ==> IsSpace(s[k])
    ensures b > a ==> !IsSpace(s[b - 1])
    decreases j - a
  {
    if j > a && IsSpace(s[j - 1]) then TrailEnd(s, a, j - 1) else j
  }

  /** str.strip(): s without its leading and trailing whitespace. */
  function Strip(s: string): string {
    var a := SpaceEnd(s, 0);
    s[a..TrailEnd(s, a, |s|)]
  }

  /**
   * Strip keeps a slice of s that neither starts nor ends with whitespace,
   * and everything it drops is whitespace; it is "" exactly when s is all
   * whitespace.
   */
  lemma StripMeaning(s: string)
    ensures var a := SpaceEnd(s, 0);
      var b := TrailEnd(s, a, |s|);
      && Strip(s) == s[a..b]
      && (forall k :: 0 <= k < a ==> IsSpace(s[k]))
      && (forall k :: b <= k < |s| ==> IsSpace(s[k]))
      && (a < b ==> !IsSpace(s[a]) && !IsSpace(s[b - 1]))
    ensures Strip(s) == [] <==> forall k :: 0 <= k < |s| ==> IsSpace(s[k])
  {
    var a := SpaceEnd(s, 0);
    var b := TrailEnd(s, a, |s|);
    if a == |s| {
      assert b == a;
    }
    if Strip(s) == [] {
      assert b == a;
      assert a == |s|;
    }
  }

  lemma StripNoSpace(s: string)
    requires forall i :: 0 <= i < |s| ==> !IsSpace(s[i])
    ensures Strip(s) == s
  {
    assert SpaceEnd(s, 0) == 0;
    assert TrailEnd(s, 0, |s|) == |s|;
    assert s[0..|s|] == s;
  }

  /** A string that neither starts nor ends with whitespace is its own strip. */
  lemma StripNoEdges(s: string)
    requires |s| > 0 && !IsSpace(s[0]) && !IsSpace(s[|s| - 1])
    ensures Strip(s) == s
  {
    StripMeaning(s);
    var a := SpaceEnd(s, 0);
    var b := TrailEnd(s, a, |s|);
    assert a == 0;
    assert b == |s|;
    assert s[0..|s|] == s;
  }

  /** Python's str.splitlines(): no trailing empty line, "\r\n" is one boundary. */
  function SplitLines(s: string): seq<string>
    decreases |s|
  {
    if s == [] then []
    else
      var n := LineSpan(s);
      if n == |s| then [s]
      else
        var brk := if s[n] == '\r' && n + 1 < |s| && s[n + 1] == '\n' then 2 else 1;
        [s[..n]] + SplitLines(s[n + brk..])
  }

  /** s with every occurrence of c removed (str.replace(c, "")). */
  function RemoveChar(s: string, c: char): (r: string)
    ensures |r| <= |s|
    ensures forall i :: 0 <= i < |r| ==> r[i] != c
  {
    if s == [] then [] else (if s[0] == c then [] else [s[0]]) + RemoveChar(s[1..], c)
  }

  lemma {:induction false} RemoveCharAbsent(s: string, c: char)
    requires forall i :: 0 <= i < |s| ==> s[i] != c
    ensures RemoveChar(s, c) == s
  {
    if s != [] {
      RemoveCharAbsent(s[1..], c);
    }
  }

  /** str.replace(",", "") */
  function RemoveCommas(s: string): string {
    RemoveChar(s, ',')
  }

  // ---------------------------------------------------------------------------
  // Numbers: str(int), int(str) and float(str)
  // ---------------------------------------------------------------------------

  predicate AllDigits(s: string) {
    forall i :: 0 <= i < |s| ==> IsDigit(s[i])
  }

  function DigitValue(c: char): nat
    requires IsDigit(c)
  {
    c as int - '0' as int
  }

  function DigitChar(d: nat): (c: char)
    requires d < 10
    ensures IsDigit(c) && DigitValue(c) == d
  {
    ('0' as int + d) as char
  }

  function DigitsValue(s: string): nat
    requires AllDigits(s)
  {
    if s == [] then 0 else DigitsValue(s[..|s| - 1]) * 10 + DigitValue(s[|s| - 1])
  }

  /** str(n) for a natural number: decimal digits, no leading zero. */
  function NatToString(n: nat): (r: string)
    ensures |r| >= 1 && AllDigits(r)
    ensures DigitsValue(r) == n
    ensures r[0] == '0' ==> n == 0
  {
    if n < 10 then [DigitChar(n)]
    else
      var p := NatToString(n / 10);
      var r := p + [DigitChar(n % 10)];
      assert r[..|r| - 1] == p;
      r
  }

  /** str(i) for an int. */
  function IntToString(i: int): string {
    if i < 0 then "-" + NatToString(-i) else NatToString(i)
  }

  /** The digits-and-underscores body int() accepts: an underscore only between digits. */
  predicate IntBodyCharOk(b: string, i: int)
    requires 0 <= i < |b|
  {
    IsDigit(b[i]) || (b[i] == '_' && 0 < i < |b| - 1 && IsDigit(b[i - 1]) && IsDigit(b[i + 1]))
  }

  predicate IsIntBody(b: string) {
    |b| >= 1 && forall i :: 0 <= i < |b| ==> IntBodyCharOk(b, i)
  }

  /** Python's int(s): surrounding whitespace, an optional sign, digits with single underscores. */
  function ParseInt(s: string): (r: Option<int>)
    ensures r.Some? ==> Strip(s) != []
  {
    var t := Strip(s);
    if t == [] then None
    else
      var body := if t[0] == '-' || t[0] == '+' then t[1..] else t;
      if !IsIntBody(body) then None
      else
        var digits := RemoveChar(body, '_');
        assert AllDigits(digits) by {
          IntBodyChars(body);
          IntBodyDigits(body);
        }
        var v: int := DigitsValue(digits);
        Some(if t[0] == '-' then -v else v)
  }

  lemma IntBodyChars(b: string)
    requires IsIntBody(b)
    ensures forall i :: 0 <= i < |b| ==> IsDigit(b[i]) || b[i] == '_'
  {
    forall i | 0 <= i < |b| ensures IsDigit(b[i]) || b[i] == '_' {
      assert IntBodyCharOk(b, i);
    }
  }

  lemma {:induction false} IntBodyDigits(b: string)
    requires forall i :: 0 <= i < |b| ==> IsDigit(b[i]) || b[i] == '_'
    ensures AllDigits(RemoveChar(b, '_'))
  {
    if b != [] {
      IntBodyDigits(b[1..]);
    }
  }

  /** int() of a digit string, possibly after a minus sign, reads back its value. */
  lemma ParseIntOfDigits(d: string, neg: bool)
    requires |d| >= 1 && AllDigits(d)
    ensures var v: int := DigitsValue(d);
      ParseInt(if neg then "-" + d else d) == Some(if neg then -v else v)
  {
    var s := if neg then "-" + d else d;
    DigitsParseFacts(d, neg);
    ParseIntStripped(s, d, neg);
  }

  lemma DigitsParseFacts(d: string, neg: bool)
    requires |d| >= 1 && AllDigits(d)
    ensures Strip(if neg then "-" + d else d) == (if neg then "-" + d else d)
    ensures IsIntBody(d) && RemoveChar(d, '_') == d
  {
    SignedDigitsNoSpace(d, neg);
    StripNoSpace(if neg then "-" + d else d);
    DigitsIntBody(d);
  }

  lemma DigitsIntBody(d: string)
    requires |d| >= 1 && AllDigits(d)
    ensures IsIntBody(d) && RemoveChar(d, '_') == d
  {
    assert forall i :: 0 <= i < |d| ==> IntBodyCharOk(d, i);
    assert forall i :: 0 <= i < |d| ==> d[i] != '_';
    RemoveCharAbsent(d, '_');
  }

  lemma SignedDigitsNoSpace(d: string, neg: bool)
    requires AllDigits(d)
    ensures var s := if neg then "-" + d else d;
      forall i :: 0 <= i < |s| ==> !IsSpace(s[i])
  {
    var s := if neg then "-" + d else d;
    forall i | 0 <= i < |s| ensures !IsSpace(s[i]) {
      if neg && i == 0 { assert s[i] == '-'; } else { assert IsDigit(s[i]); }
    }
  }

  lemma ParseIntStripped(s: string, d: string, neg: bool)
    requires |d| >= 1 && AllDigits(d) && s == (if neg then "-" + d else d)
    requires Strip(s) == s && IsIntBody(d) && RemoveChar(d, '_') == d
    ensures var v: int := DigitsValue(d);
      ParseInt(s) == Some(if neg then -v else v)
  {
    assert neg ==> s[1..] == d;
    assert (if s[0] == '-' || s[0] == '+' then s[1..] else s) == d;
  }

  /** int(str(n)) == n */
  lemma ParseIntOfIntToString(n: int)
    ensures ParseInt(IntToString(n)) == Some(n)
  {
    if n < 0 {
      ParseIntOfDigits(NatToString(-n), true);
    } else {
      ParseIntOfDigits(NatToString(n), false);
    }
  }

  function Pow10(n: nat): (p: nat)
    ensures p >= 1
  {
    if n == 0 then 1 else 10 * Pow10(n - 1)
  }


  /** The exponent of a float literal: an optional sign and at least one digit. */
  function ParseExponent(s: string): Option<int> {
    var body := if |s| > 0 && (s[0] == '-' || s[0] == '+') then s[1..] else s;
    if |body| == 0 || !AllDigits(body) then None
    else
      var v: int := DigitsValue(body);
      Some(if |s| > 0 && s[0] == '-' then -v else v)
  }

  /** The value of a decimal mantissa "ip.fp": ip and fp digit strings, not both empty. */
  function MantissaValue(ip: string, fp: string): real
    requires AllDigits(ip) && AllDigits(fp)
  {
    DigitsValue(ip) as real + DigitsValue(fp) as real / Pow10(|fp|) as real
  }

  function Scale(m: real, e: int): real {
    if e >= 0 then m * Pow10(e) as real else m / Pow10(-e) as real
  }

  /**
   * Python's float(s) on finite decimal literals, as an exact rational value:
   * whitespace, an optional sign, digits with an optional point, an optional exponent.
   * The literals nan and inf are absent here (see README).
   */
  function ParseDecimal(s: string): Option<real> {
    var t := Strip(s);
    var a := if |t| > 0 && (t[0] == '-' || t[0] == '+') then 1 else 0;
    var e := ExpMarkFrom(t, a);
    var d := CharFrom(t, a, e, '.');
    var ip := t[a..d];
    var fp := if d < e then t[d + 1..e] else "";
    if !AllDigits(ip) || !AllDigits(fp) || |ip| + |fp| == 0 then None
    else
      var m := MantissaValue(ip, fp);
      var signed := if a == 1 && t[0] == '-' then -m else m;
      if e == |t| then Some(signed)
      else match ParseExponent(t[e + 1..])
        case None => None
        case Some(x) => Some(Scale(signed, x))
  }

  lemma PlainDecimalChars(t: string, n: nat)
    requires 1 <= n <= |t| && AllDigits(t[..n])
    requires n == |t| || (t[n] == '.' && AllDigits(t[n + 1..]))
    ensures forall i :: 0 <= i < |t| ==> !IsSpace(t[i]) && !IsExpMark(t[i]) && (t[i] == '.' <==> i == n)
  {
    forall i | 0 <= i < |t| ensures !IsSpace(t[i]) && !IsExpMark(t[i]) && (t[i] == '.' <==> i == n) {
      if i < n {
        assert t[i] == t[..n][i];
      } else if i > n {
        assert t[i] == t[n + 1..][i - n - 1];
      }
    }
  }

  lemma MantissaNonNegative(ip: string, fp: string)
    requires AllDigits(ip) && AllDigits(fp)
    ensures MantissaValue(ip, fp) >= 0.0
  {
  }

  /** float() of digits with at most one point and no sign, exponent or whitespace. */
  lemma ParseDecimalPlain(t: string, n: nat)
    requires 1 <= n <= |t| && AllDigits(t[..n])
    requires n == |t| || (t[n] == '.' && AllDigits(t[n + 1..]))
    ensures ParseDecimal(t) == Some(MantissaValue(t[..n], if n < |t| then t[n + 1..|t|] else ""))
  {
    PlainDecimalChars(t, n);
    StripNoSpace(t);
    assert t[0] == t[..n][0];
    assert ExpMarkFrom(t, 0) == |t|;
    assert CharFrom(t, 0, |t|, '.') == n;
    assert t[0..n] == t[..n];
    var fp := if n < |t| then t[n + 1..|t|] else "";
    assert AllDigits(fp) && |t[..n]| + |fp| > 0;
  }
}
