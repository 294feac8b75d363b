/**
 * The regular expressions of the BOL page parser (data_processor.py), written
 * out as predicates and searches over characters. Each search function is
 * specified against a predicate that states, position by position, what the
 * regex engine accepts there, so that the function's contract is the regex's
 * meaning (leftmost match, greedy repetition, word boundaries).
 */
module Patterns {
  import opened Wrappers
  import opened Text
  import opened Search

  // ---------------------------------------------------------------------------
  // The skip patterns of _is_valid_table_row (all matched with IGNORECASE at
  // the start of the whitespace-collapsed line)
  // ---------------------------------------------------------------------------

  /** ^CARTONS.*STYLE.*PIECES, case-insensitively; the line holds no newline. */
  predicate HeaderRepeat(s: string) {
    && StartsWithUpper(s, "CARTONS")
    && exists i, j :: 7 <= i <= |s| && i + 5 <= j <= |s| && OccursAtUpper(s, "STYLE", i) && OccursAtUpper(s, "PIECES", j)
  }

  /** ^Page \d+, case-insensitively. */
  predicate PageMarker(s: string) {
    StartsWithUpper(s, "PAGE ") && |s| > 5 && IsDigit(s[5])
  }

  /** ^[A-Z\s]+: with IGNORECASE, computed from the longest letter-or-space prefix. */
  predicate LabelLine(s: string) {
    var n := LabelSpan(s);
    1 <= n < |s| && s[n] == ':'
  }

  /** What the regex ^[A-Z\s]+: accepts: some non-empty letter-or-space prefix followed by ':'. */
  predicate LabelMatch(s: string, k: int) {
    1 <= k < |s| && s[k] == ':' && forall i :: 0 <= i < k ==> IsLetterOrSpace(s[i])
  }

  lemma LabelLineMeaning(s: string)
    ensures LabelLine(s) <==> exists k :: LabelMatch(s, k)
  {
    var n := LabelSpan(s);
    if LabelLine(s) {
      assert LabelMatch(s, n);
    }
    if exists k :: LabelMatch(s, k) {
      var k :| LabelMatch(s, k);
      assert !IsLetterOrSpace(s[k]);
      assert k == n by {
        assert n < |s| ==> !IsLetterOrSpace(s[n]);
      }
    }
  }

  // ---------------------------------------------------------------------------
  // The data-row patterns
  // ---------------------------------------------------------------------------

  /** ^\d+ */
  predicate StartsWithDigit(s: string) {
    |s| > 0 && IsDigit(s[0])
  }

  /** len(re.findall(r'\d+', s)): the number of maximal digit runs. */
  function DigitRunCount(s: string): nat {
    |Runs(s, Digit)|
  }

  /** A word of the form [A-Z]+\d+ (upper-case letters, then digits). */
  predicate LettersThenDigits(w: string) {
    var n := UpperSpan(w);
    1 <= n < |w| && AllDigits(w[n..])
  }

  /** A word of the form \d+[A-Z]+ (digits, then upper-case letters). */
  predicate DigitsThenLetters(w: string) {
    var n := DigitSpan(w);
    1 <= n < |w| && forall i :: n <= i < |w| ==> IsUpper(w[i])
  }

  /**
   * re.search(r'\b[A-Z]+\d+\b', s) or re.search(r'\b\d+[A-Z]+\b', s): both
   * patterns start and end with a word boundary around word characters only,
   * so a match is always a whole maximal run of word characters.
   */
  predicate HasStyleToken(s: string) {
    exists w :: w in Runs(s, WordChar) && (LettersThenDigits(w) || DigitsThenLetters(w))
  }

  /** What \b[A-Z]+\d+\b accepts at s[i..j], the letters being s[i..m]. */
  predicate LettersDigitsMatch(s: string, i: int, m: int, j: int) {
    && 0 <= i < m < j <= |s|
    && (i == 0 || !IsWordChar(s[i - 1]))
    && (forall k :: i <= k < m ==> IsUpper(s[k]))
    && (forall k :: m <= k < j ==> IsDigit(s[k]))
    && (j == |s| || !IsWordChar(s[j]))
  }

  /** What \b\d+[A-Z]+\b accepts at s[i..j], the digits being s[i..m]. */
  predicate DigitsLettersMatch(s: string, i: int, m: int, j: int) {
    && 0 <= i < m < j <= |s|
    && (i == 0 || !IsWordChar(s[i - 1]))
    && (forall k :: i <= k < m ==> IsDigit(s[k]))
    && (forall k :: m <= k < j ==> IsUpper(s[k]))
    && (j == |s| || !IsWordChar(s[j]))
  }

  lemma LettersDigitsRun(s: string, i: int, m: int, j: int)
    requires LettersDigitsMatch(s, i, m, j)
    ensures IsRun(s, WordChar, i, j) && LettersThenDigits(s[i..j])
  {
    var w := s[i..j];
    assert !IsUpper(w[m - i]);
    assert UpperSpan(w) == m - i;
    assert w[m - i..] == s[m..j];
  }

  lemma DigitsLettersRun(s: string, i: int, m: int, j: int)
    requires DigitsLettersMatch(s, i, m, j)
    ensures IsRun(s, WordChar, i, j) && DigitsThenLetters(s[i..j])
  {
    var w := s[i..j];
    assert !IsDigit(w[m - i]);
    assert DigitSpan(w) == m - i;
  }

  lemma RunLettersDigits(s: string, i: int, j: int)
    requires IsRun(s, WordChar, i, j) && LettersThenDigits(s[i..j])
    ensures LettersDigitsMatch(s, i, i + UpperSpan(s[i..j]), j)
  {
    var w := s[i..j];
    var n := UpperSpan(w);
    forall k | i + n <= k < j ensures IsDigit(s[k]) {
      assert s[k] == w[n..][k - i - n];
    }
  }

  lemma RunDigitsLetters(s: string, i: int, j: int)
    requires IsRun(s, WordChar, i, j) && DigitsThenLetters(s[i..j])
    ensures DigitsLettersMatch(s, i, i + DigitSpan(s[i..j]), j)
  {
    var w := s[i..j];
    var n := DigitSpan(w);
    forall k | i + n <= k < j ensures IsUpper(s[k]) {
      assert s[k] == w[k - i];
    }
  }

  /** HasStyleToken holds exactly when one of the two regexes finds a match somewhere. */
  lemma StyleTokenMeaning(s: string)
    ensures HasStyleToken(s) <==>
      (exists i, m, j :: LettersDigitsMatch(s, i, m, j)) || (exists i, m, j :: DigitsLettersMatch(s, i, m, j))
  {
    if HasStyleToken(s) {
      var w :| w in Runs(s, WordChar) && (LettersThenDigits(w) || DigitsThenLetters(w));
      RunsAreMaximalRuns(s, WordChar, w);
      var i, j :| IsRun(s, WordChar, i, j) && s[i..j] == w;
      if LettersThenDigits(w) {
        RunLettersDigits(s, i, j);
      } else {
        RunDigitsLetters(s, i, j);
      }
    }
    if exists i, m, j :: LettersDigitsMatch(s, i, m, j) {
      var i, m, j :| LettersDigitsMatch(s, i, m, j);
      LettersDigitsRun(s, i, m, j);
      RunsAreMaximalRuns(s, WordChar, s[i..j]);
    }
    if exists i, m, j :: DigitsLettersMatch(s, i, m, j) {
      var i, m, j :| DigitsLettersMatch(s, i, m, j);
      DigitsLettersRun(s, i, m, j);
      RunsAreMaximalRuns(s, WordChar, s[i..j]);
    }
  }

  /** re.match(r'^\d+\.?\d*$', t): digits, then optionally a point and more digits. */
  predicate IsWeightToken(t: string) {
    var n := DigitSpan(t);
    n >= 1 && (n == |t| || (t[n] == '.' && AllDigits(t[n + 1..])))
  }

  // ---------------------------------------------------------------------------
  // \b\d{1,3}\.\d{2}\b, the BOL cube
  // ---------------------------------------------------------------------------

  /** What \b\d{1,3}\.\d{2}\b accepts at position p with k leading digits. */
  predicate CubeMatchAt(s: string, p: int, k: int) {
    && 1 <= k <= 3 && 0 <= p && p + k + 3 <= |s|
    && (p == 0 || !IsWordChar(s[p - 1]))
    && (forall i :: p <= i < p + k ==> IsDigit(s[i]))
    && s[p + k] == '.' && IsDigit(s[p + k + 1]) && IsDigit(s[p + k + 2])
    && (p + k + 3 == |s| || !IsWordChar(s[p + k + 3]))
  }

  predicate CubeMatchesAt(s: string, p: int) {
    exists k :: 1 <= k <= 3 && CubeMatchAt(s, p, k)
  }

  /** Only one digit count can match at a position: the digits must reach the point. */
  lemma CubeMatchUnique(s: string, p: int, k1: int, k2: int)
    requires CubeMatchAt(s, p, k1) && CubeMatchAt(s, p, k2)
    ensures k1 == k2
  {
  }

  /** The match at p, trying three digits, then two, then one, as the engine backtracks. */
  function CubeAt(s: string, p: int): (r: Option<string>)
    requires 0 <= p
  {
    if CubeMatchAt(s, p, 3) then Some(s[p..p + 6])
    else if CubeMatchAt(s, p, 2) then Some(s[p..p + 5])
    else if CubeMatchAt(s, p, 1) then Some(s[p..p + 4])
    else None
  }

  /** CubeAt finds exactly the matches the regex has at p, and returns the matched text. */
  lemma CubeAtMeaning(s: string, p: int)
    requires 0 <= p
    ensures CubeAt(s, p).None? <==> !CubeMatchesAt(s, p)
    ensures CubeAt(s, p).Some? ==> exists k :: CubeMatchAt(s, p, k) && CubeAt(s, p).value == s[p..p + k + 3]
  {
  }

  /** re.search from position p: the match at the leftmost position at or after p that has one. */
  function FindCube(s: string, p: nat): Option<string> {
    FirstFrom((q: nat) => CubeAt(s, q), p, |s| + 1)
  }

  /** The position FindCube's result comes from, |s| + 1 when there is none. */
  function CubePos(s: string, p: nat): nat {
    FirstPos((q: nat) => CubeAt(s, q), p, |s| + 1)
  }

  /**
   * FindCube is the result at CubePos, which is the leftmost position from p
   * on that has a match; it reports nothing exactly when no position does.
   */
  lemma FindCubeMeaning(s: string, p: nat)
    ensures var k := CubePos(s, p);
      && p <= k
      && (forall q: nat :: p <= q < k && q <= |s| ==> CubeAt(s, q).None?)
      && (k <= |s| ==> CubeAt(s, k).Some? && FindCube(s, p) == CubeAt(s, k))
      && (k > |s| ==> FindCube(s, p).None?)
  {
    var f := (q: nat) => CubeAt(s, q);
    var k := CubePos(s, p);
    forall q: nat | p <= q < k && q <= |s| ensures CubeAt(s, q).None? {
      assert f(q).None?;
    }
  }

  // ---------------------------------------------------------------------------
  // BILL OF LADING\s+([A-Z]\d+), IGNORECASE: the invoice number
  // ---------------------------------------------------------------------------

  const BolLiteral: string := "BILL OF LADING"

  /**
   * What the invoice regex accepts at p: the literal (any case), w >= 1
   * whitespace characters, one letter, and the d >= 1 digits the greedy \d+
   * takes (all of the digits that follow).
   */
  predicate InvoiceMatchAt(s: string, p: int, w: int, d: int) {
    && 0 <= p && w >= 1 && d >= 1 && p + 14 + w + 1 + d <= |s|
    && OccursAtUpper(s, BolLiteral, p)
    && (forall i :: p + 14 <= i < p + 14 + w ==> IsSpace(s[i]))
    && IsLetter(s[p + 14 + w])
    && (forall i :: p + 15 + w <= i < p + 15 + w + d ==> IsDigit(s[i]))
    && (p + 15 + w + d == |s| || !IsDigit(s[p + 15 + w + d]))
  }

  ghost predicate InvoiceMatchesAt(s: string, p: int) {
    exists w, d :: InvoiceMatchAt(s, p, w, d)
  }

  /**
   * Group 1 of the match at p, if the regex matches at p: after the literal,
   * the whitespace run must be non-empty and end at a letter, and the digit
   * run after the letter must be non-empty.
   */
  function InvoiceAt(s: string, p: nat): Option<string> {
    if OccursAtUpper(s, BolLiteral, p) then
      var a := SpaceEnd(s, p + 14);
      if p + 14 < a < |s| && IsLetter(s[a]) then
        var b := DigitEnd(s, a + 1);
        if a + 1 < b then Some(s[a..b]) else None
      else None
    else None
  }

  /** InvoiceAt finds exactly the matches the regex has at p, and returns group 1. */
  lemma InvoiceAtMeaning(s: string, p: nat)
    ensures InvoiceAt(s, p).None? <==> !InvoiceMatchesAt(s, p)
    ensures InvoiceAt(s, p).Some? ==>
      exists w, d :: InvoiceMatchAt(s, p, w, d) && InvoiceAt(s, p).value == s[p + 14 + w..p + 15 + w + d]
  {
    if OccursAtUpper(s, BolLiteral, p) {
      var a := SpaceEnd(s, p + 14);
      if p + 14 < a < |s| && IsLetter(s[a]) {
        var b := DigitEnd(s, a + 1);
        if a + 1 < b {
          assert InvoiceMatchAt(s, p, a - p - 14, b - a - 1);
        } else {
          forall w, d | InvoiceMatchAt(s, p, w, d) ensures false {
            InvoiceSpaceCount(s, p, w, d);
          }
        }
      } else {
        forall w, d | InvoiceMatchAt(s, p, w, d) ensures false {
          InvoiceSpaceCount(s, p, w, d);
        }
      }
    }
  }

  /** The whitespace run of a match is all the whitespace after the literal. */
  lemma InvoiceSpaceCount(s: string, p: nat, w: int, d: int)
    requires InvoiceMatchAt(s, p, w, d)
    ensures SpaceEnd(s, p + 14) == p + 14 + w
  {
    var a := SpaceEnd(s, p + 14);
    assert !IsSpace(s[p + 14 + w]);
    assert a < |s| ==> !IsSpace(s[a]);
  }

  /** re.search from position p: group 1 of the match at the leftmost position that has one. */
  function FindInvoice(s: string, p: nat): Option<string> {
    FirstFrom((q: nat) => InvoiceAt(s, q), p, |s| + 1)
  }

  /** The position FindInvoice's result comes from, |s| + 1 when there is none. */
  function InvoicePos(s: string, p: nat): nat {
    FirstPos((q: nat) => InvoiceAt(s, q), p, |s| + 1)
  }

  /**
   * FindInvoice is the result at InvoicePos, which is the leftmost position from p
   * on that has a match; it reports nothing exactly when no position does.
   */
  lemma FindInvoiceMeaning(s: string, p: nat)
    ensures var k := InvoicePos(s, p);
      && p <= k
      && (forall q: nat :: p <= q < k && q <= |s| ==> InvoiceAt(s, q).None?)
      && (k <= |s| ==> InvoiceAt(s, k).Some? && FindInvoice(s, p) == InvoiceAt(s, k))
      && (k > |s| ==> FindInvoice(s, p).None?)
  {
    var f := (q: nat) => InvoiceAt(s, q);
    var k := InvoicePos(s, p);
    forall q: nat | p <= q < k && q <= |s| ensures InvoiceAt(s, q).None? {
      assert f(q).None?;
    }
  }

  /** Group 1 is a letter followed by digits. */
  lemma InvoiceShape(s: string, p: nat)
    requires InvoiceAt(s, p).Some?
    ensures var g := InvoiceAt(s, p).value;
      |g| >= 2 && IsLetter(g[0]) && AllDigits(g[1..])
  {
    var g := InvoiceAt(s, p).value;
    InvoiceAtMeaning(s, p);
    var w, d :| InvoiceMatchAt(s, p, w, d) && g == s[p + 14 + w..p + 15 + w + d];
    forall i | 1 <= i < |g| ensures IsDigit(g[i]) {
      assert g[i] == s[p + 14 + w + i];
    }
  }
}
