/**
 * Reading one BOL page (the text of one PDF page): the item table, its totals
 * line, the BOL cube above the shipping instructions, and the invoice number
 * (DataProcessor._extract_table_data, _is_valid_table_row, _extract_bol_cube
 * and _get_invoice_no in data_processor.py).
 */
module TableParser {
  import opened Wrappers
  import opened Text
  import opened Patterns

  /** One item line: [cartons, pieces, weight, style] in the source's order. */
  datatype ParsedRow = ParsedRow(cartons: string, pieces: string, weight: string, style: string)

  /** The totals of a page, "" where the totals line had too few tokens. */
  datatype Totals = Totals(pieces: string, weight: string)

  const NoTotals: Totals := Totals("", "")

  /** The result of reading a page's table: its rows, whether a totals line ended it, the totals. */
  datatype TableData = TableData(rows: seq<ParsedRow>, hasTotals: bool, totals: Totals)

  // ---------------------------------------------------------------------------
  // Row recognition
  // ---------------------------------------------------------------------------

  /** ' '.join(line.split()) */
  function Collapse(line: string): string {
    Join(Tokens(line), " ")
  }

  /** The lines the skip patterns reject, matched against the collapsed line. */
  predicate IsSkipLine(c: string) {
    || HeaderRepeat(c)
    || StartsWithUpper(c, "SHIPPING INSTRUCTIONS")
    || StartsWithUpper(c, "TOTAL CARTONS")
    || PageMarker(c)
    || StartsWithUpper(c, "BILL OF LADING")
    || LabelLine(c)
  }

  /** Some token begins with a digit. */
  predicate SomeTokenStartsWithDigit(toks: seq<string>) {
    exists k :: 0 <= k < |toks| && StartsWithDigit(toks[k])
  }

  /**
   * _is_valid_table_row: a non-empty collapsed line, not a skip line, that
   * starts with a digit, or holds at least three digit runs, or holds a style
   * token and at least three tokens one of which starts with a digit.
   */
  predicate IsValidTableRow(line: string) {
    var c := Collapse(line);
    && c != []
    && !IsSkipLine(c)
    && (|| StartsWithDigit(c)
        || DigitRunCount(c) >= 3
        || (HasStyleToken(c) && |Tokens(c)| >= 3 && SomeTokenStartsWithDigit(Tokens(c))))
  }

  /**
   * The index of the last token before position j that, without commas,
   * matches ^\d+\.?\d*$; -1 when there is none (the source walks
   * reversed(tokens) and stops at the first hit).
   */
  function LastWeightIndex(toks: seq<string>, j: int): (k: int)
    requires j <= |toks|
    ensures k == -1 || 0 <= k < j
    ensures k >= 0 ==> IsWeightToken(RemoveCommas(toks[k]))
    ensures forall k' :: k < k' < j ==> !IsWeightToken(RemoveCommas(toks[k']))
    decreases j
  {
    if j <= 0 then -1
    else if IsWeightToken(RemoveCommas(toks[j - 1])) then j - 1
    else LastWeightIndex(toks, j - 1)
  }

  /** The weight of a row's tokens: the last weight-like token without commas. */
  function LastWeight(toks: seq<string>): Option<string> {
    var k := LastWeightIndex(toks, |toks|);
    if k >= 0 then Some(RemoveCommas(toks[k])) else None
  }

  /** LastWeight is absent exactly when no token is weight-like, and is otherwise the last one. */
  lemma LastWeightMeaning(toks: seq<string>)
    ensures LastWeight(toks).None? <==> forall k :: 0 <= k < |toks| ==> !IsWeightToken(RemoveCommas(toks[k]))
    ensures LastWeight(toks).Some? ==>
      exists k :: && 0 <= k < |toks|
                  && LastWeight(toks).value == RemoveCommas(toks[k])
                  && IsWeightToken(RemoveCommas(toks[k]))
                  && forall k' :: k < k' < |toks| ==> !IsWeightToken(RemoveCommas(toks[k']))
  {
    var k := LastWeightIndex(toks, |toks|);
    if k >= 0 {
      assert forall k' :: k < k' < |toks| ==> !IsWeightToken(RemoveCommas(toks[k']));
    }
  }

  /** The reversed(tokens) loop that looks for the weight. */
  method FindWeight(toks: seq<string>) returns (w: Option<string>)
    ensures w == LastWeight(toks)
  {
    var k := |toks|;
    while k > 0 && !IsWeightToken(RemoveCommas(toks[k - 1]))
      invariant 0 <= k <= |toks|
      invariant LastWeightIndex(toks, k) == LastWeightIndex(toks, |toks|)
    {
      k := k - 1;
    }
    if k > 0 {
      w := Some(RemoveCommas(toks[k - 1]));
    } else {
      w := None;
    }
  }

  /** The row a stripped line yields, if any. */
  function ParseRow(line: string): Option<ParsedRow> {
    if !IsValidTableRow(line) then None
    else
      var toks := Tokens(line);
      if |toks| < 3 then None
      else match LastWeight(toks)
        case None => None
        case Some(w) => Some(ParsedRow(RemoveCommas(toks[0]), RemoveCommas(toks[2]), w, toks[1]))
  }

  /**
   * A line yields a row exactly when it is a valid table row with at least
   * three tokens one of which is weight-like; cartons and pieces are the
   * first and third tokens without commas, the style is the second token,
   * and the weight is the last weight-like token.
   */
  lemma ParseRowMeaning(line: string)
    ensures ParseRow(line).Some? <==>
      && IsValidTableRow(line) && |Tokens(line)| >= 3
      && exists k :: 0 <= k < |Tokens(line)| && IsWeightToken(RemoveCommas(Tokens(line)[k]))
    ensures ParseRow(line).Some? ==>
      var r := ParseRow(line).value;
      && r.cartons == RemoveCommas(Tokens(line)[0])
      && r.style == Tokens(line)[1]
      && r.pieces == RemoveCommas(Tokens(line)[2])
      && IsWeightToken(r.weight)
      && Some(r.weight) == LastWeight(Tokens(line))
  {
    LastWeightMeaning(Tokens(line));
  }

  /** The weight a row carries is a decimal number that float() reads as a non-negative value. */
  lemma WeightTokenParses(t: string)
    requires IsWeightToken(t)
    ensures ParseDecimal(t).Some? && ParseDecimal(t).value >= 0.0
  {
    var n := DigitSpan(t);
    assert AllDigits(t[..n]);
    var fp := if n < |t| then t[n + 1..|t|] else "";
    ParseDecimalPlain(t, n);
    MantissaNonNegative(t[..n], fp);
  }

  // ---------------------------------------------------------------------------
  // The table scan
  // ---------------------------------------------------------------------------

  /** "CARTONS", "STYLE" and "PIECES" all occur in the upper-cased line. */
  predicate IsHeaderLine(line: string) {
    ContainsUpper(line, "CARTONS") && ContainsUpper(line, "STYLE") && ContainsUpper(line, "PIECES")
  }

  /** The index of the first header line at or after i, |lines| if there is none. */
  function HeaderFrom(lines: seq<string>, i: nat): (k: nat)
    requires i <= |lines|
    ensures i <= k <= |lines|
    ensures forall k' :: i <= k' < k ==> !IsHeaderLine(lines[k'])
    ensures k < |lines| ==> IsHeaderLine(lines[k])
    decreases |lines| - i
  {
    if i == |lines| || IsHeaderLine(lines[i]) then i else HeaderFrom(lines, i + 1)
  }

  /** The totals a totals line carries: tokens 3 and -1 without commas, when there are at least 11 tokens. */
  function TotalsOf(toks: seq<string>): Totals {
    if |toks| >= 11 then Totals(RemoveCommas(toks[3]), RemoveCommas(toks[|toks| - 1])) else NoTotals
  }

  datatype LineKind = TotalsLine(totals: Totals) | StopLine | RowLine(row: ParsedRow) | SkipLine

  /** What one line after the header does to the scan, in the source's order of tests. */
  function Classify(line: string): LineKind {
    if ContainsUpper(line, "TOTAL CARTONS") then TotalsLine(TotalsOf(Tokens(line)))
    else if ContainsUpper(line, "SHIPPING INSTRUCTIONS:") then StopLine
    else
      var st := Strip(line);
      if st == [] then SkipLine
      else match ParseRow(st)
        case Some(r) => RowLine(r)
        case None => SkipLine
  }

  /** The scan over the lines from index j on, one line at a time. */
  function ScanFrom(lines: seq<string>, j: nat): TableData
    requires j <= |lines|
    decreases |lines| - j
  {
    if j == |lines| then TableData([], false, NoTotals)
    else match Classify(lines[j])
      case TotalsLine(t) => TableData([], true, t)
      case StopLine => TableData([], false, NoTotals)
      case SkipLine => ScanFrom(lines, j + 1)
      case RowLine(r) => Prepend([r], ScanFrom(lines, j + 1))
  }

  /** rows placed in front of the rows of t. */
  function Prepend(rows: seq<ParsedRow>, t: TableData): TableData {
    t.(rows := rows + t.rows)
  }

  /** _extract_table_data on the page's lines: None when there is no header line. */
  function TableSpec(lines: seq<string>): Option<TableData> {
    var h := HeaderFrom(lines, 0);
    if h == |lines| then None else Some(ScanFrom(lines, h + 1))
  }

  /** The table is absent exactly when no line is a header line; otherwise the scan starts after the first one. */
  lemma TableSpecMeaning(lines: seq<string>)
    ensures TableSpec(lines).None? <==> forall k :: 0 <= k < |lines| ==> !IsHeaderLine(lines[k])
    ensures TableSpec(lines).Some? ==> exists h :: && 0 <= h < |lines| && IsHeaderLine(lines[h])
                                                 && (forall k :: 0 <= k < h ==> !IsHeaderLine(lines[k]))
                                                 && TableSpec(lines) == Some(ScanFrom(lines, h + 1))
  {
    var h := HeaderFrom(lines, 0);
    if h < |lines| {
      assert forall k :: 0 <= k < h ==> !IsHeaderLine(lines[k]);
    }
  }

  /** One data line as the method handles it: strip, test, split, look for the weight. */
  method ReadRow(line: string) returns (row: Option<ParsedRow>)
    ensures row == ParseRow(Strip(line))
  {
    var stripped := Strip(line);
    row := None;
    if IsValidTableRow(stripped) {
      var toks := Tokens(stripped);
      if |toks| >= 3 {
        var w := FindWeight(toks);
        if w.Some? {
          row := Some(ParsedRow(RemoveCommas(toks[0]), RemoveCommas(toks[2]), w.value, toks[1]));
        }
      }
    }
  }

  /** A line that passes neither stop test yields the row its stripped text parses to. */
  lemma ClassifyOther(line: string)
    requires !ContainsUpper(line, "TOTAL CARTONS") && !ContainsUpper(line, "SHIPPING INSTRUCTIONS:")
    ensures ParseRow(Strip(line)).Some? ==> Classify(line) == RowLine(ParseRow(Strip(line)).value)
    ensures ParseRow(Strip(line)).None? ==> Classify(line) == SkipLine
  {
    if Strip(line) == [] {
      ParseRowOfEmpty();
    }
  }

  lemma ParseRowOfEmpty()
    ensures ParseRow("").None?
  {
    assert Tokens("") == [];
  }

  /** The rows one line contributes when it is not a stop line. */
  function RowsOfLine(line: string): seq<ParsedRow> {
    match ParseRow(Strip(line))
    case Some(r) => [r]
    case None => []
  }

  /** One step of the scan at line j, in the source's order of tests. */
  lemma ScanStep(lines: seq<string>, j: nat)
    requires j < |lines|
    ensures ContainsUpper(lines[j], "TOTAL CARTONS") ==>
      ScanFrom(lines, j) == TableData([], true, TotalsOf(Tokens(lines[j])))
    ensures !ContainsUpper(lines[j], "TOTAL CARTONS") && ContainsUpper(lines[j], "SHIPPING INSTRUCTIONS:") ==>
      ScanFrom(lines, j) == TableData([], false, NoTotals)
    ensures !IsStop(lines[j]) ==> ScanFrom(lines, j) == Prepend(RowsOfLine(lines[j]), ScanFrom(lines, j + 1))
  {
    if !IsStop(lines[j]) {
      ClassifyOther(lines[j]);
      assert RowsOfLine(lines[j]) == [] ==> Prepend([], ScanFrom(lines, j + 1)) == ScanFrom(lines, j + 1);
    }
  }

  lemma PrependPrepend(a: seq<ParsedRow>, b: seq<ParsedRow>, t: TableData)
    ensures Prepend(a, Prepend(b, t)) == Prepend(a + b, t)
  {
    assert a + (b + t.rows) == (a + b) + t.rows;
  }

  /** _extract_table_data: find the header, then scan the lines after it. */
  method ExtractTableData(content: string) returns (r: Option<TableData>)
    ensures r == TableSpec(SplitLines(content))
  {
    var lines := SplitLines(content);
    var h := FindHeaderLine(lines);
    if h == |lines| {
      r := None;
    } else {
      var t := ScanTable(lines, h + 1);
      r := Some(t);
    }
  }

  /** The loop that looks for the table header. */
  method FindHeaderLine(lines: seq<string>) returns (h: nat)
    ensures h == HeaderFrom(lines, 0)
  {
    h := 0;
    while h < |lines| && !IsHeaderLine(lines[h])
      invariant 0 <= h <= |lines|
      invariant HeaderFrom(lines, h) == HeaderFrom(lines, 0)
    {
      h := h + 1;
    }
  }

  /** The loop over the lines after the header: rows until a totals or shipping instructions line. */
  method ScanTable(lines: seq<string>, start: nat) returns (t: TableData)
    requires start <= |lines|
    ensures t == ScanFrom(lines, start)
  {
    var rows: seq<ParsedRow> := [];
    var hasTotals := false;
    var totals := NoTotals;
    var j := start;
    var done := false;
    while j < |lines| && !done
      invariant start <= j <= |lines|
      invariant !done ==> !hasTotals && totals == NoTotals
      invariant !done ==> ScanFrom(lines, start) == Prepend(rows, ScanFrom(lines, j))
      invariant done ==> ScanFrom(lines, start) == TableData(rows, hasTotals, totals)
      decreases |lines| - j, !done
    {
      var line := lines[j];
      ScanStep(lines, j);
      if ContainsUpper(line, "TOTAL CARTONS") {
        hasTotals := true;
        var toks := Tokens(line);
        if |toks| >= 11 {
          totals := Totals(RemoveCommas(toks[3]), RemoveCommas(toks[|toks| - 1]));
        }
        done := true;
      } else if ContainsUpper(line, "SHIPPING INSTRUCTIONS:") {
        done := true;
      } else {
        var row := ReadRow(line);
        PrependPrepend(rows, RowsOfLine(line), ScanFrom(lines, j + 1));
        if row.Some? {
          rows := rows + [row.value];
        }
        j := j + 1;
      }
    }
    t := TableData(rows, hasTotals, totals);
  }

  // ---------------------------------------------------------------------------
  // What the scan yields
  // ---------------------------------------------------------------------------

  /** A line that ends the scan. */
  predicate IsStop(line: string) {
    ContainsUpper(line, "TOTAL CARTONS") || ContainsUpper(line, "SHIPPING INSTRUCTIONS:")
  }

  /** The index of the first line at or after j that ends the scan, |lines| if there is none. */
  function StopFrom(lines: seq<string>, j: nat): (k: nat)
    requires j <= |lines|
    ensures j <= k <= |lines|
    ensures forall i :: j <= i < k ==> !IsStop(lines[i])
    ensures k < |lines| ==> IsStop(lines[k])
    decreases |lines| - j
  {
    if j == |lines| || IsStop(lines[j]) then j else StopFrom(lines, j + 1)
  }

  /** The rows lines[j..k] yield, each line stripped and parsed on its own. */
  function RowsBetween(lines: seq<string>, j: nat, k: nat): seq<ParsedRow>
    requires j <= k <= |lines|
    decreases k - j
  {
    if j == k then []
    else RowsOfLine(lines[j]) + RowsBetween(lines, j + 1, k)
  }

  /**
   * The scan's result: the rows of the lines before the first stop line, and
   * totals exactly when that stop line is a totals line.
   */
  lemma {:induction false} ScanMeaning(lines: seq<string>, j: nat)
    requires j <= |lines|
    ensures var k := StopFrom(lines, j);
      var totalsLine := k < |lines| && ContainsUpper(lines[k], "TOTAL CARTONS");
      && ScanFrom(lines, j).rows == RowsBetween(lines, j, k)
      && (ScanFrom(lines, j).hasTotals <==> totalsLine)
      && ScanFrom(lines, j).totals == (if totalsLine then TotalsOf(Tokens(lines[k])) else NoTotals)
    decreases |lines| - j
  {
    if j < |lines| {
      ScanStep(lines, j);
      if !IsStop(lines[j]) {
        ScanMeaning(lines, j + 1);
        var k := StopFrom(lines, j + 1);
        assert StopFrom(lines, j) == k;
        assert RowsBetween(lines, j, k) == RowsOfLine(lines[j]) + RowsBetween(lines, j + 1, k);
      } else {
        assert StopFrom(lines, j) == j;
      }
    }
  }

  /** A row's weight is weight-like, and float() reads it as a non-negative number. */
  predicate WeightOk(r: ParsedRow) {
    IsWeightToken(r.weight) && ParseDecimal(r.weight).Some? && ParseDecimal(r.weight).value >= 0.0
  }

  lemma RowsOfLineWeights(line: string)
    ensures forall r :: r in RowsOfLine(line) ==> WeightOk(r)
  {
    if ParseRow(Strip(line)).Some? {
      ParseRowMeaning(Strip(line));
      WeightTokenParses(ParseRow(Strip(line)).value.weight);
    }
  }

  /** Every row the scan yields has a weight that float() reads as a non-negative number. */
  lemma {:induction false} ScanWeights(lines: seq<string>, j: nat)
    requires j <= |lines|
    ensures forall r :: r in ScanFrom(lines, j).rows ==> WeightOk(r)
    decreases |lines| - j
  {
    if j < |lines| {
      ScanStep(lines, j);
      if !IsStop(lines[j]) {
        ScanWeights(lines, j + 1);
        RowsOfLineWeights(lines[j]);
      }
    }
  }

  // ---------------------------------------------------------------------------
  // The BOL cube
  // ---------------------------------------------------------------------------

  /** The index of the first line at or after i holding "SHIPPING INSTRUCTIONS:" in upper case, |lines| if none. */
  function ShippingFrom(lines: seq<string>, i: nat): (k: nat)
    requires i <= |lines|
    ensures i <= k <= |lines|
    ensures forall k' :: i <= k' < k ==> !ContainsUpper(lines[k'], "SHIPPING INSTRUCTIONS:")
    ensures k < |lines| ==> ContainsUpper(lines[k], "SHIPPING INSTRUCTIONS:")
    decreases |lines| - i
  {
    if i == |lines| || ContainsUpper(lines[i], "SHIPPING INSTRUCTIONS:") then i else ShippingFrom(lines, i + 1)
  }

  /** The cube match of a stripped line, searched from its start. */
  function LineCube(line: string): Option<string> {
    FindCube(Strip(line), 0)
  }

  /** The index of the nearest line at or above j whose cube search matches, -1 if none does. */
  function CubeLineAbove(lines: seq<string>, j: int): (k: int)
    requires j < |lines|
    ensures k == -1 || 0 <= k <= j
    ensures k >= 0 ==> LineCube(lines[k]).Some?
    ensures forall k' :: k < k' <= j ==> LineCube(lines[k']).None?
    decreases j + 1
  {
    if j < 0 then -1
    else if LineCube(lines[j]).Some? then j
    else CubeLineAbove(lines, j - 1)
  }

  /** _extract_bol_cube on the page's lines. */
  function BolCube(lines: seq<string>): string {
    var i := ShippingFrom(lines, 0);
    if i == |lines| then ""
    else
      var k := CubeLineAbove(lines, i - 1);
      if k >= 0 then LineCube(lines[k]).value else ""
  }

  /** _extract_bol_cube: the cube of the page's text. */
  function ExtractBolCube(content: string): string {
    BolCube(SplitLines(content))
  }

  /** The loop of _extract_bol_cube: the first shipping instructions line, then upwards from the line above it. */
  method FindBolCube(content: string) returns (cube: string)
    ensures cube == ExtractBolCube(content)
  {
    var lines := SplitLines(content);
    var i := 0;
    while i < |lines|
      invariant 0 <= i <= |lines|
      invariant ShippingFrom(lines, i) == ShippingFrom(lines, 0)
    {
      if ContainsUpper(lines[i], "SHIPPING INSTRUCTIONS:") {
        var j := i - 1;
        while j >= 0
          invariant -1 <= j < i
          invariant CubeLineAbove(lines, j) == CubeLineAbove(lines, i - 1)
        {
          var m := LineCube(lines[j]);
          if m.Some? {
            return m.value;
          }
          j := j - 1;
        }
        return "";
      }
      i := i + 1;
    }
    return "";
  }

  /**
   * The cube is "" exactly when no line is a shipping instructions line or no
   * line above the first one has a match; otherwise it is the match on the
   * nearest such line, at least four characters long.
   */
  lemma BolCubeMeaning(lines: seq<string>)
    ensures var i := ShippingFrom(lines, 0);
      && (BolCube(lines) == "" <==> i == |lines| || forall k :: 0 <= k < i ==> LineCube(lines[k]).None?)
      && (BolCube(lines) != "" ==>
            && |BolCube(lines)| >= 4
            && exists k :: && 0 <= k < i && LineCube(lines[k]) == Some(BolCube(lines))
                           && forall k' :: k < k' < i ==> LineCube(lines[k']).None?)
  {
    var i := ShippingFrom(lines, 0);
    if i < |lines| {
      var k := CubeLineAbove(lines, i - 1);
      if k >= 0 {
        CubeAtMeaningNonEmpty(Strip(lines[k]));
        assert forall k' :: k < k' < i ==> LineCube(lines[k']).None?;
      }
    }
  }

  /** A cube match is never empty: it holds at least a digit, a point and two digits. */
  lemma CubeAtMeaningNonEmpty(s: string)
    requires FindCube(s, 0).Some?
    ensures |FindCube(s, 0).value| >= 4
  {
    FindCubeMeaning(s, 0);
    CubeAtMeaning(s, CubePos(s, 0));
  }

  // ---------------------------------------------------------------------------
  // The invoice number
  // ---------------------------------------------------------------------------

  /** The line's invoice group, when the line mentions BILL OF LADING and the regex matches. */
  function LineInvoice(line: string): Option<string> {
    if ContainsUpper(line, "BILL OF LADING") then FindInvoice(line, 0) else None
  }

  /** The index of the first line in lines[i..n] with an invoice group, n if there is none. */
  function InvoiceLineFrom(lines: seq<string>, i: nat, n: nat): (k: nat)
    requires i <= n <= |lines|
    ensures i <= k <= n
    ensures forall k' :: i <= k' < k ==> LineInvoice(lines[k']).None?
    ensures k < n ==> LineInvoice(lines[k]).Some?
    decreases n - i
  {
    if i == n || LineInvoice(lines[i]).Some? then i else InvoiceLineFrom(lines, i + 1, n)
  }

  /** How many leading lines are searched for the invoice number. */
  const InvoiceSearchLines: nat := 10

  /** The number of lines searched: lines[:10]. */
  function SearchedLines(lines: seq<string>): nat {
    if |lines| < InvoiceSearchLines then |lines| else InvoiceSearchLines
  }

  /** _get_invoice_no on the page's lines. */
  function InvoiceNo(lines: seq<string>): string {
    var n := SearchedLines(lines);
    var k := InvoiceLineFrom(lines, 0, n);
    if k < n then LineInvoice(lines[k]).value else ""
  }

  /** _get_invoice_no: the invoice number of the page's text. */
  function GetInvoiceNo(content: string): string {
    InvoiceNo(SplitLines(content))
  }

  /** The loop of _get_invoice_no over the first ten lines. */
  method FindInvoiceNo(content: string) returns (no: string)
    ensures no == GetInvoiceNo(content)
  {
    var lines := SplitLines(content);
    var n := SearchedLines(lines);
    var i := 0;
    while i < n
      invariant 0 <= i <= n
      invariant InvoiceLineFrom(lines, i, n) == InvoiceLineFrom(lines, 0, n)
    {
      if ContainsUpper(lines[i], "BILL OF LADING") {
        var m := FindInvoice(lines[i], 0);
        if m.Some? {
          return m.value;
        }
      }
      i := i + 1;
    }
    return "";
  }

  /** An invoice number is an ASCII letter followed by at least one digit. */
  predicate IsInvoiceNo(g: string) {
    |g| >= 2 && IsLetter(g[0]) && AllDigits(g[1..])
  }

  lemma InvoiceShapeOfLine(line: string)
    requires LineInvoice(line).Some?
    ensures IsInvoiceNo(LineInvoice(line).value)
  {
    FindInvoiceMeaning(line, 0);
    InvoiceShape(line, InvoicePos(line, 0));
  }

  /**
   * The invoice number is "" exactly when none of the first ten lines has a
   * match; otherwise it is the group of the first line that has one, and it is
   * a letter followed by digits.
   */
  lemma InvoiceNoMeaning(lines: seq<string>)
    ensures var n := SearchedLines(lines);
      && n <= 10
      && (InvoiceNo(lines) == "" <==> forall k :: 0 <= k < n ==> LineInvoice(lines[k]).None?)
      && (InvoiceNo(lines) != "" ==>
            && IsInvoiceNo(InvoiceNo(lines))
            && exists k :: && 0 <= k < n && LineInvoice(lines[k]) == Some(InvoiceNo(lines))
                           && forall k' :: 0 <= k' < k ==> LineInvoice(lines[k']).None?)
  {
    var n := SearchedLines(lines);
    var k := InvoiceLineFrom(lines, 0, n);
    if k < n {
      InvoiceShapeOfLine(lines[k]);
      assert forall k' :: 0 <= k' < k ==> LineInvoice(lines[k']).None?;
    }
  }
}
