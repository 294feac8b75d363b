/**
 * The DataFrames of process_csv_file (app.py) read with dtype=str: a column
 * list and rows mapping column names to cells. A missing cell (NaN) is "".
 * This module holds the rename of the incoming columns, the check of the
 * four match columns and the nested create_match_key.
 */
module Frames {
  import opened Wrappers
  import opened Text

  type Row = map<string, string>

  datatype Frame = Frame(columns: seq<string>, rows: seq<Row>)

  /** A cell; a column the row lacks reads as missing. */
  function Cell(r: Row, c: string): string {
    if c in r then r[c] else ""
  }

  /** matching_columns */
  const KeyColumns: seq<string> := ["Invoice No.", "Style", "Cartons", "Individual Pieces"]

  // ---------------------------------------------------------------------------
  // rename(columns={"Cartons*": "Cartons", "Pieces*": "Individual Pieces"})
  // ---------------------------------------------------------------------------

  function RenameColumn(c: string): string {
    if c == "Cartons*" then "Cartons" else if c == "Pieces*" then "Individual Pieces" else c
  }

  /** The cell under from moves to to; when both exist the renamed one is kept. */
  function RenameKey(r: Row, from: string, to: string): Row {
    if from in r then (r - {from})[to := r[from]] else r
  }

  function RenameRow(r: Row): Row {
    RenameKey(RenameKey(r, "Cartons*", "Cartons"), "Pieces*", "Individual Pieces")
  }

  function RenameFrame(f: Frame): (g: Frame)
    ensures |g.columns| == |f.columns| && |g.rows| == |f.rows|
  {
    Frame(seq(|f.columns|, i requires 0 <= i < |f.columns| => RenameColumn(f.columns[i])),
          seq(|f.rows|, i requires 0 <= i < |f.rows| => RenameRow(f.rows[i])))
  }

  /** After the rename, Cartons and Individual Pieces read the starred columns when those exist. */
  lemma RenameRowCells(r: Row, c: string)
    ensures Cell(RenameRow(r), c) ==
      if c == "Cartons" && "Cartons*" in r then r["Cartons*"]
      else if c == "Individual Pieces" && "Pieces*" in r then r["Pieces*"]
      else if c == "Cartons*" || c == "Pieces*" then ""
      else Cell(r, c)
  {
  }

  /** The renamed columns: each starred name is replaced by its plain one, the others are kept. */
  lemma RenameColumns(f: Frame, c: string)
    ensures c in RenameFrame(f).columns <==>
      || (c in f.columns && c != "Cartons*" && c != "Pieces*")
      || (c == "Cartons" && "Cartons*" in f.columns)
      || (c == "Individual Pieces" && "Pieces*" in f.columns)
  {
    var g := RenameFrame(f).columns;
    if c in g {
      var i :| 0 <= i < |g| && g[i] == c;
      assert RenameColumn(f.columns[i]) == c;
    }
    if c in f.columns && c != "Cartons*" && c != "Pieces*" {
      var i :| 0 <= i < |f.columns| && f.columns[i] == c;
      assert g[i] == c;
    }
    if c == "Cartons" && "Cartons*" in f.columns {
      var i :| 0 <= i < |f.columns| && f.columns[i] == "Cartons*";
      assert g[i] == c;
    }
    if c == "Individual Pieces" && "Pieces*" in f.columns {
      var i :| 0 <= i < |f.columns| && f.columns[i] == "Pieces*";
      assert g[i] == c;
    }
  }

  // ---------------------------------------------------------------------------
  // The match columns must exist in both tables
  // ---------------------------------------------------------------------------

  function PdfMissing(c: string): string {
    "Column '" + c + "' not found in PDF CSV data."
  }

  function IncomingMissing(c: string): string {
    "Column '" + c + "' not found in incoming file."
  }

  /** The loop over matching_columns: the first column absent from the PDF table or, failing that, the incoming one. */
  function Missing(cols: seq<string>, pdf: seq<string>, incoming: seq<string>): Option<string>
    decreases |cols|
  {
    if cols == [] then None
    else if cols[0] !in pdf then Some(PdfMissing(cols[0]))
    else if cols[0] !in incoming then Some(IncomingMissing(cols[0]))
    else Missing(cols[1..], pdf, incoming)
  }

  /** The check passes exactly when every column is in both tables. */
  lemma {:induction false} MissingNone(cols: seq<string>, pdf: seq<string>, incoming: seq<string>)
    ensures Missing(cols, pdf, incoming).None? <==> forall i :: 0 <= i < |cols| ==> cols[i] in pdf && cols[i] in incoming
    decreases |cols|
  {
    if cols != [] && cols[0] in pdf && cols[0] in incoming {
      MissingNone(cols[1..], pdf, incoming);
      assert forall i :: 1 <= i < |cols| ==> cols[i] == cols[1..][i - 1];
    }
  }

  /**
   * Otherwise it names the first column missing from either table, and says
   * which: the PDF table is checked first.
   */
  lemma {:induction false} MissingFirst(cols: seq<string>, pdf: seq<string>, incoming: seq<string>, k: nat)
    requires k < |cols| && !(cols[k] in pdf && cols[k] in incoming)
    requires forall j :: 0 <= j < k ==> cols[j] in pdf && cols[j] in incoming
    ensures Missing(cols, pdf, incoming) == Some(if cols[k] !in pdf then PdfMissing(cols[k]) else IncomingMissing(cols[k]))
    decreases k
  {
    if k > 0 {
      assert cols[0] in pdf && cols[0] in incoming;
      assert forall j :: 0 <= j < k - 1 ==> cols[1..][j] == cols[j + 1];
      MissingFirst(cols[1..], pdf, incoming, k - 1);
    }
  }

  // ---------------------------------------------------------------------------
  // create_match_key
  // ---------------------------------------------------------------------------

  /** str(x).strip().replace(",", "").lower() of a cell after fillna(""). */
  function Normalize(x: string): string {
    Lower(RemoveCommas(Strip(x)))
  }

  /** The normalised cells of a row under cols. */
  function Fields(r: Row, cols: seq<string>): (fs: seq<string>)
    ensures |fs| == |cols|
  {
    seq(|cols|, i requires 0 <= i < |cols| => Normalize(Cell(r, cols[i])))
  }

  /** "_".join of the normalised cells. */
  function MatchKey(r: Row, cols: seq<string>): string {
    Join(Fields(r, cols), "_")
  }

  /** The key column of a table. */
  function Keys(rows: seq<Row>, cols: seq<string>): (ks: seq<string>)
    ensures |ks| == |rows| && forall i :: 0 <= i < |rows| ==> ks[i] == MatchKey(rows[i], cols)
  {
    seq(|rows|, i requires 0 <= i < |rows| => MatchKey(rows[i], cols))
  }

  predicate NoSeparator(s: string) {
    forall k :: 0 <= k < |s| ==> s[k] != '_'
  }

  /** Text before a first separator is determined by the joined string. */
  lemma SplitAtSeparator(x: string, y: string, u: string, v: string)
    requires NoSeparator(x) && NoSeparator(u)
    requires x + "_" + y == u + "_" + v
    ensures x == u && y == v
  {
    var s := x + "_" + y;
    assert s[|x|] == '_' && s[|u|] == '_';
    assert x == s[..|x|] && u == s[..|u|];
    assert y == s[|x| + 1..] && v == s[|u| + 1..];
  }

  /** Joining separator-free parts of one count with "_" loses nothing. */
  lemma {:induction false} JoinInjective(ws: seq<string>, vs: seq<string>)
    requires |ws| == |vs|
    requires forall i :: 0 <= i < |ws| ==> NoSeparator(ws[i]) && NoSeparator(vs[i])
    requires Join(ws, "_") == Join(vs, "_")
    ensures ws == vs
    decreases |ws|
  {
    if |ws| > 1 {
      SplitAtSeparator(ws[0], Join(ws[1..], "_"), vs[0], Join(vs[1..], "_"));
      JoinInjective(ws[1..], vs[1..]);
      assert ws == [ws[0]] + ws[1..] && vs == [vs[0]] + vs[1..];
    }
  }

  /** Rows that agree after normalisation get equal keys, whatever their cells hold. */
  lemma KeyOfFields(a: Row, b: Row, cols: seq<string>)
    ensures Fields(a, cols) == Fields(b, cols) ==> MatchKey(a, cols) == MatchKey(b, cols)
  {
  }

  /**
   * When no normalised cell holds "_", rows get equal keys exactly when they
   * agree after normalisation.
   */
  lemma KeyEquality(a: Row, b: Row, cols: seq<string>)
    requires forall i :: 0 <= i < |cols| ==> NoSeparator(Fields(a, cols)[i]) && NoSeparator(Fields(b, cols)[i])
    ensures MatchKey(a, cols) == MatchKey(b, cols) <==> Fields(a, cols) == Fields(b, cols)
  {
    if MatchKey(a, cols) == MatchKey(b, cols) {
      JoinInjective(Fields(a, cols), Fields(b, cols));
    }
  }

  /** Fields agree exactly when every normalised cell does. */
  lemma FieldsEqual(a: Row, b: Row, cols: seq<string>)
    ensures Fields(a, cols) == Fields(b, cols) <==>
      forall i :: 0 <= i < |cols| ==> Normalize(Cell(a, cols[i])) == Normalize(Cell(b, cols[i]))
  {
    if Fields(a, cols) == Fields(b, cols) {
      forall i | 0 <= i < |cols| ensures Normalize(Cell(a, cols[i])) == Normalize(Cell(b, cols[i])) {
        assert Fields(a, cols)[i] == Fields(b, cols)[i];
      }
    }
  }

  /** With "_" inside a cell, different cells can give one key. */
  lemma KeyAmbiguity(x: string, y: string)
    ensures Join([x + "_", y], "_") == Join([x, "_" + y], "_")
  {
    assert [x + "_", y][1..] == [y] && [x, "_" + y][1..] == ["_" + y];
  }
}
