/**
 * The final sort of process_csv_file (app.py): when the table has both a
 * Cancel Date and a Ship To Name column, each row's cancel date is parsed,
 * each row gets the earliest parsed date among the rows with its ship-to
 * name, and the rows are sorted stably by that group minimum, then by the
 * name, then by the row's own date. NaT, and a blank (NaN) name, sort last;
 * a blank name belongs to no group, so its group minimum is NaT. The two
 * helper columns are dropped afterwards.
 */
module Ordering {
  import opened Wrappers
  import opened Frames
  import opened Dates
  import opened Sorting

  /** The sort code of a row's parsed cancel date. */
  function OwnCode(r: Row): int {
    DateCode(ParseCancelDate(Cell(r, "Cancel Date")))
  }

  /** The least code among the positions holding name ("min" skips NaT, and is NaT when all are). */
  function MinCode(names: seq<string>, codes: seq<int>, name: string): (m: int)
    requires |names| == |codes|
    ensures m <= NaTCode
    ensures forall i :: 0 <= i < |names| && names[i] == name ==> m <= codes[i]
    ensures m == NaTCode || exists i :: 0 <= i < |names| && names[i] == name && m == codes[i]
    decreases |names|
  {
    if names == [] then NaTCode
    else
      var n := |names| - 1;
      var m := MinCode(names[..n], codes[..n], name);
      assert forall i :: 0 <= i < n ==> names[i] == names[..n][i] && codes[i] == codes[..n][i];
      if names[n] == name && codes[n] < m then codes[n] else m
  }

  function Names(rows: seq<Row>): (r: seq<string>)
    ensures |r| == |rows|
  {
    seq(|rows|, i requires 0 <= i < |rows| => Cell(rows[i], "Ship To Name"))
  }

  function Codes(rows: seq<Row>): (r: seq<int>)
    ensures |r| == |rows|
  {
    seq(|rows|, i requires 0 <= i < |rows| => OwnCode(rows[i]))
  }

  /** transform("min") of groupby("Ship To Name"): a blank name has no group. */
  function GroupMin(rows: seq<Row>, name: string): int {
    if name == "" then NaTCode else MinCode(Names(rows), Codes(rows), name)
  }

  /** The three sort columns of a row, as one key; a blank name goes after every name. */
  function RowKey(rows: seq<Row>, r: Row): SortKey {
    var name := Cell(r, "Ship To Name");
    SortKey(GroupMin(rows, name), if name == "" then 1 else 0, name, OwnCode(r))
  }

  function RowKeys(rows: seq<Row>): (keys: seq<SortKey>)
    ensures |keys| == |rows|
  {
    seq(|rows|, i requires 0 <= i < |rows| => RowKey(rows, rows[i]))
  }

  /** sort_values(by=[min_cancel_date, Ship To Name, Cancel Date_dt]): stable. */
  function SortedRows(rows: seq<Row>): (r: seq<Row>)
    ensures |r| == |rows|
  {
    StableSort(rows, RowKeys(rows))
  }

  /** Cancel Date_dt and min_cancel_date. */
  const Helpers: set<string> := {"Cancel Date_dt", "min_cancel_date"}

  /** drop(columns=[...]) on the column list. */
  function DropColumns(cols: seq<string>, gone: set<string>): (r: seq<string>)
    ensures forall c :: c in r <==> c in cols && c !in gone
    decreases |cols|
  {
    if cols == [] then []
    else (if cols[0] in gone then [] else [cols[0]]) + DropColumns(cols[1..], gone)
  }

  /** drop(columns=[...]) on the rows. */
  function DropCells(rows: seq<Row>, gone: set<string>): (r: seq<Row>)
    ensures |r| == |rows|
  {
    seq(|rows|, i requires 0 <= i < |rows| => rows[i] - gone)
  }

  /** The sort step: the whole block runs only when both columns exist. */
  function SortFrame(f: Frame): Frame {
    if "Cancel Date" in f.columns && "Ship To Name" in f.columns then
      Frame(DropColumns(f.columns, Helpers), DropCells(SortedRows(f.rows), Helpers))
    else f
  }

  // ---------------------------------------------------------------------------
  // Properties
  // ---------------------------------------------------------------------------

  /**
   * The group minimum of a named row is at most the own date of every row of
   * its group and is the own date of one of them, unless all of them are NaT.
   */
  lemma GroupMinMeaning(rows: seq<Row>, k: nat)
    requires k < |rows| && Cell(rows[k], "Ship To Name") != ""
    ensures var name := Cell(rows[k], "Ship To Name");
      var m := GroupMin(rows, name);
      && m <= OwnCode(rows[k])
      && (forall i :: 0 <= i < |rows| && Cell(rows[i], "Ship To Name") == name ==> m <= OwnCode(rows[i]))
      && (m == NaTCode || exists i :: 0 <= i < |rows| && Cell(rows[i], "Ship To Name") == name && m == OwnCode(rows[i]))
  {
    var name := Cell(rows[k], "Ship To Name");
    var m := GroupMin(rows, name);
    forall i | 0 <= i < |rows| && Cell(rows[i], "Ship To Name") == name ensures m <= OwnCode(rows[i]) {
      assert Names(rows)[i] == name && Codes(rows)[i] == OwnCode(rows[i]);
    }
    if m != NaTCode {
      var i :| 0 <= i < |rows| && Names(rows)[i] == name && m == Codes(rows)[i];
      assert Cell(rows[i], "Ship To Name") == name && m == OwnCode(rows[i]);
    }
  }

  /**
   * The sort is a permutation given by positions pos: output row i is input
   * row pos[i], the keys never decrease, and rows with equal keys keep their
   * input order.
   */
  lemma SortOrder(rows: seq<Row>) returns (pos: seq<int>)
    ensures |pos| == |rows| == |SortedRows(rows)|
    ensures multiset(SortedRows(rows)) == multiset(rows)
    ensures forall i :: 0 <= i < |pos| ==> 0 <= pos[i] < |rows| && SortedRows(rows)[i] == rows[pos[i]]
    ensures forall i, j :: 0 <= i < j < |pos| ==>
      || KeyLt(RowKeys(rows)[pos[i]], RowKeys(rows)[pos[j]])
      || (RowKeys(rows)[pos[i]] == RowKeys(rows)[pos[j]] && pos[i] < pos[j])
  {
    pos := StablePositions(rows, RowKeys(rows));
  }

  /** Rows of one ship-to group that come out in a given order have group minimum, name and own dates in that order. */
  lemma SortByOwnDate(rows: seq<Row>, a: Row, b: Row)
    requires Cell(a, "Ship To Name") == Cell(b, "Ship To Name")
    requires KeyLt(RowKey(rows, a), RowKey(rows, b))
    ensures OwnCode(a) < OwnCode(b)
  {
    LexLtIrreflexive(Cell(a, "Ship To Name"));
  }

  /** Without one of the two columns nothing is sorted and nothing dropped. */
  lemma SortSkipped(f: Frame)
    requires "Cancel Date" !in f.columns || "Ship To Name" !in f.columns
    ensures SortFrame(f) == f
  {
  }

  /** After the sort the helper columns are gone and every other cell is the one of its source row. */
  lemma SortedCells(f: Frame, i: nat, c: string)
    requires "Cancel Date" in f.columns && "Ship To Name" in f.columns
    requires i < |f.rows|
    ensures |SortFrame(f).rows| == |f.rows|
    ensures Cell(SortFrame(f).rows[i], c) == if c in Helpers then "" else Cell(SortedRows(f.rows)[i], c)
    ensures c in SortFrame(f).columns <==> c in f.columns && c !in Helpers
  {
  }
}
