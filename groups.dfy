/**
 * The cube columns of process_csv_file (app.py): a pallet count, a
 * Burlington cube and a final cube are computed for every row, the three
 * columns are blanked, and the values are written only on the first row of
 * each run of equal invoice numbers. A blank invoice number (NaN) never
 * equals the previous one, so every such row starts a run of its own.
 */
module Groups {
  import opened Wrappers
  import opened Frames
  import opened Cubes

  /** pallet_values: compute_pallet of each BOL Cube cell, or blanks when the column is absent. */
  function PalletValues(f: Frame): (v: seq<Option<int>>)
    ensures |v| == |f.rows|
  {
    seq(|f.rows|, i requires 0 <= i < |f.rows| =>
      if "BOL Cube" in f.columns then ComputePallet(Cell(f.rows[i], "BOL Cube")) else None)
  }

  /** burlington_values: compute_burlington of each row, or blanks without a Ship To Name column. */
  function BurlingtonValues(f: Frame, pallets: seq<Option<int>>): (v: seq<Option<int>>)
    requires |pallets| == |f.rows|
    ensures |v| == |f.rows|
  {
    seq(|f.rows|, i requires 0 <= i < |f.rows| =>
      if "Ship To Name" in f.columns then ComputeBurlington(Cell(f.rows[i], "Ship To Name"), pallets[i]) else None)
  }

  /** final_cube_values: compute_final_cube of each row, or blanks without a Ship To Name column. */
  function FinalValues(f: Frame, pallets: seq<Option<int>>): (v: seq<Option<int>>)
    requires |pallets| == |f.rows|
    ensures |v| == |f.rows|
  {
    seq(|f.rows|, i requires 0 <= i < |f.rows| =>
      if "Ship To Name" in f.columns then ComputeFinalCube(Cell(f.rows[i], "Ship To Name"), pallets[i]) else None)
  }

  /** df[c] = "": a new column goes last, an existing one keeps its place; every cell becomes "". */
  function SetBlank(f: Frame, c: string): (g: Frame)
    ensures |g.rows| == |f.rows|
  {
    Frame(if c in f.columns then f.columns else f.columns + [c],
          seq(|f.rows|, i requires 0 <= i < |f.rows| => f.rows[i][c := ""]))
  }

  /** The blank Pallet column when BOL Cube exists, and the two cube columns when Ship To Name does. */
  function Prepared(f: Frame): (g: Frame)
    ensures |g.rows| == |f.rows|
  {
    var withPallet := if "BOL Cube" in f.columns then SetBlank(f, "Pallet") else f;
    if "Ship To Name" in withPallet.columns then SetBlank(SetBlank(withPallet, "Burlington Cube"), "Final Cube")
    else withPallet
  }

  /** Whether row i starts a run: the first row, a blank invoice number, or one that differs from the row before. */
  predicate IsHead(rows: seq<Row>, i: nat)
    requires i < |rows|
  {
    i == 0 || Cell(rows[i], "Invoice No.") == "" || Cell(rows[i], "Invoice No.") != Cell(rows[i - 1], "Invoice No.")
  }

  /** A head row with its three values written in. */
  function Filled(r: Row, pallet: Option<int>, burlington: Option<int>, final: Option<int>): Row {
    r["Pallet" := CellOf(pallet)]["Burlington Cube" := CellOf(burlington)]["Final Cube" := CellOf(final)]
  }

  /**
   * The grouping loop. The first row is always a head, so a table with rows
   * fails there, on the first of the three columns it lacks, with the
   * KeyError message of columns.get_loc.
   */
  function Heads(f: Frame, p: seq<Option<int>>, b: seq<Option<int>>, fc: seq<Option<int>>): Result<Frame>
    requires |p| == |b| == |fc| == |f.rows|
  {
    if |f.rows| > 0 && "Pallet" !in f.columns then Fail("'Pallet'")
    else if |f.rows| > 0 && "Burlington Cube" !in f.columns then Fail("'Burlington Cube'")
    else if |f.rows| > 0 && "Final Cube" !in f.columns then Fail("'Final Cube'")
    else Ok(Frame(f.columns, HeadsFilled(f.rows, p, b, fc)))
  }

  /** Every head row filled, every other row as it was. */
  function HeadsFilled(rows: seq<Row>, p: seq<Option<int>>, b: seq<Option<int>>, fc: seq<Option<int>>): (r: seq<Row>)
    requires |p| == |b| == |fc| == |rows|
    ensures |r| == |rows|
  {
    seq(|rows|, i requires 0 <= i < |rows| => if IsHead(rows, i) then Filled(rows[i], p[i], b[i], fc[i]) else rows[i])
  }

  /** The loop of current_invoice and is_first_row over the rows. */
  method AssignHeads(f: Frame, p: seq<Option<int>>, b: seq<Option<int>>, fc: seq<Option<int>>) returns (r: Result<Frame>)
    requires |p| == |b| == |fc| == |f.rows|
    ensures r == Heads(f, p, b, fc)
  {
    var rows := f.rows;
    var current: Option<string> := None;
    var first := true;
    var idx := 0;
    while idx < |rows|
      invariant 0 <= idx <= |f.rows| == |rows|
      invariant idx == 0 ==> current == None && first
      invariant idx > 0 ==> current == Some(Cell(f.rows[idx - 1], "Invoice No.")) && !first
      invariant idx > 0 ==> "Pallet" in f.columns && "Burlington Cube" in f.columns && "Final Cube" in f.columns
      invariant forall i :: 0 <= i < idx ==> rows[i] == HeadsFilled(f.rows, p, b, fc)[i]
      invariant forall i :: idx <= i < |rows| ==> rows[i] == f.rows[i]
    {
      assert rows[idx] == f.rows[idx];
      var invoice := Cell(rows[idx], "Invoice No.");
      if current.None? || invoice == "" || invoice != current.value {
        current := Some(invoice);
        first := true;
      }
      if first {
        var w := WriteHead(rows[idx], f.columns, p[idx], b[idx], fc[idx]);
        if w.Fail? {
          return Fail(w.error);
        }
        rows := rows[idx := w.value];
        first := false;
      }
      current := Some(invoice);
      idx := idx + 1;
    }
    assert rows == HeadsFilled(f.rows, p, b, fc);
    r := Ok(Frame(f.columns, rows));
  }

  /** The three iloc writes on a head row; the first absent column raises KeyError. */
  method WriteHead(r: Row, columns: seq<string>, pallet: Option<int>, burlington: Option<int>, final: Option<int>)
    returns (w: Result<Row>)
    ensures w == if "Pallet" !in columns then Fail("'Pallet'")
      else if "Burlington Cube" !in columns then Fail("'Burlington Cube'")
      else if "Final Cube" !in columns then Fail("'Final Cube'")
      else Ok(Filled(r, pallet, burlington, final))
  {
    var u := r;
    if "Pallet" !in columns {
      return Fail("'Pallet'");
    }
    u := u["Pallet" := CellOf(pallet)];
    if "Burlington Cube" !in columns {
      return Fail("'Burlington Cube'");
    }
    u := u["Burlington Cube" := CellOf(burlington)];
    if "Final Cube" !in columns {
      return Fail("'Final Cube'");
    }
    u := u["Final Cube" := CellOf(final)];
    w := Ok(u);
  }

  /** The three steps together, on the table after the join. */
  function CubeColumns(f: Frame): Result<Frame> {
    var g := Prepared(f);
    var p := PalletValues(f);
    Heads(g, p, BurlingtonValues(f, p), FinalValues(f, p))
  }

  // ---------------------------------------------------------------------------
  // Properties
  // ---------------------------------------------------------------------------

  lemma PreparedCells(f: Frame, i: nat, c: string)
    requires i < |f.rows|
    ensures Cell(Prepared(f).rows[i], c) ==
      if (c == "Pallet" && "BOL Cube" in f.columns)
         || ((c == "Burlington Cube" || c == "Final Cube") && "Ship To Name" in f.columns)
      then "" else Cell(f.rows[i], c)
  {
  }

  lemma PreparedColumns(f: Frame, c: string)
    ensures c in Prepared(f).columns <==>
      || c in f.columns
      || (c == "Pallet" && "BOL Cube" in f.columns)
      || ((c == "Burlington Cube" || c == "Final Cube") && "Ship To Name" in f.columns)
  {
  }

  /** The blanking keeps the invoice numbers, so the runs are those of the table after the join. */
  lemma PreparedHeads(f: Frame, i: nat)
    requires i < |f.rows|
    ensures IsHead(Prepared(f).rows, i) <==> IsHead(f.rows, i)
  {
    PreparedCells(f, i, "Invoice No.");
    if i > 0 {
      PreparedCells(f, i - 1, "Invoice No.");
    }
  }

  /**
   * A table with rows fails exactly when a cube column is neither present
   * nor created, on the first such column in the order Pallet, Burlington
   * Cube, Final Cube.
   */
  lemma CubeColumnsFail(f: Frame)
    ensures var pallet := "Pallet" in f.columns || "BOL Cube" in f.columns;
      var burl := "Burlington Cube" in f.columns || "Ship To Name" in f.columns;
      var final := "Final Cube" in f.columns || "Ship To Name" in f.columns;
      CubeColumns(f) ==
        if |f.rows| > 0 && !pallet then Fail("'Pallet'")
        else if |f.rows| > 0 && !burl then Fail("'Burlington Cube'")
        else if |f.rows| > 0 && !final then Fail("'Final Cube'")
        else Ok(CubeColumns(f).value)
  {
    PreparedColumns(f, "Pallet");
    PreparedColumns(f, "Burlington Cube");
    PreparedColumns(f, "Final Cube");
  }

  /**
   * On success a head row holds its computed values; every other row holds
   * "" in each of the three columns that was created or blanked, and keeps
   * its old cell in one that already existed without its input column. All
   * other cells are those after the join.
   */
  lemma CubeCells(f: Frame, i: nat, c: string)
    requires CubeColumns(f).Ok? && i < |f.rows|
    ensures var p := PalletValues(f);
      var rows := CubeColumns(f).value.rows;
      |rows| == |f.rows| &&
      var head := IsHead(f.rows, i);
      var blanked := (c == "Pallet" && "BOL Cube" in f.columns)
        || ((c == "Burlington Cube" || c == "Final Cube") && "Ship To Name" in f.columns);
      Cell(rows[i], c) ==
        if head && c == "Pallet" then CellOf(p[i])
        else if head && c == "Burlington Cube" then CellOf(BurlingtonValues(f, p)[i])
        else if head && c == "Final Cube" then CellOf(FinalValues(f, p)[i])
        else if blanked then ""
        else Cell(f.rows[i], c)
  {
    PreparedHeads(f, i);
    PreparedCells(f, i, c);
    CubeColumnsFail(f);
    PreparedColumns(f, "Pallet");
    PreparedColumns(f, "Burlington Cube");
    PreparedColumns(f, "Final Cube");
  }

  /** Inside a run of one non-blank invoice number only the first row is a head. */
  lemma OneHeadPerRun(rows: seq<Row>, i: nat, j: nat, v: string)
    requires i <= j < |rows| && v != ""
    requires forall k :: i <= k <= j ==> Cell(rows[k], "Invoice No.") == v
    ensures forall k :: i < k <= j ==> !IsHead(rows, k)
  {
  }
}
