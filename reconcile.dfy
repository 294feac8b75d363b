/**
 * process_csv_file (app.py): an uploaded CSV or Excel table is joined into
 * the table of the processed PDFs, the cube columns are computed and the
 * rows are sorted, and the result is written back over the combined CSV.
 * The function returns a success flag and a message; on failure nothing is
 * written. Reading the uploaded file is a parameter: the table it gives or
 * the exception pandas raised. The combined table is given as read.
 */
module Reconcile {
  import opened Wrappers
  import opened Text
  import opened Paths
  import opened Frames
  import opened Merge
  import opened Groups
  import opened Ordering

  /** What reading the uploaded file gives. */
  datatype ReadOutcome = Loaded(table: Frame) | EmptyData | ParserError | Raised(message: string)

  /** The returned flag and message, and the table written back over the combined CSV, if any. */
  datatype Outcome = Outcome(ok: bool, message: string, written: Option<Frame>)

  /** The extensions with a reader: .csv for read_csv, .xlsx and .xls for read_excel. */
  const Supported: set<string> := {".csv", ".xlsx", ".xls"}

  function Failure(message: string): Outcome {
    Outcome(false, message, None)
  }

  /** The messages of the three except clauses for a failed read. */
  function ReadMessage(r: ReadOutcome): string
    requires !r.Loaded?
  {
    match r
    case EmptyData => "The uploaded file is empty"
    case ParserError => "Error parsing the file. Please ensure it's a valid CSV/Excel file"
    case Raised(m) => "Error processing file: " + m
  }

  function SuccessMessage(n: nat): string {
    "CSV data merged successfully (processed " + NatToString(n) + " rows)"
  }

  /** Both tables with their match keys. */
  function KeyedSides(existing: Frame, incoming: Frame): (s: Sides)
    ensures Keyed(s)
  {
    Sides(existing, Keys(existing.rows, KeyColumns), incoming, Keys(incoming.rows, KeyColumns))
  }

  /** The existing table after the join, with match_key dropped. */
  function Joined(existing: Frame, incoming: Frame): (j: Frame)
    ensures |j.rows| == |existing.rows|
  {
    var rows := Merged(KeyedSides(existing, incoming), |incoming.rows|);
    Frame(DropColumns(existing.columns, {"match_key"}), DropCells(rows, {"match_key"}))
  }

  /** The whole of process_csv_file, once the combined table is found. */
  function Reconcile(path: string, read: ReadOutcome, existing: Frame): Outcome {
    if Lower(Ext(path)) !in Supported then Failure("Unsupported file extension")
    else if !read.Loaded? then Failure(ReadMessage(read))
    else
      var incoming := RenameFrame(read.table);
      match Missing(KeyColumns, existing.columns, incoming.columns)
      case Some(m) => Failure(m)
      case None =>
        match CubeColumns(Joined(existing, incoming))
        case Fail(e) => Failure("Error processing file: " + e)
        case Ok(g) => Outcome(true, SuccessMessage(|incoming.rows|), Some(SortFrame(g)))
  }

  /** The loop over matching_columns. */
  method FindMissing(cols: seq<string>, pdf: seq<string>, incoming: seq<string>) returns (r: Option<string>)
    ensures r == Missing(cols, pdf, incoming)
  {
    var i := 0;
    while i < |cols|
      invariant 0 <= i <= |cols|
      invariant Missing(cols, pdf, incoming) == Missing(cols[i..], pdf, incoming)
    {
      assert cols[i..][1..] == cols[i + 1..];
      if cols[i] !in pdf {
        return Some(PdfMissing(cols[i]));
      }
      if cols[i] !in incoming {
        return Some(IncomingMissing(cols[i]));
      }
      i := i + 1;
    }
    return None;
  }

  /** process_csv_file, step by step. */
  method ProcessCsvFile(path: string, read: ReadOutcome, existing: Frame) returns (ok: bool, message: string, written: Option<Frame>)
    ensures Outcome(ok, message, written) == Reconcile(path, read, existing)
  {
    var ext := Lower(Ext(path));
    if ext !in Supported {
      return false, "Unsupported file extension", None;
    }
    if !read.Loaded? {
      return false, ReadMessage(read), None;
    }
    var incoming := RenameFrame(read.table);
    var missing := FindMissing(KeyColumns, existing.columns, incoming.columns);
    if missing.Some? {
      return false, missing.value, None;
    }
    var rows := MergeRows(KeyedSides(existing, incoming));
    var joined := Frame(DropColumns(existing.columns, {"match_key"}), DropCells(rows, {"match_key"}));
    var pallets := PalletValues(joined);
    var heads := AssignHeads(Prepared(joined), pallets, BurlingtonValues(joined, pallets), FinalValues(joined, pallets));
    if heads.Fail? {
      return false, "Error processing file: " + heads.error, None;
    }
    return true, SuccessMessage(|incoming.rows|), Some(SortFrame(heads.value));
  }

  // ---------------------------------------------------------------------------
  // Properties
  // ---------------------------------------------------------------------------

  /** A failure writes nothing; a success writes a table with one row per existing row. */
  lemma WrittenOnSuccess(path: string, read: ReadOutcome, existing: Frame)
    ensures var r := Reconcile(path, read, existing);
      && (r.ok <==> r.written.Some?)
      && (r.ok ==> read.Loaded? && r.message == SuccessMessage(|read.table.rows|)
                   && |r.written.value.rows| == |existing.rows|)
  {
    var r := Reconcile(path, read, existing);
    if r.ok {
      var incoming := RenameFrame(read.table);
      var j := Joined(existing, incoming);
      var g := CubeColumns(j).value;
      assert |g.rows| == |Prepared(j).rows|;
    }
  }

  /**
   * Once the extension is supported and the file is read, the first of the
   * four match columns missing from the combined table or, failing that,
   * from the renamed upload, is named in the failure.
   */
  lemma MissingKeyColumn(path: string, read: ReadOutcome, existing: Frame, k: nat)
    requires Lower(Ext(path)) in Supported && read.Loaded?
    requires var cols := RenameFrame(read.table).columns;
      && k < |KeyColumns| && !(KeyColumns[k] in existing.columns && KeyColumns[k] in cols)
      && forall j :: 0 <= j < k ==> KeyColumns[j] in existing.columns && KeyColumns[j] in cols
    ensures Reconcile(path, read, existing) ==
      Failure(if KeyColumns[k] !in existing.columns then PdfMissing(KeyColumns[k]) else IncomingMissing(KeyColumns[k]))
  {
    MissingFirst(KeyColumns, existing.columns, RenameFrame(read.table).columns, k);
  }

  /** The upload is rejected on its extension before it is read. */
  lemma ExtensionFirst(path: string, read: ReadOutcome, existing: Frame)
    requires Lower(Ext(path)) !in Supported
    ensures Reconcile(path, read, existing) == Failure("Unsupported file extension")
  {
  }

  /** An upload named orders.txt is rejected. */
  lemma ExtensionExample(read: ReadOutcome, existing: Frame)
    ensures Reconcile("uploads/orders.txt", read, existing) == Failure("Unsupported file extension")
  {
    var p := "uploads/orders.txt";
    assert p[7] == '/' && p[14] == '.';
    assert LastIndex(p, '/') == 7;
    assert LastIndex(p, '.') == 14;
    assert p[8] != '.';
    assert Ext(p) == ".txt";
    assert Lower(".txt") == ".txt";
    ExtensionFirst(p, read, existing);
  }
}
