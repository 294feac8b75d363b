/**
 * Combining the per-invoice tables of a session into one table
 * (CSVExporter.combine_to_csv in csv_exporter.py). The session directory is
 * a map from file names to what pandas reads from each file.
 */
module CsvExport {
  import opened Wrappers
  import opened Text
  import opened Tables

  /** A file as read_csv sees it: a table, or a file it fails on. */
  datatype CsvFile = Csv(table: Table) | Unreadable

  /** glob("*.csv") minus the output: a visible name ending in .csv other than the output's. */
  predicate IsInput(name: string) {
    EndsWith(name, ".csv") && !StartsWith(name, ".") && name != OutputCsvName
  }

  /** The inputs among a directory listing, in listing order. */
  function Inputs(listing: seq<string>): seq<string>
    decreases |listing|
  {
    if listing == [] then []
    else
      var n := listing[|listing| - 1];
      Inputs(listing[..|listing| - 1]) + (if IsInput(n) then [n] else [])
  }

  /** The inputs are exactly the listed names that glob matches, so never the output. */
  lemma {:induction false} InputsMeaning(listing: seq<string>)
    ensures forall x :: x in Inputs(listing) <==> x in listing && IsInput(x)
    ensures OutputCsvName !in Inputs(listing)
    decreases |listing|
  {
    if listing != [] {
      InputsMeaning(listing[..|listing| - 1]);
      assert listing == listing[..|listing| - 1] + [listing[|listing| - 1]];
    }
  }

  predicate Distinct(s: seq<string>) {
    forall i, j :: 0 <= i < j < |s| ==> s[i] != s[j]
  }

  lemma {:induction false} InputsDistinct(listing: seq<string>)
    requires Distinct(listing)
    ensures Distinct(Inputs(listing))
    decreases |listing|
  {
    if listing != [] {
      var init := listing[..|listing| - 1];
      assert Distinct(init);
      InputsDistinct(init);
      InputsMeaning(init);
      assert listing[|listing| - 1] !in init;
    }
  }

  // ---------------------------------------------------------------------------
  // pandas.concat: rows aligned by column name over the union of the columns
  // ---------------------------------------------------------------------------

  /** The first index of c in h, -1 if it is absent. */
  function IndexOf(h: seq<string>, c: string): int
    decreases |h|
  {
    if h == [] then -1
    else if h[0] == c then 0
    else
      var k := IndexOf(h[1..], c);
      if k == -1 then -1 else k + 1
  }

  /** IndexOf finds the first occurrence, and -1 exactly when there is none. */
  lemma {:induction false} IndexOfMeaning(h: seq<string>, c: string)
    ensures var k := IndexOf(h, c);
      && -1 <= k < |h|
      && (k >= 0 ==> h[k] == c && forall i :: 0 <= i < k ==> h[i] != c)
      && (k == -1 <==> c !in h)
    decreases |h|
  {
    if h != [] && h[0] != c {
      IndexOfMeaning(h[1..], c);
      var k := IndexOf(h[1..], c);
      if k >= 0 {
        assert forall i :: 1 <= i < k + 1 ==> h[i] == h[1..][i - 1];
      }
      assert c in h <==> c in h[1..];
    }
  }

  /** The columns of h, then those of g that h lacks, in order of appearance. */
  function UnionColumns(h: seq<string>, g: seq<string>): seq<string>
    decreases |g|
  {
    if g == [] then h
    else
      var u := UnionColumns(h, g[..|g| - 1]);
      var c := g[|g| - 1];
      if c in u then u else u + [c]
  }

  /** A row under header `from`, rearranged under header `to`; a missing column is an empty cell. */
  function Align(row: seq<string>, from: seq<string>, to: seq<string>): (r: seq<string>)
    ensures |r| == |to|
  {
    seq(|to|, j requires 0 <= j < |to| =>
      var k := IndexOf(from, to[j]);
      if 0 <= k < |row| then row[k] else "")
  }

  /** The union of the headers of ts, in order of appearance. */
  function Columns(ts: seq<Table>): seq<string>
    decreases |ts|
  {
    if ts == [] then [] else UnionColumns(Columns(ts[..|ts| - 1]), ts[|ts| - 1].header)
  }

  /** The rows of ts, in order, each aligned under header h. */
  function AlignedRows(ts: seq<Table>, h: seq<string>): seq<seq<string>>
    decreases |ts|
  {
    if ts == [] then []
    else
      var t := ts[|ts| - 1];
      AlignedRows(ts[..|ts| - 1], h) + seq(|t.rows|, i requires 0 <= i < |t.rows| => Align(t.rows[i], t.header, h))
  }

  /** pd.concat(dfs, ignore_index=True) */
  function Concat(ts: seq<Table>): Table {
    var h := Columns(ts);
    Table(h, AlignedRows(ts, h))
  }

  // ---------------------------------------------------------------------------
  // The batches and the output
  // ---------------------------------------------------------------------------

  /** The tables of the readable files among ns, in order. */
  function ReadTables(files: map<string, CsvFile>, ns: seq<string>): seq<Table>
    decreases |ns|
  {
    if ns == [] then []
    else
      var n := ns[|ns| - 1];
      ReadTables(files, ns[..|ns| - 1]) + (if n in files && files[n].Csv? then [files[n].table] else [])
  }

  /** The number of batches of n inputs; a batch holds chunk_size = 5 files. */
  function NumBatches(n: nat): nat {
    (n + 4) / 5
  }

  /** The b-th batch: csv_files[5b:5b + 5]. */
  function Batch(inputs: seq<string>, b: nat): seq<string>
    requires b < NumBatches(|inputs|)
  {
    var e := if 5 * b + 5 <= |inputs| then 5 * b + 5 else |inputs|;
    inputs[5 * b..e]
  }

  /** One batch's write: a first batch with data writes header and rows, a later one appends rows. */
  function Write(out: Option<Table>, tables: seq<Table>): Option<Table> {
    if tables == [] then out
    else
      var t := Concat(tables);
      match out
      case None => Some(t)
      case Some(o) => Some(Table(o.header, o.rows + t.rows))
  }

  /** The output after the first b batches; None while nothing was written. */
  function CombineUpTo(files: map<string, CsvFile>, inputs: seq<string>, b: nat): Option<Table>
    requires b <= NumBatches(|inputs|)
  {
    if b == 0 then None else Write(CombineUpTo(files, inputs, b - 1), ReadTables(files, Batch(inputs, b - 1)))
  }

  /** The combined output of all the inputs. */
  function Combined(files: map<string, CsvFile>, inputs: seq<string>): Option<Table> {
    CombineUpTo(files, inputs, NumBatches(|inputs|))
  }

  /** The directory once the readable files among done are removed and the output is out. */
  function Stage(files: map<string, CsvFile>, done: seq<string>, out: Option<Table>): map<string, CsvFile> {
    var kept := map n | n in files && !(n in done && files[n].Csv?) :: files[n];
    match out
    case None => kept
    case Some(t) => kept[OutputCsvName := Csv(t)]
  }

  /** os.remove */
  function Remove(files: map<string, CsvFile>, name: string): (r: map<string, CsvFile>)
    ensures forall n :: n in r <==> n in files && n != name
    ensures forall n :: n in r ==> r[n] == files[n]
  {
    map n | n in files && n != name :: files[n]
  }

  // ---------------------------------------------------------------------------
  // What the combination means
  // ---------------------------------------------------------------------------

  /** Every row has one cell per column. */
  predicate Rectangular(t: Table) {
    forall i :: 0 <= i < |t.rows| ==> |t.rows[i]| == |t.header|
  }

  /** The rows of ts, in order. */
  function AllRows(ts: seq<Table>): seq<seq<string>>
    decreases |ts|
  {
    if ts == [] then [] else AllRows(ts[..|ts| - 1]) + ts[|ts| - 1].rows
  }

  /** Tables that share one header with distinct column names. */
  predicate SameHeader(ts: seq<Table>, h: seq<string>) {
    Distinct(h) && forall i :: 0 <= i < |ts| ==> ts[i].header == h && Rectangular(ts[i])
  }

  lemma AlignSame(row: seq<string>, h: seq<string>)
    requires Distinct(h) && |row| == |h|
    ensures Align(row, h, h) == row
  {
    forall j | 0 <= j < |h| ensures IndexOf(h, h[j]) == j {
      IndexOfMeaning(h, h[j]);
    }
  }

  lemma {:induction false} ColumnsSame(ts: seq<Table>, h: seq<string>)
    requires ts != [] && SameHeader(ts, h)
    ensures Columns(ts) == h
    decreases |ts|
  {
    var init := ts[..|ts| - 1];
    if init == [] {
      assert Columns(init) == [];
      assert UnionColumns([], h) == h by { UnionWithin([], h); }
    } else {
      assert SameHeader(init, h) by {
        assert forall i :: 0 <= i < |init| ==> init[i] == ts[i];
      }
      ColumnsSame(init, h);
      UnionSubset(h, h);
    }
  }

  /** Adding columns that are already present changes nothing. */
  lemma {:induction false} UnionSubset(h: seq<string>, g: seq<string>)
    requires forall c :: c in g ==> c in h
    ensures UnionColumns(h, g) == h
    decreases |g|
  {
    if g != [] {
      UnionSubset(h, g[..|g| - 1]);
    }
  }

  /** The union starting from no columns, over distinct columns, is those columns. */
  lemma {:induction false} UnionWithin(h: seq<string>, g: seq<string>)
    requires h == [] && Distinct(g)
    ensures UnionColumns(h, g) == g
    decreases |g|
  {
    if g != [] {
      var init := g[..|g| - 1];
      assert Distinct(init);
      UnionWithin(h, init);
      assert g[|g| - 1] !in init;
      assert init + [g[|g| - 1]] == g;
    }
  }

  lemma {:induction false} AlignedRowsSame(ts: seq<Table>, h: seq<string>)
    requires SameHeader(ts, h)
    ensures AlignedRows(ts, h) == AllRows(ts)
    decreases |ts|
  {
    if ts != [] {
      var init := ts[..|ts| - 1];
      var t := ts[|ts| - 1];
      assert SameHeader(init, h) by {
        assert forall i :: 0 <= i < |init| ==> init[i] == ts[i];
      }
      AlignedRowsSame(init, h);
      var al := seq(|t.rows|, i requires 0 <= i < |t.rows| => Align(t.rows[i], t.header, h));
      forall i | 0 <= i < |t.rows| ensures al[i] == t.rows[i] {
        AlignSame(t.rows[i], h);
      }
      assert al == t.rows;
    }
  }

  /** Tables with one header concatenate to that header over all their rows, in order. */
  lemma ConcatSame(ts: seq<Table>, h: seq<string>)
    requires ts != [] && SameHeader(ts, h)
    ensures Concat(ts) == Table(h, AllRows(ts))
  {
    ColumnsSame(ts, h);
    AlignedRowsSame(ts, h);
  }

  lemma {:induction false} AllRowsAppend(a: seq<Table>, b: seq<Table>)
    ensures AllRows(a + b) == AllRows(a) + AllRows(b)
    decreases |b|
  {
    if b == [] {
      assert a + b == a;
    } else {
      var b' := b[..|b| - 1];
      var c := a + b;
      assert c[..|c| - 1] == a + b';
      assert c[|c| - 1] == b[|b| - 1];
      calc {
        AllRows(c);
        AllRows(a + b') + b[|b| - 1].rows;
        { AllRowsAppend(a, b'); }
        AllRows(a) + AllRows(b') + b[|b| - 1].rows;
        AllRows(a) + AllRows(b);
      }
    }
  }

  lemma {:induction false} InputsAppend(a: seq<string>, b: seq<string>)
    ensures Inputs(a + b) == Inputs(a) + Inputs(b)
    decreases |b|
  {
    if b == [] {
      assert a + b == a;
    } else {
      var b' := b[..|b| - 1];
      assert (a + b)[..|a + b| - 1] == a + b';
      InputsAppend(a, b');
    }
  }

  lemma {:induction false} ReadTablesAppend(files: map<string, CsvFile>, a: seq<string>, b: seq<string>)
    ensures ReadTables(files, a + b) == ReadTables(files, a) + ReadTables(files, b)
    decreases |b|
  {
    if b == [] {
      assert a + b == a;
    } else {
      var b' := b[..|b| - 1];
      assert (a + b)[..|a + b| - 1] == a + b';
      ReadTablesAppend(files, a, b');
    }
  }

  /** The batches up to b cover the prefix of the inputs they name. */
  lemma BatchCover(inputs: seq<string>, b: nat)
    requires b < NumBatches(|inputs|)
    ensures 5 * b < |inputs|
    ensures inputs[..5 * b] + Batch(inputs, b) == inputs[..Covered(|inputs|, b + 1)]
  {
    var n := |inputs|;
    var e := Covered(n, b + 1);
    assert inputs[..e] == inputs[..5 * b] + inputs[5 * b..e];
  }

  /** The number of inputs in the first b batches. */
  function Covered(n: nat, b: nat): nat {
    if 5 * b <= n then 5 * b else n
  }

  lemma CoveredAll(n: nat)
    ensures Covered(n, NumBatches(n)) == n
  {
  }

  /** The tables read from a slice of the inputs share the header of all of them. */
  lemma SliceTablesSame(files: map<string, CsvFile>, inputs: seq<string>, i: nat, j: nat, h: seq<string>)
    requires i <= j <= |inputs| && SameHeader(ReadTables(files, inputs), h)
    ensures SameHeader(ReadTables(files, inputs[i..j]), h)
  {
    var a := inputs[..i];
    var m := inputs[i..j];
    var c := inputs[j..];
    assert inputs == a + m + c;
    ReadTablesAppend(files, a + m, c);
    ReadTablesAppend(files, a, m);
    var all := ReadTables(files, inputs);
    var ta := ReadTables(files, a);
    var tm := ReadTables(files, m);
    assert forall k :: 0 <= k < |tm| ==> tm[k] == all[|ta| + k];
  }

  /** One more batch of tables under the header h extends the output by their rows. */
  lemma WriteSame(out: Option<Table>, tp: seq<Table>, tb: seq<Table>, h: seq<string>)
    requires SameHeader(tb, h)
    requires out == if tp == [] then None else Some(Table(h, AllRows(tp)))
    ensures Write(out, tb) == if tp + tb == [] then None else Some(Table(h, AllRows(tp + tb)))
  {
    AllRowsAppend(tp, tb);
    if tb != [] {
      ConcatSame(tb, h);
      if tp == [] {
        assert tp + tb == tb;
      }
    } else {
      assert tp + tb == tp;
    }
  }

  /**
   * When all readable inputs share one header, batching makes no difference:
   * the output is that header over every row of every readable input, in
   * input order, and nothing is written when no input is readable.
   */
  lemma {:induction false} CombineUpToSame(files: map<string, CsvFile>, inputs: seq<string>, b: nat, h: seq<string>)
    requires b <= NumBatches(|inputs|)
    requires SameHeader(ReadTables(files, inputs), h)
    ensures var ts := ReadTables(files, inputs[..Covered(|inputs|, b)]);
      CombineUpTo(files, inputs, b) == if ts == [] then None else Some(Table(h, AllRows(ts)))
    decreases b
  {
    var n := |inputs|;
    if b == 0 {
      assert inputs[..Covered(n, 0)] == [];
    } else {
      CombineUpToSame(files, inputs, b - 1, h);
      var pre := inputs[..5 * (b - 1)];
      var bat := Batch(inputs, b - 1);
      BatchCover(inputs, b - 1);
      ReadTablesAppend(files, pre, bat);
      SliceTablesSame(files, inputs, 5 * (b - 1), Covered(n, b), h);
      assert bat == inputs[5 * (b - 1)..Covered(n, b)];
      WriteSame(CombineUpTo(files, inputs, b - 1), ReadTables(files, pre), ReadTables(files, bat), h);
    }
  }

  /** The combination over shared headers, for all the inputs. */
  lemma CombinedSame(files: map<string, CsvFile>, inputs: seq<string>, h: seq<string>)
    requires SameHeader(ReadTables(files, inputs), h)
    ensures var ts := ReadTables(files, inputs);
      Combined(files, inputs) == if ts == [] then None else Some(Table(h, AllRows(ts)))
  {
    CombineUpToSame(files, inputs, NumBatches(|inputs|), h);
    CoveredAll(|inputs|);
    assert inputs[..|inputs|] == inputs;
  }

  /** The session directory an exporter combines: file names and what read_csv yields for each. */
  class CsvExporter {
    var files: map<string, CsvFile>

    constructor (files0: map<string, CsvFile>)
      ensures files == files0
    {
      files := files0;
    }

    /**
     * combine_to_csv, with listing the directory's names in glob order. It
     * fails exactly when there is no input; otherwise every readable input is
     * removed and the output holds the combination, written only when some
     * input was readable.
     */
    method CombineToCsv(listing: seq<string>) returns (ok: bool)
      requires Distinct(listing)
      modifies this
      ensures ok <==> Inputs(listing) != []
      ensures !ok ==> files == old(files)
      ensures ok ==> files == Stage(old(files), Inputs(listing), Combined(old(files), Inputs(listing)))
    {
      var inputs := Inputs(listing);
      if inputs == [] {
        return false;
      }
      InputsDistinct(listing);
      InputsMeaning(listing);
      CombineAll(inputs);
      ok := true;
    }

    /** The batch loop over all the inputs, from the directory as it stands. */
    method CombineAll(inputs: seq<string>)
      requires Distinct(inputs) && OutputCsvName !in inputs
      modifies this
      ensures files == Stage(old(files), inputs, Combined(old(files), inputs))
    {
      ghost var files0 := files;
      StageNothing(files0, inputs);
      var out: Option<Table> := None;
      var firstFile := true;
      var b := 0;
      while b < NumBatches(|inputs|)
        invariant 0 <= b <= NumBatches(|inputs|)
        invariant firstFile <==> out.None?
        invariant out == CombineUpTo(files0, inputs, b)
        invariant files == Stage(files0, inputs[..Covered(|inputs|, b)], out)
      {
        out, firstFile := CombineBatch(files0, inputs, b, out, firstFile);
        b := b + 1;
      }
      CoveredAll(|inputs|);
      assert inputs[..|inputs|] == inputs;
    }

    /** One pass of the batch loop: read batch b, then write what was read. */
    method CombineBatch(ghost files0: map<string, CsvFile>, inputs: seq<string>, b: nat, out: Option<Table>, firstFile: bool)
      returns (out': Option<Table>, firstFile': bool)
      requires Distinct(inputs) && OutputCsvName !in inputs
      requires b < NumBatches(|inputs|)
      requires firstFile <==> out.None?
      requires out == CombineUpTo(files0, inputs, b)
      requires files == Stage(files0, inputs[..Covered(|inputs|, b)], out)
      modifies this
      ensures firstFile' <==> out'.None?
      ensures out' == CombineUpTo(files0, inputs, b + 1)
      ensures files == Stage(files0, inputs[..Covered(|inputs|, b + 1)], out')
    {
      var dfs := ReadBatch(files0, inputs, b, out);
      CombineStep(files0, inputs, b);
      out', firstFile' := out, firstFile;
      if dfs != [] {
        out', firstFile' := WriteBatch(dfs, firstFile, files0, inputs[..Covered(|inputs|, b + 1)], out);
      }
    }

    /** to_csv of one batch's concatenation: mode 'w' with the header on the first write, mode 'a' after. */
    method WriteBatch(dfs: seq<Table>, firstFile: bool, ghost files0: map<string, CsvFile>, ghost done: seq<string>,
                      ghost before: Option<Table>)
      returns (out: Option<Table>, firstFile': bool)
      requires dfs != [] && (firstFile <==> before.None?)
      requires files == Stage(files0, done, before)
      modifies this
      ensures out == Write(before, dfs) && out.Some? && !firstFile'
      ensures files == Stage(files0, done, out)
    {
      var t := Concat(dfs);
      if firstFile {
        out := Some(t);
      } else {
        var o := files[OutputCsvName].table;
        out := Some(Table(o.header, o.rows + t.rows));
      }
      firstFile' := false;
      StageOut(files0, done, before, out.value);
      files := files[OutputCsvName := Csv(out.value)];
    }

    /** The inner loop: read every file of batch b, removing each one that was read. */
    method ReadBatch(ghost files0: map<string, CsvFile>, inputs: seq<string>, b: nat, ghost out: Option<Table>)
      returns (dfs: seq<Table>)
      requires Distinct(inputs) && OutputCsvName !in inputs
      requires b < NumBatches(|inputs|)
      requires files == Stage(files0, inputs[..Covered(|inputs|, b)], out)
      modifies this
      ensures dfs == ReadTables(files0, Batch(inputs, b))
      ensures files == Stage(files0, inputs[..Covered(|inputs|, b + 1)], out)
    {
      BatchCover(inputs, b);
      var start := 5 * b;
      var e := Covered(|inputs|, b + 1);
      dfs := [];
      var k := start;
      while k < e
        invariant start <= k <= e
        invariant dfs == ReadTables(files0, inputs[start..k])
        invariant files == Stage(files0, inputs[..k], out)
      {
        var name := inputs[k];
        StageLookup(files0, inputs, k, out);
        StageStep(files0, inputs, k, out);
        ReadTablesStep(files0, inputs, start, k);
        if name in files && files[name].Csv? {
          dfs := dfs + [files[name].table];
          files := Remove(files, name);
        }
        k := k + 1;
      }
    }
  }

  lemma ReadTablesStep(files: map<string, CsvFile>, s: seq<string>, i: nat, k: nat)
    requires i <= k < |s|
    ensures ReadTables(files, s[i..k + 1]) ==
      ReadTables(files, s[i..k]) + (if s[k] in files && files[s[k]].Csv? then [files[s[k]].table] else [])
  {
    assert s[i..k + 1][..k - i] == s[i..k];
  }

  lemma CombineStep(files: map<string, CsvFile>, inputs: seq<string>, b: nat)
    requires b < NumBatches(|inputs|)
    ensures CombineUpTo(files, inputs, b + 1) == Write(CombineUpTo(files, inputs, b), ReadTables(files, Batch(inputs, b)))
  {
  }

  /** Before any batch, the staged directory is the directory itself. */
  lemma StageNothing(files: map<string, CsvFile>, inputs: seq<string>)
    ensures Stage(files, inputs[..Covered(|inputs|, 0)], None) == files
  {
    assert inputs[..Covered(|inputs|, 0)] == [];
  }

  /** Writing the output replaces whatever the staged directory held under its name. */
  lemma StageOut(files: map<string, CsvFile>, done: seq<string>, out: Option<Table>, t: Table)
    ensures Stage(files, done, out)[OutputCsvName := Csv(t)] == Stage(files, done, Some(t))
  {
  }

  /** An input not yet read is seen in the staged directory as it was. */
  lemma StageLookup(files0: map<string, CsvFile>, inputs: seq<string>, k: nat, out: Option<Table>)
    requires Distinct(inputs) && OutputCsvName !in inputs
    requires k < |inputs|
    ensures var n := inputs[k]; var st := Stage(files0, inputs[..k], out);
      (n in st <==> n in files0) && (n in st ==> st[n] == files0[n])
  {
    var n := inputs[k];
    assert n !in inputs[..k];
  }

  /** Reading input k removes it when it was readable and changes nothing else. */
  lemma StageStep(files0: map<string, CsvFile>, inputs: seq<string>, k: nat, out: Option<Table>)
    requires Distinct(inputs) && OutputCsvName !in inputs
    requires k < |inputs|
    ensures var n := inputs[k]; var st := Stage(files0, inputs[..k], out);
      Stage(files0, inputs[..k + 1], out) ==
        if n in st && st[n].Csv? then Remove(st, n) else st
  {
    var n := inputs[k];
    assert inputs[..k + 1] == inputs[..k] + [n];
    assert n !in inputs[..k];
  }
}
