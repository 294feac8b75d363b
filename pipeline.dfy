/**
 * The route that takes an uploaded bill of lading (app.py:538-549, repeated at
 * 638-649, 758-769 and 1069-1074): process_all_files writes one table per
 * invoice, then a CSVExporter on the same session directory runs
 * combine_to_csv. Joined: while the directory holds no visible .csv file other
 * than the written ones, the combiner's inputs are exactly those files, and
 * their combination is the fixed header over every invoice's rows as
 * read_csv(dtype=str) gives them back.
 */
module Pipeline {
  import opened Wrappers
  import opened Tables
  import I = Invoices
  import C = CsvExport

  /** The names of the written files, in writing order. */
  function Names(outs: seq<I.Output>): (r: seq<string>)
    ensures |r| == |outs| && forall i :: 0 <= i < |outs| ==> r[i] == outs[i].name
  {
    seq(|outs|, i requires 0 <= i < |outs| => outs[i].name)
  }

  /** The tables of the written files, in writing order. */
  function Written(outs: seq<I.Output>): (r: seq<Table>)
    ensures |r| == |outs| && forall i :: 0 <= i < |outs| ==> r[i] == outs[i].table
  {
    seq(|outs|, i requires 0 <= i < |outs| => outs[i].table)
  }

  /** pandas' default NA strings: read_csv(dtype=str) reads a cell holding one of them as NaN. */
  const NaStrings: set<string> := {
    "", "#N/A", "#N/A N/A", "#NA", "-1.#IND", "-1.#QNAN", "-NaN", "-nan", "1.#IND", "1.#QNAN",
    "<NA>", "N/A", "NA", "NULL", "NaN", "None", "n/a", "nan", "null"}

  /** A written cell as the combiner reads it back: NaN, which to_csv writes as an empty cell, is `""`. */
  function ReadCell(c: string): (r: string)
    ensures r == "" || r == c
    ensures r == c <==> c == "" || c !in NaStrings
  {
    if c in NaStrings then "" else c
  }

  /** A written table as read_csv(dtype=str) gives it back: the header as written, every cell read back. */
  function ReadBack(t: Table): (r: Table)
    ensures r.header == t.header && |r.rows| == |t.rows|
    ensures forall i :: 0 <= i < |t.rows| ==>
      |r.rows[i]| == |t.rows[i]| && forall j :: 0 <= j < |t.rows[i]| ==> r.rows[i][j] == ReadCell(t.rows[i][j])
  {
    Table(t.header, seq(|t.rows|, i requires 0 <= i < |t.rows| =>
      seq(|t.rows[i]|, j requires 0 <= j < |t.rows[i]| => ReadCell(t.rows[i][j]))))
  }

  /** The written tables as read back, in writing order. */
  function ReadBacks(ts: seq<Table>): (r: seq<Table>)
    ensures |r| == |ts| && forall i :: 0 <= i < |ts| ==> r[i] == ReadBack(ts[i])
  {
    seq(|ts|, i requires 0 <= i < |ts| => ReadBack(ts[i]))
  }

  /** The style `N/A` of a parsed line reads back empty, while `12` stays. */
  lemma ReadCellExamples()
    ensures ReadCell("N/A") == "" && ReadCell("None") == "" && ReadCell("12") == "12"
  {
    assert "12" !in NaStrings by {
      assert |"12"| == 2 && "12"[0] == '1';
    }
  }

  /** The session directory holds every written file, each read back as its table read back. */
  predicate Holds(files: map<string, C.CsvFile>, outs: seq<I.Output>) {
    forall i :: 0 <= i < |outs| ==> outs[i].name in files && files[outs[i].name] == C.Csv(ReadBack(outs[i].table))
  }

  /** A directory of exactly the written files. */
  function Dir(outs: seq<I.Output>): map<string, C.CsvFile>
    decreases |outs|
  {
    if outs == [] then map[]
    else
      var o := outs[|outs| - 1];
      Dir(outs[..|outs| - 1])[o.name := C.Csv(ReadBack(o.table))]
  }

  /** With distinct names, each written file reads back as its own table. */
  lemma {:induction false} DirLookup(outs: seq<I.Output>, i: nat)
    requires C.Distinct(Names(outs)) && i < |outs|
    ensures outs[i].name in Dir(outs) && Dir(outs)[outs[i].name] == C.Csv(ReadBack(outs[i].table))
    decreases |outs|
  {
    var init := outs[..|outs| - 1];
    if i < |outs| - 1 {
      assert C.Distinct(Names(init)) by {
        assert forall k :: 0 <= k < |init| ==> Names(init)[k] == Names(outs)[k];
      }
      DirLookup(init, i);
      assert Names(outs)[i] != Names(outs)[|outs| - 1];
    }
  }

  /** With distinct names, the directory of exactly the written files holds them all, and nothing else. */
  lemma DirHolds(outs: seq<I.Output>)
    requires C.Distinct(Names(outs))
    ensures Holds(Dir(outs), outs)
    ensures forall n :: n in Dir(outs) ==> n in Names(outs)
  {
    forall i | 0 <= i < |outs| ensures outs[i].name in Dir(outs) && Dir(outs)[outs[i].name] == C.Csv(ReadBack(outs[i].table)) {
      DirLookup(outs, i);
    }
    DirKeys(outs);
  }

  lemma {:induction false} DirKeys(outs: seq<I.Output>)
    ensures forall n :: n in Dir(outs) ==> n in Names(outs)
    decreases |outs|
  {
    if outs != [] {
      var init := outs[..|outs| - 1];
      DirKeys(init);
      assert forall k :: 0 <= k < |init| ==> Names(init)[k] == Names(outs)[k];
      assert Names(outs)[|outs| - 1] == outs[|outs| - 1].name;
    }
  }

  /** Names that are all present and readable read back as their tables. */
  lemma {:induction false} ReadPresent(files: map<string, C.CsvFile>, ns: seq<string>)
    requires forall i :: 0 <= i < |ns| ==> ns[i] in files && files[ns[i]].Csv?
    ensures var ts := C.ReadTables(files, ns);
      |ts| == |ns| && forall i :: 0 <= i < |ns| ==> ts[i] == files[ns[i]].table
    decreases |ns|
  {
    if ns != [] {
      ReadPresent(files, ns[..|ns| - 1]);
    }
  }

  /** A listing of inputs only is its own input list. */
  lemma {:induction false} InputsAll(listing: seq<string>)
    requires forall i :: 0 <= i < |listing| ==> C.IsInput(listing[i])
    ensures C.Inputs(listing) == listing
    decreases |listing|
  {
    if listing != [] {
      InputsAll(listing[..|listing| - 1]);
    }
  }

  /** A listing without inputs has an empty input list. */
  lemma InputsNone(listing: seq<string>)
    requires forall i :: 0 <= i < |listing| ==> !C.IsInput(listing[i])
    ensures C.Inputs(listing) == []
  {
    C.InputsMeaning(listing);
  }

  lemma HeaderDistinct()
    ensures C.Distinct(I.CsvHeader)
  {
  }

  /** Every invoice table has the fixed header, distinct names, and one cell per column in every row. */
  lemma InvoiceTableShape(no: string, pages: seq<I.Page>)
    ensures var t := I.InvoiceTable(no, pages); t.header == I.CsvHeader && C.Rectangular(t)
  {
    I.InvoiceTableMeaning(no, pages);
    var r := I.ResolveTotals(pages);
    var all := I.AllRows(pages, r.bolCube, no);
    var t := I.InvoiceTable(no, pages);
    forall k | 0 <= k < |t.rows| ensures |t.rows[k]| == |t.header| {
      I.FormatRowCells(all[k], k == 0, r.totals.pieces, r.totals.weight);
    }
  }

  /** A directory holding the written files reads back, name by name, as the written tables read back. */
  lemma ReadWritten(files: map<string, C.CsvFile>, outs: seq<I.Output>)
    requires Holds(files, outs)
    ensures C.ReadTables(files, Names(outs)) == ReadBacks(Written(outs))
  {
    var names := Names(outs);
    ReadPresent(files, names);
  }

  /** The written tables, and the same tables read back, all carry the fixed header over rows of its width. */
  lemma WrittenShape(st: I.Store)
    requires I.StoreOk(st)
    ensures C.SameHeader(Written(I.Outputs(st)), I.CsvHeader)
    ensures C.SameHeader(ReadBacks(Written(I.Outputs(st))), I.CsvHeader)
  {
    var ts := Written(I.Outputs(st));
    HeaderDistinct();
    forall i | 0 <= i < |ts| ensures ts[i].header == I.CsvHeader && C.Rectangular(ts[i]) {
      I.MapOrderAt(st, |st.order|, i, I.OutputOf);
      InvoiceTableShape(st.order[i], st.data[st.order[i]].pages);
    }
  }

  /** Inputs followed by names glob does not match: the input list is the inputs, and the listing stays distinct. */
  lemma ListingInputs(names: seq<string>, others: seq<string>)
    requires C.Distinct(names) && forall i :: 0 <= i < |names| ==> C.IsInput(names[i])
    requires C.Distinct(others) && forall i :: 0 <= i < |others| ==> !C.IsInput(others[i])
    ensures C.Distinct(names + others) && C.Inputs(names + others) == names
  {
    InputsAll(names);
    InputsNone(others);
    C.InputsAppend(names, others);
    assert names + [] == names;
    DistinctAppend(names, others);
  }

  /** The written files have distinct names, all of them inputs. */
  lemma NamesInputs(st: I.Store)
    requires I.StoreOk(st) && I.KeysNamed(st)
    ensures var names := Names(I.Outputs(st));
      C.Distinct(names) && forall i :: 0 <= i < |names| ==> C.IsInput(names[i])
  {
    I.OutputNames(st);
  }

  /** Inputs followed by names that are no inputs, each part distinct, are distinct. */
  lemma DistinctAppend(a: seq<string>, b: seq<string>)
    requires C.Distinct(a) && C.Distinct(b)
    requires forall i :: 0 <= i < |a| ==> C.IsInput(a[i])
    requires forall i :: 0 <= i < |b| ==> !C.IsInput(b[i])
    ensures C.Distinct(a + b)
  {
    var l := a + b;
    forall i, j | 0 <= i < j < |l| ensures l[i] != l[j] {
      if j < |a| {
      } else if i >= |a| {
        assert l[i] == b[i - |a|] && l[j] == b[j - |a|];
      } else {
        assert C.IsInput(l[i]) && !C.IsInput(l[j]);
      }
    }
  }

  /**
   * combine_to_csv over the files process_all_files wrote, in a session
   * directory whose other entries glob("*.csv") does not match: the listing
   * has distinct names, its inputs are exactly the written files, the
   * combination succeeds exactly when some invoice was written, and it is the
   * 28-column header over the rows of every invoice table, read back, in
   * writing order.
   */
  lemma EmittedCombine(st: I.Store, files: map<string, C.CsvFile>, others: seq<string>)
    requires I.StoreOk(st) && I.KeysNamed(st)
    requires Holds(files, I.Outputs(st))
    requires C.Distinct(others) && forall i :: 0 <= i < |others| ==> !C.IsInput(others[i])
    ensures var outs := I.Outputs(st); var listing := Names(outs) + others;
      && C.Distinct(listing)
      && C.Inputs(listing) == Names(outs)
      && C.Combined(files, C.Inputs(listing)) ==
           if outs == [] then None else Some(Table(I.CsvHeader, C.AllRows(ReadBacks(Written(outs)))))
  {
    var outs := I.Outputs(st);
    NamesInputs(st);
    ListingInputs(Names(outs), others);
    ReadWritten(files, outs);
    WrittenShape(st);
    C.CombinedSame(files, Names(outs), I.CsvHeader);
  }
}
