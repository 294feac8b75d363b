/**
 * Grouping BOL pages by invoice and writing one table per invoice
 * (DataProcessor.process_all_files, _collect_invoice_data,
 * _process_invoice_data, _calculate_totals_from_rows and _format_csv in
 * data_processor.py).
 */
module Invoices {
  import opened Wrappers
  import opened Text
  import opened TableParser
  import opened Sorting
  import opened Tables

  /** One collected page: its rows, its totals line, its BOL cube. */
  datatype Page = Page(rows: seq<ParsedRow>, hasTotals: bool, totals: Totals, bolCube: string)

  /** invoice_data[invoice_no]: the invoice's pages in arrival order, and whether any of them had totals. */
  datatype Entry = Entry(pages: seq<Page>, hasTotals: bool)

  const NewEntry: Entry := Entry([], false)

  /** The invoice dictionary: its entries and the order in which their keys were inserted. */
  datatype Store = Store(data: map<string, Entry>, order: seq<string>)

  const EmptyStore: Store := Store(map[], [])

  predicate NoDuplicates(s: seq<string>) {
    forall i, j :: 0 <= i < j < |s| ==> s[i] != s[j]
  }

  /** The insertion order lists every key exactly once. */
  predicate StoreOk(st: Store) {
    && NoDuplicates(st.order)
    && (forall k :: k in st.data ==> k in st.order)
    && (forall i :: 0 <= i < |st.order| ==> st.order[i] in st.data)
  }

  // ---------------------------------------------------------------------------
  // Phase 1: collecting pages
  // ---------------------------------------------------------------------------

  /** The page record a page's text yields, None when it has no table header. */
  function PageOf(content: string): Option<Page> {
    match TableSpec(SplitLines(content))
    case None => None
    case Some(t) => Some(Page(t.rows, t.hasTotals, t.totals, ExtractBolCube(content)))
  }

  /** What one page contributes: its invoice number ("" if none) and its page record, if it has a table. */
  datatype PageInfo = PageInfo(no: string, page: Option<Page>)

  /** The invoice number and page record of a page's text. */
  function ReadPage(content: string): PageInfo {
    PageInfo(GetInvoiceNo(content), PageOf(content))
  }

  lemma ReadPageOfTable(content: string, table: Option<TableData>)
    requires table == TableSpec(SplitLines(content))
    ensures ReadPage(content).no == GetInvoiceNo(content)
    ensures table.None? ==> ReadPage(content).page.None?
    ensures table.Some? ==> ReadPage(content).page == Some(Page(table.value.rows, table.value.hasTotals,
                                                                 table.value.totals, ExtractBolCube(content)))
  {
  }

  /**
   * _collect_invoice_data on one read page: a page without an invoice number
   * changes nothing; otherwise the invoice's entry is created if new, and the
   * page is appended to it when it has a table.
   */
  function CollectPage(st: Store, pi: PageInfo): Store {
    if pi.no == "" then st
    else
      var st1 := if pi.no in st.data then st else Store(st.data[pi.no := NewEntry], st.order + [pi.no]);
      match pi.page
      case None => st1
      case Some(p) =>
        var e := st1.data[pi.no];
        Store(st1.data[pi.no := Entry(e.pages + [p], e.hasTotals || p.hasTotals)], st1.order)
  }

  /** Phase 1 of process_all_files: every page, in the given order. */
  function CollectAll(st: Store, pages: seq<PageInfo>): Store
    decreases |pages|
  {
    if pages == [] then st
    else CollectPage(CollectAll(st, pages[..|pages| - 1]), pages[|pages| - 1])
  }

  lemma CollectPageOk(st: Store, pi: PageInfo)
    requires StoreOk(st)
    ensures StoreOk(CollectPage(st, pi))
  {
  }

  // Reference definitions of what the dictionary holds after phase 1.

  /** The invoice numbers of the pages that have one, in page order. */
  function InvoiceNos(pages: seq<PageInfo>): seq<string>
    decreases |pages|
  {
    if pages == [] then []
    else
      var no := pages[|pages| - 1].no;
      InvoiceNos(pages[..|pages| - 1]) + (if no == "" then [] else [no])
  }

  /** The first occurrence of each element, in order. */
  function FirstOccurrences(s: seq<string>): seq<string>
    decreases |s|
  {
    if s == [] then []
    else
      var d := FirstOccurrences(s[..|s| - 1]);
      if s[|s| - 1] in d then d else d + [s[|s| - 1]]
  }

  /** The page records of the pages of invoice no that have a table, in page order. */
  function PagesOf(pages: seq<PageInfo>, no: string): seq<Page>
    decreases |pages|
  {
    if pages == [] then []
    else
      var pi := pages[|pages| - 1];
      PagesOf(pages[..|pages| - 1], no) + (if pi.no == no && pi.page.Some? then [pi.page.value] else [])
  }

  /** Whether some page has a totals line. */
  function AnyTotals(ps: seq<Page>): bool
    decreases |ps|
  {
    if ps == [] then false else AnyTotals(ps[..|ps| - 1]) || ps[|ps| - 1].hasTotals
  }

  lemma {:induction false} AnyTotalsMeaning(ps: seq<Page>)
    ensures AnyTotals(ps) <==> exists i :: 0 <= i < |ps| && ps[i].hasTotals
    decreases |ps|
  {
    if ps != [] {
      var init := ps[..|ps| - 1];
      AnyTotalsMeaning(init);
      if AnyTotals(init) {
        var i :| 0 <= i < |init| && init[i].hasTotals;
        assert ps[i] == init[i];
      }
      if exists i :: 0 <= i < |ps| && ps[i].hasTotals {
        var i :| 0 <= i < |ps| && ps[i].hasTotals;
        if i < |init| {
          assert init[i] == ps[i];
        }
      }
    }
  }

  /** The entry the reference definitions give invoice no. */
  function EntryOf(pages: seq<PageInfo>, no: string): Entry {
    var ps := PagesOf(pages, no);
    Entry(ps, AnyTotals(ps))
  }

  lemma FirstOccurrencesFacts(s: seq<string>)
    ensures NoDuplicates(FirstOccurrences(s))
    ensures forall x :: x in FirstOccurrences(s) <==> x in s
  {
    if s != [] {
      FirstOccurrencesFacts(s[..|s| - 1]);
      assert forall x :: x in s <==> x in s[..|s| - 1] || x == s[|s| - 1];
    }
  }

  /** The dictionary agrees with the reference definitions for the pages read so far. */
  predicate Describes(st: Store, pages: seq<PageInfo>) {
    && st.order == FirstOccurrences(InvoiceNos(pages))
    && (forall no :: no in st.data ==> no in InvoiceNos(pages))
    && (forall i :: 0 <= i < |InvoiceNos(pages)| ==> InvoiceNos(pages)[i] in st.data)
    && (forall no :: no in st.data ==> st.data[no] == EntryOf(pages, no))
  }

  /**
   * After phase 1 the keys are the invoice numbers found, in order of first
   * appearance, and each entry holds exactly the pages of that invoice that
   * have a table, in page order.
   */
  lemma {:induction false} CollectAllMeaning(pages: seq<PageInfo>)
    ensures StoreOk(CollectAll(EmptyStore, pages))
    ensures Describes(CollectAll(EmptyStore, pages), pages)
    decreases |pages|
  {
    if pages == [] {
      FirstOccurrencesFacts([]);
    } else {
      var init := pages[..|pages| - 1];
      var pi := pages[|pages| - 1];
      assert init + [pi] == pages;
      CollectAllMeaning(init);
      FirstOccurrencesFacts(InvoiceNos(init));
      StepNos(init, pi);
      CollectPageOk(CollectAll(EmptyStore, init), pi);
      CollectStep(CollectAll(EmptyStore, init), init, pi);
    }
  }

  /** One step of phase 1, in terms of the reference definitions. */
  lemma CollectStep(st: Store, init: seq<PageInfo>, pi: PageInfo)
    requires StoreOk(st) && Describes(st, init)
    ensures Describes(CollectPage(st, pi), init + [pi])
  {
    StepNos(init, pi);
    if pi.no == "" {
      CollectStepUnnamed(st, init, pi);
    } else {
      CollectStepNamed(st, init, pi);
    }
  }

  lemma CollectStepUnnamed(st: Store, init: seq<PageInfo>, pi: PageInfo)
    requires pi.no == ""
    requires Describes(st, init)
    requires InvoiceNos(init + [pi]) == InvoiceNos(init)
    ensures Describes(CollectPage(st, pi), init + [pi])
  {
    NosNonEmpty(init);
    forall x | x in st.data ensures st.data[x] == EntryOf(init + [pi], x) {
      StepOthers(init, pi, x);
    }
  }

  lemma CollectStepNamed(st: Store, init: seq<PageInfo>, pi: PageInfo)
    requires pi.no != ""
    requires StoreOk(st) && Describes(st, init)
    requires InvoiceNos(init + [pi]) == InvoiceNos(init) + [pi.no]
    ensures Describes(CollectPage(st, pi), init + [pi])
  {
    NamedStepKeys(st, init, pi);
    NamedStepEntries(st, init, pi);
  }

  /** The order and the keys after a page with an invoice number. */
  lemma NamedStepKeys(st: Store, init: seq<PageInfo>, pi: PageInfo)
    requires pi.no != ""
    requires StoreOk(st) && Describes(st, init)
    requires InvoiceNos(init + [pi]) == InvoiceNos(init) + [pi.no]
    ensures var st2 := CollectPage(st, pi);
      && st2.order == FirstOccurrences(InvoiceNos(init + [pi]))
      && (forall no :: no in st2.data ==> no in InvoiceNos(init + [pi]))
      && (forall i :: 0 <= i < |InvoiceNos(init + [pi])| ==> InvoiceNos(init + [pi])[i] in st2.data)
  {
    var no := pi.no;
    var nos := InvoiceNos(init);
    var w := nos + [no];
    var st2 := CollectPage(st, pi);
    FirstOccurrencesFacts(nos);
    assert w[..|w| - 1] == nos;
    CollectPageKeys(st, pi);
    forall i | 0 <= i < |w| ensures w[i] in st2.data {
      if i < |nos| {
        assert w[i] == nos[i];
      }
    }
  }

  /** A page with an invoice number adds that key, at the end of the order when it is new. */
  lemma CollectPageKeys(st: Store, pi: PageInfo)
    requires pi.no != ""
    ensures CollectPage(st, pi).data.Keys == st.data.Keys + {pi.no}
    ensures CollectPage(st, pi).order == if pi.no in st.data then st.order else st.order + [pi.no]
  {
    var st1 := if pi.no in st.data then st else Store(st.data[pi.no := NewEntry], st.order + [pi.no]);
    assert st1.data.Keys == st.data.Keys + {pi.no};
  }

  /** The entries after a page with an invoice number. */
  lemma NamedStepEntries(st: Store, init: seq<PageInfo>, pi: PageInfo)
    requires pi.no != ""
    requires StoreOk(st) && Describes(st, init)
    ensures var st2 := CollectPage(st, pi);
      forall no :: no in st2.data ==> st2.data[no] == EntryOf(init + [pi], no)
  {
    var no := pi.no;
    var st2 := CollectPage(st, pi);
    if no !in st.data {
      PagesOfAbsent(init, no);
    }
    StepOwn(init, pi);
    forall x | x in st2.data ensures st2.data[x] == EntryOf(init + [pi], x) {
      if x != no {
        StepOthers(init, pi, x);
      }
    }
  }

  /** No invoice number in the list is "". */
  lemma {:induction false} NosNonEmpty(pages: seq<PageInfo>)
    ensures "" !in InvoiceNos(pages)
    decreases |pages|
  {
    if pages != [] {
      NosNonEmpty(pages[..|pages| - 1]);
    }
  }

  lemma StepNos(init: seq<PageInfo>, pi: PageInfo)
    ensures InvoiceNos(init + [pi]) == InvoiceNos(init) + (if pi.no == "" then [] else [pi.no])
    ensures CollectAll(EmptyStore, init + [pi]) == CollectPage(CollectAll(EmptyStore, init), pi)
  {
    var cs := init + [pi];
    assert cs[..|cs| - 1] == init;
  }

  /** The page changes no other invoice's entry. */
  lemma StepOthers(init: seq<PageInfo>, pi: PageInfo, x: string)
    requires x != pi.no || pi.page.None?
    ensures EntryOf(init + [pi], x) == EntryOf(init, x)
  {
    var cs := init + [pi];
    assert cs[..|cs| - 1] == init;
  }

  /** The page is appended to its own invoice's entry, when it has a table. */
  lemma StepOwn(init: seq<PageInfo>, pi: PageInfo)
    requires pi.no != ""
    ensures pi.page.None? ==> EntryOf(init + [pi], pi.no) == EntryOf(init, pi.no)
    ensures pi.page.Some? ==>
      EntryOf(init + [pi], pi.no) ==
      Entry(EntryOf(init, pi.no).pages + [pi.page.value], EntryOf(init, pi.no).hasTotals || pi.page.value.hasTotals)
  {
    var cs := init + [pi];
    assert cs[..|cs| - 1] == init;
    var old_ := PagesOf(init, pi.no);
    if pi.page.Some? {
      var ps := old_ + [pi.page.value];
      assert PagesOf(cs, pi.no) == ps;
      assert ps[..|ps| - 1] == old_;
      assert AnyTotals(ps) == (AnyTotals(old_) || pi.page.value.hasTotals);
    } else {
      assert PagesOf(cs, pi.no) == old_ + [];
      assert old_ + [] == old_;
    }
  }

  /** An invoice number that no page carries has no pages. */
  lemma {:induction false} PagesOfAbsent(pages: seq<PageInfo>, no: string)
    requires no != "" && no !in InvoiceNos(pages)
    ensures PagesOf(pages, no) == []
    decreases |pages|
  {
    if pages != [] {
      var init := pages[..|pages| - 1];
      assert no !in InvoiceNos(init);
      PagesOfAbsent(init, no);
    }
  }

  // ---------------------------------------------------------------------------
  // Phase 2: the totals of an invoice
  // ---------------------------------------------------------------------------

  /** A page whose totals line supplied both totals. */
  predicate Qualifies(p: Page) {
    p.hasTotals && p.totals.pieces != "" && p.totals.weight != ""
  }

  /** The index of the last qualifying page among pages[..j], -1 if there is none. */
  function LastQualifying(pages: seq<Page>, j: nat): (k: int)
    requires j <= |pages|
    ensures -1 <= k < j
    ensures forall i :: k < i < j ==> !Qualifies(pages[i])
    ensures k >= 0 ==> Qualifies(pages[k])
    decreases j
  {
    if j == 0 then -1 else if Qualifies(pages[j - 1]) then j - 1 else LastQualifying(pages, j - 1)
  }

  /** The index of the first page at or after i with a non-empty cube, |pages| if there is none. */
  function FirstCubeFrom(pages: seq<Page>, i: nat): (k: nat)
    requires i <= |pages|
    ensures i <= k <= |pages|
    ensures forall m :: i <= m < k ==> pages[m].bolCube == ""
    ensures k < |pages| ==> pages[k].bolCube != ""
    decreases |pages| - i
  {
    if i == |pages| || pages[i].bolCube != "" then i else FirstCubeFrom(pages, i + 1)
  }

  /** int(pieces) of a row, 0 when the cell is empty, None when int() fails. */
  function RowPieces(r: ParsedRow): Option<int> {
    if r.pieces == "" then Some(0) else ParseInt(RemoveCommas(r.pieces))
  }

  /** float(weight) of a row, 0 when the cell is empty, None when float() fails. */
  function RowWeight(r: ParsedRow): Option<real> {
    if r.weight == "" then Some(0.0) else ParseDecimal(RemoveCommas(r.weight))
  }

  /** A row whose pieces or weight fails to parse is skipped as a whole. */
  predicate RowCounts(r: ParsedRow) {
    RowPieces(r).Some? && RowWeight(r).Some?
  }

  datatype Sums = Sums(pieces: int, weight: real)

  function AddSums(a: Sums, b: Sums): Sums {
    Sums(a.pieces + b.pieces, a.weight + b.weight)
  }

  /** What one row adds to the sums. */
  function RowSum(r: ParsedRow): Sums {
    if RowCounts(r) then Sums(RowPieces(r).value, RowWeight(r).value) else Sums(0, 0.0)
  }

  /** The sums over rows, rows that fail to parse skipped. */
  function RowSums(rows: seq<ParsedRow>): Sums
    decreases |rows|
  {
    if rows == [] then Sums(0, 0.0) else AddSums(RowSums(rows[..|rows| - 1]), RowSum(rows[|rows| - 1]))
  }

  /** The sums over the rows of all pages, in order. */
  function PageSums(pages: seq<Page>): Sums
    decreases |pages|
  {
    if pages == [] then Sums(0, 0.0) else AddSums(PageSums(pages[..|pages| - 1]), RowSums(pages[|pages| - 1].rows))
  }

  /** int(x) on a float: truncation toward zero. */
  function Trunc(x: real): int {
    if x >= 0.0 then x.Floor else -((-x).Floor)
  }

  /** _calculate_totals_from_rows: the pieces sum and the truncated weight sum, as strings. */
  function TotalsFromRows(pages: seq<Page>): Totals {
    var s := PageSums(pages);
    Totals(IntToString(s.pieces), IntToString(Trunc(s.weight)))
  }

  /** The totals and the BOL cube an invoice's table carries. */
  datatype Resolved = Resolved(totals: Totals, bolCube: string)

  /**
   * The last qualifying page supplies both totals and the cube; without one the
   * totals are summed from the rows and the cube is the first non-empty one.
   */
  function ResolveTotals(pages: seq<Page>): Resolved {
    var k := LastQualifying(pages, |pages|);
    if k >= 0 then Resolved(pages[k].totals, pages[k].bolCube)
    else
      var c := FirstCubeFrom(pages, 0);
      Resolved(TotalsFromRows(pages), if c < |pages| then pages[c].bolCube else "")
  }

  /** The resolution, stated by cases: which page supplies what. */
  lemma ResolveTotalsMeaning(pages: seq<Page>)
    ensures var r := ResolveTotals(pages);
      && ((exists k :: 0 <= k < |pages| && Qualifies(pages[k])) ==>
            exists k :: && 0 <= k < |pages| && Qualifies(pages[k])
                        && (forall i :: k < i < |pages| ==> !Qualifies(pages[i]))
                        && r == Resolved(pages[k].totals, pages[k].bolCube))
      && ((forall k :: 0 <= k < |pages| ==> !Qualifies(pages[k])) ==>
            && r.totals == TotalsFromRows(pages)
            && (r.bolCube == "" <==> forall k :: 0 <= k < |pages| ==> pages[k].bolCube == "")
            && (r.bolCube != "" ==> exists k :: && 0 <= k < |pages| && pages[k].bolCube == r.bolCube
                                                && forall i :: 0 <= i < k ==> pages[i].bolCube == ""))
  {
    var k := LastQualifying(pages, |pages|);
    if k >= 0 {
      assert forall i :: k < i < |pages| ==> !Qualifies(pages[i]);
    } else {
      var c := FirstCubeFrom(pages, 0);
      if c < |pages| {
        assert forall i :: 0 <= i < c ==> pages[i].bolCube == "";
      }
    }
  }

  lemma RowSumsStep(rows: seq<ParsedRow>, j: nat)
    requires j < |rows|
    ensures RowSums(rows[..j + 1]) == AddSums(RowSums(rows[..j]), RowSum(rows[j]))
  {
    assert rows[..j + 1][..j] == rows[..j];
  }

  lemma PageSumsStep(pages: seq<Page>, i: nat)
    requires i < |pages|
    ensures PageSums(pages[..i + 1]) == AddSums(PageSums(pages[..i]), RowSums(pages[i].rows))
  {
    assert pages[..i + 1][..i] == pages[..i];
  }

  /**
   * The totals strings read back, through int(), as the pieces sum and the
   * weight sum truncated toward zero, which is its floor when the sum is not
   * negative.
   */
  lemma TotalsFromRowsReadBack(pages: seq<Page>)
    ensures ParseInt(TotalsFromRows(pages).pieces) == Some(PageSums(pages).pieces)
    ensures ParseInt(TotalsFromRows(pages).weight) == Some(Trunc(PageSums(pages).weight))
    ensures PageSums(pages).weight >= 0.0 ==> Trunc(PageSums(pages).weight) == PageSums(pages).weight.Floor
  {
    ParseIntOfIntToString(PageSums(pages).pieces);
    ParseIntOfIntToString(Trunc(PageSums(pages).weight));
  }

  /** A row whose weight the table scan produced adds a non-negative weight. */
  lemma RowSumNonNegative(r: ParsedRow)
    requires WeightOk(r)
    ensures RowSum(r).weight >= 0.0
  {
    WeightHasNoComma(r.weight);
    RemoveCharAbsent(r.weight, ',');
  }

  lemma WeightHasNoComma(w: string)
    requires Patterns.IsWeightToken(w)
    ensures forall i :: 0 <= i < |w| ==> w[i] != ','
  {
    var n := DigitSpan(w);
    forall i | n < i < |w| ensures IsDigit(w[i]) {
      assert w[i] == w[n + 1..][i - n - 1];
    }
  }

  /** Rows whose weights the table scan produced add up to a non-negative weight. */
  lemma {:induction false} RowSumsNonNegative(rows: seq<ParsedRow>)
    requires forall r :: r in rows ==> WeightOk(r)
    ensures RowSums(rows).weight >= 0.0
    decreases |rows|
  {
    if rows != [] {
      var init := rows[..|rows| - 1];
      var r := rows[|rows| - 1];
      assert forall x :: x in init ==> x in rows;
      RowSumsNonNegative(init);
      RowSumNonNegative(r);
    }
  }

  // ---------------------------------------------------------------------------
  // Phase 2: the rows and the table of an invoice
  // ---------------------------------------------------------------------------

  /** One row of all_rows: [cartons, bol_cube, pieces, weight, invoice_no, style]. */
  datatype OutRow = OutRow(cartons: string, bolCube: string, pieces: string, weight: string,
                           invoice: string, style: string)

  function OutRowOf(r: ParsedRow, cube: string, no: string): OutRow {
    OutRow(r.cartons, cube, r.pieces, r.weight, no, r.style)
  }

  /** The output rows of one page's rows. */
  function PageRows(rows: seq<ParsedRow>, cube: string, no: string): (r: seq<OutRow>)
    ensures |r| == |rows|
    ensures forall i :: 0 <= i < |rows| ==> r[i] == OutRowOf(rows[i], cube, no)
    decreases |rows|
  {
    if rows == [] then [] else PageRows(rows[..|rows| - 1], cube, no) + [OutRowOf(rows[|rows| - 1], cube, no)]
  }

  /** all_rows: every row of every page, in page order, with the invoice's cube and number. */
  function AllRows(pages: seq<Page>, cube: string, no: string): seq<OutRow>
    decreases |pages|
  {
    if pages == [] then []
    else AllRows(pages[..|pages| - 1], cube, no) + PageRows(pages[|pages| - 1].rows, cube, no)
  }

  /** The number of rows collected for an invoice. */
  function TotalRows(pages: seq<Page>): nat
    decreases |pages|
  {
    if pages == [] then 0 else TotalRows(pages[..|pages| - 1]) + |pages[|pages| - 1].rows|
  }

  /** Every collected row becomes exactly one output row: the row-count check never fails. */
  lemma {:induction false} AllRowsCount(pages: seq<Page>, cube: string, no: string)
    ensures |AllRows(pages, cube, no)| == TotalRows(pages)
    ensures forall r :: r in AllRows(pages, cube, no) ==> r.invoice == no && r.bolCube == cube
    decreases |pages|
  {
    if pages != [] {
      AllRowsCount(pages[..|pages| - 1], cube, no);
    }
  }

  lemma AllRowsStep(pages: seq<Page>, i: nat, cube: string, no: string)
    requires i < |pages|
    ensures AllRows(pages[..i + 1], cube, no) == AllRows(pages[..i], cube, no) + PageRows(pages[i].rows, cube, no)
  {
    assert pages[..i + 1][..i] == pages[..i];
  }

  lemma PageRowsStep(rows: seq<ParsedRow>, j: nat, cube: string, no: string)
    requires j < |rows|
    ensures PageRows(rows[..j + 1], cube, no) == PageRows(rows[..j], cube, no) + [OutRowOf(rows[j], cube, no)]
  {
    assert rows[..j + 1][..j] == rows[..j];
  }

  /** The 28 column names of the output table. */
  const CsvHeader: seq<string> := [
    "RTS ID", "RTS Status", "Load #", "Wave #", "Routed Date", "Ready Date", "Date of Pickup",
    "Time of Pickup", "Outbound BOL", "Order Date", "Customer", "Ship To Name", "Purchase Order No.",
    "Cartons", "Start Date", "Cancel Date", "BOL Cube", "Final Cube", "Burlington Cube", "Pallet",
    "Individual Pieces", "Total Pieces", "Individual Weight", "Total Weight", "Invoice No.", "Style",
    "Release", "Assigned Trucking Co."]

  /** n empty cells. */
  function Blanks(n: nat): (r: seq<string>)
    ensures |r| == n && forall i :: 0 <= i < n ==> r[i] == ""
  {
    if n == 0 then [] else Blanks(n - 1) + [""]
  }

  /** One output row; the totals cells are filled only on the first row of an invoice run. */
  function FormatRow(r: OutRow, first: bool, totalPieces: string, totalWeight: string): seq<string> {
    var tp := if first then totalPieces else "";
    var tw := if first then totalWeight else "";
    Blanks(28)[13 := r.cartons][16 := r.bolCube][20 := r.pieces][21 := tp][22 := r.weight][23 := tw][24 := r.invoice][25 := r.style]
  }

  /** Each output row has 28 cells and only the eight mapped cells are non-empty. */
  lemma FormatRowCells(r: OutRow, first: bool, tp: string, tw: string)
    ensures var c := FormatRow(r, first, tp, tw);
      && |c| == |CsvHeader| == 28
      && CsvHeader[13] == "Cartons" && c[13] == r.cartons
      && CsvHeader[16] == "BOL Cube" && c[16] == r.bolCube
      && CsvHeader[20] == "Individual Pieces" && c[20] == r.pieces
      && CsvHeader[21] == "Total Pieces" && c[21] == (if first then tp else "")
      && CsvHeader[22] == "Individual Weight" && c[22] == r.weight
      && CsvHeader[23] == "Total Weight" && c[23] == (if first then tw else "")
      && CsvHeader[24] == "Invoice No." && c[24] == r.invoice
      && CsvHeader[25] == "Style" && c[25] == r.style
      && forall k :: 0 <= k < 13 || k == 14 || k == 15 || 17 <= k < 20 || 26 <= k < 28 ==> c[k] == ""
  {
  }

  function InvoiceKeys(rows: seq<OutRow>): (keys: seq<SortKey>)
    ensures |keys| == |rows|
  {
    seq(|rows|, i requires 0 <= i < |rows| => SortKey(0, 0, rows[i].invoice, 0))
  }

  /** sorted(rows, key=lambda x: x[4]) */
  function SortByInvoice(rows: seq<OutRow>): (r: seq<OutRow>)
    ensures |r| == |rows|
  {
    StableSort(rows, InvoiceKeys(rows))
  }

  /** Row i starts a run of equal invoice numbers. */
  predicate RunStart(s: seq<OutRow>, i: int)
    requires 0 <= i < |s|
  {
    i == 0 || s[i].invoice != s[i - 1].invoice
  }

  /** The data rows of sorted rows: the totals go on the first row of each run of one invoice number. */
  function FormattedRows(s: seq<OutRow>, totalPieces: string, totalWeight: string): (r: seq<seq<string>>)
    ensures |r| == |s|
  {
    seq(|s|, i requires 0 <= i < |s| => FormatRow(s[i], RunStart(s, i), totalPieces, totalWeight))
  }

  /** _format_csv: the header, then the rows sorted by invoice number. */
  function FormatSpec(rows: seq<OutRow>, totalPieces: string, totalWeight: string): Table {
    Table(CsvHeader, FormattedRows(SortByInvoice(rows), totalPieces, totalWeight))
  }

  /** The table an invoice yields. */
  function InvoiceTable(no: string, pages: seq<Page>): Table {
    var r := ResolveTotals(pages);
    FormatSpec(AllRows(pages, r.bolCube, no), r.totals.pieces, r.totals.weight)
  }

  /** A sort over equal keys keeps the order. */
  lemma SortEqualKeys(rows: seq<OutRow>)
    requires forall i :: 0 <= i < |rows| ==> rows[i].invoice == rows[0].invoice
    ensures SortByInvoice(rows) == rows
  {
    var keys := InvoiceKeys(rows);
    var t := InsertionSort(Tag(rows, keys));
    EqualKeysPositions(rows);
    IncreasingPositions(t, |rows|);
    StableSortOrder(rows, keys);
    assert SortByInvoice(rows) == Items(t);
    forall i | 0 <= i < |t| ensures Items(t)[i] == rows[i] {
      assert Items(t)[i] == t[i].item;
    }
  }

  lemma EqualKeysPositions(rows: seq<OutRow>)
    requires forall i :: 0 <= i < |rows| ==> rows[i].invoice == rows[0].invoice
    ensures var t := InsertionSort(Tag(rows, InvoiceKeys(rows)));
      && |t| == |rows|
      && (forall i :: 0 <= i < |t| ==> 0 <= t[i].pos < |rows| && t[i].item == rows[t[i].pos])
      && (forall i, j :: 0 <= i < j < |t| ==> t[i].pos < t[j].pos)
  {
    var keys := InvoiceKeys(rows);
    StableSortOrder(rows, keys);
    if rows != [] {
      var k0 := SortKey(0, 0, rows[0].invoice, 0);
      assert forall i :: 0 <= i < |rows| ==> keys[i] == k0;
      KeyLtIrreflexive(k0);
    }
  }

  /** n strictly increasing positions below n are 0, 1, ..., n - 1. */
  lemma {:induction false} IncreasingPositions(t: seq<Tagged<OutRow>>, n: nat)
    requires |t| == n
    requires forall i :: 0 <= i < |t| ==> 0 <= t[i].pos < n
    requires forall i, j :: 0 <= i < j < |t| ==> t[i].pos < t[j].pos
    ensures forall i :: 0 <= i < |t| ==> t[i].pos == i
  {
    forall i | 0 <= i < |t| ensures t[i].pos == i {
      PositionBounds(t, n, i);
    }
  }

  lemma {:induction false} PositionBounds(t: seq<Tagged<OutRow>>, n: nat, i: nat)
    requires |t| == n && i < n
    requires forall i :: 0 <= i < |t| ==> 0 <= t[i].pos < n
    requires forall i, j :: 0 <= i < j < |t| ==> t[i].pos < t[j].pos
    ensures i <= t[i].pos && t[i].pos <= i
    decreases i
  {
    if i > 0 {
      PositionBounds(t, n, i - 1);
    }
    UpperPosition(t, n, i);
  }

  lemma {:induction false} UpperPosition(t: seq<Tagged<OutRow>>, n: nat, i: nat)
    requires |t| == n && i < n
    requires forall i :: 0 <= i < |t| ==> 0 <= t[i].pos < n
    requires forall i, j :: 0 <= i < j < |t| ==> t[i].pos < t[j].pos
    ensures t[i].pos <= i
    decreases n - i
  {
    if i < n - 1 {
      UpperPosition(t, n, i + 1);
    }
  }

  /**
   * The table of one invoice: the fixed header, one row per collected row in
   * page order, and the totals only on the first row.
   */
  lemma InvoiceTableMeaning(no: string, pages: seq<Page>)
    ensures var r := ResolveTotals(pages);
      var all := AllRows(pages, r.bolCube, no);
      var t := InvoiceTable(no, pages);
      && t.header == CsvHeader
      && |t.rows| == TotalRows(pages)
      && forall i :: 0 <= i < |t.rows| ==>
           t.rows[i] == FormatRow(all[i], i == 0, r.totals.pieces, r.totals.weight)
  {
    var r := ResolveTotals(pages);
    var all := AllRows(pages, r.bolCube, no);
    AllRowsCount(pages, r.bolCube, no);
    if all != [] {
      assert forall i :: 0 <= i < |all| ==> all[i].invoice == all[0].invoice by {
        assert forall x :: x in all ==> x.invoice == no;
        assert all[0] in all;
        assert forall i :: 0 <= i < |all| ==> all[i] in all;
      }
    }
    SortEqualKeys(all);
  }

  // ---------------------------------------------------------------------------
  // Phase 2 of process_all_files: one table per invoice
  // ---------------------------------------------------------------------------

  /** A file the processor writes: its name and its table. */
  datatype Output = Output(name: string, table: Table)

  /** What _process_invoice_data writes for one invoice. */
  function OutputOf(no: string, e: Entry): Output {
    Output(no + ".csv", InvoiceTable(no, e.pages))
  }

  /** f applied to the first n entries of the store, in insertion order. */
  function MapOrder<T>(st: Store, n: nat, f: (string, Entry) -> T): (r: seq<T>)
    requires StoreOk(st) && n <= |st.order|
    ensures |r| == n
  {
    if n == 0 then [] else MapOrder(st, n - 1, f) + [f(st.order[n - 1], st.data[st.order[n - 1]])]
  }

  lemma {:induction false} MapOrderAt<T>(st: Store, n: nat, i: nat, f: (string, Entry) -> T)
    requires StoreOk(st) && i < n <= |st.order|
    ensures MapOrder(st, n, f)[i] == f(st.order[i], st.data[st.order[i]])
    decreases n
  {
    if i < n - 1 {
      MapOrderAt(st, n - 1, i, f);
    }
  }

  /** The files written for a store, one per invoice, in the dictionary's insertion order. */
  function Outputs(st: Store): (r: seq<Output>)
    requires StoreOk(st)
    ensures |r| == |st.order|
  {
    MapOrder(st, |st.order|, OutputOf)
  }

  /** The rows collected for the first n invoices of the store. */
  function StoreRows(st: Store, n: nat): nat
    requires StoreOk(st) && n <= |st.order|
  {
    if n == 0 then 0 else StoreRows(st, n - 1) + TotalRows(st.data[st.order[n - 1]].pages)
  }

  /** Every key of the store is an invoice number: a letter followed by digits. */
  predicate KeysNamed(st: Store) {
    forall i :: 0 <= i < |st.order| ==> IsInvoiceNo(st.order[i])
  }

  /** A page whose invoice number is "" or well formed keeps the keys well formed. */
  lemma CollectPageNamed(st: Store, pi: PageInfo)
    requires KeysNamed(st)
    requires pi.no == "" || IsInvoiceNo(pi.no)
    ensures KeysNamed(CollectPage(st, pi))
  {
  }

  /** The invoice number read from a page is "" or well formed. */
  lemma ReadPageNamed(content: string)
    ensures ReadPage(content).no == "" || IsInvoiceNo(ReadPage(content).no)
  {
    InvoiceNoMeaning(SplitLines(content));
  }

  /** A file name no invoice number yields: the combined output is never an invoice's file. */
  lemma InvoiceFileName(no: string)
    requires IsInvoiceNo(no)
    ensures no + ".csv" != OutputCsvName
    ensures EndsWith(no + ".csv", ".csv") && !StartsWith(no + ".csv", ".")
  {
    var n := no + ".csv";
    assert n[1] == no[1..][0];
    assert IsDigit(n[1]) && OutputCsvName[1] == 'o';
    assert n[|n| - 4..] == ".csv";
    assert n[0] == no[0];
  }

  /** Appending the extension keeps names apart. */
  lemma AppendInjective(a: string, b: string, ext: string)
    requires a + ext == b + ext
    ensures a == b
  {
    assert a == (a + ext)[..|a|];
    assert b == (b + ext)[..|b|];
  }

  /** The written files have distinct names, all of them invoice files. */
  lemma OutputNames(st: Store)
    requires StoreOk(st) && KeysNamed(st)
    ensures forall i, j :: 0 <= i < j < |Outputs(st)| ==> Outputs(st)[i].name != Outputs(st)[j].name
    ensures forall i :: 0 <= i < |Outputs(st)| ==>
      && Outputs(st)[i].name == st.order[i] + ".csv"
      && Outputs(st)[i].name != OutputCsvName
      && EndsWith(Outputs(st)[i].name, ".csv") && !StartsWith(Outputs(st)[i].name, ".")
  {
    OutputNamesDistinct(st);
    var out := Outputs(st);
    forall i | 0 <= i < |out|
      ensures out[i].name == st.order[i] + ".csv"
      ensures out[i].name != OutputCsvName && EndsWith(out[i].name, ".csv") && !StartsWith(out[i].name, ".")
    {
      MapOrderAt(st, |st.order|, i, OutputOf);
      InvoiceFileName(st.order[i]);
    }
  }

  lemma OutputNamesDistinct(st: Store)
    requires StoreOk(st)
    ensures forall i, j :: 0 <= i < j < |Outputs(st)| ==> Outputs(st)[i].name != Outputs(st)[j].name
  {
    var out := Outputs(st);
    forall i, j | 0 <= i < j < |out| ensures out[i].name != out[j].name {
      MapOrderAt(st, |st.order|, i, OutputOf);
      MapOrderAt(st, |st.order|, j, OutputOf);
      if out[i].name == out[j].name {
        AppendInjective(st.order[i], st.order[j], ".csv");
      }
    }
  }

  /** The text files the session holds other than requirements.txt, in listing order. */
  function TxtFiles(names: seq<string>): (r: seq<string>)
    ensures forall x :: x in r <==> x in names && EndsWith(x, ".txt") && x != "requirements.txt"
    decreases |names|
  {
    if names == [] then []
    else
      var n := names[|names| - 1];
      TxtFiles(names[..|names| - 1]) + (if EndsWith(n, ".txt") && n != "requirements.txt" then [n] else [])
  }

  /** The pages of the readable files among names, in order; a file that cannot be read is skipped. */
  function ReadAll(names: seq<string>, contents: map<string, string>): seq<PageInfo>
    decreases |names|
  {
    if names == [] then []
    else
      var n := names[|names| - 1];
      ReadAll(names[..|names| - 1], contents) + (if n in contents then [ReadPage(contents[n])] else [])
  }

  lemma ReadAllStep(names: seq<string>, i: nat, contents: map<string, string>)
    requires i < |names|
    ensures ReadAll(names[..i + 1], contents) ==
      ReadAll(names[..i], contents) + (if names[i] in contents then [ReadPage(contents[names[i]])] else [])
  {
    assert names[..i + 1][..i] == names[..i];
  }

  lemma CollectAllAppend(st: Store, pages: seq<PageInfo>, pi: PageInfo)
    ensures CollectAll(st, pages + [pi]) == CollectPage(CollectAll(st, pages), pi)
  {
    var cs := pages + [pi];
    assert cs[..|cs| - 1] == pages;
  }

  /** Every page read from text carries an invoice number that is "" or well formed. */
  lemma {:induction false} ReadAllNamed(names: seq<string>, contents: map<string, string>)
    ensures forall i :: 0 <= i < |ReadAll(names, contents)| ==>
      ReadAll(names, contents)[i].no == "" || IsInvoiceNo(ReadAll(names, contents)[i].no)
    decreases |names|
  {
    if names != [] {
      var n := names[|names| - 1];
      ReadAllNamed(names[..|names| - 1], contents);
      if n in contents {
        ReadPageNamed(contents[n]);
      }
    }
  }

  /** The invoice dictionary of DataProcessor, updated in place page by page. */
  class DataProcessor {
    var invoiceData: map<string, Entry>
    var order: seq<string>

    function Contents(): Store
      reads this
    {
      Store(invoiceData, order)
    }

    /** Every key is listed once in insertion order, and every key is an invoice number. */
    predicate Valid()
      reads this
    {
      StoreOk(Contents()) && KeysNamed(Contents())
    }

    constructor ()
      ensures Contents() == EmptyStore && Valid()
    {
      invoiceData := map[];
      order := [];
    }

    /** _collect_invoice_data on the text of one page. */
    method CollectInvoiceData(content: string)
      modifies this
      ensures Contents() == CollectPage(old(Contents()), ReadPage(content))
    {
      var no := GetInvoiceNo(content);
      if no == "" {
        return;
      }
      EnsureEntry(no);
      var table := ExtractTableData(content);
      ReadPageOfTable(content, table);
      if table.Some? {
        var t := table.value;
        AppendPage(no, Page(t.rows, t.hasTotals, t.totals, ExtractBolCube(content)));
      }
    }

    /** Initialise invoice_data[no] when the key is new. */
    method EnsureEntry(no: string)
      modifies this
      ensures no in invoiceData
      ensures Contents() == if no in old(invoiceData) then old(Contents())
                            else Store(old(invoiceData)[no := NewEntry], old(order) + [no])
    {
      if no !in invoiceData {
        invoiceData := invoiceData[no := NewEntry];
        order := order + [no];
      }
    }

    /** Append a page to invoice_data[no] and raise its has_totals flag when the page has totals. */
    method AppendPage(no: string, page: Page)
      requires no in invoiceData
      modifies this
      ensures order == old(order)
      ensures invoiceData == old(invoiceData)[no := Entry(old(invoiceData)[no].pages + [page],
                                                          old(invoiceData)[no].hasTotals || page.hasTotals)]
    {
      var e := invoiceData[no];
      invoiceData := invoiceData[no := e.(pages := e.pages + [page])];
      if page.hasTotals {
        invoiceData := invoiceData[no := invoiceData[no].(hasTotals := true)];
      }
    }

    /** The reverse search for a page with totals, and the fallback when there is none. */
    method FindTotals(pages: seq<Page>) returns (r: Resolved)
      ensures r == ResolveTotals(pages)
    {
      var i := |pages|;
      while i > 0 && !Qualifies(pages[i - 1])
        invariant 0 <= i <= |pages|
        invariant LastQualifying(pages, i) == LastQualifying(pages, |pages|)
      {
        i := i - 1;
      }
      if i > 0 {
        return Resolved(pages[i - 1].totals, pages[i - 1].bolCube);
      }
      var totals := CalculateTotalsFromRows(pages);
      var c := 0;
      while c < |pages| && pages[c].bolCube == ""
        invariant 0 <= c <= |pages|
        invariant FirstCubeFrom(pages, c) == FirstCubeFrom(pages, 0)
      {
        c := c + 1;
      }
      r := Resolved(totals, if c < |pages| then pages[c].bolCube else "");
    }

    /** _calculate_totals_from_rows */
    method CalculateTotalsFromRows(pages: seq<Page>) returns (t: Totals)
      ensures t == TotalsFromRows(pages)
    {
      var totalPieces := 0;
      var totalWeight := 0.0;
      var i := 0;
      while i < |pages|
        invariant 0 <= i <= |pages|
        invariant Sums(totalPieces, totalWeight) == PageSums(pages[..i])
      {
        var rows := pages[i].rows;
        var j := 0;
        while j < |rows|
          invariant 0 <= j <= |rows|
          invariant Sums(totalPieces, totalWeight) == AddSums(PageSums(pages[..i]), RowSums(rows[..j]))
        {
          var pieces := RowPieces(rows[j]);
          var weight := RowWeight(rows[j]);
          if pieces.Some? && weight.Some? {
            totalPieces := totalPieces + pieces.value;
            totalWeight := totalWeight + weight.value;
          }
          RowSumsStep(rows, j);
          j := j + 1;
        }
        assert rows[..j] == rows;
        PageSumsStep(pages, i);
        i := i + 1;
      }
      assert pages[..i] == pages;
      t := Totals(IntToString(totalPieces), IntToString(Trunc(totalWeight)));
    }

    /** all_rows: the rows of every page, in page order. */
    method CollectRows(pages: seq<Page>, cube: string, no: string) returns (all: seq<OutRow>)
      ensures all == AllRows(pages, cube, no)
    {
      all := [];
      var i := 0;
      while i < |pages|
        invariant 0 <= i <= |pages|
        invariant all == AllRows(pages[..i], cube, no)
      {
        var rows := pages[i].rows;
        var j := 0;
        while j < |rows|
          invariant 0 <= j <= |rows|
          invariant all == AllRows(pages[..i], cube, no) + PageRows(rows[..j], cube, no)
        {
          all := all + [OutRowOf(rows[j], cube, no)];
          PageRowsStep(rows, j, cube, no);
          j := j + 1;
        }
        assert rows[..j] == rows;
        AllRowsStep(pages, i, cube, no);
        i := i + 1;
      }
      assert pages[..i] == pages;
    }

    /** _format_csv: the header, then the rows sorted by invoice number. */
    method FormatCsv(rows: seq<OutRow>, totalPieces: string, totalWeight: string) returns (t: Table)
      ensures t == FormatSpec(rows, totalPieces, totalWeight)
    {
      var sorted := SortByInvoice(rows);
      var out := WriteRows(sorted, totalPieces, totalWeight);
      t := Table(CsvHeader, out);
    }

    /** The row loop of _format_csv: the totals go on the first row of each run of one invoice number. */
    method WriteRows(sorted: seq<OutRow>, totalPieces: string, totalWeight: string) returns (out: seq<seq<string>>)
      ensures out == FormattedRows(sorted, totalPieces, totalWeight)
    {
      out := [];
      var current: Option<string> := None;
      var isFirst := true;
      var i := 0;
      while i < |sorted|
        invariant 0 <= i <= |sorted| && |out| == i
        invariant current == if i == 0 then None else Some(sorted[i - 1].invoice)
        invariant isFirst <==> i == 0
        invariant forall k :: 0 <= k < i ==> out[k] == FormatRow(sorted[k], RunStart(sorted, k), totalPieces, totalWeight)
      {
        var row := sorted[i];
        if current != Some(row.invoice) {
          current := Some(row.invoice);
          isFirst := true;
        }
        assert isFirst == RunStart(sorted, i);
        ghost var prev := out;
        out := out + [FormatRow(row, isFirst, totalPieces, totalWeight)];
        assert forall k :: 0 <= k < i ==> out[k] == prev[k];
        isFirst := false;
        i := i + 1;
      }
      assert forall k :: 0 <= k < |out| ==> out[k] == FormattedRows(sorted, totalPieces, totalWeight)[k];
    }

    /** _process_invoice_data: the file name, its table and the number of rows written. */
    method ProcessInvoiceData(no: string, e: Entry) returns (out: Output, count: nat)
      ensures out == OutputOf(no, e)
      ensures count == TotalRows(e.pages)
    {
      var r := FindTotals(e.pages);
      var all := CollectRows(e.pages, r.bolCube, no);
      var table := FormatCsv(all, r.totals.pieces, r.totals.weight);
      AllRowsCount(e.pages, r.bolCube, no);
      out := Output(no + ".csv", table);
      count := |all|;
    }

    /**
     * process_all_files over a session directory listing: names in listing
     * order, contents holding the text of every file that can be read.
     */
    method ProcessAllFiles(names: seq<string>, contents: map<string, string>)
      returns (ok: bool, written: seq<Output>, removed: seq<string>, collected: nat, processed: nat)
      requires Valid()
      modifies this
      ensures Valid()
      ensures ok <==> TxtFiles(names) != []
      ensures !ok ==> Contents() == old(Contents()) && written == [] && removed == []
      ensures ok ==> Contents() == CollectAll(old(Contents()), ReadAll(TxtFiles(names), contents))
      ensures ok ==> written == Outputs(Contents()) && removed == TxtFiles(names)
      ensures ok ==> collected == processed == StoreRows(Contents(), |order|)
    {
      var txt := TxtFiles(names);
      if txt == [] {
        return false, [], [], 0, 0;
      }
      CollectPhase(txt, contents);
      collected := CountRows();
      written, processed := ProcessPhase();
      removed := txt;
      ok := true;
    }

    /** Phase 1: every readable text file, in order. */
    method CollectPhase(txt: seq<string>, contents: map<string, string>)
      requires Valid()
      modifies this
      ensures Valid()
      ensures Contents() == CollectAll(old(Contents()), ReadAll(txt, contents))
    {
      var i := 0;
      while i < |txt|
        invariant 0 <= i <= |txt|
        invariant Valid()
        invariant Contents() == CollectAll(old(Contents()), ReadAll(txt[..i], contents))
      {
        ReadAllStep(txt, i, contents);
        if txt[i] in contents {
          var pi := ReadPage(contents[txt[i]]);
          ghost var before := Contents();
          ReadPageNamed(contents[txt[i]]);
          CollectPageOk(before, pi);
          CollectPageNamed(before, pi);
          CollectAllAppend(old(Contents()), ReadAll(txt[..i], contents), pi);
          assert ReadAll(txt[..i + 1], contents) == ReadAll(txt[..i], contents) + [pi];
          CollectInvoiceData(contents[txt[i]]);
          assert Contents() == CollectPage(before, pi);
        } else {
          assert ReadAll(txt[..i + 1], contents) == ReadAll(txt[..i], contents);
        }
        i := i + 1;
      }
      assert txt[..i] == txt;
    }

    /** The collection summary: the rows collected over all invoices. */
    method CountRows() returns (n: nat)
      requires Valid()
      ensures n == StoreRows(Contents(), |order|)
    {
      n := 0;
      var k := 0;
      while k < |order|
        invariant 0 <= k <= |order|
        invariant n == StoreRows(Contents(), k)
      {
        n := n + TotalRows(invoiceData[order[k]].pages);
        k := k + 1;
      }
    }

    /** Phase 2: one table per invoice, in insertion order, and the rows written. */
    method ProcessPhase() returns (written: seq<Output>, processed: nat)
      requires Valid()
      ensures written == Outputs(Contents())
      ensures processed == StoreRows(Contents(), |order|)
    {
      var st := Contents();
      written := [];
      processed := 0;
      var k := 0;
      while k < |st.order|
        invariant 0 <= k <= |st.order| && |written| == k
        invariant written == MapOrder(st, k, OutputOf)
        invariant processed == StoreRows(st, k)
      {
        var out, count := ProcessNext(st, k);
        written := written + [out];
        processed := processed + count;
        k := k + 1;
      }
    }

    /** Phase 2 on the k-th invoice of the dictionary. */
    method ProcessNext(st: Store, k: nat) returns (out: Output, count: nat)
      requires StoreOk(st) && k < |st.order|
      ensures MapOrder(st, k + 1, OutputOf) == MapOrder(st, k, OutputOf) + [out]
      ensures StoreRows(st, k + 1) == StoreRows(st, k) + count
    {
      var no := st.order[k];
      out, count := ProcessInvoiceData(no, st.data[no]);
    }
  }
}
