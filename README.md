# BOL processing and order reconciliation, modelled in Dafny

The system turns bill-of-lading (BOL) pages extracted from PDFs into one
combined CSV table, one row per shipped carton line. It then reconciles that
table with an order file a user uploads. This project models three parts of
that core and proves properties about them.

1. **BOL parsing and per-invoice tables** (`DataProcessor` in
   `data_processor.py`).
   - Each page's text yields an invoice number (`BILL OF LADING <letter><digits>`
     within the first ten lines) and the table after the
     `CARTONS … STYLE … PIECES` header line.
   - The scan of that table stops at the `TOTAL CARTONS` line or at the
     `SHIPPING INSTRUCTIONS:` line.
   - The BOL cube is the nearest `d.dd` figure above the shipping instructions.
   - Pages are grouped by invoice, in order of first appearance. An invoice's
     totals come from its last page with a complete totals line; without one,
     they are summed from the rows.
   - Each invoice becomes a 28-column table in which only the first row carries
     the totals.
   - Modules: `Text`, `Search`, `Patterns`, `TableParser`, `Invoices`, `Tables`
     and `Sorting`.
2. **Combining** (`CSVExporter.combine_to_csv` in `csv_exporter.py`).
   - Every per-invoice CSV except the output is read in batches of five.
   - Each file read is removed.
   - The first batch with any data writes the output with a header, and later
     batches append to it.
   - Module `CsvExport`. Module `Pipeline` joins the first two parts as the
     upload route does (`process_all_files`, then `combine_to_csv` on the same
     session directory, app.py:538-549). While that directory holds no other
     visible `.csv` file, the combination is the fixed header over all the
     written rows as `read_csv(dtype=str)` gives them back: a cell holding one
     of pandas' default NA strings (`N/A`, `NA`, `None`, `null`, `nan`, …)
     comes back as NaN and is written as an empty cell.
3. **Reconciliation** (`process_csv_file` and its helpers in `app.py`).
   - The upload's extension chooses the reader, and the upload's columns are
     renamed.
   - The four match columns must exist in both tables.
   - Every upload row updates the first existing row with the same normalised
     match key, through a five-column mapping.
   - Pallet, Burlington cube and final cube are computed and written only on
     the first row of each run of equal invoice numbers.
   - The rows are stably sorted by the earliest cancel date of their ship-to
     group, then by name, then by their own cancel date.
   - Modules: `Paths`, `Frames`, `Merge`, `Cubes`, `Groups`, `Dates`,
     `Ordering` and `Reconcile`.

Conventions of the model:
- `DataProcessor` and `CSVExporter` update state in place, so they are classes
  whose methods are proved against specification functions.
  - The processor's invoice dictionary is a `map` plus its insertion order.
  - The exporter's session directory is a `map` from file names to what
    `read_csv` yields for each file.
- The reconciler's DataFrames (read with `dtype=str`) are a column list and
  rows that map column names to strings. A missing cell (NaN) is `""`.
- Loops in the source are `while` loops in methods, each proved equal to a
  function. Properties are proved about those functions.

## Model

| member | source | states |
|---|---|---|
| Text.StripMeaning | data_processor.py:191 | `strip()` removes exactly the leading and trailing whitespace, and the result is empty exactly when the line is all whitespace |
| Text.ContainsUpperMeaning | data_processor.py:179 | a case-insensitive search equals a search in the upper-cased line |
| Text.RunsAreMaximalRuns | data_processor.py:196 | the tokens of `split()` are exactly the maximal runs of non-whitespace characters |
| Text.NatToString | app.py:296 | the decimal string of a count has digits only, no leading zero, and reads back as the count |
| Text.ParseIntOfIntToString | data_processor.py:377-380 | `int(str(n)) == n` for every integer, the totals' round trip |
| Patterns.LabelLineMeaning | data_processor.py:261 | a label line is letters of either case and whitespace up to a colon, with at least one character before it |
| Patterns.StyleTokenMeaning | data_processor.py:279 | the style test holds exactly when a maximal word is letters then digits, or digits then letters |
| Patterns.CubeMatchUnique | data_processor.py:295 | the cube pattern matches at a position in at most one way |
| Patterns.CubeAtMeaning | data_processor.py:295 | a cube matches at p exactly when one to three digits, a point and two digits stand there between word boundaries |
| Patterns.FindCubeMeaning | data_processor.py:295 | `re.search` returns the match at the leftmost position where the pattern matches, or none |
| Patterns.InvoiceAtMeaning | data_processor.py:460 | the invoice pattern matches at p exactly when `BILL OF LADING` (any case), whitespace, a letter and digits stand there |
| Patterns.FindInvoiceMeaning | data_processor.py:460 | the invoice search returns the leftmost match, or none |
| Patterns.InvoiceShape | data_processor.py:460 | the captured group is a letter followed by every digit after it |
| TableParser.IsValidTableRow | data_processor.py:245-285 | definition of `_is_valid_table_row` on the collapsed line; its properties are in `Patterns.LabelLineMeaning`, `Patterns.StyleTokenMeaning` and `TableParser.ParseRowMeaning` |
| TableParser.LastWeightMeaning | data_processor.py:223-228 | the weight is the last token that is digits with an optional decimal part once its commas are removed, and none exists when no token is |
| TableParser.FindWeight | data_processor.py:225-228 | the reversed loop over the tokens finds that same weight |
| TableParser.WeightTokenParses | data_processor.py:226 | every weight token parses with `float()` to a non-negative value |
| TableParser.ParseRow | data_processor.py:214-234 | definition of the row reader of `_extract_table_data`; its properties are in `TableParser.ParseRowMeaning` |
| TableParser.ParseRowMeaning | data_processor.py:214-234 | a row is read exactly from a valid line with at least three tokens and a weight token; its fields are tokens 0, 1 and 2 without commas, plus the last weight |
| TableParser.ReadRow | data_processor.py:208-234 | reading a line reads its stripped text; a blank line yields no row |
| TableParser.ParseRowOfEmpty | data_processor.py:208-210 | an empty line yields no row |
| TableParser.Classify | data_processor.py:193-240 | definition of what one table line is to the scan: an end marker, a row or a line to skip; its properties are in `TableParser.ClassifyOther` and `TableParser.ScanMeaning` |
| TableParser.ClassifyOther | data_processor.py:193-240 | a line that is neither a totals line nor a stop line is a row exactly when it parses as one, and is skipped otherwise |
| TableParser.TableSpecMeaning | data_processor.py:177-186 | there is no table exactly when no line is a header line; otherwise the scan starts after the first header line |
| TableParser.FindHeaderLine | data_processor.py:177-182 | the header loop stops at the first header line |
| TableParser.ScanMeaning | data_processor.py:190-243 | the rows are those of the lines before the first totals or stop line; totals are present exactly when that line is a totals line, with pieces from token 3 and weight from the last token when it has at least 11 tokens |
| TableParser.ScanTable | data_processor.py:190-241 | the scan loop computes that table |
| TableParser.ScanWeights | data_processor.py:223-231 | every row read carries a weight token |
| TableParser.ExtractTableData | data_processor.py:169-243 | `_extract_table_data` as header search then scan |
| TableParser.ExtractBolCube | data_processor.py:287-300 | definition of `_extract_bol_cube`; its properties are in `TableParser.BolCubeMeaning` and `TableParser.FindBolCube` |
| TableParser.BolCubeMeaning | data_processor.py:287-300 | the cube is "" exactly when there is no shipping instructions line or no line above the first one matches; otherwise it is the match of the nearest such line, at least four characters |
| TableParser.FindBolCube | data_processor.py:287-300 | the loop of `_extract_bol_cube` finds that cube |
| TableParser.GetInvoiceNo | data_processor.py:455-465 | definition of `_get_invoice_no`; its properties are in `TableParser.InvoiceNoMeaning` and `TableParser.FindInvoiceNo` |
| TableParser.InvoiceNoMeaning | data_processor.py:455-465 | the number is "" exactly when none of the first ten lines has a match; otherwise it is the first line's group, a letter and digits |
| TableParser.FindInvoiceNo | data_processor.py:455-465 | the loop of `_get_invoice_no` finds that number |
| Invoices.ReadPageOfTable | data_processor.py:146-154 | a page's record is its parsed table with its BOL cube, and there is none without a table |
| Invoices.CollectPage | data_processor.py:124-167 | definition of `_collect_invoice_data` for one page on the invoice dictionary; its properties are in `Invoices.CollectPageOk`, `Invoices.ReadPageOfTable` and `Invoices.CollectAllMeaning` |
| Invoices.CollectPageOk | data_processor.py:133-157 | collecting a page keeps every invoice listed exactly once in insertion order |
| Invoices.CollectAll | data_processor.py:74-76 | definition of phase 1, `_collect_invoice_data` over every text file; its properties are in `Invoices.CollectAllMeaning` |
| Invoices.CollectAllMeaning | data_processor.py:74-76 | after phase 1 the keys are the invoice numbers found, in order of first appearance; each entry holds exactly that invoice's pages with a table, in page order, and whether any of them had totals |
| Invoices.AnyTotalsMeaning | data_processor.py:156-157 | an entry's flag is set exactly when one of its pages has a totals line |
| Invoices.DataProcessor.CollectInvoiceData | data_processor.py:124-167 | `_collect_invoice_data` updates the dictionary as the collection function says |
| Invoices.DataProcessor.EnsureEntry | data_processor.py:139-143 | a new invoice gets an empty entry at the end of the order; a known one is left alone |
| Invoices.DataProcessor.AppendPage | data_processor.py:155-157 | the page is appended to its invoice's pages and the flag is raised by its totals; nothing else changes |
| Invoices.ResolveTotals | data_processor.py:310-332 | definition of the totals and cube chosen for an invoice; its properties are in `Invoices.ResolveTotalsMeaning` |
| Invoices.ResolveTotalsMeaning | data_processor.py:310-332 | the last page with both totals supplies the totals and the cube; without one, the totals are summed from the rows and the cube is the first non-empty one |
| Invoices.DataProcessor.FindTotals | data_processor.py:310-332 | the two loops compute those totals and that cube |
| Invoices.DataProcessor.CalculateTotalsFromRows | data_processor.py:361-381 | the nested loop sums pieces and weights, skipping rows that fail to parse, and truncates the weight |
| Invoices.TotalsFromRows | data_processor.py:361-381 | definition of `_calculate_totals_from_rows`; its properties are in `Invoices.TotalsFromRowsReadBack`, `Invoices.RowSumsNonNegative` and `Invoices.DataProcessor.CalculateTotalsFromRows` |
| Invoices.TotalsFromRowsReadBack | data_processor.py:377-381 | the totals strings read back as the pieces sum and the truncated weight sum, which is its floor when non-negative |
| Invoices.RowSumsNonNegative | data_processor.py:361-376 | summed weights of parsed rows are never negative |
| Invoices.AllRowsCount | data_processor.py:336-342 | all rows of an invoice: one per page row, each carrying the invoice number and the chosen cube |
| Invoices.DataProcessor.CollectRows | data_processor.py:336-342 | the page loop builds those rows in page order |
| Invoices.FormatRow | data_processor.py:386-444 | definition of one written row of `_format_csv`; its properties are in `Invoices.FormatRowCells` |
| Invoices.FormatRowCells | data_processor.py:386-444 | a written row has 28 cells under the header; it holds the row's six fields, the totals only on a first row, and "" elsewhere |
| Invoices.SortEqualKeys | data_processor.py:423 | sorting rows that share one invoice number leaves them in order (the sort is stable) |
| Invoices.DataProcessor.WriteRows | data_processor.py:425-446 | the grouping loop marks the first row of every run of equal invoice numbers |
| Invoices.FormatSpec | data_processor.py:383-453 | definition of the table `_format_csv` builds; its properties are in `Invoices.InvoiceTableMeaning`, `Pipeline.InvoiceTableShape` and `Invoices.DataProcessor.FormatCsv` |
| Invoices.DataProcessor.FormatCsv | data_processor.py:383-453 | `_format_csv` is the header over the sorted, formatted rows |
| Invoices.InvoiceTable | data_processor.py:302-359 | definition of the table `_process_invoice_data` writes; its properties are in `Invoices.InvoiceTableMeaning` and `Pipeline.InvoiceTableShape` |
| Invoices.InvoiceTableMeaning | data_processor.py:302-359 | an invoice's table is the fixed header and one row per collected row in page order, with the totals only on the first row |
| Invoices.DataProcessor.ProcessInvoiceData | data_processor.py:302-359 | `_process_invoice_data` writes `<invoice>.csv` with that table and returns its row count |
| Invoices.OutputNames | data_processor.py:347-349 | the written files have distinct names `<invoice>.csv`, none of them the combined output's name |
| Invoices.TxtFiles | data_processor.py:65 | the listed text files are exactly the `.txt` names other than requirements.txt |
| Invoices.ReadAllNamed | data_processor.py:133-136 | every page's invoice number is "" or a letter followed by digits |
| Invoices.DataProcessor.ProcessAllFiles | data_processor.py:62-111 | fails exactly when there is no text file; otherwise collects every readable page, writes one table per invoice in insertion order, removes the text files, and the collected and processed counts agree |
| Invoices.DataProcessor.CollectPhase | data_processor.py:74-76 | phase 1 collects the readable files in order |
| Invoices.DataProcessor.CountRows | data_processor.py:79-85 | the summary counts every collected row |
| Invoices.DataProcessor.ProcessPhase | data_processor.py:88-92 | phase 2 writes every invoice's table in insertion order and counts their rows |
| CsvExport.Inputs | csv_exporter.py:16-17 | definition of the input list; its properties are in `CsvExport.InputsMeaning` and `CsvExport.InputsDistinct` |
| CsvExport.InputsMeaning | csv_exporter.py:16-17 | the inputs are exactly the listed visible `.csv` names, so never the output |
| CsvExport.InputsDistinct | csv_exporter.py:16-17 | distinct listed names give distinct inputs |
| CsvExport.Remove | csv_exporter.py:42 | removing a file drops that name from the directory and keeps every other file |
| CsvExport.BatchCover | csv_exporter.py:30-31 | batch b is the next five inputs (or fewer at the end) after the 5·b already done |
| CsvExport.Concat | csv_exporter.py:51 | definition of `pd.concat(dfs, ignore_index=True)`: rows aligned by column name over the union of the columns; its properties are in `CsvExport.ConcatSame` |
| CsvExport.ConcatSame | csv_exporter.py:51 | concatenating tables that share one header gives that header over all their rows in order |
| CsvExport.Write | csv_exporter.py:53-59 | definition of the output after one batch: the first data batch writes with a header, later ones append their rows; its properties are in `CsvExport.CombineStep` and `CsvExport.CsvExporter.WriteBatch` |
| CsvExport.CombineStep | csv_exporter.py:30-59 | each batch writes the concatenation of what it read, with a header if first, or appends to the output |
| CsvExport.CombineUpToSame | csv_exporter.py:30-64 | with one shared header, batching makes no difference: after b batches the output is that header over every row read so far, and nothing is written when nothing was read |
| CsvExport.Combined | csv_exporter.py:26-64 | definition of the combined table, batch by batch; its properties are in `CsvExport.CombineStep`, `CsvExport.CombinedSame` and `CsvExport.CsvExporter.CombineToCsv` |
| CsvExport.CombinedSame | csv_exporter.py:26-64 | the same for all the inputs |
| CsvExport.CsvExporter.ReadBatch | csv_exporter.py:35-45 | reading a batch yields the tables of its readable files and removes exactly those |
| CsvExport.CsvExporter.WriteBatch | csv_exporter.py:50-59 | the first data batch writes the output with a header; later ones append |
| CsvExport.CsvExporter.CombineBatch | csv_exporter.py:30-64 | one batch step moves the directory from the state after b batches to the state after b + 1 |
| CsvExport.CsvExporter.CombineAll | csv_exporter.py:26-64 | the batch loop leaves the readable inputs removed and the output holding their combination |
| CsvExport.Stage | csv_exporter.py:36-59 | definition of the directory after combining: every input read is removed and the output holds the combination; `CsvExport.CsvExporter.CombineToCsv` ends in it |
| CsvExport.CsvExporter.CombineToCsv | csv_exporter.py:12-71 | returns false, changing nothing, exactly when there is no input; otherwise the directory is staged as above |
| Pipeline.ReadCell | csv_exporter.py:39 | a written cell reads back unchanged unless it is one of pandas' default NA strings, which reads back (NaN, written as an empty cell) as `""` |
| Pipeline.ReadBack | csv_exporter.py:39 | a written table reads back with its header and shape, each cell read back |
| Pipeline.ReadCellExamples | csv_exporter.py:39 | a style `N/A` or `None` reads back empty, `12` stays |
| Pipeline.DirHolds | app.py:538-549 | a directory of exactly the written files holds each one read back, and nothing else |
| Pipeline.ListingInputs | csv_exporter.py:16-17 | the written files followed by names glob does not match form a distinct listing whose inputs are the written files |
| Pipeline.InvoiceTableShape | data_processor.py:383-446 | every invoice table has the fixed header and rows of its width |
| Pipeline.ReadWritten | csv_exporter.py:36-40 | a directory holding the written files reads back, name by name in writing order, as the written tables read back |
| Pipeline.WrittenShape | data_processor.py:383-446 | all invoice tables share the 28-column header over rows of its width, written and read back |
| Pipeline.EmittedCombine | app.py:538-549 | after `process_all_files`, `combine_to_csv` in a session directory holding the written files and no other visible `.csv`: the listing is distinct, its inputs are exactly the written files, it fails exactly when no invoice was written, and the combined table is the 28-column header over every invoice's rows, read back, in writing order |
| Paths.Ext | app.py:100 | definition of `os.path.splitext(file_path)[1]`; its properties are in `Paths.ExtMeaning` and `Paths.ExtExamples` |
| Paths.ExtMeaning | app.py:100 | `splitext` gives "" or a suffix of the path that starts with a dot and has no dot or slash after it |
| Paths.ExtExamples | app.py:100 | `uploads/orders.CSV` has `.CSV`, `.csv` has none, `a.tar.gz` has `.gz` |
| Paths.AllowedFile | app.py:58-59 | definition of `allowed_file`; its properties are in `Paths.AllowedFileMeaning` and `Paths.AllowedFileNoDot` |
| Paths.AllowedFileMeaning | app.py:58-59 | a name with an extension is allowed exactly when its lower-cased last extension is in the set |
| Paths.AllowedFileNoDot | app.py:58-59 | a name without a dot is never allowed |
| Frames.RenameRowCells | app.py:109 | after the rename, Cartons and Individual Pieces read the starred cells where those exist; the starred names are gone and other cells are unchanged |
| Frames.RenameColumns | app.py:109 | the renamed columns are the old ones with each starred name replaced by its plain one |
| Frames.MissingNone | app.py:160-166 | the column check passes exactly when every match column is in both tables |
| Frames.MissingFirst | app.py:160-166 | otherwise it reports the first column missing from either table, and says the PDF table when it is missing there |
| Frames.JoinInjective | app.py:171 | joining with `_` lists of one length whose parts hold no `_` loses nothing |
| Frames.MatchKey | app.py:169-173 | definition of `create_match_key` on one row; its properties are in `Frames.KeyOfFields`, `Frames.KeyEquality` and `Frames.KeyAmbiguity` |
| Frames.KeyOfFields | app.py:169-173 | rows that agree after normalisation get equal keys, whatever their cells hold |
| Frames.KeyEquality | app.py:169-173 | when no normalised cell holds `_`, rows get equal keys exactly when they agree after normalisation |
| Frames.KeyAmbiguity | app.py:171 | with `_` inside a cell, different cells can give one key |
| Merge.FirstIndex | app.py:187-189 | the first existing row with the key, or none |
| Merge.UpdateRow | app.py:190-193 | the mapping loop applies the five pairs in order, each only when both tables have its columns |
| Merge.ApplyCell | app.py:190-193 | after the mapping a cell holds the incoming value of the last applicable pair that targets it, or is unchanged |
| Merge.MappingSources | app.py:112-118 | each of the five targets takes its source column when both columns exist, and no other column is written |
| Merge.LastTarget | app.py:185-189 | the last incoming row whose key first matches a given existing row |
| Merge.Merged | app.py:185-193 | definition of the joined rows; one per existing row, and its cells are described in `Merge.MergedCell` |
| Merge.MergedCell | app.py:185-193 | after the join a mapped cell of an existing row holds the value of the last incoming row whose key first matches it; every other cell, and every row no key finds first, is unchanged |
| Merge.MergeRows | app.py:185-193 | the loop over the incoming rows computes that join |
| Cubes.Ceil | app.py:310 | `math.ceil` returns the least integer at or above its argument |
| Cubes.ComputePallet | app.py:306-312 | definition of `compute_pallet`; its properties are in `Cubes.PalletBounds` and `Cubes.PalletOfEmpty` |
| Cubes.PalletBounds | app.py:306-312 | a pallet count fails exactly when `float()` fails; otherwise it is the least integer p with cube ≤ 80·p |
| Cubes.PalletCountExamples | app.py:310 | 160 cubic feet need two pallets, 161 need three, 0 need none |
| Cubes.PalletOfEmpty | app.py:306-312 | a missing cube gives a blank pallet count |
| Cubes.ComputeBurlington | app.py:314-323 | definition of `compute_burlington`; its properties are in `Cubes.CubesExclusive` and `Cubes.BurlingtonAnyCase` |
| Cubes.ComputeFinalCube | app.py:325-334 | definition of `compute_final_cube`; its properties are in `Cubes.CubesExclusive` |
| Cubes.CubesExclusive | app.py:314-334 | a row gets a Burlington cube (93 per pallet) exactly when its name names Burlington, and a final cube (130 per pallet) exactly when it does not; the name must be present and the pallet count known, and never both |
| Cubes.BurlingtonAnyCase | app.py:317 | the Burlington test ignores case |
| Groups.WriteHead | app.py:238-240 | a head row's three writes fail on the first absent column with its KeyError, and otherwise write the three values |
| Groups.AssignHeads | app.py:224-241 | the grouping loop writes the three values on every head row and leaves the others, or fails as above on the first row |
| Groups.PreparedCells | app.py:200-222 | Pallet is blanked when BOL Cube exists and the two cube columns when Ship To Name exists; other cells are unchanged |
| Groups.PreparedColumns | app.py:200-222 | the columns afterwards are the old ones plus those created |
| Groups.PreparedHeads | app.py:200-234 | the blanking does not change which rows start a run |
| Groups.CubeColumns | app.py:200-241 | definition of the cube-column step; its properties are in `Groups.CubeColumnsFail` and `Groups.CubeCells` |
| Groups.CubeColumnsFail | app.py:200-241 | a table with rows fails exactly when a cube column is neither present nor created, on the first such column in the order Pallet, Burlington Cube, Final Cube |
| Groups.CubeCells | app.py:200-241 | on success a head row holds its computed values; a non-head row holds "" in each created or blanked column and keeps a column that already existed without its input; other cells are those after the join |
| Groups.OneHeadPerRun | app.py:228-241 | inside a run of one non-blank invoice number only the first row is a head |
| Dates.ToDatetime | app.py:260 | a date is returned only when it is a real calendar date in pandas' timestamp range |
| Dates.ParseCancelDate | app.py:243-274 | a parsed date is valid and in range, and a trimmed cell that is not 7 or 8 characters long is NaT |
| Dates.ParseCancelDateMeaning | app.py:252-272 | a cell parses to date d exactly when d is a valid in-range date and the trimmed cell spells it: `MMDDYYYY`, or `MDDYYYY` for months 1 to 9, the day written as two digits or, as `%d` accepts, a space and one digit |
| Dates.ParseCancelDateNaT | app.py:243-274 | a cell is NaT exactly when its trimmed text spells no valid in-range date |
| Dates.MonthFieldMeaning | app.py:260 | a month field `%m` accepts is the two-digit form of a month 1 to 12 |
| Dates.DayFieldMeaning | app.py:260 | a day field `%d` accepts is one of the texts of a day 1 to 31: two digits, or a space and a digit |
| Dates.YearFieldMeaning | app.py:260 | a year field `%Y` accepts is the four-digit form of its year |
| Dates.ParseFormat7 | app.py:254-262 | every in-range date of months 1 to 9, written `MDDYYYY`, parses back to itself |
| Dates.ParseFormat8 | app.py:264-272 | every in-range date, written `MMDDYYYY`, parses back to itself |
| Dates.ExampleMarch | app.py:245 | `3152025` is 15 March 2025 |
| Dates.ExampleFebruary | app.py:246 | `2202025` is 20 February 2025 |
| Dates.ExampleLeapDay | app.py:265-272 | `02292024` parses, `02292023` is NaT |
| Dates.ExampleBadMonth | app.py:265-272 | month 13 is NaT |
| Dates.ExampleMissingDays | app.py:264-272 | `02302025` (30 February) and `04312025` (31 April) are NaT |
| Dates.ExampleSpacedDay | app.py:264-272 | `03 52025` is 5 March 2025 |
| Dates.CodeOrder | app.py:282-285 | sort codes order dates chronologically, are equal only for equal dates, and stay below the NaT code |
| Ordering.MinCode | app.py:282 | the group minimum is at most every date of the group and one of them, or NaT |
| Ordering.GroupMinMeaning | app.py:282 | for a row with a name, its group minimum is at most its own date and every date of its group, and is one of them unless all are NaT |
| Ordering.SortOrder | app.py:285 | the sort is a permutation given by positions; the keys (group minimum, name with blank last, own date) never decrease; rows with equal keys keep their order |
| Ordering.SortByOwnDate | app.py:285 | of two rows of one group, the one sorted first has the earlier own date |
| Ordering.DropColumns | app.py:288 | dropping keeps exactly the other columns |
| Ordering.SortFrame | app.py:277-291 | definition of the grouped sort; its properties are in `Ordering.SortOrder`, `Ordering.SortByOwnDate`, `Ordering.SortSkipped` and `Ordering.SortedCells` |
| Ordering.SortSkipped | app.py:277-291 | without a Cancel Date or a Ship To Name column nothing is sorted or dropped |
| Ordering.SortedCells | app.py:277-288 | after the sort the helper columns are gone and every other cell is that of the row's source row |
| Sorting.StablePositions | app.py:285 | the stable sort puts the input row at position pos[i] in place i; keys never decrease; ties keep input order |
| Reconcile.Reconcile | app.py:84-304 | definition of the outcome of `process_csv_file`; its properties are in `Reconcile.ProcessCsvFile` and the `Reconcile` lemmas below |
| Reconcile.FindMissing | app.py:162-166 | the column loop finds the same message as the column check |
| Reconcile.ProcessCsvFile | app.py:84-304 | `process_csv_file` step by step: extension, read, rename, column check, join, cube columns, sort, message |
| Reconcile.WrittenOnSuccess | app.py:294-296 | a table is written exactly on success; then the upload was read, the message counts its rows, and the table has one row per existing row |
| Reconcile.MissingKeyColumn | app.py:160-166 | once the upload is read, the first match column missing from either table is named in the failure |
| Reconcile.ExtensionFirst | app.py:100-106 | an unsupported extension is rejected before anything is read |
| Reconcile.ExtensionExample | app.py:100-106 | `uploads/orders.txt` is rejected |

## Left out

- Reading PDFs and writing text pages (`pdf_processor.py`), the Flask routes, sessions and CORS are not part of this model. Of the routes, `Pipeline` keeps only the sequence `process_all_files` then `combine_to_csv` of app.py:538-549 (and its copies at 638-649, 758-769 and 1069-1074).
- `process_pdf` (app.py:61-82) is not modelled: nothing calls it, and its `PDFProcessor()` and `CSVExporter()` lack the required `session_dir`, so it always ends in its `except` and returns failure.
- Pipeline.EmittedCombine: takes the directory listing to present the written files first, in writing order, followed by the other entries. `glob` lists in the file system's order, and the rows of the combination follow that order.
- File I/O is replaced by values.
  - The processor receives a directory listing and a map from names to file contents. A file missing from the map is one that cannot be read.
  - The exporter's directory is a map from names to tables or unreadable files.
  - The reconciler receives the read outcome of the upload and the combined table.
  - Write failures, `os.remove` failures and listing order (taken as given) are not modelled.
- The lookup of the combined table in the session directory (app.py:120-158) is not modelled. This covers the fallback to another CSV file and the messages "Session directory not found", "No PDF data processed yet" and "Could not read CSV file".
- Excel reading and `read_csv` parsing are not modelled. The upload is given as a table, an empty-data error, a parser error or another exception with its message.
- CSV text: quoting, serialisation and `read_csv(chunksize=1000)` are not modelled. A table is a header and rows of cells, and a header-only file reads as one table without rows. A file is read whole or not at all. In the source, a file whose read fails after its first 1000-row chunk keeps the chunks already appended to `dfs` and is not removed; in the model such a file is `Unreadable` and contributes nothing.
- Floating point is exact arithmetic on reals. In `_calculate_totals_from_rows` (data_processor.py:371-380) ten rows of weight `0.1` sum to `0.9999999999999999` in Python, so `int()` gives the total weight "0"; the model sums exact reals and writes "1".
  - `float()` accepts optionally signed decimals with an exponent.
  - `inf`, `nan` and underscore digit groups are not accepted. On `inf` the source's `math.ceil` fails anyway, so the pallet count is blank in both.
- Cubes.ComputePallet: overflow and underflow of `float()` are not modelled. A cube such as `1e309` becomes `inf` in the source, `math.ceil` raises OverflowError, and the pallet count is blank; the model gives a 308-digit count. A cube such as `1e-400` becomes 0.0 in the source and needs 0 pallets; the model gives 1.
- Text uses ASCII for case mapping, digits and word characters. Whitespace is the Python `str.isspace` set without Unicode normalisation.
- Pandas duplicate column names are not modelled. If an upload has both `Cartons` and `Cartons*`, the renamed column replaces the other.
- `print` logging, `gc.collect`, and `_cleanup_txt_files`'s second listing are left out. The text files removed are the ones processed.
- `_format_data` and the utilities in `utils.py` other than the `.txt` filter are not part of this model. `_format_data` is not called by the core.
- Exceptions are modelled only where the source catches them and returns or skips:
  - unreadable pages and files are skipped;
  - rows that fail `int()`/`float()` are skipped;
  - `columns.get_loc` raises KeyError in the grouping loop;
  - the three `except` clauses of `process_csv_file`.
- Dates.ParseCancelDate: pandas' `%m/%d/%Y` parsing is modelled on the strings this function builds (two-, two- and four-character fields). Other pandas date inputs are not modelled.
- Dates.InRange: the parsed cancel dates are taken at pandas' default nanosecond resolution, whose Timestamp range is 1677-09-22 to 2262-04-11; `to_datetime` with `format` rejects a date outside it, so such a cell is NaT.
