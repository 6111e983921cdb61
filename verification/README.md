# Report layout of the template-based Excel export service

This project models the core of a small HTTP service that loads a spreadsheet
template, writes rows of (product name, quantity, unit price) into the template's
first worksheet, appends a total row holding a `SUMPRODUCT` formula, and sends
the workbook back as a download. Three handlers use the template:

- `GET /export` writes a fixed five-entry sample from row 4 and names the file
  `laporan-penjualan.xlsx`;
- `POST /export-custom` writes the caller's `data` array from row 3 and names the
  file after the caller's `filename`, or `laporan-custom.xlsx` when there is none;
- `GET /template-info` reports the first worksheet's name, row and column counts,
  the value of cell A1 and the template's path.

The worksheet is a class (`Sheet.Worksheet`) whose grid of cells is a
`map<Pos, Cell>` updated in place one cell at a time. The row-filling loop is the
method `ReportLayout.FillRows`, proved against the specification function
`ReportLayout.FillFrom`; the whole report is specified by `ReportLayout.Layout`
and characterised by `ReportLayout.IsReport` (each entry in its row, the total
row, and no other cell created or changed). The formula text has an inverse,
`ReportLayout.ParseSumProduct`, which reads the row range back out of it.
The guard order of the handlers and the header values are the pure functions
`Handlers.ExportOutcome` and `Handlers.CustomOutcome`.

The layout keeps the code's exact arithmetic. After `N` entries from start row
`s` the loop counter is `s + N`; the total row is written at `s + N + 1`, so row
`s + N` is never written and keeps whatever the template had there, and the
formula's range runs from `s` to `s + N`. The range therefore ends one row past
the last entry, not at the last entry. For the sample export that is data in rows
4 to 8, the total in row 10 and `SUMPRODUCT(B4:B9,C4:C9)`; for the two-row example
request it is rows 3 and 4, the total in row 6 and `SUMPRODUCT(B3:B5,C3:C5)`. The
code comment next to the default start row says "row 3" while the value is 4; the
model uses 4.

## Model

| member | source | states |
|---|---|---|
| `Sheet.Worksheet.SetCell` | src/index.ts:42-46 | writing one cell replaces that cell's value and leaves every other cell as it was |
| `Decimal.NatToString` | src/index.ts:55 | a row number renders as at least one decimal digit, and the digits denote that number |
| `Decimal.ReadNatToString` | src/index.ts:116 | reading digits back from a rendered row number followed by a non-digit yields the number and the rest of the text |
| `ReportLayout.WriteEntryCells` | src/index.ts:103-106 | one loop step creates or changes exactly columns 1 to 3 of its row, to the entry's name, quantity and price |
| `ReportLayout.FillFromCells` | src/index.ts:102-109 | after the loop, entry `i` is in columns A to C of row `start + i`, the cells created are exactly those, and every other cell keeps its value |
| `ReportLayout.FillRows` | src/index.ts:101-109 | the loop writes each entry into the next row, ends with the counter at `start + N`, and leaves the grid as `FillFrom` of the old grid |
| `ReportLayout.AddTotalRow` | src/index.ts:112-118 | the total row is `rowIndex + 1`, with "TOTAL" in column A and the formula over rows `start` to `rowIndex` in column C, and nothing else changes |
| `ReportLayout.WriteReport` | src/index.ts:101-118 | filling then totalling leaves the worksheet as the report of the entries (`IsReport`) |
| `ReportLayout.SumProductFormula` | src/index.ts:116 | the total's formula text `SUMPRODUCT(B<first>:B<last>,C<first>:C<last>)` with both row numbers in decimal; its partner `SumProductRoundTrip` proves the text names exactly that range |
| `ReportLayout.SumProductRoundTrip` | src/index.ts:116 | the formula text names exactly the range `first..last` in columns B and C: parsing it gives back that pair |
| `ReportLayout.LayoutHoldsEntries` | src/index.ts:102-106 | in the finished report entry `i` sits in row `start + i`: name in column 1, quantity in column 2, price in column 3 |
| `ReportLayout.LayoutChangesOnlyReport` | src/index.ts:102-117 | only columns 1 to 3 of the data rows and columns 1 and 3 of the total row are created or changed |
| `ReportLayout.LayoutIsReport` | src/index.ts:101-118 | the report function satisfies the whole report description: entries, total row and nothing else changed |
| `ReportLayout.IsReportUnique` | src/index.ts:101-118 | the report description fixes the resulting grid completely, so it states the whole new state |
| `ReportLayout.ReportSkipsGapRow` | src/index.ts:108-115 | row `start + N` (inside the formula's range) and column B of the total row keep their template values |
| `Handlers.DownloadFilename` | src/index.ts:120 | a present, non-empty filename is used verbatim; an absent or empty one gives `laporan-custom.xlsx`; the result is never empty |
| `Handlers.ContentDisposition` | src/index.ts:125-128 | the header is `attachment; filename=` followed by `f` verbatim and unquoted: stripping that prefix gives back `f` |
| `Handlers.StatusCode` | src/index.ts:84-98 | each response kind has its own status: success 200, bad request 400, not found 404, internal error 500, in both directions |
| `Handlers.CustomGuardsAgreeWithExport` | src/index.ts:90-99 | once `data` is an array and the file name is header-safe, the custom export's template and worksheet checks give the same status as the default export's (lines 19-29); with an unsafe name a would-be success is a 500 |
| `Handlers.DispositionSafe` | src/index.ts:125-128 | the Content-Disposition header can be set exactly when the file name contains only tab, printable ASCII or U+0080 to U+00FF |
| `Handlers.LineBreakFilenameFails` | src/index.ts:125-135 | a file name containing a line break passes every guard but is answered with 500 "Gagal membuat file Excel custom" |
| `Handlers.ExportOutcome` | src/index.ts:19-67 | missing template gives 404 before anything else; a missing worksheet gives 500; otherwise success with the spreadsheet MIME type and the file name `laporan-penjualan.xlsx` |
| `Handlers.CustomOutcome` | src/index.ts:83-135 | a missing or non-array `data` gives 400 whatever the template state; then missing template 404, missing worksheet 500, a file name the header cannot carry 500 from the catch-all; success announces the defaulted file name |
| `Handlers.Export` | src/index.ts:12-76 | the handler answers as `ExportOutcome` and, on success only, leaves the worksheet as the report of the sample data from row 4 |
| `Handlers.ExportCustom` | src/index.ts:79-136 | the handler answers as `CustomOutcome`; once the payload, template and worksheet checks pass it leaves the worksheet as the report of the supplied entries from row 3 (also when the header then fails), and otherwise leaves the cells unchanged |
| `Handlers.GetTemplateInfo` | src/index.ts:139-168 | missing template gives 404, missing worksheet 500, otherwise the sheet name, row and column counts, cell A1 and the template path |
| `Handlers.DefaultReportRows` | src/index.ts:32-56 | the sample export fills rows 4 to 8, leaves row 9 untouched, and writes "TOTAL" and `SUMPRODUCT(B4:B9,C4:C9)` in row 10 |
| `Handlers.CustomExampleRows` | src/index.ts:180-188 | the documented example request fills rows 3 and 4, leaves row 5 untouched and totals in row 6 with `SUMPRODUCT(B3:B5,C3:C5)` |
| `Handlers.EmptyCustomReport` | src/index.ts:101-117 | an empty array creates only the two total cells, in row 4, with `SUMPRODUCT(B3:B3,C3:C3)` |

## Left out

- Express setup, routing, JSON body parsing, `app.listen` and console logging: transport and I/O, not layout logic.
- The static description returned by `GET /`: a constant JSON document with no logic.
- Locating the template on disk (`path.join`, `process.cwd()`, `fs.existsSync`): the template's presence is a boolean input and its path a string input.
- Reading the template and serialising the workbook into the response (`readFile`, `write`, `res.end()`): foreign library calls; the model's result is the filled worksheet plus the response headers, not bytes.
- The catch-all 500 responses of the handlers, except the one for an unsafe file name: they answer exceptions thrown while reading the template, serialising the workbook, or evaluating a malformed entry (see the next line), none of which the model represents.
- Whether error bodies are sent as plain text or as a JSON `{ error }` object: only the status kind and message text are modelled.
- Evaluating the `SUMPRODUCT` formula: the service only stores the formula text.
- The async/await structure of the handlers: each handler is modelled as one sequential step.
- Sheet.Worksheet.SetCell: does not state the worksheet's `rowCount` and `columnCount` after a write, because how the spreadsheet library updates them is not part of this model.
- Handlers.GetTemplateInfo: `rowCount` and `columnCount` are taken as given worksheet fields; their meaning belongs to the spreadsheet library.
- Handlers.CustomOutcome: entries are typed triples (text, integer, integer), so it does not capture that a `data` array containing `null` or `undefined` passes the 400 check and then throws on `item[0]` (src/index.ts:104), answered with 500 "Gagal membuat file Excel custom"; nor a request entry with fewer than three elements (which writes `undefined` cells), non-numeric quantities or prices, or fractional JavaScript numbers.
- Handlers.ContentDisposition: the file name is inserted without quoting or escaping, as the code does; a name containing `;`, white space or `"` yields a header whose `filename` parameter, read by the rules of RFC 6266, is not that name. The model does not interpret header syntax.
- The `filename` field is text or absent: a non-string filename (a number, an object) is not modelled.
- The `data` field is modelled by its three cases (absent or falsy, present but not an array, an array): which JavaScript values are falsy is not modelled further.
