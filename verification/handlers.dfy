/**
  The three template-based request handlers: the default export, the custom export
  and the template information probe. Each checks its inputs in a fixed order and
  either stops with an error response or fills the template's first worksheet.
 */
module Handlers {
  import opened Wrappers
  import opened Sheet
  import opened Literals
  import opened ReportLayout

  /** First data row of the default export. */
  const DefaultStart: nat := 4
  /** First data row of the custom export. */
  const CustomStart: nat := 3

  /** The built-in sample data of the default export. */
  const DefaultData: seq<Entry> := [
    Entry("Produk A", 10, 20000),
    Entry("Produk B", 5, 50000),
    Entry("Produk C", 8, 30000),
    Entry("Produk D", 15, 25000),
    Entry("Produk E", 7, 40000)
  ]

  const SpreadsheetMime: string := "application/vnd.openxmlformats-officedocument.spreadsheetml.sheet"
  const DispositionPrefix: string := "attachment; filename="
  const DefaultExportFilename: string := "laporan-penjualan.xlsx"
  const DefaultCustomFilename: string := "laporan-custom.xlsx"

  const TemplateMissing: string := "Template file tidak ditemukan"
  const SheetMissing: string := "Worksheet tidak ditemukan"
  const DataNotArray: string := "Data harus berupa array"
  /** The custom export's catch-all answer when its own steps throw. */
  const CustomExportFailed: string := "Gagal membuat file Excel custom"

  /** The documented example payload of the custom export. */
  const ExampleData: seq<Entry> := [Entry("Produk X", 5, 15000), Entry("Produk Y", 3, 25000)]

  /**
    The `data` field of a custom export request: absent or falsy (`Missing`), present
    but not an array (`NotArray`), or an array of entries (`Rows`, possibly empty).
   */
  datatype Data = Missing | NotArray | Rows(entries: seq<Entry>)

  /** The two headers of a successful download. */
  datatype Headers = Headers(contentType: string, contentDisposition: string)

  /** What the template information probe reports. */
  datatype Info = Info(sheetName: string, rowCount: nat, columnCount: nat, title: Cell, templatePath: string)

  /** A handler's response: a success carrying `T`, or one of the three error kinds with its message. */
  datatype Outcome<T> =
    | Ok(value: T)
    | BadRequest(message: string)
    | NotFound(message: string)
    | InternalError(message: string)

  /** The HTTP status code each kind of response is sent with; each kind has its own code. */
  function StatusCode<T>(o: Outcome<T>): (code: nat)
    ensures o.Ok? <==> code == 200
    ensures o.BadRequest? <==> code == 400
    ensures o.NotFound? <==> code == 404
    ensures o.InternalError? <==> code == 500
  {
    match o
    case Ok(_) => 200
    case BadRequest(_) => 400
    case NotFound(_) => 404
    case InternalError(_) => 500
  }

  /** `filename || "laporan-custom.xlsx"`: an absent or empty filename falls back to the default. */
  function DownloadFilename(filename: Option<string>): (f: string)
    ensures f != ""
    ensures filename.Some? && filename.value != "" ==> f == filename.value
    ensures filename.None? || filename.value == "" ==> f == DefaultCustomFilename
  {
    if filename.Some? && filename.value != "" then filename.value else DefaultCustomFilename
  }

  /** The file name a Content-Disposition header of this service carries after its fixed prefix. */
  function DispositionFilename(h: string): Option<string> {
    Expect(DispositionPrefix, h)
  }

  /** `attachment; filename=<f>`, with `f` appended verbatim: neither quoted nor escaped. */
  function ContentDisposition(f: string): (h: string)
    ensures DispositionFilename(h) == Some(f)
  {
    ExpectLiteral(DispositionPrefix, f);
    DispositionPrefix + f
  }

  /**
    A character the HTTP layer accepts in a header value: horizontal tab, printable
    ASCII, or a code point from U+0080 to U+00FF. Setting a header with any other
    character (a control character, DEL, anything above U+00FF) throws.
   */
  predicate HeaderChar(c: char) {
    c == '\t' || (' ' <= c <= '~') || (0x80 <= c as int <= 0xFF)
  }

  predicate HeaderSafe(v: string) {
    forall i :: 0 <= i < |v| ==> HeaderChar(v[i])
  }

  /** The Content-Disposition header can be set exactly when the file name itself is header-safe. */
  lemma DispositionSafe(f: string)
    ensures HeaderSafe(ContentDisposition(f)) <==> HeaderSafe(f)
  {
  }

  /** The response of the default export: template first, then its first worksheet. */
  function ExportOutcome(templateExists: bool, hasSheet: bool): (o: Outcome<Headers>)
    ensures o.NotFound? <==> !templateExists
    ensures o.InternalError? <==> templateExists && !hasSheet
    ensures o.Ok? <==> templateExists && hasSheet
    ensures !o.BadRequest?
    ensures o.NotFound? ==> o.message == TemplateMissing
    ensures o.InternalError? ==> o.message == SheetMissing
    ensures o.Ok? ==> o.value.contentType == SpreadsheetMime
    ensures o.Ok? ==> DispositionFilename(o.value.contentDisposition) == Some(DefaultExportFilename)
  {
    if !templateExists then NotFound(TemplateMissing)
    else if !hasSheet then InternalError(SheetMissing)
    else
      Ok(Headers(SpreadsheetMime, ContentDisposition(DefaultExportFilename)))
  }

  /**
    The response of the custom export: the `data` check comes before any template
    access, so a bad payload is reported even when the template is missing. After
    the sheet is filled, setting a Content-Disposition header whose file name is not
    header-safe throws, and the catch-all answers 500.
   */
  function CustomOutcome(data: Data, filename: Option<string>, templateExists: bool, hasSheet: bool): (o: Outcome<Headers>)
    ensures o.BadRequest? <==> !data.Rows?
    ensures o.NotFound? <==> data.Rows? && !templateExists
    ensures o.InternalError? <==>
              data.Rows? && templateExists && (!hasSheet || !HeaderSafe(DownloadFilename(filename)))
    ensures o.Ok? <==> data.Rows? && templateExists && hasSheet && HeaderSafe(DownloadFilename(filename))
    ensures o.BadRequest? ==> o.message == DataNotArray
    ensures o.NotFound? ==> o.message == TemplateMissing
    ensures o.InternalError? ==> o.message == if hasSheet then CustomExportFailed else SheetMissing
    ensures o.Ok? ==> o.value.contentType == SpreadsheetMime && HeaderSafe(o.value.contentDisposition)
    ensures o.Ok? ==> DispositionFilename(o.value.contentDisposition) == Some(DownloadFilename(filename))
  {
    if !data.Rows? then BadRequest(DataNotArray)
    else if !templateExists then NotFound(TemplateMissing)
    else if !hasSheet then InternalError(SheetMissing)
    else
      var disposition := ContentDisposition(DownloadFilename(filename));
      DispositionSafe(DownloadFilename(filename));
      if !HeaderSafe(disposition) then InternalError(CustomExportFailed)
      else Ok(Headers(SpreadsheetMime, disposition))
  }

  /** A file name with a line break passes every guard and fills the sheet, but is answered with 500. */
  lemma LineBreakFilenameFails(entries: seq<Entry>)
    ensures CustomOutcome(Rows(entries), Some("a\nb.xlsx"), true, true) == InternalError(CustomExportFailed)
  {
    assert !HeaderChar("a\nb.xlsx"[1]);
  }

  /**
    Once the payload is an array and its file name is header-safe, the custom export
    checks the template exactly as the default one does; an unsafe file name turns
    what would be a success into a 500.
   */
  lemma CustomGuardsAgreeWithExport(entries: seq<Entry>, filename: Option<string>, templateExists: bool, hasSheet: bool)
    ensures HeaderSafe(DownloadFilename(filename)) ==>
              (StatusCode(CustomOutcome(Rows(entries), filename, templateExists, hasSheet))
               == StatusCode(ExportOutcome(templateExists, hasSheet)))
    ensures !HeaderSafe(DownloadFilename(filename)) && templateExists && hasSheet ==>
              StatusCode(CustomOutcome(Rows(entries), filename, templateExists, hasSheet)) == 500
  {
  }

  /** GET /export: fills the first worksheet with the sample data from row 4. */
  method Export(templateExists: bool, ws: Worksheet?) returns (out: Outcome<Headers>)
    modifies ws
    ensures out == ExportOutcome(templateExists, ws != null)
    ensures out.Ok? ==> ws != null && ws.cells == Layout(old(ws.cells), DefaultStart, DefaultData)
    ensures out.Ok? ==> IsReport(old(ws.cells), ws.cells, DefaultStart, DefaultData)
    ensures !out.Ok? && ws != null ==> ws.cells == old(ws.cells)
  {
    if !templateExists {
      return NotFound(TemplateMissing);
    }
    if ws == null {
      return InternalError(SheetMissing);
    }
    WriteReport(ws, DefaultStart, DefaultData);
    out := Ok(Headers(SpreadsheetMime, ContentDisposition(DefaultExportFilename)));
  }

  /**
    POST /export-custom: checks the payload, then fills the first worksheet with it from
    row 3, then sets the headers. The sheet is filled even when setting the
    Content-Disposition header then fails.
   */
  method ExportCustom(data: Data, filename: Option<string>, templateExists: bool, ws: Worksheet?)
    returns (out: Outcome<Headers>)
    modifies ws
    ensures out == CustomOutcome(data, filename, templateExists, ws != null)
    ensures data.Rows? && templateExists && ws != null ==>
              && ws.cells == Layout(old(ws.cells), CustomStart, data.entries)
              && IsReport(old(ws.cells), ws.cells, CustomStart, data.entries)
    ensures !(data.Rows? && templateExists) && ws != null ==> ws.cells == old(ws.cells)
  {
    if !data.Rows? {
      return BadRequest(DataNotArray);
    }
    if !templateExists {
      return NotFound(TemplateMissing);
    }
    if ws == null {
      return InternalError(SheetMissing);
    }
    WriteReport(ws, CustomStart, data.entries);
    var downloadFilename := DownloadFilename(filename);
    var disposition := ContentDisposition(downloadFilename);
    DispositionSafe(downloadFilename);
    if !HeaderSafe(disposition) {
      return InternalError(CustomExportFailed);
    }
    out := Ok(Headers(SpreadsheetMime, disposition));
  }

  /** GET /template-info: the first worksheet's name, size, cell A1 and the template's path. */
  method GetTemplateInfo(templatePath: string, templateExists: bool, ws: Worksheet?) returns (out: Outcome<Info>)
    ensures out.NotFound? <==> !templateExists
    ensures out.InternalError? <==> templateExists && ws == null
    ensures !out.BadRequest?
    ensures out.NotFound? ==> out.message == TemplateMissing
    ensures out.InternalError? ==> out.message == SheetMissing
    ensures out.Ok? ==>
              && ws != null
              && out.value == Info(ws.name, ws.rowCount, ws.columnCount, CellAt(ws.cells, Pos(1, 1)), templatePath)
  {
    if !templateExists {
      return NotFound(TemplateMissing);
    }
    if ws == null {
      return InternalError(SheetMissing);
    }
    out := Ok(Info(ws.name, ws.rowCount, ws.columnCount, CellAt(ws.cells, Pos(1, 1)), templatePath));
  }

  /**
    The default export writes the five sample entries ("Produk A" to "Produk E") into
    rows 4 to 8, leaves row 9 as the template had it, and puts the total in row 10 with
    the range B4:B9, C4:C9.
   */
  lemma DefaultReportRows(before: map<Pos, Cell>, after: map<Pos, Cell>)
    requires IsReport(before, after, DefaultStart, DefaultData)
    ensures forall i :: 0 <= i < 5 ==>
      && CellAt(after, Pos(4 + i, 1)) == Text(DefaultData[i].name)
      && CellAt(after, Pos(4 + i, 2)) == Num(DefaultData[i].quantity)
      && CellAt(after, Pos(4 + i, 3)) == Num(DefaultData[i].price)
    ensures CellAt(after, Pos(4, 1)) == Text("Produk A") && CellAt(after, Pos(4, 2)) == Num(10)
    ensures CellAt(after, Pos(8, 1)) == Text("Produk E") && CellAt(after, Pos(8, 3)) == Num(40000)
    ensures forall col :: CellAt(after, Pos(9, col)) == CellAt(before, Pos(9, col))
    ensures CellAt(after, Pos(10, 1)) == Text("TOTAL")
    ensures CellAt(after, Pos(10, 3)) == Formula("SUMPRODUCT(B4:B9,C4:C9)")
    ensures ParseSumProduct(after[Pos(10, 3)].formula) == Some((4, 9))
  {
    assert DefaultData[0].name == "Produk A" && DefaultData[4].name == "Produk E";
    assert CellAt(after, Pos(4 + 0, 1)) == Text("Produk A");
    assert CellAt(after, Pos(4 + 4, 1)) == Text("Produk E");
    forall col: nat ensures CellAt(after, Pos(9, col)) == CellAt(before, Pos(9, col)) {
      ReportSkipsGapRow(before, after, DefaultStart, DefaultData, col);
    }
    assert SumProductFormula(4, 9) == "SUMPRODUCT(B4:B9,C4:C9)";
    SumProductRoundTrip(4, 9);
  }

  /** The example request's two rows go to rows 3 and 4; the total is in row 6 over B3:B5, C3:C5. */
  lemma CustomExampleRows(before: map<Pos, Cell>, after: map<Pos, Cell>)
    requires IsReport(before, after, CustomStart, ExampleData)
    ensures forall i :: 0 <= i < 2 ==>
      && CellAt(after, Pos(3 + i, 1)) == Text(ExampleData[i].name)
      && CellAt(after, Pos(3 + i, 2)) == Num(ExampleData[i].quantity)
      && CellAt(after, Pos(3 + i, 3)) == Num(ExampleData[i].price)
    ensures CellAt(after, Pos(3, 1)) == Text("Produk X") && CellAt(after, Pos(3, 2)) == Num(5)
    ensures CellAt(after, Pos(4, 1)) == Text("Produk Y") && CellAt(after, Pos(4, 3)) == Num(25000)
    ensures forall col :: CellAt(after, Pos(5, col)) == CellAt(before, Pos(5, col))
    ensures CellAt(after, Pos(6, 1)) == Text("TOTAL")
    ensures CellAt(after, Pos(6, 3)) == Formula("SUMPRODUCT(B3:B5,C3:C5)")
  {
    var entries := ExampleData;
    assert CellAt(after, Pos(3 + 0, 1)) == Text(entries[0].name);
    assert CellAt(after, Pos(3 + 1, 1)) == Text(entries[1].name);
    forall col: nat ensures CellAt(after, Pos(5, col)) == CellAt(before, Pos(5, col)) {
      ReportSkipsGapRow(before, after, CustomStart, entries, col);
    }
    assert SumProductFormula(3, 5) == "SUMPRODUCT(B3:B5,C3:C5)";
  }

  /** An empty array still yields a total, in row 4, over the one-row range B3:B3, C3:C3. */
  lemma EmptyCustomReport(before: map<Pos, Cell>, after: map<Pos, Cell>)
    requires IsReport(before, after, CustomStart, [])
    ensures after.Keys == before.Keys + {Pos(4, 1), Pos(4, 3)}
    ensures CellAt(after, Pos(4, 1)) == Text("TOTAL")
    ensures CellAt(after, Pos(4, 3)) == Formula("SUMPRODUCT(B3:B3,C3:C3)")
  {
  }
}
