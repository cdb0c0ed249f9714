/**
 * The report generator screen. It exists twice, as `ReportGenerator.tsx` and
 * as `src/components/ReportGenerator.tsx`. Both copies filter the orders by a
 * date range, write the same CSV text and file names, and apply the same
 * guards. They differ in the alert texts, and in whether a PDF failure is
 * caught inside the PDF writer.
 *
 * The clock is abstract. `today` is the calendar day of now. `cutoff` is the
 * instant the range's `filterDate` holds. `isoNow` is `new Date().toISOString()`.
 * `formatDate` is the date formatter. `exportFails` says whether the
 * spreadsheet or PDF library throws.
 */
module ReportGenerator {
  import opened Wrappers
  import opened Text
  import opened Seqs
  import opened Records
  import Csv

  /** The top-level copy of the component, or the one under `src/components`. */
  datatype Variant = TopLevel | Src

  /** `reportTypes.find(r => r.value === reportType)?.label` */
  function TypeLabel(reportType: string): Option<string> {
    if reportType == "sales" then Some("Sales Report")
    else if reportType == "orders" then Some("Order Report")
    else if reportType == "summary" then Some("Summary Report")
    else None
  }

  /** `dateRanges.find(r => r.value === range)?.label` */
  function RangeLabel(range: string): Option<string> {
    if range == "today" then Some("Today")
    else if range == "week" then Some("This Week")
    else if range == "month" then Some("This Month")
    else if range == "quarter" then Some("This Quarter")
    else if range == "year" then Some("This Year")
    else if range == "all" then Some("All Time")
    else None
  }

  /** The ranges that keep the orders placed at or after a cutoff instant. */
  predicate CutoffRange(range: string) {
    range == "week" || range == "month" || range == "quarter" || range == "year"
  }

  /** Whether the date-range filter keeps order `o`. */
  predicate Kept(range: string, today: int, cutoff: int, o: OrderWithProduct) {
    if range == "today" then o.createdAt.day == today
    else if CutoffRange(range) then o.createdAt.instant >= cutoff
    else true
  }

  /** `filterOrdersByDateRange(orders, range)` */
  function FilterByRange(orders: seq<OrderWithProduct>, range: string, today: int, cutoff: int)
    : (r: seq<OrderWithProduct>)
    ensures range != "today" && !CutoffRange(range) ==> r == orders
    ensures IsSublist(r, orders)
    ensures forall o :: o in r <==> o in orders && Kept(range, today, cutoff, o)
    ensures forall o :: multiset(r)[o] == if Kept(range, today, cutoff, o) then multiset(orders)[o] else 0
  {
    if range == "all" then
      SublistRefl(orders);
      orders
    else if range == "today" then
      var keep := (o: OrderWithProduct) => o.createdAt.day == today;
      FilterSpec(orders, keep);
      Filter(orders, keep)
    else if CutoffRange(range) then
      var keep := (o: OrderWithProduct) => o.createdAt.instant >= cutoff;
      FilterSpec(orders, keep);
      Filter(orders, keep)
    else
      SublistRefl(orders);
      orders
  }

  const Header: Csv.Row := ["Order ID", "Product Name", "SKU", "Quantity", "Date", "Status", "Total"]

  /** The cells of one order: the name in double quotes, the total with two decimals. */
  function Cells(o: OrderWithProduct, formatDate: Timestamp -> string): Csv.Row {
    [o.id, "\"" + o.productName + "\"", o.productSku, IntToString(o.quantity),
     formatDate(o.createdAt), o.status, CentsToFixed2(o.total)]
  }

  function OrderRows(data: seq<OrderWithProduct>, formatDate: Timestamp -> string): (rows: seq<Csv.Row>)
    ensures |rows| == |data|
    ensures forall i :: 0 <= i < |data| ==> rows[i] == Cells(data[i], formatDate)
  {
    if |data| == 0 then [] else [Cells(data[0], formatDate)] + OrderRows(data[1..], formatDate)
  }

  /** The text `generateCSVReport` downloads. */
  function CsvReport(data: seq<OrderWithProduct>, formatDate: Timestamp -> string): string {
    Csv.Document([Header] + OrderRows(data, formatDate))
  }

  /** The text fields of an order hold no comma and no newline. */
  predicate PlainOrder(o: OrderWithProduct, formatDate: Timestamp -> string) {
    && ',' !in o.id && '\n' !in o.id
    && ',' !in o.productName && '\n' !in o.productName
    && ',' !in o.productSku && '\n' !in o.productSku
    && ',' !in o.status && '\n' !in o.status
    && ',' !in formatDate(o.createdAt) && '\n' !in formatDate(o.createdAt)
  }

  lemma NumeralPlain(s: string)
    requires Numeral(s)
    ensures ',' !in s && '\n' !in s
  {
  }

  /**
   * Reading the CSV back: the header line, then exactly one line per order,
   * in order; each line's fields are the order's id, its name wrapped in
   * double quotes, SKU, quantity, formatted date, status and total with two
   * decimals.
   */
  lemma CsvReportLines(data: seq<OrderWithProduct>, formatDate: Timestamp -> string)
    requires forall i :: 0 <= i < |data| ==> PlainOrder(data[i], formatDate)
    ensures |Split(CsvReport(data, formatDate), '\n')| == |data| + 1
    ensures Split(Split(CsvReport(data, formatDate), '\n')[0], ',')
         == ["Order ID", "Product Name", "SKU", "Quantity", "Date", "Status", "Total"]
    ensures forall i :: 0 <= i < |data| ==>
      var o := data[i];
      Split(Split(CsvReport(data, formatDate), '\n')[i + 1], ',')
        == [o.id, "\"" + o.productName + "\"", o.productSku, IntToString(o.quantity),
            formatDate(o.createdAt), o.status, CentsToFixed2(o.total)]
  {
    var rows := [Header] + OrderRows(data, formatDate);
    HeaderPlain();
    OrderRowsPlain(data, formatDate);
    Csv.PlainAppend([Header], OrderRows(data, formatDate));
    Csv.ParseDocument(rows);
    assert forall i :: 0 <= i < |data| ==> rows[i + 1] == Cells(data[i], formatDate);
  }

  lemma {:induction false} OrderRowsPlain(data: seq<OrderWithProduct>, formatDate: Timestamp -> string)
    requires forall i :: 0 <= i < |data| ==> PlainOrder(data[i], formatDate)
    ensures Csv.Plain(OrderRows(data, formatDate))
  {
    if |data| > 0 {
      CellsPlain(data[0], formatDate);
      OrderRowsPlain(data[1..], formatDate);
      Csv.PlainAppend([Cells(data[0], formatDate)], OrderRows(data[1..], formatDate));
    }
  }

  lemma HeaderPlain()
    ensures Csv.Plain([Header])
  {
    assert Csv.PlainRow(Header);
  }

  lemma CellsPlain(o: OrderWithProduct, formatDate: Timestamp -> string)
    requires PlainOrder(o, formatDate)
    ensures Csv.PlainRow(Cells(o, formatDate))
  {
    var row := Cells(o, formatDate);
    assert row[1] == ['"'] + o.productName + ['"'];
    NumeralPlain(IntToString(o.quantity));
    NumeralPlain(CentsToFixed2(o.total));
  }

  /** `label.toLowerCase().replace(/\s+/g, '_')` */
  function Slug(caption: string): string {
    CollapseWhitespace(LowerAscii(caption), '_')
  }

  /** `dateRanges.find(...)?.label || 'All Time'`: the caption shown for a range. */
  function RangeCaption(range: string): string {
    OrString(RangeLabel(range), "All Time")
  }

  /** The download name without its extension, for the range caption `caption`. */
  function Filename(reportType: string, caption: string, isoNow: string): string {
    reportType + "_report_" + Slug(caption) + "_" + Before(isoNow, 'T')
  }

  /** The slug of a one-word label is the word in lower case. */
  lemma SlugOneWord(caption: string)
    requires NoWhitespace(caption)
    ensures Slug(caption) == LowerAscii(caption)
  {
    CollapseNone(LowerAscii(caption), '_', false);
  }

  /** The slug of a two-word label is the words in lower case joined by `_`. */
  lemma SlugTwoWords(caption: string, a: string, b: string)
    requires caption == a + " " + b && NoWhitespace(a) && NoWhitespace(b)
    ensures Slug(caption) == LowerAscii(a) + "_" + LowerAscii(b)
  {
    LowerAsciiAppend(a + " ", b);
    LowerAsciiAppend(a, " ");
    assert LowerAscii(" ") == " ";
    CollapseWords(LowerAscii(a), ' ', LowerAscii(b), '_', false);
  }

  /**
   * For a one-word caption the file name is the report type, `_report_`, the
   * caption in lower case, `_` and the date part of the ISO timestamp.
   */
  lemma FilenameOneWord(reportType: string, caption: string, isoNow: string)
    requires NoWhitespace(caption)
    ensures Filename(reportType, caption, isoNow)
         == reportType + "_report_" + LowerAscii(caption) + "_" + Split(isoNow, 'T')[0]
  {
    BeforeIsFirstPiece(isoNow, 'T');
    SlugOneWord(caption);
  }

  /**
   * For a two-word caption `a b` the file name is the report type,
   * `_report_`, both words in lower case joined by `_`, then `_` and the date
   * part of the ISO timestamp.
   */
  lemma FilenameTwoWords(reportType: string, caption: string, isoNow: string, a: string, b: string)
    requires caption == a + " " + b && NoWhitespace(a) && NoWhitespace(b)
    ensures Filename(reportType, caption, isoNow)
         == reportType + "_report_" + LowerAscii(a) + "_" + LowerAscii(b) + "_" + Split(isoNow, 'T')[0]
  {
    BeforeIsFirstPiece(isoNow, 'T');
    SlugTwoWords(caption, a, b);
  }

  /** What the downloaded file holds. */
  datatype Content =
    | CsvText(text: string)
    | Workbook(sheet: string, rows: nat)
    | PdfDocument(title: string, rangeCaption: string, totalOrders: nat, totalRevenue: int, shortIds: seq<string>)

  datatype ReportFile = ReportFile(name: string, content: Content)

  /** The file downloaded (if any), the alerts shown in order, and `isGenerating` afterwards. */
  datatype Outcome = Outcome(file: Option<ReportFile>, alerts: seq<string>, generating: bool)

  /** The environment of one click: the clock, the date formatter and the export libraries. */
  datatype Env = Env(
    today: int,
    cutoff: int,
    isoNow: string,
    formatDate: Timestamp -> string,
    exportFails: bool)

  const MissingSelection := "Please select both report type and date range"
  const StillLoading := "Please wait for orders to load"
  const NothingInRange := "No orders found for the selected date range"
  const PdfFailed := "Failed to generate PDF. Check the console for details."

  function Success(v: Variant, typeCaption: string): string {
    match v
    case TopLevel => typeCaption + " generated successfully!"
    case Src => typeCaption + " generated successfully! Check your downloads folder."
  }

  function Failure(v: Variant): string {
    match v
    case TopLevel => "Error generating report. See console for details."
    case Src => "Error generating report. Please try again."
  }

  /** `order.id.slice(0, 8) + '...'` */
  function ShortId(id: string): string {
    (if |id| <= 8 then id else id[..8]) + "..."
  }

  function ShortIds(data: seq<OrderWithProduct>): (ids: seq<string>)
    ensures |ids| == |data|
    ensures forall i :: 0 <= i < |data| ==> ids[i] == ShortId(data[i].id)
  {
    if |data| == 0 then [] else [ShortId(data[0].id)] + ShortIds(data[1..])
  }

  function Total(o: OrderWithProduct): int {
    o.total
  }

  /** The formats the component knows. */
  predicate KnownFormat(format: string) {
    format == "csv" || format == "excel" || format == "pdf"
  }

  /** The guards before any report work: a type and a range are chosen and the orders have loaded. */
  predicate Ready(reportType: string, range: string, loading: bool) {
    reportType != "" && range != "" && !loading
  }

  /**
   * `handleGenerateReport` on one variant: guard, filter, name the file,
   * write it in the chosen format, and report the result. The success alert is
   * shown after a delay; it is listed last.
   */
  function Generate(v: Variant, reportType: string, range: string, format: string,
                    orders: seq<OrderWithProduct>, loading: bool, generating: bool, env: Env): (r: Outcome)
    ensures !Ready(reportType, range, loading) ==> r.file.None? && r.generating == generating && |r.alerts| == 1
    ensures Ready(reportType, range, loading) ==> !r.generating
    ensures r.file.Some? <==>
      && Ready(reportType, range, loading)
      && |FilterByRange(orders, range, env.today, env.cutoff)| > 0
      && KnownFormat(format)
      && (format == "csv" || !env.exportFails)
    ensures r.file.Some? ==>
      var data := FilterByRange(orders, range, env.today, env.cutoff);
      var name := Filename(reportType, RangeCaption(range), env.isoNow);
      && r.alerts == [Success(v, OrString(TypeLabel(reportType), "Report"))]
      && (format == "csv" ==> r.file.value == ReportFile(name + ".csv", CsvText(CsvReport(data, env.formatDate))))
      && (format == "excel" ==> r.file.value == ReportFile(name + ".xlsx", Workbook("Orders", |data|)))
      && (format == "pdf" ==> r.file.value == ReportFile(name + ".pdf",
            PdfDocument(OrString(TypeLabel(reportType), "Report") + " - " + RangeCaption(range), RangeCaption(range),
                        |data|, SumBy(data, Total), ShortIds(data))))
    ensures reportType == "" || range == "" ==> r.alerts == [MissingSelection]
    ensures reportType != "" && range != "" && loading ==> r.alerts == [StillLoading]
    ensures Ready(reportType, range, loading) && |FilterByRange(orders, range, env.today, env.cutoff)| == 0 ==>
              r.alerts == [NothingInRange]
    ensures Ready(reportType, range, loading) && |FilterByRange(orders, range, env.today, env.cutoff)| > 0
            && (!KnownFormat(format) || (format == "excel" && env.exportFails)) ==>
              r.alerts == [Failure(v)]
    ensures |r.alerts| >= 1
  {
    if reportType == "" || range == "" then
      Outcome(None, [MissingSelection], generating)
    else if loading then
      Outcome(None, [StillLoading], generating)
    else
      var data := FilterByRange(orders, range, env.today, env.cutoff);
      if |data| == 0 then
        Outcome(None, [NothingInRange], false)
      else
        var typeCaption := OrString(TypeLabel(reportType), "Report");
        var caption := RangeCaption(range);
        var name := Filename(reportType, caption, env.isoNow);
        var done := [Success(v, typeCaption)];
        if format == "csv" then
          Outcome(Some(ReportFile(name + ".csv", CsvText(CsvReport(data, env.formatDate)))), done, false)
        else if format == "excel" then
          if env.exportFails then Outcome(None, [Failure(v)], false)
          else Outcome(Some(ReportFile(name + ".xlsx", Workbook("Orders", |data|))), done, false)
        else if format == "pdf" then
          if env.exportFails then
            match v
            case TopLevel => Outcome(None, [PdfFailed] + done, false)
            case Src => Outcome(None, [Failure(v)], false)
          else
            var doc := PdfDocument(typeCaption + " - " + caption, caption, |data|, SumBy(data, Total), ShortIds(data));
            Outcome(Some(ReportFile(name + ".pdf", doc)), done, false)
        else
          Outcome(None, [Failure(v)], false)
  }

  /**
   * The two copies download the same file and leave `isGenerating` the same;
   * they differ only in what they alert.
   */
  lemma VariantsAgree(reportType: string, range: string, format: string,
                      orders: seq<OrderWithProduct>, loading: bool, generating: bool, env: Env)
    ensures Generate(TopLevel, reportType, range, format, orders, loading, generating, env).file
         == Generate(Src, reportType, range, format, orders, loading, generating, env).file
    ensures Generate(TopLevel, reportType, range, format, orders, loading, generating, env).generating
         == Generate(Src, reportType, range, format, orders, loading, generating, env).generating
  {
  }

  /**
   * When the PDF library throws, the top-level copy catches it inside the PDF
   * writer: it alerts the failure and then still announces success. The `src`
   * copy lets it reach the outer handler, which alerts the error only.
   */
  lemma PdfFailureAlerts(reportType: string, range: string, orders: seq<OrderWithProduct>, env: Env)
    requires Ready(reportType, range, false) && env.exportFails
    requires |FilterByRange(orders, range, env.today, env.cutoff)| > 0
    ensures Generate(TopLevel, reportType, range, "pdf", orders, false, false, env).alerts
         == [PdfFailed, Success(TopLevel, OrString(TypeLabel(reportType), "Report"))]
    ensures Generate(Src, reportType, range, "pdf", orders, false, false, env).alerts
         == ["Error generating report. Please try again."]
  {
  }

  /**
   * The PDF's summary agrees with the CSV the same click would write: as many
   * orders as the CSV has data lines, and as revenue the sum of the totals.
   */
  lemma PdfAgreesWithCsv(v: Variant, reportType: string, range: string,
                         orders: seq<OrderWithProduct>, env: Env)
    requires var r := Generate(v, reportType, range, "pdf", orders, false, false, env); r.file.Some?
    requires forall o :: o in orders ==> PlainOrder(o, env.formatDate)
    ensures
      var data := FilterByRange(orders, range, env.today, env.cutoff);
      var doc := Generate(v, reportType, range, "pdf", orders, false, false, env).file.value.content;
      && doc.totalOrders + 1 == |Split(CsvReport(data, env.formatDate), '\n')|
      && doc.totalRevenue == SumBy(data, Total)
  {
    var data := FilterByRange(orders, range, env.today, env.cutoff);
    forall i | 0 <= i < |data|
      ensures PlainOrder(data[i], env.formatDate)
    {
      assert data[i] in data;
    }
    CsvReportLines(data, env.formatDate);
  }
}
