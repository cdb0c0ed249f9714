/**
 * The sales report screen: it fetches every order, and downloads either a
 * CSV file or a PDF table of them. The store call is an input value. The date
 * formatter (`format(new Date(ts), "yyyy-MM-dd")`) and `Date.now()` are
 * parameters. `exportFails` says whether building or saving the file throws
 * (an unparsable timestamp, the PDF library, the download): neither handler
 * catches, so the file is not saved, no alert shows and `loading` stays set.
 */
module Reports {
  import opened Wrappers
  import opened Text
  import opened Records
  import Csv

  /** The selected columns `id, product_id, quantity, timestamp, status`. */
  datatype ReportOrder = ReportOrder(
    id: string,
    productId: string,
    quantity: int,
    timestamp: Timestamp,
    status: Option<string>)

  const Header: Csv.Row := ["Order ID", "Product ID", "Quantity", "Date", "Status"]

  /** One order's cells; a missing or empty status reads `Completed`. */
  function Cells(o: ReportOrder, formatDay: Timestamp -> string): Csv.Row {
    [o.id, o.productId, IntToString(o.quantity), formatDay(o.timestamp), OrString(o.status, "Completed")]
  }

  function Rows(orders: seq<ReportOrder>, formatDay: Timestamp -> string): (rows: seq<Csv.Row>)
    ensures |rows| == |orders|
    ensures forall i :: 0 <= i < |orders| ==> rows[i] == Cells(orders[i], formatDay)
  {
    if |orders| == 0 then [] else [Cells(orders[0], formatDay)] + Rows(orders[1..], formatDay)
  }

  /** Which button was pressed. */
  datatype Download = CsvDownload | PdfDownload

  datatype Content =
    | CsvText(text: string)
    | PdfTable(title: string, head: Csv.Row, body: seq<Csv.Row>)

  datatype ReportFile = ReportFile(name: string, content: Content)

  /** The file saved (if any), the alert shown (if any) and `loading` afterwards. */
  datatype Run = Run(file: Option<ReportFile>, alert: Option<string>, loading: bool)

  const FetchFailed := "Error generating report. Please try again."

  /** No usable data: the query failed, returned nothing, or returned no rows. */
  predicate NoData(fetched: Result<Option<seq<ReportOrder>>, StoreError>) {
    fetched.Err? || fetched.value.None? || |fetched.value.value| == 0
  }

  /** `generateCSVReport` or `generatePDFReport`, from the fetch to the save. */
  function Generate(kind: Download, fetched: Result<Option<seq<ReportOrder>>, StoreError>,
                    formatDay: Timestamp -> string, nowMs: int, exportFails: bool): (r: Run)
    ensures r.loading <==> !NoData(fetched) && exportFails
    ensures r.file.None? <==> NoData(fetched) || exportFails
    ensures r.alert.Some? <==> NoData(fetched)
    ensures r.alert.Some? ==> r.alert.value == FetchFailed
    ensures r.file.Some? ==> r.file.value.name == "sales_report_" + IntToString(nowMs)
                                                 + (if kind.CsvDownload? then ".csv" else ".pdf")
    ensures r.file.Some? && kind.CsvDownload? ==>
              r.file.value.content == CsvText(Csv.Document([Header] + Rows(fetched.value.value, formatDay)))
    ensures r.file.Some? && kind.PdfDownload? ==>
              r.file.value.content == PdfTable("Sales Report", Header, Rows(fetched.value.value, formatDay))
  {
    if NoData(fetched) then Run(None, Some(FetchFailed), false)
    else if exportFails then Run(None, None, true)
    else
      var orders := fetched.value.value;
      var rows := Rows(orders, formatDay);
      match kind
      case CsvDownload =>
        var name := "sales_report_" + IntToString(nowMs) + ".csv";
        Run(Some(ReportFile(name, CsvText(Csv.Document([Header] + rows)))), None, false)
      case PdfDownload =>
        var name := "sales_report_" + IntToString(nowMs) + ".pdf";
        Run(Some(ReportFile(name, PdfTable("Sales Report", Header, rows))), None, false)
  }

  /** The text fields of an order hold no comma and no newline. */
  predicate PlainOrder(o: ReportOrder, formatDay: Timestamp -> string) {
    && ',' !in o.id && '\n' !in o.id
    && ',' !in o.productId && '\n' !in o.productId
    && ',' !in formatDay(o.timestamp) && '\n' !in formatDay(o.timestamp)
    && (o.status.Some? ==> ',' !in o.status.value && '\n' !in o.status.value)
  }

  lemma HeaderPlain()
    ensures Csv.Plain([Header])
  {
    assert Csv.PlainRow(Header);
  }

  lemma CellsPlain(o: ReportOrder, formatDay: Timestamp -> string)
    requires PlainOrder(o, formatDay)
    ensures Csv.PlainRow(Cells(o, formatDay))
  {
    var q := IntToString(o.quantity);
    assert Numeral(q);
    assert ',' !in q && '\n' !in q;
  }

  lemma {:induction false} RowsPlain(orders: seq<ReportOrder>, formatDay: Timestamp -> string)
    requires forall i :: 0 <= i < |orders| ==> PlainOrder(orders[i], formatDay)
    ensures Csv.Plain(Rows(orders, formatDay))
  {
    if |orders| > 0 {
      CellsPlain(orders[0], formatDay);
      RowsPlain(orders[1..], formatDay);
      Csv.PlainAppend([Cells(orders[0], formatDay)], Rows(orders[1..], formatDay));
    }
  }

  lemma TablePlain(orders: seq<ReportOrder>, formatDay: Timestamp -> string)
    requires forall i :: 0 <= i < |orders| ==> PlainOrder(orders[i], formatDay)
    ensures Csv.Plain([Header] + Rows(orders, formatDay))
  {
    HeaderPlain();
    RowsPlain(orders, formatDay);
    Csv.PlainAppend([Header], Rows(orders, formatDay));
  }

  /**
   * Reading the CSV text back: the header line, then one line per order in
   * fetch order, each splitting into that order's cells.
   */
  lemma TableReadsBack(orders: seq<ReportOrder>, formatDay: Timestamp -> string)
    requires forall i :: 0 <= i < |orders| ==> PlainOrder(orders[i], formatDay)
    ensures |Split(Csv.Document([Header] + Rows(orders, formatDay)), '\n')| == |orders| + 1
    ensures Split(Split(Csv.Document([Header] + Rows(orders, formatDay)), '\n')[0], ',') == Header
    ensures forall i :: 0 <= i < |orders| ==>
      Split(Split(Csv.Document([Header] + Rows(orders, formatDay)), '\n')[i + 1], ',') == Rows(orders, formatDay)[i]
  {
    var body := Rows(orders, formatDay);
    var rows := [Header] + body;
    TablePlain(orders, formatDay);
    forall i | 0 <= i < |rows|
      ensures |rows[i]| >= 1
    {
      if i > 0 {
        assert rows[i] == body[i - 1];
      }
    }
    Csv.ParseDocument(rows);
    forall i | 0 <= i < |orders|
      ensures Split(Split(Csv.Document(rows), '\n')[i + 1], ',') == body[i]
    {
      assert rows[i + 1] == body[i];
    }
  }

  /**
   * A throw while building or saving the file leaves the screen stuck: no
   * file, no alert, and both buttons stay disabled by `loading`.
   */
  lemma ExportFailureStaysLoading(kind: Download, fetched: Result<Option<seq<ReportOrder>>, StoreError>,
                                  formatDay: Timestamp -> string, nowMs: int)
    requires !NoData(fetched)
    ensures Generate(kind, fetched, formatDay, nowMs, true) == Run(None, None, true)
    ensures Generate(kind, fetched, formatDay, nowMs, false).file.Some?
  {
  }

  /** The status cell is never empty: a missing or empty status reads `Completed`. */
  lemma StatusNeverEmpty(orders: seq<ReportOrder>, formatDay: Timestamp -> string)
    ensures forall i :: 0 <= i < |orders| ==> Rows(orders, formatDay)[i][4] != ""
    ensures forall i :: 0 <= i < |orders| ==>
      (Rows(orders, formatDay)[i][4] == "Completed" <==> !TruthyString(orders[i].status) || orders[i].status.value == "Completed")
  {
  }

  /**
   * The CSV and the PDF of the same fetch hold the same table: the CSV's
   * first line reads back as the PDF's head, and its following lines, one per
   * order in fetch order, read back as the PDF's body rows, whose status
   * cells are never empty.
   */
  lemma CsvMatchesPdf(fetched: Result<Option<seq<ReportOrder>>, StoreError>,
                      formatDay: Timestamp -> string, nowMs: int)
    requires !NoData(fetched)
    requires forall o :: o in fetched.value.value ==> PlainOrder(o, formatDay)
    ensures
      var csv := Generate(CsvDownload, fetched, formatDay, nowMs, false).file.value.content.text;
      var pdf := Generate(PdfDownload, fetched, formatDay, nowMs, false).file.value.content;
      var lines := Split(csv, '\n');
      && |lines| == |pdf.body| + 1 == |fetched.value.value| + 1
      && Split(lines[0], ',') == pdf.head
      && (forall i :: 0 <= i < |pdf.body| ==> Split(lines[i + 1], ',') == pdf.body[i])
      && (forall i :: 0 <= i < |pdf.body| ==> pdf.body[i][4] != "")
  {
    var orders := fetched.value.value;
    forall i | 0 <= i < |orders|
      ensures PlainOrder(orders[i], formatDay)
    {
      assert orders[i] in orders;
    }
    TableReadsBack(orders, formatDay);
    StatusNeverEmpty(orders, formatDay);
    assert Generate(CsvDownload, fetched, formatDay, nowMs, false).file.value.content.text
        == Csv.Document([Header] + Rows(orders, formatDay));
    assert Generate(PdfDownload, fetched, formatDay, nowMs, false).file.value.content
        == PdfTable("Sales Report", Header, Rows(orders, formatDay));
  }
}
