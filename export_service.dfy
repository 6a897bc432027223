/** The report tables of the export service: the header and one row per
    record, in the detailed (six columns) and the simple (four columns)
    view, with 'N/A' for the cells a record leaves empty. The PDF and the
    DOCX report lay out the same table; drawing it is not modelled. */
module ExportService {
  import opened Common
  import opened Records
  import Config

  const NA := "N/A"

  /** `ExportFormat`: the two report kinds and their file name endings. */
  datatype ExportFormat = Pdf | Docx {
    function Value(): string {
      match this
      case Pdf => "pdf"
      case Docx => "docx"
    }
  }

  /** The name `generate_filename` gives a report made at `stamp` (the
      `'%Y%m%d_%H%M%S'` text of the local time). */
  function ReportName(stamp: string, format: ExportFormat): string {
    "tracking_report_" + stamp + "." + format.Value()
  }

  /** `generate_filename`: the report's name joined to the export directory. */
  function ReportPath(stamp: string, format: ExportFormat): string {
    Config.ExportDir + "/" + ReportName(stamp, format)
  }

  /** `value or 'N/A'` for an optional text column. */
  function OrNA(o: Option<string>): (r: string)
    ensures r != []
    ensures Truthy(o) <==> r != NA || o == Some(NA)
  {
    if Truthy(o) then o.value else NA
  }

  /** `_get_last_event_date`: the timestamp of the first stored event when it
      is a non-empty text, else `last_checked` written out by `stamp` (the
      `'%Y-%m-%dT%H:%M:%S+00:00'` format), else 'N/A'. */
  function LastEventDate(r: TrackingRecord, stamp: int -> string): string {
    if r.trackingDetails.Some? && |r.trackingDetails.value.events| > 0
       && TruthyField(r.trackingDetails.value.events[0].timestamp)
    then r.trackingDetails.value.events[0].timestamp.value
    else if r.lastChecked.Some? then stamp(r.lastChecked.value)
    else NA
  }

  /** The header row of the table. */
  function Header(includeDetails: bool): (h: seq<string>)
    ensures |h| == (if includeDetails then 6 else 4)
    ensures h[0] == "Tracking #" && h[1] == "Bin ID" && h[2] == "Status Code"
    ensures h[|h| - 1] == "Last Event Date"
  {
    if includeDetails then
      ["Tracking #", "Bin ID", "Status Code", "Origin", "Destination", "Last Event Date"]
    else
      ["Tracking #", "Bin ID", "Status Code", "Last Event Date"]
  }

  /** The data row of one record. */
  function Row(r: TrackingRecord, includeDetails: bool, stamp: int -> string): seq<string> {
    if includeDetails then
      [r.trackingNumber, OrNA(r.binId), OrNA(r.statusCode), OrNA(r.origin),
       OrNA(r.destination), LastEventDate(r, stamp)]
    else
      [r.trackingNumber, OrNA(r.binId), OrNA(r.statusCode), LastEventDate(r, stamp)]
  }

  /** The table `generate_pdf` hands to `Table` and `generate_docx` fills
      row by row: the header, then one row per record in order. */
  method TableData(records: seq<TrackingRecord>, includeDetails: bool, stamp: int -> string)
    returns (data: seq<seq<string>>)
    ensures |data| == |records| + 1
    ensures data[0] == Header(includeDetails)
    ensures forall i :: 0 <= i < |records| ==> data[i + 1] == Row(records[i], includeDetails, stamp)
  {
    data := [Header(includeDetails)];
    var i := 0;
    while i < |records|
      invariant 0 <= i <= |records|
      invariant |data| == i + 1 && data[0] == Header(includeDetails)
      invariant forall j :: 0 <= j < i ==> data[j + 1] == Row(records[j], includeDetails, stamp)
    {
      data := data + [Row(records[i], includeDetails, stamp)];
      i := i + 1;
    }
  }

  /** Every row is as wide as the header, starts with the tracking number and
      ends with the last event date. */
  lemma RowShape(r: TrackingRecord, includeDetails: bool, stamp: int -> string)
    ensures |Row(r, includeDetails, stamp)| == |Header(includeDetails)|
    ensures Row(r, includeDetails, stamp)[0] == r.trackingNumber
    ensures Row(r, includeDetails, stamp)[|Header(includeDetails)| - 1] == LastEventDate(r, stamp)
  {
  }

  /** A bin, status, origin or destination cell reads 'N/A' exactly when the
      record has no such value (or has the text 'N/A' itself), and the
      record's value otherwise. */
  lemma RowCells(r: TrackingRecord, stamp: int -> string)
    ensures var row := Row(r, true, stamp);
      && (Truthy(r.binId) ==> row[1] == r.binId.value)
      && (!Truthy(r.binId) ==> row[1] == NA)
      && (Truthy(r.statusCode) ==> row[2] == r.statusCode.value)
      && (!Truthy(r.statusCode) ==> row[2] == NA)
      && (Truthy(r.origin) ==> row[3] == r.origin.value)
      && (!Truthy(r.origin) ==> row[3] == NA)
      && (Truthy(r.destination) ==> row[4] == r.destination.value)
      && (!Truthy(r.destination) ==> row[4] == NA)
  {
  }

  /** The simple view is the detailed one without the origin and destination
      columns, for the header and for every row. */
  lemma SimpleIsDetailedProjected(r: TrackingRecord, stamp: int -> string)
    ensures Header(false) == Header(true)[..3] + [Header(true)[5]]
    ensures Row(r, false, stamp) == Row(r, true, stamp)[..3] + [Row(r, true, stamp)[5]]
  {
  }

  /** The first event's timestamp wins over `last_checked`. */
  lemma LastEventDateFromEvents(r: TrackingRecord, stamp: int -> string)
    requires r.trackingDetails.Some? && |r.trackingDetails.value.events| > 0
    requires TruthyField(r.trackingDetails.value.events[0].timestamp)
    ensures LastEventDate(r, stamp) == r.trackingDetails.value.events[0].timestamp.value
    ensures LastEventDate(r, stamp) != []
  {
  }

  /** A record without a usable event timestamp reports when it was last
      checked, and 'N/A' only when it never was. */
  lemma LastEventDateFallback(r: TrackingRecord, stamp: int -> string)
    requires r.trackingDetails.None? || |r.trackingDetails.value.events| == 0
      || !TruthyField(r.trackingDetails.value.events[0].timestamp)
    ensures r.lastChecked.Some? ==> LastEventDate(r, stamp) == stamp(r.lastChecked.value)
    ensures r.lastChecked.None? ==> LastEventDate(r, stamp) == NA
  {
  }

  /** After a repository update that leaves the tracking details without
      events, the report shows the time of that update. */
  lemma LastEventDateAfterUpdate(r: TrackingRecord, p: Patch, now: int, stamp: int -> string)
    requires p.trackingDetails.Some? ==>
      p.trackingDetails.value.None? || p.trackingDetails.value.value.events == []
    requires p.trackingDetails.None? ==>
      r.trackingDetails.None? || r.trackingDetails.value.events == []
    ensures LastEventDate(Updated(r, p, now), stamp) == stamp(now)
  {
    UpdatedFields(r, p, now);
  }
}
