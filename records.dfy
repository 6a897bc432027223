/** The stored entities: a tracking record (one row of `tracking_records`),
    the JSON tracking details it carries, the dictionaries the repositories
    are handed to create or update a record, and the per-day API usage
    counter. Timestamps are whole seconds. */
module Records {
  import opened Common

  /** One DHL scan event as stored inside the tracking details. Only the
      keys the system reads are modelled. */
  datatype Event = Event(timestamp: Field<string>, description: Field<string>)

  /** The `tracking_details` JSON object written for a successful lookup. */
  datatype Details = Details(
    service: Option<string>,
    estimatedDelivery: Option<string>,
    events: seq<Event>,
    pieces: Option<seq<string>>)

  /** A row of `tracking_records`, keyed by its tracking number. */
  datatype TrackingRecord = TrackingRecord(
    trackingNumber: string,
    binId: Option<string>,
    statusCode: Option<string>,
    status: Option<string>,
    origin: Option<string>,
    destination: Option<string>,
    trackingDetails: Option<Details>,
    batchId: Option<string>,
    isSuccessful: bool,
    errorMessage: Option<string>,
    createdAt: int,
    updatedAt: Option<int>,
    lastChecked: Option<int>,
    binClosureEmailSent: bool,
    binClosureEmailSentAt: Option<int>)

  /** The dictionary handed to `create`, `update` or `upsert`: for each
      column, `None` when the key is absent and `Some(v)` when the key is
      present with value `v` (which may itself be `None`, a SQL NULL). */
  datatype Patch = Patch(
    trackingNumber: Option<string>,
    binId: Option<Option<string>>,
    statusCode: Option<Option<string>>,
    status: Option<Option<string>>,
    origin: Option<Option<string>>,
    destination: Option<Option<string>>,
    trackingDetails: Option<Option<Details>>,
    batchId: Option<Option<string>>,
    isSuccessful: Option<bool>,
    errorMessage: Option<Option<string>>,
    lastChecked: Option<Option<int>>)

  const EmptyPatch := Patch(None, None, None, None, None, None, None, None, None, None, None)

  /** `{'bin_id': b}` */
  function BinPatch(b: Option<string>): Patch {
    EmptyPatch.(binId := Some(b))
  }

  function Pick<T>(current: T, given: Option<T>): T {
    if given.Some? then given.value else current
  }

  /** Whether the dictionary supplies a key. */
  predicate Keyed(p: Patch) {
    p.trackingNumber.Some?
  }

  /** `setattr(record, key, value)` for every key of the dictionary. */
  function ApplyPatch(r: TrackingRecord, p: Patch): (r': TrackingRecord)
    ensures p.trackingNumber.None? ==> r'.trackingNumber == r.trackingNumber
    ensures p.binId.None? ==> r'.binId == r.binId
    ensures p.lastChecked.None? ==> r'.lastChecked == r.lastChecked
    ensures r'.createdAt == r.createdAt && r'.updatedAt == r.updatedAt
    ensures r'.binClosureEmailSent == r.binClosureEmailSent
    ensures r'.binClosureEmailSentAt == r.binClosureEmailSentAt
  {
    r.(trackingNumber := Pick(r.trackingNumber, p.trackingNumber),
       binId := Pick(r.binId, p.binId),
       statusCode := Pick(r.statusCode, p.statusCode),
       status := Pick(r.status, p.status),
       origin := Pick(r.origin, p.origin),
       destination := Pick(r.destination, p.destination),
       trackingDetails := Pick(r.trackingDetails, p.trackingDetails),
       batchId := Pick(r.batchId, p.batchId),
       isSuccessful := Pick(r.isSuccessful, p.isSuccessful),
       errorMessage := Pick(r.errorMessage, p.errorMessage),
       lastChecked := Pick(r.lastChecked, p.lastChecked))
  }

  /** What `update` leaves in the row: every supplied key set (a supplied
      `last_checked` is overwritten), then `updated_at` and `last_checked`
      set to the current time. */
  function Updated(r: TrackingRecord, p: Patch, now: int): TrackingRecord {
    ApplyPatch(r, p).(updatedAt := Some(now), lastChecked := Some(now))
  }

  /** The row `TrackingRecord(**d)` inserts: supplied keys, column defaults
      for the others (`is_successful` false, `created_at` the server's now,
      `updated_at` unset). */
  function Created(p: Patch, now: int): TrackingRecord
    requires Keyed(p)
  {
    ApplyPatch(TrackingRecord(p.trackingNumber.value, None, None, None, None, None, None, None,
                              false, None, now, None, None, false, None), p)
  }

  /** An update touches exactly the supplied keys and the two timestamps. */
  lemma UpdatedFields(r: TrackingRecord, p: Patch, now: int)
    ensures var u := Updated(r, p, now);
      && u.lastChecked == Some(now) && u.updatedAt == Some(now)
      && (p.binId.Some? ==> u.binId == p.binId.value)
      && (p.binId.None? ==> u.binId == r.binId)
      && (p.statusCode.Some? ==> u.statusCode == p.statusCode.value)
      && (p.statusCode.None? ==> u.statusCode == r.statusCode)
      && (p.isSuccessful.Some? ==> u.isSuccessful == p.isSuccessful.value)
      && (p.isSuccessful.None? ==> u.isSuccessful == r.isSuccessful)
      && (p.errorMessage.Some? ==> u.errorMessage == p.errorMessage.value)
      && (p.errorMessage.None? ==> u.errorMessage == r.errorMessage)
      && (p.trackingDetails.None? ==> u.trackingDetails == r.trackingDetails)
      && (p.batchId.None? ==> u.batchId == r.batchId)
      && u.createdAt == r.createdAt
  {
  }

  /** Applying the same update twice at the same instant is the same as
      applying it once. */
  lemma UpdatedIdempotent(r: TrackingRecord, p: Patch, now: int)
    ensures Updated(Updated(r, p, now), p, now) == Updated(r, p, now)
  {
  }

  /** A day's row of `api_usage`. */
  datatype Usage = Usage(
    date: string,
    requestCount: nat,
    successfulRequests: nat,
    failedRequests: nat,
    createdAt: int,
    updatedAt: Option<int>)
}
