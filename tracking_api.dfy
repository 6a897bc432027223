/** The decision logic of the tracking routes: the single lookup with its
    quota check and one-hour cache, the quota gates in front of the batch
    processor for pasted text and uploaded files, the binID merge before an
    export, the stored-history lookup and the download of a report. A route
    either answers or raises an `HTTPException`; its session is the two
    repositories it is handed. */
module TrackingApi {
  import opened Common
  import opened Config
  import opened Records
  import opened Runtime
  import opened DhlService
  import opened Repositories
  import opened BatchProcessor
  import opened Schemas
  import opened FileProcessor
  import opened ExportService

  /** What a route does: answer with a value, or raise an `HTTPException`. */
  datatype Reply<T> = Replied(value: T) | Raised(error: HttpError)

  const InvalidNumberMessage := "Invalid tracking number. Must be at least 5 characters."
  const DailyLimitMessage := "Daily API limit reached. Please try again tomorrow."
  const NoFileDataMessage := "No valid tracking data found in file"
  const NoRecordsMessage := "No tracking records found"
  const NotInDatabaseMessage := "Tracking number not found in database"
  const InvalidFilenameMessage := "Invalid filename"
  const FileNotFoundMessage := "File not found. Use /api/v1/tracking/exports/recent to see available files."

  /** The number a route looks up: stripped and upper-cased. */
  function Normalized(tn: string): string {
    Upper(Strip(tn))
  }

  // ---------------------------------------------------------------------
  // GET /single/{tracking_number}

  /** One call of the single-lookup route: its reply, the two tables after
      it, and whether it asked DHL. */
  datatype SingleRun = SingleRun(
    reply: Reply<TrackingRecord>,
    store: map<string, TrackingRecord>,
    days: map<string, Usage>,
    called: bool)

  /** A fresh stored record as the route returns it: with the given bin
      written into it (an `update`, which also refreshes its timestamps)
      when a bin is given and differs from the stored one. */
  function CachedRecord(r: TrackingRecord, bin: Option<string>, now: int): TrackingRecord {
    if Truthy(bin) && bin != r.binId then Updated(r, BinPatch(bin), now) else r
  }

  /** The result of the DHL lookup for `t`, after the requests `calls0`. */
  function LookupResult(transport: (string, nat) -> Response, calls0: seq<string>,
                        t: string, bin: Option<string>, now: int): TrackResult
  {
    TrackOutcome(transport(t, Count(calls0, t)), t, bin, now)
  }

  /** `track_single_shipment(tn, bin)` against the tables `store0` and
      `days0`, after the requests `calls0`: the number is checked, then the
      quota, then the cache; a fresh stored record is returned, otherwise
      DHL is asked once, the result upserted and the request counted. */
  function TrackSingleSpec(transport: (string, nat) -> Response, calls0: seq<string>,
                           store0: map<string, TrackingRecord>, days0: map<string, Usage>,
                           tn: string, bin: Option<string>, today: string, now: int): SingleRun
  {
    var t := Normalized(tn);
    if |t| < 5 then SingleRun(Raised(HttpError(400, InvalidNumberMessage)), store0, days0, false)
    else TrackValidSpec(transport, calls0, store0, days0, t, bin, today, now)
  }

  /** The route once the number `t` has passed its check. */
  function TrackValidSpec(transport: (string, nat) -> Response, calls0: seq<string>,
                          store0: map<string, TrackingRecord>, days0: map<string, Usage>,
                          t: string, bin: Option<string>, today: string, now: int): SingleRun
  {
    var days1 := WithToday(days0, today, now);
    if Used(days0, today) >= DhlDailyLimit then
      SingleRun(Raised(HttpError(429, DailyLimitMessage)), store0, days1, false)
    else if t in store0 && Fresh(store0[t], now) then
      var u := CachedRecord(store0[t], bin, now);
      SingleRun(Replied(u), store0[t := u], days1, false)
    else
      var result := LookupResult(transport, calls0, t, bin, now);
      var store1 := UpsertStore(store0, AsPatch(result, None), now);
      SingleRun(Replied(store1[t]), store1, Bump(days1, today, result.IsSuccessful(), now), true)
  }

  /** The cache hit of lines 94-98. */
  method AnswerFromCache(t: string, bin: Option<string>, repo: TrackingRepository, now: int)
    returns (record: TrackingRecord)
    requires repo.Valid() && t in repo.records
    modifies repo
    ensures repo.Valid()
    ensures record == CachedRecord(old(repo.records)[t], bin, now)
    ensures repo.records == old(repo.records)[t := record]
  {
    record := repo.records[t];
    if Truthy(bin) && bin != record.binId {
      var _ := repo.Update(t, BinPatch(bin), now);
      record := Updated(record, BinPatch(bin), now);
      assert (old(repo.records) - {t})[t := record] == old(repo.records)[t := record];
    }
  }

  /** The miss of lines 100-104: one lookup, its upsert, one count. */
  method FetchAndStore(t: string, bin: Option<string>, dhl: DhlApiService,
                       repo: TrackingRepository, usage: ApiUsageRepository, today: string, now: int)
    returns (record: TrackingRecord)
    requires repo.Valid()
    modifies dhl.env, repo, usage
    ensures repo.Valid()
    ensures var result := LookupResult(dhl.env.transport, old(dhl.env.calls), t, bin, now);
      && repo.records == UpsertStore(old(repo.records), AsPatch(result, None), now)
      && record == repo.records[t]
      && usage.days == Bump(old(usage.days), today, result.IsSuccessful(), now)
    ensures dhl.env.calls == old(dhl.env.calls) + [t]
    ensures dhl.env.trace == old(dhl.env.trace) + [Called(t)]
  {
    var result := dhl.TrackSingle(t, bin, now);
    var stored := repo.Upsert(AsPatch(result, None), now);
    var _ := usage.IncrementUsage(result.IsSuccessful(), today, now);
    record := stored.value;
  }

  /** Lines 80-104: the quota, then the cache, then the lookup. */
  method TrackValid(t: string, bin: Option<string>, dhl: DhlApiService,
                    repo: TrackingRepository, usage: ApiUsageRepository, today: string, now: int)
    returns (r: Reply<TrackingRecord>)
    requires repo.Valid()
    modifies dhl.env, repo, usage
    ensures repo.Valid()
    ensures var run := TrackValidSpec(dhl.env.transport, old(dhl.env.calls), old(repo.records),
                                      old(usage.days), t, bin, today, now);
      && r == run.reply && repo.records == run.store && usage.days == run.days
      && dhl.env.calls == old(dhl.env.calls) + (if run.called then [t] else [])
      && dhl.env.trace == old(dhl.env.trace) + (if run.called then [Called(t)] else [])
  {
    var allowed := usage.CanMakeRequest(DhlDailyLimit, today, now);
    if !allowed {
      return Raised(HttpError(429, DailyLimitMessage));
    }
    var cached := IsCached(t, repo, now);
    if cached {
      var record := AnswerFromCache(t, bin, repo, now);
      return Replied(record);
    }
    var record := FetchAndStore(t, bin, dhl, repo, usage, today, now);
    r := Replied(record);
  }

  /** Lines 91-93: whether `t` is stored and was checked less than an hour
      ago (the age in seconds taken modulo a day, as `timedelta.seconds`
      does). */
  method IsCached(t: string, repo: TrackingRepository, now: int) returns (cached: bool)
    requires repo.Valid()
    ensures cached <==> t in repo.records && Fresh(repo.records[t], now)
  {
    var existing := repo.GetByTrackingNumber(t);
    cached := false;
    if existing.Some? && existing.value.lastChecked.Some? {
      var age := (now - existing.value.lastChecked.value) % 86400;
      cached := age < 3600;
    }
  }

  /** `track_single_shipment` (lines 71-104). `HTTPException`s pass
      through; no other exception can arise here, so the handler for them
      (lines 108-110) is never reached. */
  method TrackSingleShipment(tn: string, bin: Option<string>, dhl: DhlApiService,
                             repo: TrackingRepository, usage: ApiUsageRepository, today: string, now: int)
    returns (r: Reply<TrackingRecord>)
    requires repo.Valid()
    modifies dhl.env, repo, usage
    ensures repo.Valid()
    ensures var run := TrackSingleSpec(dhl.env.transport, old(dhl.env.calls), old(repo.records),
                                       old(usage.days), tn, bin, today, now);
      && r == run.reply && repo.records == run.store && usage.days == run.days
      && dhl.env.calls == old(dhl.env.calls) + (if run.called then [Normalized(tn)] else [])
      && dhl.env.trace == old(dhl.env.trace) + (if run.called then [Called(Normalized(tn))] else [])
  {
    var t := Upper(Strip(tn));
    if t == [] || |t| < 5 {
      return Raised(HttpError(400, InvalidNumberMessage));
    }
    r := TrackValid(t, bin, dhl, repo, usage, today, now);
  }

  /** A number shorter than five characters once stripped is refused with a
      400 before anything is read or counted; every other number passes
      that check. */
  lemma SingleValidation(transport: (string, nat) -> Response, calls0: seq<string>,
                         store0: map<string, TrackingRecord>, days0: map<string, Usage>,
                         tn: string, bin: Option<string>, today: string, now: int)
    ensures var run := TrackSingleSpec(transport, calls0, store0, days0, tn, bin, today, now);
      && (run.reply == Raised(HttpError(400, InvalidNumberMessage)) <==> |Normalized(tn)| < 5)
      && (|Normalized(tn)| < 5 ==> run.store == store0 && run.days == days0 && !run.called)
  {
  }

  /** The quota is checked before the cache: with no requests left a 429 is
      raised even when a fresh record is stored, and DHL is not asked. */
  lemma SingleQuotaBeforeCache(transport: (string, nat) -> Response, calls0: seq<string>,
                               store0: map<string, TrackingRecord>, days0: map<string, Usage>,
                               tn: string, bin: Option<string>, today: string, now: int)
    requires |Normalized(tn)| >= 5 && Used(days0, today) >= DhlDailyLimit
    ensures var run := TrackSingleSpec(transport, calls0, store0, days0, tn, bin, today, now);
      && run.reply == Raised(HttpError(429, DailyLimitMessage))
      && run.store == store0 && !run.called && Used(run.days, today) == Used(days0, today)
  {
  }

  /** A record checked less than an hour ago is answered from the table:
      no request, no count; its bin becomes the given one when one is given
      and nothing else of the table changes. */
  lemma SingleCacheHit(transport: (string, nat) -> Response, calls0: seq<string>,
                       store0: map<string, TrackingRecord>, days0: map<string, Usage>,
                       tn: string, bin: Option<string>, today: string, now: int)
    requires StoreValid(store0)
    requires |Normalized(tn)| >= 5 && Used(days0, today) < DhlDailyLimit
    requires Normalized(tn) in store0 && Fresh(store0[Normalized(tn)], now)
    ensures var run := TrackSingleSpec(transport, calls0, store0, days0, tn, bin, today, now);
      && var t := Normalized(tn);
      && !run.called && run.days == WithToday(days0, today, now)
      && run.reply.Replied? && run.reply.value.trackingNumber == t
      && run.reply.value.binId == (if Truthy(bin) then bin else store0[t].binId)
      && run.store == store0[t := run.reply.value]
  {
    var t := Normalized(tn);
    if Truthy(bin) && bin != store0[t].binId {
      UpdatedFields(store0[t], BinPatch(bin), now);
    }
    assert TrackSingleSpec(transport, calls0, store0, days0, tn, bin, today, now).reply
      == Replied(CachedRecord(store0[t], bin, now));
  }

  /** Otherwise DHL is asked exactly once; the answer is stored under the
      number, with the given bin (a lookup without a bin clears the stored
      one), and one request is counted with the lookup's outcome. */
  lemma SingleMiss(transport: (string, nat) -> Response, calls0: seq<string>,
                   store0: map<string, TrackingRecord>, days0: map<string, Usage>,
                   tn: string, bin: Option<string>, today: string, now: int)
    requires StoreValid(store0)
    requires |Normalized(tn)| >= 5 && Used(days0, today) < DhlDailyLimit
    requires !(Normalized(tn) in store0 && Fresh(store0[Normalized(tn)], now))
    ensures var run := TrackSingleSpec(transport, calls0, store0, days0, tn, bin, today, now);
      && var t := Normalized(tn);
      && var result := LookupResult(transport, calls0, t, bin, now);
      && run.called && run.store.Keys == store0.Keys + {t}
      && run.reply == Replied(run.store[t])
      && run.reply.value.trackingNumber == t && run.reply.value.binId == bin
      && run.reply.value.isSuccessful == result.IsSuccessful()
      && Used(run.days, today) == Used(days0, today) + 1
      && (forall w :: w in store0 && w != t ==> run.store[w] == store0[w])
  {
    var t := Normalized(tn);
    var result := LookupResult(transport, calls0, t, bin, now);
    TrackOutcomeFacts(transport(t, Count(calls0, t)), t, bin, now);
    var p := AsPatch(result, None);
    if t in store0 {
      UpdatedFields(store0[t], p, now);
    }
  }

  // ---------------------------------------------------------------------
  // POST /bulk and POST /upload

  /** `BulkTrackingResponse`; `processing_time` is left out. */
  datatype BulkResponse = BulkResponse(
    totalRequested: nat,
    successful: nat,
    failed: nat,
    results: seq<TrackingRecord>,
    batchId: Option<string>)

  /** The response built from `process_batch`'s dictionary, with its batch
      id (lines 157-164). */
  function BulkResponseOf(r: BatchResult): (b: BulkResponse)
    ensures b.batchId == Some(r.batchId)
    ensures b.totalRequested == r.totalRequested && b.successful == r.successful && b.failed == r.failed
    ensures b.results == r.results
  {
    BulkResponse(r.totalRequested, r.successful, r.failed, r.results, Some(r.batchId))
  }

  /** The upload response as line 217 builds it: `results.get("batch_ids",
      [None])[0]` reads a key the dictionary never has, so the id is always
      `None`. */
  function UploadResponseAsWritten(r: BatchResult): BulkResponse {
    BulkResponse(r.totalRequested, r.successful, r.failed, r.results, None)
  }

  /** Every upload response as written loses the batch id that the batch
      processor did assign; otherwise it is the bulk route's response. */
  lemma UploadBatchIdLost(r: BatchResult)
    ensures UploadResponseAsWritten(r).batchId.None?
    ensures UploadResponseAsWritten(r).batchId != BulkResponseOf(r).batchId
    ensures UploadResponseAsWritten(r) == BulkResponseOf(r).(batchId := None)
  {
  }

  /** One call of /bulk or /upload: the reply, the two tables after it, and
      the requests made (all of them) and the trace the call added. */
  datatype RouteRun = RouteRun(
    reply: Reply<BulkResponse>,
    store: map<string, TrackingRecord>,
    days: map<string, Usage>,
    calls: seq<string>,
    trace: seq<TraceEvent>)

  /** The quota gate of lines 144-164 and 199-219: nothing is processed when
      no request remains today; otherwise the batch processor runs. */
  function QuotaGatedSpec(look: Lookup, calls0: seq<string>, store0: map<string, TrackingRecord>,
                          days0: map<string, Usage>, data: seq<Pair>, batchId: string,
                          today: string, now: int): RouteRun
  {
    if Remaining(days0, today, DhlDailyLimit) == 0 then
      RouteRun(Raised(HttpError(429, DailyLimitMessage)), store0, WithToday(days0, today, now), calls0, [])
    else
      var run := ProcessBatchSpec(look, calls0, store0, WithToday(days0, today, now), data, batchId, today, now);
      RouteRun(Replied(BulkResponseOf(run.result)), run.store, run.days, run.calls, run.trace)
  }

  /** Python's `AttributeError` message for reading `tracking_data` off a
      request model that does not declare it. */
  function MissingAttribute(model: string): string {
    "'" + model + "' object has no attribute 'tracking_data'"
  }

  /** /bulk as written: the body is validated (a refused text is a 422 with
      the validator's message), then line 142 reads `request.tracking_data`,
      which `PlainTextBulkRequest` does not declare (the parsed pairs are
      left in `tracking_numbers_text`); the `AttributeError` becomes a 500
      before the quota is looked at. */
  function BulkAsWritten(v: string): Reply<BulkResponse> {
    match BulkPlainText(v)
    case Err(e) => Raised(HttpError(422, e))
    case Ok(_) => Raised(HttpError(500, "Internal server error: " + MissingAttribute("PlainTextBulkRequest")))
  }

  /** /bulk with the parsed pairs read from the field that holds them. */
  function BulkRouteSpec(look: Lookup, calls0: seq<string>, store0: map<string, TrackingRecord>,
                         days0: map<string, Usage>, v: string, batchId: string,
                         today: string, now: int): RouteRun
  {
    match BulkPlainText(v)
    case Err(e) => RouteRun(Raised(HttpError(422, e)), store0, days0, calls0, [])
    case Ok(data) => QuotaGatedSpec(look, calls0, store0, days0, data, batchId, today, now)
  }

  /** /bulk as written never tracks anything: every text is answered with an
      error, a valid one with a 500, where the route as intended runs the
      batch whenever a request remains. */
  lemma BulkAsWrittenNeverTracks(look: Lookup, calls0: seq<string>, store0: map<string, TrackingRecord>,
                                 days0: map<string, Usage>, v: string, batchId: string, today: string, now: int)
    ensures BulkAsWritten(v).Raised?
    ensures BulkPlainText(v).Ok? ==> BulkAsWritten(v).error.statusCode == 500
    ensures BulkPlainText(v).Ok? && Remaining(days0, today, DhlDailyLimit) > 0 ==>
      BulkRouteSpec(look, calls0, store0, days0, v, batchId, today, now).reply.Replied?
  {
  }

  /** With no request left today, /bulk and /upload answer 429 and track
      nothing: no request, no table change beyond today's usage row. */
  lemma QuotaGateBlocks(look: Lookup, calls0: seq<string>, store0: map<string, TrackingRecord>,
                        days0: map<string, Usage>, data: seq<Pair>, batchId: string, today: string, now: int)
    requires Used(days0, today) >= DhlDailyLimit
    ensures var run := QuotaGatedSpec(look, calls0, store0, days0, data, batchId, today, now);
      && run.reply == Raised(HttpError(429, DailyLimitMessage))
      && run.store == store0 && run.calls == calls0 && run.trace == []
      && Used(run.days, today) == Used(days0, today)
  {
  }

  /** Past the gate the route answers with the batch processor's own
      counts, for the pairs the quota admits, under the batch's id. */
  lemma QuotaGatePasses(look: Lookup, calls0: seq<string>, store0: map<string, TrackingRecord>,
                        days0: map<string, Usage>, data: seq<Pair>, batchId: string, today: string, now: int)
    requires Used(days0, today) < DhlDailyLimit
    ensures var run := QuotaGatedSpec(look, calls0, store0, days0, data, batchId, today, now);
      && var batch := ProcessBatchSpec(look, calls0, store0, WithToday(days0, today, now), data, batchId, today, now);
      && run.reply == Replied(BulkResponseOf(batch.result))
      && run.reply.value.batchId == Some(batchId)
      && run.reply.value.totalRequested == Min(|data|, Remaining(days0, today, DhlDailyLimit))
  {
  }

  /** The gate and the batch run, with `process_batch` (/bulk) or
      `process_large_batch` (/upload), which runs the same. */
  method QuotaGated(data: seq<Pair>, batchId: string, large: bool, batch: BatchProcessor,
                    repo: TrackingRepository, usage: ApiUsageRepository, today: string, now: int)
    returns (r: Reply<BulkResponse>)
    requires repo.Valid()
    modifies batch.dhl.env, repo, usage
    ensures repo.Valid()
    ensures var run := QuotaGatedSpec(TrackSingleOf(batch.dhl.env.transport, now), old(batch.dhl.env.calls),
                                      old(repo.records), old(usage.days), data, batchId, today, now);
      && r == run.reply && repo.records == run.store && usage.days == run.days
      && batch.dhl.env.calls == run.calls && batch.dhl.env.trace == old(batch.dhl.env.trace) + run.trace
  {
    var remaining := usage.GetRemainingRequests(DhlDailyLimit, today, now);
    if remaining <= 0 {
      return Raised(HttpError(429, DailyLimitMessage));
    }
    var result;
    if large {
      result := batch.ProcessLargeBatch(data, batchId, repo, usage, today, now);
    } else {
      result := batch.ProcessBatch(data, batchId, repo, usage, today, now);
    }
    r := Replied(BulkResponseOf(result));
  }

  /** `track_bulk_shipments` with the parsed pairs read from
      `tracking_numbers_text`, where the validator leaves them. */
  method TrackBulk(v: string, batchId: string, batch: BatchProcessor,
                   repo: TrackingRepository, usage: ApiUsageRepository, today: string, now: int)
    returns (r: Reply<BulkResponse>)
    requires repo.Valid()
    modifies batch.dhl.env, repo, usage
    ensures repo.Valid()
    ensures var run := BulkRouteSpec(TrackSingleOf(batch.dhl.env.transport, now), old(batch.dhl.env.calls),
                                     old(repo.records), old(usage.days), v, batchId, today, now);
      && r == run.reply && repo.records == run.store && usage.days == run.days
      && batch.dhl.env.calls == run.calls && batch.dhl.env.trace == old(batch.dhl.env.trace) + run.trace
  {
    var parsed := ParseBulkText(v);
    if parsed.Err? {
      return Raised(HttpError(422, parsed.error));
    }
    r := QuotaGated(parsed.value, batchId, false, batch, repo, usage, today, now);
  }

  /** `upload_and_track` after `process_file` ended in `processed`: its
      `HTTPException` passes through, another error becomes a 500, an
      empty result is a 400, then the quota gate and the batch run. */
  function UploadFrom(look: Lookup, calls0: seq<string>, store0: map<string, TrackingRecord>,
                      days0: map<string, Usage>, processed: Processed, batchId: string,
                      today: string, now: int): RouteRun
  {
    match processed
    case Rejected(e) => RouteRun(Raised(e), store0, days0, calls0, [])
    case Failed(m) => RouteRun(Raised(HttpError(500, "Internal server error: " + m)), store0, days0, calls0, [])
    case Accepted(data) =>
      if data == [] then RouteRun(Raised(HttpError(400, NoFileDataMessage)), store0, days0, calls0, [])
      else QuotaGatedSpec(look, calls0, store0, days0, data, batchId, today, now)
  }

  /** `upload_and_track` (lines 188-225), reporting the batch id. */
  method UploadAndTrack(f: Upload, stamp: string, saveError: Option<string>, read: Result<Sheet>,
                        batchId: string, batch: BatchProcessor,
                        repo: TrackingRepository, usage: ApiUsageRepository, today: string, now: int)
    returns (r: Reply<BulkResponse>)
    requires read.Ok? ==> WellFormed(read.value)
    requires repo.Valid()
    modifies batch.dhl.env, repo, usage
    ensures repo.Valid()
    ensures var run := UploadFrom(TrackSingleOf(batch.dhl.env.transport, now), old(batch.dhl.env.calls),
                                  old(repo.records), old(usage.days),
                                  ProcessFileSpec(f, stamp, saveError, read), batchId, today, now);
      && r == run.reply && repo.records == run.store && usage.days == run.days
      && batch.dhl.env.calls == run.calls && batch.dhl.env.trace == old(batch.dhl.env.trace) + run.trace
  {
    var processed := ProcessFile(f, stamp, saveError, read);
    r := TrackProcessed(processed, batchId, batch, repo, usage, today, now);
  }

  /** Lines 191-219 for what `process_file` returned. */
  method TrackProcessed(processed: Processed, batchId: string, batch: BatchProcessor,
                        repo: TrackingRepository, usage: ApiUsageRepository, today: string, now: int)
    returns (r: Reply<BulkResponse>)
    requires repo.Valid()
    modifies batch.dhl.env, repo, usage
    ensures repo.Valid()
    ensures var run := UploadFrom(TrackSingleOf(batch.dhl.env.transport, now), old(batch.dhl.env.calls),
                                  old(repo.records), old(usage.days), processed, batchId, today, now);
      && r == run.reply && repo.records == run.store && usage.days == run.days
      && batch.dhl.env.calls == run.calls && batch.dhl.env.trace == old(batch.dhl.env.trace) + run.trace
  {
    match processed {
      case Rejected(e) =>
        return Raised(e);
      case Failed(m) =>
        return Raised(HttpError(500, "Internal server error: " + m));
      case Accepted(data) =>
        if data == [] {
          return Raised(HttpError(400, NoFileDataMessage));
        }
        r := QuotaGated(data, batchId, true, batch, repo, usage, today, now);
    }
  }

  /** A file the file check refuses is answered with that check's error,
      and nothing is tracked. */
  lemma UploadRejectsBadFile(look: Lookup, calls0: seq<string>, store0: map<string, TrackingRecord>,
                             days0: map<string, Usage>, f: Upload, stamp: string, saveError: Option<string>,
                             read: Result<Sheet>, batchId: string, today: string, now: int)
    requires read.Ok? ==> WellFormed(read.value)
    requires ValidateFile(f).Some?
    ensures var run := UploadFrom(look, calls0, store0, days0, ProcessFileSpec(f, stamp, saveError, read),
                                  batchId, today, now);
      && run.reply == Raised(ValidateFile(f).value)
      && run.store == store0 && run.days == days0 && run.calls == calls0
  {
    assert ProcessFileSpec(f, stamp, saveError, read) == Rejected(ValidateFile(f).value);
  }

  /** An upload is answered only for a file that yielded at least one
      waybill, and the answer reports the batch's id. */
  lemma UploadAnsweredOnlyWithData(look: Lookup, calls0: seq<string>, store0: map<string, TrackingRecord>,
                                   days0: map<string, Usage>, processed: Processed, batchId: string,
                                   today: string, now: int)
    ensures var run := UploadFrom(look, calls0, store0, days0, processed, batchId, today, now);
      run.reply.Replied? ==>
        && processed.Accepted? && processed.data != []
        && run.reply.value.batchId == Some(batchId)
        && run.reply.value.totalRequested <= |processed.data|
  {
  }

  // ---------------------------------------------------------------------
  // POST /export/text

  /** /export/text as written: it reads `request.tracking_data`, a field
      `PlainTextExportRequest` does not have, so every accepted text ends in
      the route's catch-all 500. */
  function ExportAsWritten(v: string): Reply<ExportReply> {
    match ParsePlainText(v, false)
    case Err(e) => Raised(HttpError(422, e))
    case Ok(_) => Raised(HttpError(500, "Export failed: " + MissingAttribute("PlainTextExportRequest")))
  }

  /** /export/text as written never produces a report, whatever the text and
      the table hold. */
  lemma ExportAsWrittenNeverExports(v: string)
    ensures ExportAsWritten(v).Raised?
    ensures ExportAsWritten(v).error.statusCode == 500 <==> ParsePlainText(v, false).Ok?
    ensures ParsePlainText(v, false).Err? ==>
      ExportAsWritten(v) == Raised(HttpError(422, ParsePlainText(v, false).error))
  {
  }

  /** One turn of the merge loop (lines 267-273): a given bin is written to
      a stored record that has none or another one. */
  function MergeStep(store: map<string, TrackingRecord>, p: Pair, now: int): map<string, TrackingRecord> {
    if Truthy(p.1) && p.0 in store && (!Truthy(store[p.0].binId) || store[p.0].binId != p.1)
    then store[p.0 := Updated(store[p.0], BinPatch(p.1), now)]
    else store
  }

  /** The table after the merge loop over `data`. */
  function MergeBins(store: map<string, TrackingRecord>, data: seq<Pair>, now: int): map<string, TrackingRecord> {
    if data == [] then store
    else MergeStep(MergeBins(store, data[..|data| - 1], now), data[|data| - 1], now)
  }

  /** The last non-empty bin `data` gives for `w`. */
  function LastBin(data: seq<Pair>, w: string): Option<string> {
    if data == [] then None
    else if data[|data| - 1].0 == w && Truthy(data[|data| - 1].1) then data[|data| - 1].1
    else LastBin(data[..|data| - 1], w)
  }

  /** Writing a bin touches the bin and the two timestamps only, and a
      second write replaces the first. */
  lemma BinWrites(r: TrackingRecord, b1: Option<string>, b2: Option<string>, now: int)
    ensures Updated(r, BinPatch(b1), now).binId == b1
    ensures Updated(r, BinPatch(b1), now).trackingNumber == r.trackingNumber
    ensures Updated(Updated(r, BinPatch(b1), now), BinPatch(b2), now) == Updated(r, BinPatch(b2), now)
  {
  }

  /** The merge adds and removes no row and keeps every row under its own
      number. */
  lemma {:induction false} MergeBinsKeys(store: map<string, TrackingRecord>, data: seq<Pair>, now: int)
    ensures MergeBins(store, data, now).Keys == store.Keys
    ensures StoreValid(store) ==> StoreValid(MergeBins(store, data, now))
  {
    if data != [] {
      var init := data[..|data| - 1];
      MergeBinsKeys(store, init, now);
      var m := MergeBins(store, init, now);
      var p := data[|data| - 1];
      if Truthy(p.1) && p.0 in m && (!Truthy(m[p.0].binId) || m[p.0].binId != p.1) {
        BinWrites(m[p.0], p.1, p.1, now);
      }
    }
  }

  /** After the merge a stored record carries the last bin given for it (or
      its own when none is given), and is the stored row itself or that row
      with this bin written into it. */
  lemma {:induction false} MergeBinsWritten(store: map<string, TrackingRecord>, data: seq<Pair>,
                                            now: int, w: string)
    requires w in store
    ensures w in MergeBins(store, data, now)
    ensures var m := MergeBins(store, data, now)[w];
      && m.binId == (if LastBin(data, w).Some? then LastBin(data, w) else store[w].binId)
      && (m == store[w] || m == Updated(store[w], BinPatch(m.binId), now))
  {
    MergeBinsKeys(store, data, now);
    if data != [] {
      var init := data[..|data| - 1];
      MergeBinsWritten(store, init, now, w);
      MergeBinsKeys(store, init, now);
      var m := MergeBins(store, init, now);
      var p := data[|data| - 1];
      if p.0 == w && Truthy(p.1) && (!Truthy(m[w].binId) || m[w].binId != p.1) {
        BinWrites(store[w], m[w].binId, p.1, now);
      }
    }
  }

  /** A record whose every given bin is empty or already its own is left
      exactly as it was; so is every record `data` does not name. */
  lemma {:induction false} MergeBinsUntouched(store: map<string, TrackingRecord>, data: seq<Pair>,
                                              now: int, w: string)
    requires w in store
    requires forall i :: 0 <= i < |data| && data[i].0 == w && Truthy(data[i].1) ==> data[i].1 == store[w].binId
    ensures w in MergeBins(store, data, now) && MergeBins(store, data, now)[w] == store[w]
  {
    MergeBinsKeys(store, data, now);
    if data != [] {
      var init := data[..|data| - 1];
      assert forall i :: 0 <= i < |init| ==> init[i] == data[i];
      MergeBinsUntouched(store, init, now, w);
    }
  }

  /** The reply of an export. */
  datatype ExportReply = ExportReply(
    filePath: string,
    fileName: string,
    downloadUrl: string,
    recordCount: nat,
    records: seq<TrackingRecord>,
    report: seq<seq<string>>)

  const DownloadPrefix := "/api/v1/tracking/download/"

  /** The records of `data` that `store` holds: each once, each the stored
      row, and every such number among them. */
  ghost predicate RecordsOf(rs: seq<TrackingRecord>, store: map<string, TrackingRecord>, data: seq<Pair>) {
    && (forall j :: 0 <= j < |rs| ==>
          rs[j].trackingNumber in Keys(data) && rs[j].trackingNumber in store && store[rs[j].trackingNumber] == rs[j])
    && (forall t :: t in Keys(data) && t in store ==> exists j :: 0 <= j < |rs| && rs[j].trackingNumber == t)
    && (forall i, j :: 0 <= i < j < |rs| ==> rs[i].trackingNumber != rs[j].trackingNumber)
  }

  /** A report made at `fileStamp` of the rows `store` holds for `data`. */
  ghost predicate ExportedFrom(e: ExportReply, store: map<string, TrackingRecord>, data: seq<Pair>,
                               format: ExportFormat, includeDetails: bool, fileStamp: string,
                               stamp: int -> string)
  {
    e.records != [] && RecordsOf(e.records, store, data) && ReportOf(e, format, includeDetails, fileStamp, stamp)
  }

  /** The file made at `fileStamp` holding the table of `e.records`, and the
      link to it. */
  ghost predicate ReportOf(e: ExportReply, format: ExportFormat, includeDetails: bool, fileStamp: string,
                           stamp: int -> string)
  {
    && e.filePath == ReportPath(fileStamp, format)
    && e.fileName == BaseName(e.filePath)
    && e.downloadUrl == DownloadPrefix + e.fileName
    && e.recordCount == |e.records|
    && |e.report| == |e.records| + 1 && e.report[0] == Header(includeDetails)
    && (forall j :: 0 <= j < |e.records| ==> e.report[j + 1] == Row(e.records[j], includeDetails, stamp))
  }

  /** `dict` shows the current row of every number it holds. */
  ghost predicate Mirrors(dict: map<string, TrackingRecord>, store: map<string, TrackingRecord>) {
    forall t :: t in dict ==> t in store && dict[t] == store[t]
  }

  /** `records_dict` holds exactly the numbers of `data` the table has. */
  ghost predicate KeysAgree(data: seq<Pair>, keys: set<string>, store: map<string, TrackingRecord>) {
    forall t :: t in Keys(data) ==> (t in keys <==> t in store)
  }

  /** One turn of the merge loop: `dict` is `records_dict`, whose objects
      are the rows the session updates, so it always shows the current row. */
  method MergeOne(data: seq<Pair>, i: nat, ghost store0: map<string, TrackingRecord>,
                  repo: TrackingRepository, dict0: map<string, TrackingRecord>, now: int)
    returns (dict: map<string, TrackingRecord>)
    requires i < |data| && repo.Valid() && Mirrors(dict0, repo.records)
    requires repo.records == MergeBins(store0, data[..i], now)
    requires KeysAgree(data, dict0.Keys, store0)
    modifies repo
    ensures repo.Valid() && repo.records == MergeBins(store0, data[..i + 1], now)
    ensures dict.Keys == dict0.Keys && Mirrors(dict, repo.records)
  {
    MergeBinsSnoc(store0, data, i, now);
    var p := data[i];
    assert p.0 in Keys(data);
    dict := dict0;
    if Truthy(p.1) && p.0 in dict {
      var record := dict[p.0];
      if !Truthy(record.binId) || record.binId != p.1 {
        BinWrites(record, p.1, p.1, now);
        var _ := repo.Update(p.0, BinPatch(p.1), now);
        assert repo.records == old(repo.records)[p.0 := Updated(record, BinPatch(p.1), now)];
        dict := dict[p.0 := repo.records[p.0]];
      }
    }
  }

  /** The merge loop (lines 267-273). */
  method MergeLoop(data: seq<Pair>, repo: TrackingRepository, dict0: map<string, TrackingRecord>, now: int)
    returns (dict: map<string, TrackingRecord>)
    requires repo.Valid() && Mirrors(dict0, repo.records)
    requires KeysAgree(data, dict0.Keys, repo.records)
    modifies repo
    ensures repo.Valid()
    ensures repo.records == MergeBins(old(repo.records), data, now)
    ensures dict.Keys == dict0.Keys && Mirrors(dict, repo.records)
  {
    dict := dict0;
    ghost var store0 := repo.records;
    var i := 0;
    while i < |data|
      invariant 0 <= i <= |data| && repo.Valid()
      invariant repo.records == MergeBins(store0, data[..i], now)
      invariant dict.Keys == dict0.Keys && Mirrors(dict, repo.records)
    {
      dict := MergeOne(data, i, store0, repo, dict, now);
      i := i + 1;
    }
    assert data[..i] == data;
  }

  /** One more turn of the merge loop, and the rows it keeps. */
  lemma MergeBinsSnoc(store: map<string, TrackingRecord>, data: seq<Pair>, i: nat, now: int)
    requires i < |data|
    ensures MergeBins(store, data[..i + 1], now) == MergeStep(MergeBins(store, data[..i], now), data[i], now)
    ensures MergeBins(store, data[..i], now).Keys == store.Keys
  {
    assert data[..i + 1][..i] == data[..i];
    MergeBinsKeys(store, data[..i], now);
  }

  /** The part of `export_tracking_data_text` after parsing (lines 259-299). */
  method ExportParsed(data: seq<Pair>, format: ExportFormat, includeDetails: bool,
                      repo: TrackingRepository, fileStamp: string, stamp: int -> string,
                      renderError: Option<string>, now: int)
    returns (r: Reply<ExportReply>)
    requires repo.Valid()
    modifies repo
    ensures repo.Valid()
    ensures (forall t :: t in Keys(data) ==> t !in old(repo.records)) ==>
      r == Raised(HttpError(404, NoRecordsMessage)) && repo.records == old(repo.records)
    ensures (exists t :: t in Keys(data) && t in old(repo.records)) ==>
      && repo.records == MergeBins(old(repo.records), data, now)
      && (renderError.Some? ==> r == Raised(HttpError(500, "Export failed: " + renderError.value)))
      && (renderError.None? ==>
            r.Replied? && ExportedFrom(r.value, repo.records, data, format, includeDetails, fileStamp, stamp))
  {
    var rs := repo.GetMultiple(Keys(data));
    assert RecordsOf(rs, repo.records, data);
    FetchedNone(rs, repo.records, data);
    if rs == [] {
      return Raised(HttpError(404, NoRecordsMessage));
    }
    var records := MergeFetched(data, rs, repo, now);
    if renderError.Some? {
      return Raised(HttpError(500, "Export failed: " + renderError.value));
    }
    var e := MakeReport(records, format, includeDetails, fileStamp, stamp);
    r := Replied(e);
  }

  /** Lines 267-273 for the fetched records `rs`: the bins merged into the
      table, and the records as they stand afterwards (the objects the
      dictionary shares with the list). */
  method MergeFetched(data: seq<Pair>, rs: seq<TrackingRecord>, repo: TrackingRepository, now: int)
    returns (records: seq<TrackingRecord>)
    requires repo.Valid() && RecordsOf(rs, repo.records, data)
    modifies repo
    ensures repo.Valid() && repo.records == MergeBins(old(repo.records), data, now)
    ensures |records| == |rs| && RecordsOf(records, repo.records, data)
  {
    var dict := RecordsDict(rs);
    RecordsDictFacts(rs, repo.records, data);
    dict := MergeLoop(data, repo, dict, now);
    MergeBinsKeys(old(repo.records), data, now);
    records := seq(|rs|, j requires 0 <= j < |rs| => dict[rs[j].trackingNumber]);
    RecordsStayRecords(rs, records, old(repo.records), repo.records, data);
  }

  /** Lines 276-299: the report of `records` and the reply pointing at it. */
  method MakeReport(records: seq<TrackingRecord>, format: ExportFormat, includeDetails: bool,
                    fileStamp: string, stamp: int -> string)
    returns (e: ExportReply)
    ensures e.records == records && ReportOf(e, format, includeDetails, fileStamp, stamp)
  {
    var report := TableData(records, includeDetails, stamp);
    var path := ReportPath(fileStamp, format);
    var fileName := BaseName(path);
    e := ExportReply(path, fileName, DownloadPrefix + fileName, |records|, records, report);
  }

  /** Nothing is fetched exactly when the table holds none of the numbers. */
  lemma FetchedNone(rs: seq<TrackingRecord>, store: map<string, TrackingRecord>, data: seq<Pair>)
    requires RecordsOf(rs, store, data)
    ensures rs == [] <==> forall t :: t in Keys(data) ==> t !in store
  {
    if rs != [] {
      assert rs[0].trackingNumber in Keys(data) && rs[0].trackingNumber in store;
    }
  }

  /** `{r.tracking_number: r for r in records}` */
  function RecordsDict(rs: seq<TrackingRecord>): (d: map<string, TrackingRecord>)
    ensures forall t :: t in d <==> exists j :: 0 <= j < |rs| && rs[j].trackingNumber == t
  {
    if rs == [] then map[]
    else RecordsDict(rs[..|rs| - 1])[rs[|rs| - 1].trackingNumber := rs[|rs| - 1]]
  }

  /** The dictionary of the fetched records shows their current rows and
      holds exactly the numbers of `data` the table has. */
  lemma RecordsDictFacts(rs: seq<TrackingRecord>, store: map<string, TrackingRecord>, data: seq<Pair>)
    requires RecordsOf(rs, store, data)
    ensures Mirrors(RecordsDict(rs), store) && KeysAgree(data, RecordsDict(rs).Keys, store)
  {
    var d := RecordsDict(rs);
    forall t | t in d ensures t in store && d[t] == store[t] {
      RecordsDictValue(rs, store, data, t);
    }
  }

  lemma {:induction false} RecordsDictValue(rs: seq<TrackingRecord>, store: map<string, TrackingRecord>,
                                            data: seq<Pair>, t: string)
    requires forall j :: 0 <= j < |rs| ==> rs[j].trackingNumber in store && store[rs[j].trackingNumber] == rs[j]
    requires t in RecordsDict(rs)
    ensures t in store && RecordsDict(rs)[t] == store[t]
  {
    var last := rs[|rs| - 1];
    if t != last.trackingNumber {
      var init := rs[..|rs| - 1];
      assert forall j :: 0 <= j < |init| ==> init[j] == rs[j];
      RecordsDictValue(init, store, data, t);
    }
  }

  /** The records fetched before the merge, read again after it, are the
      merged table's records. */
  lemma RecordsStayRecords(rs: seq<TrackingRecord>, records: seq<TrackingRecord>,
                           store0: map<string, TrackingRecord>, store1: map<string, TrackingRecord>,
                           data: seq<Pair>)
    requires RecordsOf(rs, store0, data) && store1.Keys == store0.Keys
    requires |records| == |rs|
    requires forall j :: 0 <= j < |rs| ==> records[j] == store1[rs[j].trackingNumber]
    requires StoreValid(store1)
    ensures RecordsOf(records, store1, data)
  {
    forall t | t in Keys(data) && t in store1
      ensures exists j :: 0 <= j < |records| && records[j].trackingNumber == t
    {
      var j :| 0 <= j < |rs| && rs[j].trackingNumber == t;
      assert records[j].trackingNumber == t;
    }
  }

  /** `export_tracking_data_text` (lines 251-305) with the field that holds
      the parsed pairs. `fileStamp` is the report's creation time written
      out, `renderError` the failure of drawing or saving the report, if
      any; the bin writes before it stay committed. */
  method ExportTrackingData(v: string, format: ExportFormat, includeDetails: bool,
                            repo: TrackingRepository, fileStamp: string, stamp: int -> string,
                            renderError: Option<string>, now: int)
    returns (r: Reply<ExportReply>)
    requires repo.Valid()
    modifies repo
    ensures repo.Valid()
    ensures ParsePlainText(v, false).Err? ==>
      r == Raised(HttpError(422, ParsePlainText(v, false).error)) && repo.records == old(repo.records)
    ensures ParsePlainText(v, false).Ok? ==>
      var data := ParsePlainText(v, false).value;
      if forall t :: t in Keys(data) ==> t !in old(repo.records) then
        r == Raised(HttpError(404, NoRecordsMessage)) && repo.records == old(repo.records)
      else
        && repo.records == MergeBins(old(repo.records), data, now)
        && (renderError.Some? ==> r == Raised(HttpError(500, "Export failed: " + renderError.value)))
        && (renderError.None? ==>
              r.Replied? && ExportedFrom(r.value, repo.records, data, format, includeDetails, fileStamp, stamp))
  {
    var parsed := ParseExportText(v);
    if parsed.Err? {
      return Raised(HttpError(422, parsed.error));
    }
    r := ExportParsed(parsed.value, format, includeDetails, repo, fileStamp, stamp, renderError, now);
  }

  /** A text with no dot, slash or backslash. */
  predicate Plain(s: string) {
    forall i :: 0 <= i < |s| ==> s[i] != '.' && s[i] != '/' && s[i] != '\\'
  }

  /** `p.e` for plain `p` and `e` is a safe file name. */
  lemma DottedSafe(p: string, e: string)
    requires Plain(p) && Plain(e)
    ensures SafeFilename(p + "." + e)
  {
    var s := p + "." + e;
    forall i | 0 <= i < |s| - 1 ensures s[i] != '.' || s[i + 1] != '.' {
      if i < |p| { assert s[i] == p[i]; } else { assert s[i + 1] == e[i - |p|]; }
    }
    NoDoubleDot(s);
    forall i | 0 <= i < |s| ensures s[i] != '/' && s[i] != '\\' {
      if i < |p| { assert s[i] == p[i]; } else if i > |p| { assert s[i] == e[i - |p| - 1]; }
    }
  }

  /** A report name made at a time stamp of digits and underscores is a
      safe file name. */
  lemma ReportNameSafe(fileStamp: string, format: ExportFormat)
    requires forall i :: 0 <= i < |fileStamp| ==> fileStamp[i] == '_' || '0' <= fileStamp[i] <= '9'
    ensures SafeFilename(ReportName(fileStamp, format)) && '/' !in ReportName(fileStamp, format)
  {
    var head := "tracking_report_";
    assert Plain(head);
    var p := head + fileStamp;
    forall i | 0 <= i < |p| ensures p[i] != '.' && p[i] != '/' && p[i] != '\\' {
      if i >= |head| { assert p[i] == fileStamp[i - |head|]; }
    }
    assert Plain(format.Value());
    DottedSafe(p, format.Value());
    assert ReportName(fileStamp, format) == p + "." + format.Value();
  }

  /** The link an export hands out downloads that very report: its name is
      safe, it lies in the export directory under the reported path, and it
      is served with the media type of its format. */
  lemma ExportLinkServesReport(fileStamp: string, format: ExportFormat, isFile: string -> bool)
    requires forall i :: 0 <= i < |fileStamp| ==> fileStamp[i] == '_' || '0' <= fileStamp[i] <= '9'
    requires isFile(ReportPath(fileStamp, format))
    ensures BaseName(ReportPath(fileStamp, format)) == ReportName(fileStamp, format)
    ensures DownloadExportFile(ReportName(fileStamp, format), isFile)
      == Replied(FileReply(ReportPath(fileStamp, format), MediaType(ReportName(fileStamp, format)),
                           ReportName(fileStamp, format)))
  {
    ReportNameSafe(fileStamp, format);
    BaseNameJoined(ExportDir, ReportName(fileStamp, format));
  }

  /** A report is served as PDF or as Word document by its format. */
  lemma ReportMediaType(fileStamp: string, format: ExportFormat)
    ensures MediaType(ReportName(fileStamp, format))
      == if format == Pdf then "application/pdf"
         else "application/vnd.openxmlformats-officedocument.wordprocessingml.document"
  {
    var prefix := "tracking_report_" + fileStamp;
    var name := ReportName(fileStamp, format);
    if format == Pdf {
      AppendAssoc(prefix, ".", "pdf");
      assert name == prefix + ".pdf";
      EndsWithJoined(prefix, ".pdf");
    } else {
      AppendAssoc(prefix, ".", "docx");
      assert name == prefix + ".docx";
      EndsWithJoined(prefix, ".docx");
      EndsWithLast(name, ".docx", ".pdf");
    }
  }

  lemma EndsWithJoined(p: string, s: string)
    ensures EndsWith(p + s, s)
  {
    assert (p + s)[|p + s| - |s|..] == s;
  }

  /** Two endings of one text end in the same character. */
  lemma EndsWithLast(s: string, a: string, b: string)
    requires EndsWith(s, a) && a != [] && b != [] && a[|a| - 1] != b[|b| - 1]
    ensures !EndsWith(s, b)
  {
    assert s[|s| - 1] == s[|s| - |a|..][|a| - 1];
  }

  /** A text without two dots in a row does not contain "..". */
  lemma {:induction false} NoDoubleDot(s: string)
    requires forall i :: 0 <= i < |s| - 1 ==> s[i] != '.' || s[i + 1] != '.'
    ensures !ContainsText(s, "..")
  {
    if s != [] {
      if |s| >= 2 {
        assert s[0] != '.' || s[1] != '.';
      }
      forall i | 0 <= i < |s[1..]| - 1 ensures s[1..][i] != '.' || s[1..][i + 1] != '.' {
        assert s[1..][i] == s[i + 1];
      }
      NoDoubleDot(s[1..]);
    }
  }

  // ---------------------------------------------------------------------
  // GET /history/{tracking_number}

  /** `get_tracking_history`: the stored record of the upper-cased number
      (not stripped), or a 404. */
  method GetTrackingHistory(tn: string, repo: TrackingRepository) returns (r: Reply<TrackingRecord>)
    requires repo.Valid()
    ensures r.Replied? <==> Upper(tn) in repo.records
    ensures r.Replied? ==> r.value == repo.records[Upper(tn)] && r.value.trackingNumber == Upper(tn)
    ensures r.Raised? ==> r.error == HttpError(404, NotInDatabaseMessage)
  {
    var record := repo.GetByTrackingNumber(Upper(tn));
    if record.None? {
      return Raised(HttpError(404, NotInDatabaseMessage));
    }
    r := Replied(record.value);
  }

  /** A number the single route looked up is found again by the history
      route under its normalised form. */
  lemma HistoryAfterSingle(transport: (string, nat) -> Response, calls0: seq<string>,
                           store0: map<string, TrackingRecord>, days0: map<string, Usage>,
                           tn: string, bin: Option<string>, today: string, now: int)
    requires StoreValid(store0)
    requires TrackSingleSpec(transport, calls0, store0, days0, tn, bin, today, now).reply.Replied?
    ensures var run := TrackSingleSpec(transport, calls0, store0, days0, tn, bin, today, now);
      Upper(Normalized(tn)) in run.store && run.store[Upper(Normalized(tn))] == run.reply.value
  {
    var t := Normalized(tn);
    UpperIdempotent(Strip(tn));
    if |t| >= 5 && Used(days0, today) < DhlDailyLimit {
      if t in store0 && Fresh(store0[t], now) {
        SingleCacheHit(transport, calls0, store0, days0, tn, bin, today, now);
      } else {
        SingleMiss(transport, calls0, store0, days0, tn, bin, today, now);
      }
    }
  }

  // ---------------------------------------------------------------------
  // GET /download/{filename}

  /** A download name without '..', '/' or '\'. */
  predicate SafeFilename(filename: string) {
    !ContainsText(filename, "..") && '/' !in filename && '\\' !in filename
  }

  /** The media type of a report, by the name's ending. */
  function MediaType(filename: string): string {
    if EndsWith(filename, ".pdf") then "application/pdf"
    else if EndsWith(filename, ".docx") then "application/vnd.openxmlformats-officedocument.wordprocessingml.document"
    else "application/octet-stream"
  }

  /** A name ending in ".pdf" is served as PDF, one ending in ".docx" as a
      Word document, and anything else, only then, as raw bytes. */
  lemma MediaTypeByEnding(filename: string)
    ensures EndsWith(filename, ".pdf") ==> MediaType(filename) == "application/pdf"
    ensures !EndsWith(filename, ".pdf") && EndsWith(filename, ".docx") ==>
      MediaType(filename) == "application/vnd.openxmlformats-officedocument.wordprocessingml.document"
    ensures MediaType(filename) == "application/octet-stream" <==>
      !EndsWith(filename, ".pdf") && !EndsWith(filename, ".docx")
  {
  }

  /** The `FileResponse` of a download. */
  datatype FileReply = FileReply(path: string, mediaType: string, filename: string)

  /** `download_export_file(filename)`; `isFile` says which paths are
      files. */
  function DownloadExportFile(filename: string, isFile: string -> bool): Reply<FileReply> {
    var path := ExportDir + "/" + filename;
    if !SafeFilename(filename) then Raised(HttpError(400, InvalidFilenameMessage))
    else if !isFile(path) then Raised(HttpError(404, FileNotFoundMessage))
    else Replied(FileReply(path, MediaType(filename), filename))
  }

  /** A served file is always the named file directly inside the export
      directory; a name that could leave it is refused with a 400. */
  lemma DownloadStaysInExportDir(filename: string, isFile: string -> bool)
    ensures var r := DownloadExportFile(filename, isFile);
      && (r == Raised(HttpError(400, InvalidFilenameMessage)) <==> !SafeFilename(filename))
      && (r.Replied? ==> r.value.path == ExportDir + "/" + filename
                         && BaseName(r.value.path) == filename && isFile(r.value.path))
  {
    if SafeFilename(filename) {
      BaseNameJoined(ExportDir, filename);
    }
  }
}
