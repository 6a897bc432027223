/** The DHL API client: the mapping of an HTTP outcome onto a tracking
    result, the parsing of the shipment payload, and the chunked batch
    lookup. */
module DhlService {
  import opened Common
  import opened Records
  import opened Runtime
  import Config

  /** The dictionary `track_single` returns: a successful lookup with the
      shipment's data, or a failure with its message. Both carry the
      tracking number and bin they were asked for. */
  datatype TrackResult =
    | Tracked(trackingNumber: string, binId: Option<string>, statusCode: Option<string>,
              status: Option<string>, origin: string, destination: string,
              details: Details, lastChecked: int)
    | NotTracked(trackingNumber: string, binId: Option<string>, errorMessage: string)
  {
    predicate IsSuccessful() { Tracked? }

    /** The pair the batch processor keeps for a failed lookup. */
    function AsPair(): Pair { (trackingNumber, binId) }
  }

  /** The dictionary handed to `upsert`: the keys the result carries, plus
      `batch_id` when the batch processor has set one. */
  function AsPatch(r: TrackResult, batchId: Option<string>): (p: Patch)
    ensures Keyed(p) && p.trackingNumber.value == r.trackingNumber
    ensures p.isSuccessful == Some(r.IsSuccessful()) && p.binId == Some(r.binId)
    ensures p.batchId == (if r.Tracked? && batchId.Some? then Some(batchId) else None)
  {
    match r
    case Tracked(tn, bin, code, st, o, d, det, lc) =>
      Patch(Some(tn), Some(bin), Some(code), Some(st), Some(Some(o)), Some(Some(d)), Some(Some(det)),
            if batchId.Some? then Some(batchId) else None, Some(true), Some(None), Some(Some(lc)))
    case NotTracked(tn, bin, msg) =>
      EmptyPatch.(trackingNumber := Some(tn), binId := Some(bin), isSuccessful := Some(false),
                  errorMessage := Some(Some(msg)))
  }

  const NoShipmentData := "No shipment data found"
  const NoneHasNoGet := "'NoneType' object has no attribute 'get'"
  const NoneNotSubscriptable := "'NoneType' object is not subscriptable"

  function ParseError(cause: string): string {
    "Error parsing response: " + cause
  }

  /** The string a JSON field contributes where the source reads
      `a.get(k, "")`: its text, or "" when absent or null (both falsy). */
  function Text(f: Field<string>): string {
    if f.Present? then f.value else ""
  }

  /** `d.get(k, default)` for an optional string column: the default when
      absent, `None` when null. */
  function OrDefault<T>(f: Field<T>, default: T): Option<T> {
    match f
    case Missing => Some(default)
    case Null => None
    case Present(v) => Some(v)
  }

  /** `d.get(k)` */
  function Get<T>(f: Field<T>): Option<T> {
    if f.Present? then Some(f.value) else None
  }

  /** `_extract_location(loc)`: "city, country", either one alone, or
      "Unknown"; a null location or address (an AttributeError caught by the
      source) is "Unknown" too. */
  function ExtractLocation(loc: Field<LocationData>): (s: string)
    ensures s != ""
    ensures s == "Unknown" <==>
      !(loc.Present? && loc.value.address.Present?) ||
      (var a := loc.value.address.value;
        (!TruthyField(a.addressLocality) && !TruthyField(a.countryCode)) ||
        (TruthyField(a.addressLocality) && !TruthyField(a.countryCode) && a.addressLocality.value == "Unknown") ||
        (!TruthyField(a.addressLocality) && TruthyField(a.countryCode) && a.countryCode.value == "Unknown"))
  {
    if loc.Present? && loc.value.address.Present? then
      var a := loc.value.address.value;
      var city := Text(a.addressLocality);
      var country := Text(a.countryCode);
      if city != "" && country != "" then
        assert (city + ", " + country)[|city|] == ',';
        city + ", " + country
      else if city != "" then city
      else if country != "" then country
      else "Unknown"
    else "Unknown"
  }

  /** `_extract_location` for each kind of address: both parts, the city
      alone, the country alone. */
  lemma ExtractLocationCases(a: AddressData)
    ensures var s := ExtractLocation(Present(LocationData(Present(a))));
      && (TruthyField(a.addressLocality) && TruthyField(a.countryCode) ==>
            s == a.addressLocality.value + ", " + a.countryCode.value)
      && (TruthyField(a.addressLocality) && !TruthyField(a.countryCode) ==> s == a.addressLocality.value)
      && (!TruthyField(a.addressLocality) && TruthyField(a.countryCode) ==> s == a.countryCode.value)
      && (!TruthyField(a.addressLocality) && !TruthyField(a.countryCode) ==> s == "Unknown")
  {
  }

  /** The first shipment of a payload, when there is one. */
  predicate HasShipment(d: ResponseData) {
    d.shipments.Present? && d.shipments.value != []
  }

  /** Whether `_parse_tracking_response` gets through the first shipment
      without tripping over a null `status`, `events` or `details`. */
  predicate Parsable(sh: Shipment) {
    !sh.status.Null? && !sh.events.Null? && !sh.details.Null?
  }

  function Min(a: nat, b: nat): nat { if a <= b then a else b }

  /** `_parse_tracking_response(data, tn, bin)` */
  function ParseTrackingResponse(data: Json, tn: string, bin: Option<string>, now: int): (r: TrackResult)
    ensures r.trackingNumber == tn && r.binId == bin
  {
    match data
    case Other(typeName) => NotTracked(tn, bin, ParseError("'" + typeName + "' object has no attribute 'get'"))
    case Object(d) =>
      if !HasShipment(d) then NotTracked(tn, bin, NoShipmentData)
      else
        var sh := d.shipments.value[0];
        if sh.status.Null? then NotTracked(tn, bin, ParseError(NoneHasNoGet))
        else
          var code := if sh.status.Present? then OrDefault(sh.status.value.statusCode, "unknown") else Some("unknown");
          var desc := if sh.status.Present? then OrDefault(sh.status.value.status, "Unknown") else Some("Unknown");
          var origin := ExtractLocation(sh.origin);
          var destination := ExtractLocation(sh.destination);
          if sh.events.Null? then NotTracked(tn, bin, ParseError(NoneNotSubscriptable))
          else
            var events := if sh.events.Present? then sh.events.value else [];
            if sh.details.Null? then NotTracked(tn, bin, ParseError(NoneHasNoGet))
            else
              var pieces := if sh.details.Present? then OrDefault(sh.details.value.pieceIds, []) else Some([]);
              var details := Details(Get(sh.service), Get(sh.estimatedTimeOfDelivery),
                                     events[..Min(5, |events|)], pieces);
              Tracked(tn, bin, code, desc, origin, destination, details, now)
  }

  const NotFoundMessage := "Tracking number not found"
  const TimeoutMessage := "Request timeout"

  /** The message of the `DHLAPIException` raised for a refused request. */
  function RefusalMessage(statusCode: nat): string {
    if statusCode == 401 then "Invalid API key"
    else if statusCode == 429 then "Rate limit exceeded"
    else "API request failed: " + NatToString(statusCode)
  }

  /** `track_single(tn, bin)` for a given outcome of the GET. Every raised
      error is caught, so the lookup always yields a result. */
  function TrackOutcome(resp: Response, tn: string, bin: Option<string>, now: int): (r: TrackResult)
    ensures r.trackingNumber == tn && r.binId == bin
  {
    match resp
    case HttpResponse(code, body) =>
      if code == 200 then
        (match body
         case Decoded(json) => ParseTrackingResponse(json, tn, bin, now)
         case Undecodable(msg) => NotTracked(tn, bin, msg))
      else if code == 404 then NotTracked(tn, bin, NotFoundMessage)
      else NotTracked(tn, bin, RefusalMessage(code))
    case TimedOut => NotTracked(tn, bin, TimeoutMessage)
    case TransportError(msg) => NotTracked(tn, bin, msg)
  }

  /** What parsing keeps of the payload: a result exactly when the first
      shipment can be read, the requested number and bin echoed, at most
      the first five events, the default status when the status object is
      absent, and the locations as `_extract_location` renders them. */
  lemma ParseTrackingResponseFacts(data: Json, tn: string, bin: Option<string>, now: int)
    ensures var r := ParseTrackingResponse(data, tn, bin, now);
      && (r.Tracked? <==> data.Object? && HasShipment(data.data) && Parsable(data.data.shipments.value[0]))
      && (data.Object? && !HasShipment(data.data) ==> r == NotTracked(tn, bin, NoShipmentData))
      && (r.Tracked? ==>
            var sh := data.data.shipments.value[0];
            var events := if sh.events.Present? then sh.events.value else [];
            && r.lastChecked == now
            && |r.details.events| == Min(5, |events|)
            && r.details.events == events[..|r.details.events|]
            && (sh.status.Missing? ==> r.statusCode == Some("unknown") && r.status == Some("Unknown"))
            && r.origin == ExtractLocation(sh.origin) && r.destination == ExtractLocation(sh.destination))
  {
  }

  /** How `track_single` maps the outcome of the GET: a result only for a
      200 whose payload parses, "Tracking number not found" for a 404, the
      refusal message for any other status, and the message of a timeout or
      transport error. */
  lemma TrackOutcomeFacts(resp: Response, tn: string, bin: Option<string>, now: int)
    ensures var r := TrackOutcome(resp, tn, bin, now);
      && (r.Tracked? <==>
            resp.HttpResponse? && resp.statusCode == 200 && resp.body.Decoded? && resp.body.json.Object? &&
            HasShipment(resp.body.json.data) && Parsable(resp.body.json.data.shipments.value[0]))
      && (resp.HttpResponse? && resp.statusCode == 200 && resp.body.Undecodable? ==>
            r == NotTracked(tn, bin, resp.body.message))
      && (resp.HttpResponse? && resp.statusCode == 404 ==> r == NotTracked(tn, bin, NotFoundMessage))
      && (resp.HttpResponse? && resp.statusCode !in {200, 404} ==>
            r == NotTracked(tn, bin, RefusalMessage(resp.statusCode)))
      && (resp.TimedOut? ==> r == NotTracked(tn, bin, TimeoutMessage))
      && (resp.TransportError? ==> r == NotTracked(tn, bin, resp.message))
  {
    if resp.HttpResponse? && resp.statusCode == 200 && resp.body.Decoded? {
      ParseTrackingResponseFacts(resp.body.json, tn, bin, now);
    }
  }

  /** A lookup: what `track_single(w, b)` yields when it is request number
      `k` (counting from 0) for waybill `w`. */
  type Lookup = (string, Option<string>, nat) -> TrackResult

  /** `track_single` over the HTTP client `t`, at time `now`. */
  function TrackSingleOf(t: (string, nat) -> Response, now: int): Lookup {
    (w: string, b: Option<string>, k: nat) => TrackOutcome(t(w, k), w, b, now)
  }

  /** The result of looking up `p` after the requests in `calls`. */
  function Track(look: Lookup, calls: seq<string>, p: Pair): TrackResult {
    look(p.0, p.1, Count(calls, p.0))
  }

  /** The results of looking up `items` one after the other, after the
      requests in `calls`; one per item. */
  function Outcomes(look: Lookup, calls: seq<string>, items: seq<Pair>): (rs: seq<TrackResult>)
    ensures |rs| == |items|
  {
    if items == [] then []
    else
      var init := items[..|items| - 1];
      Outcomes(look, calls, init) + [Track(look, calls + Keys(init), items[|items| - 1])]
  }

  /** One more item is looked up after the requests for the ones before it. */
  lemma OutcomesSnoc(look: Lookup, calls: seq<string>, items: seq<Pair>, x: Pair)
    ensures Outcomes(look, calls, items + [x]) == Outcomes(look, calls, items) + [Track(look, calls + Keys(items), x)]
  {
    assert (items + [x])[..|items|] == items;
  }

  /** The results of two consecutive batches are the results of one batch of
      both. */
  lemma {:induction false} OutcomesAppend(look: Lookup, calls: seq<string>,
                                          a: seq<Pair>, b: seq<Pair>)
    ensures Outcomes(look, calls, a + b) == Outcomes(look, calls, a) + Outcomes(look, calls + Keys(a), b)
    decreases |b|
  {
    if b == [] {
      assert a + b == a;
    } else {
      var b' := b[..|b| - 1];
      var x := b[|b| - 1];
      assert a + b == (a + b') + [x];
      assert b == b' + [x];
      OutcomesSnoc(look, calls, a + b', x);
      OutcomesSnoc(look, calls + Keys(a), b', x);
      OutcomesAppend(look, calls, a, b');
      KeysAppend(a, b');
      AppendAssoc(calls, Keys(a), Keys(b'));
      var t := Track(look, calls + Keys(a + b'), x);
      AppendAssoc(Outcomes(look, calls, a), Outcomes(look, calls + Keys(a), b'), [t]);
    }
  }

  /** Item `i` of a batch is looked up after the requests before the batch
      and those for the items before it. */
  lemma {:induction false} OutcomesAt(look: Lookup, calls: seq<string>, items: seq<Pair>, i: nat)
    requires i < |items|
    ensures Outcomes(look, calls, items)[i] == Track(look, calls + Keys(items[..i]), items[i])
    decreases |items|
  {
    if i < |items| - 1 {
      var init := items[..|items| - 1];
      OutcomesAt(look, calls, init, i);
      assert init[..i] == items[..i];
    }
  }

  /** A lookup answers the waybill and bin it was asked for. */
  ghost predicate Echoes(look: Lookup) {
    forall w, b, k :: look(w, b, k).AsPair() == (w, b)
  }

  /** `track_single` echoes the number and bin whatever the response. */
  lemma TrackSingleEchoes(t: (string, nat) -> Response, now: int)
    ensures Echoes(TrackSingleOf(t, now))
  {
    forall w, b, k ensures TrackSingleOf(t, now)(w, b, k).AsPair() == (w, b) {
      assert TrackSingleOf(t, now)(w, b, k) == TrackOutcome(t(w, k), w, b, now);
    }
  }

  /** Every result of an echoing lookup answers the item at its position:
      same waybill, same bin. */
  lemma OutcomesEcho(look: Lookup, calls: seq<string>, items: seq<Pair>)
    requires Echoes(look)
    ensures forall i :: 0 <= i < |items| ==> Outcomes(look, calls, items)[i].AsPair() == items[i]
  {
    forall i | 0 <= i < |items| ensures Outcomes(look, calls, items)[i].AsPair() == items[i] {
      OutcomesAt(look, calls, items, i);
    }
  }

  /** The trace of `track_batch(items, delay)` with chunks of `size`: the
      requests of each chunk, and a pause between chunks but not after the
      last. */
  function BatchTrace(items: seq<Pair>, size: nat, pauseMs: nat): seq<TraceEvent>
    requires size > 0
    decreases |items|
  {
    if |items| <= size then CallsOf(Keys(items))
    else CallsOf(Keys(items[..size])) + [Slept(pauseMs)] + BatchTrace(items[size..], size, pauseMs)
  }

  /** A batch larger than a chunk: the first chunk, a pause, the rest. */
  lemma BatchTraceUnfold(items: seq<Pair>, size: nat, pauseMs: nat)
    requires 0 < size < |items|
    ensures BatchTrace(items, size, pauseMs)
         == CallsOf(Keys(items[..size])) + [Slept(pauseMs)] + BatchTrace(items[size..], size, pauseMs)
  {
  }

  /** A batch no larger than a chunk is its requests alone. */
  lemma BatchTraceSmall(items: seq<Pair>, size: nat, pauseMs: nat)
    requires 0 < |items| <= size
    ensures BatchTrace(items, size, pauseMs) == CallsOf(Keys(items))
  {
  }

  /** A pause adds no request. */
  lemma CalledWaybillsAroundPause(a: seq<TraceEvent>, ms: nat, b: seq<TraceEvent>)
    ensures CalledWaybills(a + [Slept(ms)] + b) == CalledWaybills(a) + CalledWaybills(b)
  {
    var s := [Slept(ms)];
    CalledWaybillsAppend(a + s, b);
    CalledWaybillsAppend(a, s);
    CalledWaybillsPause(ms);
    assert CalledWaybills(a) + CalledWaybills(s) == CalledWaybills(a);
  }

  lemma CalledWaybillsPause(ms: nat)
    ensures CalledWaybills([Slept(ms)]) == []
  {
    assert [Slept(ms)][..0] == [];
  }

  /** Splitting a batch at a chunk boundary splits its waybills. */
  lemma KeysSplit(items: seq<Pair>, k: nat)
    requires k <= |items|
    ensures Keys(items) == Keys(items[..k]) + Keys(items[k..])
  {
    assert items == items[..k] + items[k..];
    KeysAppend(items[..k], items[k..]);
  }

  /** The requests of a batch are its waybills, in order. */
  lemma {:induction false} BatchTraceRequests(items: seq<Pair>, size: nat, pauseMs: nat)
    requires size > 0
    ensures CalledWaybills(BatchTrace(items, size, pauseMs)) == Keys(items)
    decreases |items|
  {
    if |items| <= size {
      CalledWaybillsOfCalls(Keys(items));
    } else {
      BatchTraceRequests(items[size..], size, pauseMs);
      CalledWaybillsAroundPause(CallsOf(Keys(items[..size])), pauseMs, BatchTrace(items[size..], size, pauseMs));
      CalledWaybillsOfCalls(Keys(items[..size]));
      KeysSplit(items, size);
    }
  }

  /** A multiple of a positive number strictly between its negation and
      itself is zero. */
  lemma SmallMultiple(d: int, k: int)
    requires d > 0 && -d < d * k < d
    ensures k == 0
  {
  }

  /** `(n - 1) / size` grows by one with each further chunk. */
  lemma ChunkCountStep(n: nat, size: nat)
    requires 0 < size < n
    ensures (n - 1) / size == (n - 1 - size) / size + 1
  {
    var m := n - 1 - size;
    var q, r := m / size, m % size;
    var q', r' := (n - 1) / size, (n - 1) % size;
    assert m == size * q + r;
    assert n - 1 == size * q' + r';
    assert size * (q' - q - 1) == r - r' by {
      assert size * (q' - q - 1) == size * q' - size * q - size;
    }
    SmallMultiple(size, q' - q - 1);
  }

  lemma SingleChunk(n: nat, size: nat)
    requires 0 < n <= size
    ensures (n - 1) / size == 0
  {
  }

  lemma SleepCountStep(n: nat, m: nat, size: nat, c: nat)
    requires 0 < size < n && m == n - size && c == (m - 1) / size
    ensures c + 1 == (n - 1) / size
  {
    ChunkCountStep(n, size);
  }

  /** A batch of `n > 0` items sleeps `ceil(n / size) - 1` times. */
  lemma {:induction false} BatchTraceSleepCount(items: seq<Pair>, size: nat, pauseMs: nat)
    requires size > 0 && items != []
    ensures Count(BatchTrace(items, size, pauseMs), Slept(pauseMs)) == (|items| - 1) / size
    decreases |items|
  {
    if |items| <= size {
      CountAbsent(BatchTrace(items, size, pauseMs), Slept(pauseMs));
      SingleChunk(|items|, size);
    } else {
      var head := CallsOf(Keys(items[..size]));
      var later := items[size..];
      var rest := BatchTrace(later, size, pauseMs);
      BatchTraceUnfold(items, size, pauseMs);
      BatchTraceSleepCount(later, size, pauseMs);
      var c := Count(rest, Slept(pauseMs));
      CountAbsent(head, Slept(pauseMs));
      CountAppend(head, [Slept(pauseMs)], Slept(pauseMs));
      CountAppend(head + [Slept(pauseMs)], rest, Slept(pauseMs));
      assert Count(BatchTrace(items, size, pauseMs), Slept(pauseMs)) == c + 1;
      SleepCountStep(|items|, |later|, size, c);
    }
  }

  /** Every pause of a batch is the given one. */
  lemma {:induction false} BatchTraceSleepsAre(items: seq<Pair>, size: nat, pauseMs: nat)
    requires size > 0
    ensures forall i :: 0 <= i < |BatchTrace(items, size, pauseMs)| && BatchTrace(items, size, pauseMs)[i].Slept? ==>
      BatchTrace(items, size, pauseMs)[i].ms == pauseMs
    decreases |items|
  {
    var tr := BatchTrace(items, size, pauseMs);
    if |items| > size {
      var head := CallsOf(Keys(items[..size]));
      var rest := BatchTrace(items[size..], size, pauseMs);
      BatchTraceUnfold(items, size, pauseMs);
      BatchTraceSleepsAre(items[size..], size, pauseMs);
      forall i | 0 <= i < |tr| ensures tr[i].Slept? ==> tr[i].ms == pauseMs {
        if i < |head| {
          assert tr[i] == head[i];
        } else if i > |head| {
          assert tr[i] == rest[i - |head| - 1];
        }
      }
    }
  }

  /** A batch ends with its last request, never with a pause. */
  lemma {:induction false} BatchTraceEndsWithRequest(items: seq<Pair>, size: nat, pauseMs: nat)
    requires size > 0 && items != []
    ensures BatchTrace(items, size, pauseMs) != []
    ensures BatchTrace(items, size, pauseMs)[|BatchTrace(items, size, pauseMs)| - 1] == Called(items[|items| - 1].0)
    decreases |items|
  {
    if |items| > size {
      var rest := BatchTrace(items[size..], size, pauseMs);
      BatchTraceUnfold(items, size, pauseMs);
      BatchTraceEndsWithRequest(items[size..], size, pauseMs);
      assert items[size..][|items[size..]| - 1] == items[|items| - 1];
      LastOfAppend(CallsOf(Keys(items[..size])) + [Slept(pauseMs)], rest);
    } else {
      BatchTraceSmall(items, size, pauseMs);
      var ks := Keys(items);
      assert ks[|ks| - 1] == items[|items| - 1].0;
    }
  }

  lemma LastOfAppend<T>(a: seq<T>, b: seq<T>)
    requires b != []
    ensures (a + b)[|a + b| - 1] == b[|b| - 1]
  {
  }

  lemma KeysSnoc(xs: seq<Pair>, x: Pair)
    ensures Keys(xs + [x]) == Keys(xs) + [x.0]
  {
    KeysAppend(xs, [x]);
  }

  lemma CallsOfSnoc(ws: seq<string>, w: string)
    ensures CallsOf(ws + [w]) == CallsOf(ws) + [Called(w)]
  {
    CallsOfAppend(ws, [w]);
  }

  /** The first `k` lookups of a chunk are done: their results, their
      requests, their trace. */
  predicate ChunkDone(look: Lookup, calls0: seq<string>, trace0: seq<TraceEvent>,
                      chunk: seq<Pair>, k: nat,
                      results: seq<TrackResult>, calls: seq<string>, trace: seq<TraceEvent>)
    requires k <= |chunk|
  {
    && results == Outcomes(look, calls0, chunk[..k])
    && calls == calls0 + Keys(chunk[..k])
    && trace == trace0 + CallsOf(Keys(chunk[..k]))
  }

  lemma ChunkStep(look: Lookup, calls0: seq<string>, trace0: seq<TraceEvent>,
                  chunk: seq<Pair>, k: nat,
                  results: seq<TrackResult>, calls: seq<string>, trace: seq<TraceEvent>)
    requires k < |chunk| && ChunkDone(look, calls0, trace0, chunk, k, results, calls, trace)
    ensures ChunkDone(look, calls0, trace0, chunk, k + 1, results + [Track(look, calls, chunk[k])],
                      calls + [chunk[k].0], trace + [Called(chunk[k].0)])
  {
    ChunkResultsStep(look, calls0, chunk, k);
    ChunkCallsStep(calls0, chunk, k);
    ChunkTraceStep(trace0, chunk, k);
  }

  lemma ChunkResultsStep(look: Lookup, calls0: seq<string>, chunk: seq<Pair>, k: nat)
    requires k < |chunk|
    ensures Outcomes(look, calls0, chunk[..k + 1])
         == Outcomes(look, calls0, chunk[..k]) + [Track(look, calls0 + Keys(chunk[..k]), chunk[k])]
  {
    assert chunk[..k + 1] == chunk[..k] + [chunk[k]];
    OutcomesSnoc(look, calls0, chunk[..k], chunk[k]);
  }

  lemma ChunkCallsStep(calls0: seq<string>, chunk: seq<Pair>, k: nat)
    requires k < |chunk|
    ensures calls0 + Keys(chunk[..k + 1]) == calls0 + Keys(chunk[..k]) + [chunk[k].0]
  {
    assert chunk[..k + 1] == chunk[..k] + [chunk[k]];
    KeysSnoc(chunk[..k], chunk[k]);
  }

  lemma ChunkTraceStep(trace0: seq<TraceEvent>, chunk: seq<Pair>, k: nat)
    requires k < |chunk|
    ensures trace0 + CallsOf(Keys(chunk[..k + 1])) == trace0 + CallsOf(Keys(chunk[..k])) + [Called(chunk[k].0)]
  {
    assert chunk[..k + 1] == chunk[..k] + [chunk[k]];
    KeysSnoc(chunk[..k], chunk[k]);
    CallsOfSnoc(Keys(chunk[..k]), chunk[k].0);
  }

  /** The chunks before position `i` of a batch are done; the trace still
      to come is that of the rest of the batch. */
  predicate BatchDone(look: Lookup, calls0: seq<string>, trace0: seq<TraceEvent>,
                      items: seq<Pair>, i: nat, size: nat, pauseMs: nat,
                      results: seq<TrackResult>, calls: seq<string>, trace: seq<TraceEvent>)
    requires i <= |items| && size > 0
  {
    && results == Outcomes(look, calls0, items[..i])
    && calls == calls0 + Keys(items[..i])
    && trace + BatchTrace(items[i..], size, pauseMs) == trace0 + BatchTrace(items, size, pauseMs)
  }

  lemma BatchStep(look: Lookup, calls0: seq<string>, trace0: seq<TraceEvent>,
                  items: seq<Pair>, i: nat, end: nat, size: nat, pauseMs: nat,
                  results: seq<TrackResult>, calls: seq<string>, trace: seq<TraceEvent>,
                  rs: seq<TrackResult>, trace': seq<TraceEvent>)
    requires size > 0 && i < |items| && end == (if i + size < |items| then i + size else |items|)
    requires BatchDone(look, calls0, trace0, items, i, size, pauseMs, results, calls, trace)
    requires rs == Outcomes(look, calls, items[i..end])
    requires trace' == trace + CallsOf(Keys(items[i..end])) + PauseIf(end < |items|, pauseMs)
    ensures BatchDone(look, calls0, trace0, items, end, size, pauseMs, results + rs,
                      calls + Keys(items[i..end]), trace')
  {
    ResultsStep(look, calls0, items, i, end);
    KeysStep(calls0, items, i, end);
    TraceStep(trace0, trace, items, i, end, size, pauseMs);
  }

  lemma ResultsStep(look: Lookup, calls0: seq<string>, items: seq<Pair>, i: nat, end: nat)
    requires i <= end <= |items|
    ensures Outcomes(look, calls0, items[..end])
         == Outcomes(look, calls0, items[..i]) + Outcomes(look, calls0 + Keys(items[..i]), items[i..end])
  {
    assert items[..end] == items[..i] + items[i..end];
    OutcomesAppend(look, calls0, items[..i], items[i..end]);
  }

  lemma KeysStep(calls0: seq<string>, items: seq<Pair>, i: nat, end: nat)
    requires i <= end <= |items|
    ensures calls0 + Keys(items[..end]) == calls0 + Keys(items[..i]) + Keys(items[i..end])
  {
    assert items[..end] == items[..i] + items[i..end];
    KeysAppend(items[..i], items[i..end]);
  }

  lemma TraceStep(trace0: seq<TraceEvent>, trace: seq<TraceEvent>, items: seq<Pair>, i: nat, end: nat,
                  size: nat, pauseMs: nat)
    requires size > 0 && i < |items| && end == (if i + size < |items| then i + size else |items|)
    requires trace + BatchTrace(items[i..], size, pauseMs) == trace0 + BatchTrace(items, size, pauseMs)
    ensures trace + CallsOf(Keys(items[i..end])) + PauseIf(end < |items|, pauseMs)
            + BatchTrace(items[end..], size, pauseMs) == trace0 + BatchTrace(items, size, pauseMs)
  {
    BatchTraceChunk(items[i..], end - i, size, pauseMs);
    assert items[i..][..end - i] == items[i..end];
    assert items[i..][end - i..] == items[end..];
    SeqAssoc(trace, CallsOf(Keys(items[i..end])), PauseIf(end < |items|, pauseMs), BatchTrace(items[end..], size, pauseMs));
  }

  lemma SeqAssoc<T>(a: seq<T>, b: seq<T>, c: seq<T>, d: seq<T>)
    ensures a + (b + c + d) == a + b + c + d
  {
  }

  /** The pause between two chunks, when another chunk follows. */
  function PauseIf(more: bool, ms: nat): seq<TraceEvent> {
    if more then [Slept(ms)] else []
  }

  lemma NoPause(trace: seq<TraceEvent>, ms: nat)
    ensures trace == trace + PauseIf(false, ms)
  {
  }

  /** The trace of a batch is that of its first chunk, a pause when more
      follows, and the trace of the rest. */
  lemma BatchTraceChunk(items: seq<Pair>, n: nat, size: nat, pauseMs: nat)
    requires size > 0 && items != [] && n == (if size < |items| then size else |items|)
    ensures BatchTrace(items, size, pauseMs)
         == CallsOf(Keys(items[..n])) + PauseIf(n < |items|, pauseMs)
            + BatchTrace(items[n..], size, pauseMs)
  {
    if n == |items| {
      assert items[..n] == items;
      assert items[n..] == [];
    }
  }

  /** The `DHLAPIService` instance: it issues the requests through the
      environment's HTTP client. */
  class DhlApiService {
    const env: Environment

    constructor(env: Environment)
      ensures this.env == env
    {
      this.env := env;
    }

    /** `track_single(tn, bin)`: one request, and its result. */
    method TrackSingle(tn: string, bin: Option<string>, now: int) returns (r: TrackResult)
      modifies env
      ensures r == TrackOutcome(env.transport(tn, Count(old(env.calls), tn)), tn, bin, now)
      ensures env.calls == old(env.calls) + [tn]
      ensures env.trace == old(env.trace) + [Called(tn)]
    {
      var resp := env.Get(tn);
      r := TrackOutcome(resp, tn, bin, now);
    }

    /** The lookups of one chunk of `track_batch`, one after the other. */
    method TrackChunk(chunk: seq<Pair>, now: int) returns (results: seq<TrackResult>)
      modifies env
      ensures results == Outcomes(TrackSingleOf(env.transport, now), old(env.calls), chunk)
      ensures env.calls == old(env.calls) + Keys(chunk)
      ensures env.trace == old(env.trace) + CallsOf(Keys(chunk))
    {
      ghost var look, calls0, trace0 := TrackSingleOf(env.transport, now), env.calls, env.trace;
      results := [];
      var k := 0;
      assert chunk[..0] == [];
      while k < |chunk|
        invariant 0 <= k <= |chunk|
        invariant ChunkDone(look, calls0, trace0, chunk, k, results, env.calls, env.trace)
      {
        ghost var calls, trace := env.calls, env.trace;
        var r := TrackSingle(chunk[k].0, chunk[k].1, now);
        ChunkStep(look, calls0, trace0, chunk, k, results, calls, trace);
        results := results + [r];
        k := k + 1;
      }
      assert chunk[..k] == chunk;
    }

    /** `track_batch(items, delay)`: the items in chunks of
        `DHL_BATCH_SIZE`, with `delay` between chunks. A lookup never raises,
        so no result is dropped. */
    method TrackBatch(items: seq<Pair>, delayMs: nat, now: int) returns (results: seq<TrackResult>)
      modifies env
      ensures results == Outcomes(TrackSingleOf(env.transport, now), old(env.calls), items)
      ensures env.calls == old(env.calls) + Keys(items)
      ensures env.trace == old(env.trace) + BatchTrace(items, Config.DhlBatchSize, delayMs)
    {
      var size := Config.DhlBatchSize;
      ghost var look, calls0, trace0 := TrackSingleOf(env.transport, now), env.calls, env.trace;
      results := [];
      var i := 0;
      assert items[..0] == [] && items[0..] == items;
      while i < |items|
        invariant 0 <= i <= |items|
        invariant BatchDone(look, calls0, trace0, items, i, size, delayMs, results, env.calls, env.trace)
        decreases |items| - i
      {
        var end := if i + size < |items| then i + size else |items|;
        ghost var calls, trace := env.calls, env.trace;
        var rs := TrackChunk(items[i..end], now);
        if end < |items| {
          env.Sleep(delayMs);
        }
        BatchStep(look, calls0, trace0, items, i, end, size, delayMs, results, calls, trace, rs, env.trace);
        results := results + rs;
        i := end;
      }
      assert items[..i] == items && items[i..] == [];
    }
  }
}
