/** What the tracking code does to the outside world, reduced to what the
    program can observe: a GET to the DHL API, whose outcome is a fixed
    function of the waybill and of how many times it was requested before,
    and `asyncio.sleep`. Both are recorded, in order, in a ghost trace. */
module Runtime {
  import opened Common
  import opened Records

  /** A decoded JSON field of the DHL payload. */
  datatype AddressData = AddressData(addressLocality: Field<string>, countryCode: Field<string>)
  datatype LocationData = LocationData(address: Field<AddressData>)
  datatype StatusData = StatusData(statusCode: Field<string>, status: Field<string>)
  datatype DetailsData = DetailsData(pieceIds: Field<seq<string>>)
  datatype Shipment = Shipment(
    status: Field<StatusData>,
    origin: Field<LocationData>,
    destination: Field<LocationData>,
    events: Field<seq<Event>>,
    service: Field<string>,
    estimatedTimeOfDelivery: Field<string>,
    details: Field<DetailsData>)
  datatype ResponseData = ResponseData(shipments: Field<seq<Shipment>>)

  /** A decoded JSON document: an object, or another JSON value named by
      its Python type (`list`, `str`, ...), as an error message names it. */
  datatype Json = Object(data: ResponseData) | Other(typeName: string)

  /** What `response.json()` yields: the document, or the decoder's error
      message. */
  datatype Body = Decoded(json: Json) | Undecodable(message: string)

  /** The outcome of one GET: a response, a timeout, or another transport
      error with its message. */
  datatype Response = HttpResponse(statusCode: nat, body: Body) | TimedOut | TransportError(message: string)

  datatype TraceEvent = Called(waybill: string) | Slept(ms: nat)

  /** One `Called` event per waybill, in order. */
  function CallsOf(ws: seq<string>): (tr: seq<TraceEvent>)
    ensures |tr| == |ws|
    ensures forall i :: 0 <= i < |ws| ==> tr[i] == Called(ws[i])
  {
    seq(|ws|, i requires 0 <= i < |ws| => Called(ws[i]))
  }

  lemma CallsOfAppend(a: seq<string>, b: seq<string>)
    ensures CallsOf(a + b) == CallsOf(a) + CallsOf(b)
  {
  }

  /** The waybills requested in a trace, in order. */
  function CalledWaybills(tr: seq<TraceEvent>): seq<string> {
    if tr == [] then []
    else CalledWaybills(tr[..|tr| - 1]) + (if tr[|tr| - 1].Called? then [tr[|tr| - 1].waybill] else [])
  }

  lemma {:induction false} CalledWaybillsAppend(a: seq<TraceEvent>, b: seq<TraceEvent>)
    ensures CalledWaybills(a + b) == CalledWaybills(a) + CalledWaybills(b)
    decreases |b|
  {
    if b == [] {
      assert a + b == a;
    } else {
      assert (a + b)[..|a + b| - 1] == a + b[..|b| - 1];
      assert (a + b)[|a + b| - 1] == b[|b| - 1];
      CalledWaybillsAppend(a, b[..|b| - 1]);
    }
  }

  lemma {:induction false} CalledWaybillsOfCalls(ws: seq<string>)
    ensures CalledWaybills(CallsOf(ws)) == ws
    decreases |ws|
  {
    if ws != [] {
      var init := ws[..|ws| - 1];
      assert CallsOf(ws)[..|ws| - 1] == CallsOf(init);
      CalledWaybillsOfCalls(init);
      assert ws == init + [ws[|ws| - 1]];
    }
  }

  /** The HTTP client and the event loop. `transport(w, k)` is what the
      `k`-th request (counting from 0) for waybill `w` returns. */
  class Environment {
    const transport: (string, nat) -> Response
    /** Previous requests, as waybills. */
    var calls: seq<string>
    ghost var trace: seq<TraceEvent>

    constructor(transport: (string, nat) -> Response)
      ensures this.transport == transport && calls == [] && trace == []
    {
      this.transport := transport;
      calls := [];
      trace := [];
    }

    /** `client.get(url)` for one waybill. */
    method Get(waybill: string) returns (r: Response)
      modifies this
      ensures r == transport(waybill, Count(old(calls), waybill))
      ensures calls == old(calls) + [waybill]
      ensures trace == old(trace) + [Called(waybill)]
    {
      r := transport(waybill, Count(calls, waybill));
      calls := calls + [waybill];
      trace := trace + [Called(waybill)];
    }

    /** `await asyncio.sleep(ms / 1000)` */
    method Sleep(ms: nat)
      modifies this
      ensures calls == old(calls)
      ensures trace == old(trace) + [Slept(ms)]
    {
      trace := trace + [Slept(ms)];
    }
  }
}
