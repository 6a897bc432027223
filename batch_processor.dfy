/** The batch processor: a cache check against the stored records, a first
    pass over the remaining waybills in chunks of five, up to five retry
    rounds for the failures with growing back-off, and a failure record for
    what is left. The specification functions below describe one whole run;
    the `BatchProcessor` class performs it step by step against the
    repositories and the environment. */
module BatchProcessor {
  import opened Common
  import opened Records
  import opened Repositories
  import opened Runtime
  import opened DhlService
  import Config

  const BatchSize := 5
  /** `batch_delay`, 7 seconds, in milliseconds. */
  const BatchDelayMs := 7000
  const MaxRetries := 5
  /** `retry_delay`, in seconds. */
  const RetryDelay := 10
  /** `track_batch(batch, delay=0.2)` in the first pass. */
  const FirstPassPauseMs := 200
  /** `track_batch(failed, delay=0.5)` in a retry round. */
  const RetryPauseMs := 500
  const QuotaMessage := "Daily API limit reached"
  /** `f'Failed after {self.max_retries} retry attempts'` */
  const TerminalMessage := "Failed after 5 retry attempts"

  /** The wait before retry round `attempt`: 10 s plus 5 s per earlier
      round. */
  function RetryDelayMs(attempt: nat): nat {
    (RetryDelay + 5 * (attempt - 1)) * 1000
  }

  // ---------------------------------------------------------------------
  // What a pass over a list of lookups keeps

  /** The successful results, in order. */
  function Successes(rs: seq<TrackResult>): seq<TrackResult> {
    if rs == [] then []
    else Successes(rs[..|rs| - 1]) + (if rs[|rs| - 1].Tracked? then [rs[|rs| - 1]] else [])
  }

  /** The `(waybill, bin)` pairs of the failed results, in order. */
  function Failures(rs: seq<TrackResult>): seq<Pair> {
    if rs == [] then []
    else Failures(rs[..|rs| - 1]) + (if rs[|rs| - 1].Tracked? then [] else [rs[|rs| - 1].AsPair()])
  }

  /** The dictionaries upserted for the successes, with `batch_id` when the
      pass sets it before upserting. */
  function SuccessPatches(rs: seq<TrackResult>, batchId: Option<string>): (ps: seq<Patch>)
    ensures AllKeyed(ps)
  {
    if rs == [] then []
    else SuccessPatches(rs[..|rs| - 1], batchId) + (if rs[|rs| - 1].Tracked? then [AsPatch(rs[|rs| - 1], batchId)] else [])
  }

  /** The `increment_usage(success)` calls of a pass: one per success, and
      one per failure when the pass counts failures. */
  function Flags(rs: seq<TrackResult>, countFailures: bool): seq<bool> {
    if rs == [] then []
    else
      var last := rs[|rs| - 1];
      Flags(rs[..|rs| - 1], countFailures) + (if last.Tracked? then [true] else if countFailures then [false] else [])
  }

  /** Every result is kept as exactly one success or one failure. */
  lemma {:induction false} PartitionSizes(rs: seq<TrackResult>)
    ensures |Successes(rs)| + |Failures(rs)| == |rs|
  {
    if rs != [] {
      PartitionSizes(rs[..|rs| - 1]);
    }
  }

  /** The usage calls of a pass: `true` once per success, `false` once per
      failure when failures are counted, nothing else. */
  lemma {:induction false} FlagsCounts(rs: seq<TrackResult>, countFailures: bool)
    ensures Count(Flags(rs, countFailures), true) == |Successes(rs)|
    ensures Count(Flags(rs, countFailures), false) == (if countFailures then |Failures(rs)| else 0)
    ensures |Flags(rs, countFailures)| == |Successes(rs)| + (if countFailures then |Failures(rs)| else 0)
  {
    if rs != [] {
      var init := rs[..|rs| - 1];
      var x := rs[|rs| - 1];
      FlagsCounts(init, countFailures);
      var tail := if x.Tracked? then [true] else if countFailures then [false] else [];
      CountAppend(Flags(init, countFailures), tail, true);
      CountAppend(Flags(init, countFailures), tail, false);
    }
  }

  /** The successes are the results with a tracking result, each once,
      in the order they came. */
  lemma {:induction false} SuccessesSound(rs: seq<TrackResult>)
    ensures forall i :: 0 <= i < |Successes(rs)| ==> Successes(rs)[i].Tracked? && Successes(rs)[i] in rs
  {
    if rs != [] {
      var init := rs[..|rs| - 1];
      SuccessesSound(init);
      forall i | 0 <= i < |Successes(rs)| ensures Successes(rs)[i].Tracked? && Successes(rs)[i] in rs {
        if i < |Successes(init)| {
          assert Successes(rs)[i] == Successes(init)[i];
          assert Successes(init)[i] in init;
        }
      }
    }
  }

  /** Each success is upserted under its own number. */
  lemma {:induction false} SuccessPatchKeys(rs: seq<TrackResult>, batchId: Option<string>)
    ensures |SuccessPatches(rs, batchId)| == |Successes(rs)|
    ensures forall i :: 0 <= i < |Successes(rs)| ==>
      SuccessPatches(rs, batchId)[i].trackingNumber.value == Successes(rs)[i].trackingNumber
  {
    if rs != [] {
      SuccessPatchKeys(rs[..|rs| - 1], batchId);
    }
  }

  // ---------------------------------------------------------------------
  // One whole `_process_with_multi_retry` run

  /** What a run has done so far: every request made (including those
      before the run), the trace it added, the successes collected, the
      dictionaries upserted, the usage calls made, the waybills still
      failing, and its count of API calls. */
  datatype Tally = Tally(
    calls: seq<string>,
    trace: seq<TraceEvent>,
    successes: seq<TrackResult>,
    patches: seq<Patch>,
    flags: seq<bool>,
    failing: seq<Pair>,
    apiCalls: nat)

  predicate TallyKeyed(st: Tally) {
    AllKeyed(st.patches)
  }

  /** The first pass (lines 137-165): chunks of five, each looked up with a
      0.2 s pause inside `track_batch` (never taken, a chunk being smaller
      than `DHL_BATCH_SIZE`), 7 s between chunks. Successes get the batch
      id and are recorded; failures are only kept. */
  function FirstPassTally(look: Lookup, calls0: seq<string>, items: seq<Pair>, batchId: string): (st: Tally)
    ensures TallyKeyed(st)
  {
    var rs := Outcomes(look, calls0, items);
    Tally(calls0 + Keys(items), BatchTrace(items, BatchSize, BatchDelayMs), Successes(rs),
          SuccessPatches(rs, Some(batchId)), Flags(rs, false), Failures(rs), |items|)
  }

  /** Retry round `attempt` (lines 49-106 and 183-195), given the results
      `rs` of looking the failing waybills up again: nothing when no waybill
      is failing; otherwise the back-off, one `track_batch` of the failing
      waybills, every outcome recorded as a usage call, successes upserted
      without the batch id. */
  function RetryStep(st: Tally, rs: seq<TrackResult>, attempt: nat): (st': Tally)
    ensures TallyKeyed(st) ==> TallyKeyed(st')
  {
    if st.failing == [] then st
    else
      assert AllKeyed(st.patches) && AllKeyed(SuccessPatches(rs, None)) ==>
             AllKeyed(st.patches + SuccessPatches(rs, None));
      Tally(st.calls + Keys(st.failing),
            st.trace + [Slept(RetryDelayMs(attempt))] + BatchTrace(st.failing, Config.DhlBatchSize, RetryPauseMs),
            st.successes + Successes(rs),
            st.patches + SuccessPatches(rs, None),
            st.flags + Flags(rs, true),
            Failures(rs),
            st.apiCalls + |st.failing|)
  }

  /** The state after rounds 1 to `k`, each looking up the waybills still
      failing after the requests made so far. */
  function Rounds(look: Lookup, st0: Tally, k: nat): (st: Tally)
    ensures TallyKeyed(st0) ==> TallyKeyed(st)
  {
    if k == 0 then st0
    else
      var st := Rounds(look, st0, k - 1);
      RetryStep(st, Outcomes(look, st.calls, st.failing), k)
  }

  /** The dictionary upserted for a waybill that failed every round. */
  function TerminalPatch(p: Pair, batchId: string, now: int): (d: Patch)
    ensures Keyed(d)
  {
    EmptyPatch.(trackingNumber := Some(p.0), binId := Some(p.1), batchId := Some(Some(batchId)),
                isSuccessful := Some(false), errorMessage := Some(Some(TerminalMessage)),
                lastChecked := Some(Some(now)))
  }

  function TerminalPatches(ps: seq<Pair>, batchId: string, now: int): (ds: seq<Patch>)
    ensures |ds| == |ps| && AllKeyed(ds)
    ensures forall i :: 0 <= i < |ps| ==> ds[i] == TerminalPatch(ps[i], batchId, now)
  {
    seq(|ps|, i requires 0 <= i < |ps| => TerminalPatch(ps[i], batchId, now))
  }

  /** The whole run: first pass, the retry rounds, then the failure record
      for every waybill still failing. */
  function MultiRetry(look: Lookup, calls0: seq<string>, items: seq<Pair>,
                      batchId: string, now: int): (st: Tally)
    ensures TallyKeyed(st)
  {
    var st := Rounds(look, FirstPassTally(look, calls0, items, batchId), MaxRetries);
    st.(patches := st.patches + TerminalPatches(st.failing, batchId, now))
  }

  // ---------------------------------------------------------------------
  // `process_batch`

  /** Whether a stored record was checked less than an hour ago:
      `(utcnow() - last_checked).seconds < 3600`. `timedelta.seconds` is the
      seconds part of the difference, its remainder modulo one day. */
  predicate Fresh(r: TrackingRecord, now: int) {
    r.lastChecked.Some? && (now - r.lastChecked.value) % 86400 < 3600
  }

  /** `bin_id and not record.bin_id` */
  predicate NeedsBin(bin: Option<string>, r: TrackingRecord) {
    Truthy(bin) && !Truthy(r.binId)
  }

  /** The cache split of lines 285-302: the table after the bin fills, the
      waybills answered from the cache, and the pairs to look up. */
  datatype Classification = Classification(store: map<string, TrackingRecord>, cached: seq<string>, pending: seq<Pair>)

  function ClassifyStep(c: Classification, p: Pair, now: int): Classification {
    var (w, bin) := p;
    if w in c.store then
      var r := if NeedsBin(bin, c.store[w]) then Updated(c.store[w], BinPatch(bin), now) else c.store[w];
      var s := c.store[w := r];
      if Fresh(r, now) then Classification(s, c.cached + [w], c.pending)
      else Classification(s, c.cached, c.pending + [p])
    else Classification(c.store, c.cached, c.pending + [p])
  }

  function Classify(store: map<string, TrackingRecord>, items: seq<Pair>, now: int): Classification {
    if items == [] then Classification(store, [], [])
    else ClassifyStep(Classify(store, items[..|items| - 1], now), items[|items| - 1], now)
  }

  /** `[get_by_tracking_number(k) for k in keys]` without the misses. */
  function ReRead(store: map<string, TrackingRecord>, keys: seq<string>): seq<TrackingRecord> {
    if keys == [] then []
    else ReRead(store, keys[..|keys| - 1]) + (if keys[|keys| - 1] in store then [store[keys[|keys| - 1]]] else [])
  }

  function TrackingNumbers(rs: seq<TrackResult>): (ks: seq<string>)
    ensures |ks| == |rs| && forall i :: 0 <= i < |rs| ==> ks[i] == rs[i].trackingNumber
  {
    seq(|rs|, i requires 0 <= i < |rs| => rs[i].trackingNumber)
  }

  /** The dictionary `process_batch` returns; `processing_time` is left
      out. */
  datatype BatchResult = BatchResult(
    batchId: string,
    totalRequested: nat,
    successful: nat,
    failed: nat,
    results: seq<TrackingRecord>,
    apiCallsMade: nat,
    error: Option<string>)

  /** A whole `process_batch` call: its result, the two tables, the requests
      made (all of them, including earlier ones) and the trace it added. */
  datatype BatchRun = BatchRun(
    result: BatchResult,
    store: map<string, TrackingRecord>,
    days: map<string, Usage>,
    calls: seq<string>,
    trace: seq<TraceEvent>)

  /** The part of `process_batch` after the quota check and the truncation:
      the cache split, the run for the rest, the re-read of every record
      returned (session objects are live, so a cached record shows its final
      state too). */
  function ProcessData(look: Lookup, calls0: seq<string>, store0: map<string, TrackingRecord>,
                       days1: map<string, Usage>, data: seq<Pair>, batchId: string, today: string, now: int): BatchRun
  {
    var c := Classify(store0, data, now);
    if c.pending == [] then
      var cached := ReRead(c.store, c.cached);
      BatchRun(BatchResult(batchId, |data|, |cached|, 0, cached, 0, None), c.store, days1, calls0, [])
    else
      var m := MultiRetry(look, calls0, c.pending, batchId, now);
      var store2 := UpsertAll(c.store, m.patches, now);
      var found := ReRead(store2, TrackingNumbers(m.successes));
      var cached := ReRead(store2, c.cached);
      BatchRun(BatchResult(batchId, |data|, |found| + |cached|, |m.failing|, found + cached, m.apiCalls, None),
               store2, Recorded(days1, today, m.flags, now), m.calls, m.trace)
  }

  /** `process_batch(tracking_data)` with the given batch id. */
  function ProcessBatchSpec(look: Lookup, calls0: seq<string>, store0: map<string, TrackingRecord>,
                            days0: map<string, Usage>, items: seq<Pair>, batchId: string, today: string, now: int): BatchRun
  {
    var days1 := WithToday(days0, today, now);
    var remaining := Remaining(days0, today, Config.DhlDailyLimit);
    if remaining == 0 then
      BatchRun(BatchResult(batchId, |items|, 0, |items|, [], 0, Some(QuotaMessage)), store0, days1, calls0, [])
    else
      var data := if |items| > remaining then items[..remaining] else items;
      ProcessData(look, calls0, store0, days1, data, batchId, today, now)
  }

  /** What `_process_with_multi_retry` returns. */
  datatype RetryOutcome = RetryOutcome(successfulResults: seq<TrackResult>, failedWaybills: seq<Pair>, totalApiCalls: nat)

  // ---------------------------------------------------------------------
  // The processor, step by step

  /** After the results `rs` of a pass: the table holds the upserts of the
      successes, the usage table the usage calls, and the two lists the
      successes and the failures. */
  ghost predicate Absorbed(store0: map<string, TrackingRecord>, days0: map<string, Usage>, today: string, now: int,
                           rs: seq<TrackResult>, batchId: Option<string>, countFailures: bool,
                           store: map<string, TrackingRecord>, days: map<string, Usage>,
                           successes: seq<TrackResult>, failing: seq<Pair>)
  {
    && store == UpsertAll(store0, SuccessPatches(rs, batchId), now)
    && days == Recorded(days0, today, Flags(rs, countFailures), now)
    && successes == Successes(rs)
    && failing == Failures(rs)
  }

  lemma AbsorbedStep(store0: map<string, TrackingRecord>, days0: map<string, Usage>, today: string, now: int,
                     rs: seq<TrackResult>, r: TrackResult, batchId: Option<string>, countFailures: bool,
                     store: map<string, TrackingRecord>, days: map<string, Usage>,
                     successes: seq<TrackResult>, failing: seq<Pair>,
                     store': map<string, TrackingRecord>, days': map<string, Usage>, rs': seq<TrackResult>)
    requires Absorbed(store0, days0, today, now, rs, batchId, countFailures, store, days, successes, failing)
    requires store' == UpsertAll(store, SuccessPatches([r], batchId), now)
    requires days' == Recorded(days, today, Flags([r], countFailures), now)
    requires rs' == rs + [r]
    ensures Absorbed(store0, days0, today, now, rs', batchId, countFailures, store', days',
                     successes + (if r.Tracked? then [r] else []), failing + (if r.Tracked? then [] else [r.AsPair()]))
  {
    assert (rs + [r])[..|rs|] == rs;
    assert [r][..0] == [];
    assert SuccessPatches(rs + [r], batchId) == SuccessPatches(rs, batchId) + SuccessPatches([r], batchId);
    UpsertAllAppend(store0, SuccessPatches(rs, batchId), SuccessPatches([r], batchId), now);
    assert Flags(rs + [r], countFailures) == Flags(rs, countFailures) + Flags([r], countFailures);
    RecordedAppend(days0, today, Flags(rs, countFailures), Flags([r], countFailures), now);
  }

  lemma AbsorbedNext(store0: map<string, TrackingRecord>, days0: map<string, Usage>, today: string, now: int,
                     prior: seq<TrackResult>, rs: seq<TrackResult>, j: nat, batchId: Option<string>, countFailures: bool,
                     store: map<string, TrackingRecord>, days: map<string, Usage>,
                     successes: seq<TrackResult>, failing: seq<Pair>,
                     store': map<string, TrackingRecord>, days': map<string, Usage>)
    requires j < |rs|
    requires Absorbed(store0, days0, today, now, prior + rs[..j], batchId, countFailures, store, days, successes, failing)
    requires store' == UpsertAll(store, SuccessPatches([rs[j]], batchId), now)
    requires days' == Recorded(days, today, Flags([rs[j]], countFailures), now)
    ensures Absorbed(store0, days0, today, now, prior + rs[..j + 1], batchId, countFailures, store', days',
                     successes + (if rs[j].Tracked? then [rs[j]] else []),
                     failing + (if rs[j].Tracked? then [] else [rs[j].AsPair()]))
  {
    var done := prior + rs[..j + 1];
    assert done == (prior + rs[..j]) + [rs[j]] by {
      assert rs[..j + 1] == rs[..j] + [rs[j]];
    }
    AbsorbedStep(store0, days0, today, now, prior + rs[..j], rs[j], batchId, countFailures,
                 store, days, successes, failing, store', days', done);
  }

  /** The actual state agrees with a tally of the run. */
  ghost predicate Matches(trace0: seq<TraceEvent>, store0: map<string, TrackingRecord>, days0: map<string, Usage>,
                          today: string, now: int, st: Tally,
                          calls: seq<string>, trace: seq<TraceEvent>, store: map<string, TrackingRecord>,
                          days: map<string, Usage>, successes: seq<TrackResult>, failing: seq<Pair>, apiCalls: nat)
  {
    TallyKeyed(st) &&
    Snapshot(calls, trace, store, days, successes, failing, apiCalls) == Expected(trace0, store0, days0, today, now, st)
  }

  /** The observable state of a run in progress. */
  datatype Snapshot = Snapshot(
    calls: seq<string>,
    trace: seq<TraceEvent>,
    store: map<string, TrackingRecord>,
    days: map<string, Usage>,
    successes: seq<TrackResult>,
    failing: seq<Pair>,
    apiCalls: nat)

  /** The state a tally stands for, from the state the run started in. */
  ghost function Expected(trace0: seq<TraceEvent>, store0: map<string, TrackingRecord>, days0: map<string, Usage>,
                          today: string, now: int, st: Tally): Snapshot
    requires TallyKeyed(st)
  {
    Snapshot(st.calls, trace0 + st.trace, UpsertAll(store0, st.patches, now), Recorded(days0, today, st.flags, now),
             st.successes, st.failing, st.apiCalls)
  }

  lemma RetryMatches(trace0: seq<TraceEvent>, store0: map<string, TrackingRecord>,
                     days0: map<string, Usage>, today: string, now: int, st: Tally, attempt: nat, rs: seq<TrackResult>,
                     calls: seq<string>, trace: seq<TraceEvent>, store: map<string, TrackingRecord>,
                     days: map<string, Usage>, successes: seq<TrackResult>, failing: seq<Pair>, apiCalls: nat,
                     calls': seq<string>, trace': seq<TraceEvent>, store': map<string, TrackingRecord>,
                     days': map<string, Usage>, successful: seq<TrackResult>, still: seq<Pair>)
    requires Matches(trace0, store0, days0, today, now, st, calls, trace, store, days, successes, failing, apiCalls)
    requires failing != [] && |rs| == |failing|
    requires calls' == calls + Keys(failing)
    requires trace' == trace + [Slept(RetryDelayMs(attempt))] + BatchTrace(failing, Config.DhlBatchSize, RetryPauseMs)
    requires Absorbed(store, days, today, now, rs, None, true, store', days', successful, still)
    ensures Matches(trace0, store0, days0, today, now, RetryStep(st, rs, attempt), calls', trace', store', days',
                    successes + successful, still, apiCalls + |successful| + |still|)
  {
    RetryStepFields(st, rs, attempt);
    StoreAfter(store0, st.patches, SuccessPatches(rs, None), store, store', now);
    DaysAfter(days0, today, st.flags, Flags(rs, true), days, days', now);
    PartitionSizes(rs);
    ExtendBoth(trace0, st.trace, trace, [Slept(RetryDelayMs(attempt))],
               BatchTrace(st.failing, Config.DhlBatchSize, RetryPauseMs));
  }

  /** Two traces that agree agree after the same events. */
  lemma ExtendBoth<T>(t0: seq<T>, s: seq<T>, t: seq<T>, p: seq<T>, b: seq<T>)
    requires t == t0 + s
    ensures t + p + b == t0 + (s + p + b)
  {
  }

  /** The end of the first pass: the loop states are the tally's. */
  lemma FirstPassMatches(look: Lookup, calls0: seq<string>, trace0: seq<TraceEvent>,
                         store0: map<string, TrackingRecord>, days0: map<string, Usage>,
                         items: seq<Pair>, batchId: string, today: string, now: int, acc: seq<TrackResult>,
                         calls: seq<string>, trace: seq<TraceEvent>, store: map<string, TrackingRecord>,
                         days: map<string, Usage>, successes: seq<TrackResult>, failing: seq<Pair>, apiCalls: nat)
    requires BatchDone(look, calls0, trace0, items, |items|, BatchSize, BatchDelayMs, acc, calls, trace)
    requires Absorbed(store0, days0, today, now, acc, Some(batchId), false, store, days, successes, failing)
    requires apiCalls == |items|
    ensures Matches(trace0, store0, days0, today, now, FirstPassTally(look, calls0, items, batchId),
                    calls, trace, store, days, successes, failing, apiCalls)
  {
    assert items[..|items|] == items && items[|items|..] == [];
    assert BatchTrace(items[|items|..], BatchSize, BatchDelayMs) == [];
    assert trace + [] == trace;
  }

  /** The fields of a round that ran. */
  lemma RetryStepFields(st: Tally, rs: seq<TrackResult>, attempt: nat)
    requires st.failing != []
    ensures var st' := RetryStep(st, rs, attempt);
      && st'.calls == st.calls + Keys(st.failing)
      && st'.trace == st.trace + [Slept(RetryDelayMs(attempt))] + BatchTrace(st.failing, Config.DhlBatchSize, RetryPauseMs)
      && st'.successes == st.successes + Successes(rs)
      && st'.patches == st.patches + SuccessPatches(rs, None)
      && st'.flags == st.flags + Flags(rs, true)
      && st'.failing == Failures(rs)
      && st'.apiCalls == st.apiCalls + |st.failing|
  {
  }

  lemma StoreAfter(store0: map<string, TrackingRecord>, a: seq<Patch>, b: seq<Patch>,
                   store: map<string, TrackingRecord>, store': map<string, TrackingRecord>, now: int)
    requires AllKeyed(a) && AllKeyed(b)
    requires store == UpsertAll(store0, a, now) && store' == UpsertAll(store, b, now)
    ensures store' == UpsertAll(store0, a + b, now)
  {
    UpsertAllAppend(store0, a, b, now);
  }

  lemma DaysAfter(days0: map<string, Usage>, today: string, a: seq<bool>, b: seq<bool>,
                  days: map<string, Usage>, days': map<string, Usage>, now: int)
    requires days == Recorded(days0, today, a, now) && days' == Recorded(days, today, b, now)
    ensures days' == Recorded(days0, today, a + b, now)
  {
    RecordedAppend(days0, today, a, b, now);
  }

  /** The retry loop has ended: all rounds ran, or nothing is failing. */
  lemma RoundsDone(look: Lookup, st0: Tally, done: nat, failing: seq<Pair>)
    requires done <= MaxRetries && failing == Rounds(look, st0, done).failing
    requires done == MaxRetries || failing == []
    ensures Rounds(look, st0, MaxRetries) == Rounds(look, st0, done)
  {
    if done < MaxRetries {
      RoundsIdle(look, st0, done, MaxRetries);
    }
  }

  /** The requests made and the waybills failing are the tally's. */
  lemma MatchesPosition(trace0: seq<TraceEvent>, store0: map<string, TrackingRecord>, days0: map<string, Usage>,
                        today: string, now: int, st: Tally,
                        calls: seq<string>, trace: seq<TraceEvent>, store: map<string, TrackingRecord>,
                        days: map<string, Usage>, successes: seq<TrackResult>, failing: seq<Pair>, apiCalls: nat)
    requires Matches(trace0, store0, days0, today, now, st, calls, trace, store, days, successes, failing, apiCalls)
    ensures calls == st.calls && failing == st.failing
  {
  }

  /** Round `k` looks up the waybills failing after round `k - 1`. */
  lemma RoundsNext(look: Lookup, st0: Tally, done: nat,
                   calls: seq<string>, failing: seq<Pair>, rs: seq<TrackResult>)
    requires calls == Rounds(look, st0, done).calls && failing == Rounds(look, st0, done).failing
    requires rs == Outcomes(look, calls, failing)
    ensures Rounds(look, st0, done + 1) == RetryStep(Rounds(look, st0, done), rs, done + 1)
  {
  }

  /** Once nothing is failing, further rounds change nothing. */
  lemma {:induction false} RoundsIdle(look: Lookup, st0: Tally, k: nat, m: nat)
    requires k <= m && Rounds(look, st0, k).failing == []
    ensures Rounds(look, st0, m) == Rounds(look, st0, k)
    decreases m - k
  {
    if k < m {
      var st := Rounds(look, st0, k);
      var rs := Outcomes(look, st.calls, st.failing);
      RoundsNext(look, st0, k, st.calls, st.failing, rs);
      RetryStepIdle(st, rs, k + 1);
      RoundsIdle(look, st0, k + 1, m);
    }
  }

  lemma RetryStepIdle(st: Tally, rs: seq<TrackResult>, attempt: nat)
    requires st.failing == []
    ensures RetryStep(st, rs, attempt) == st
  {
  }

  /** The cache split has reached item `k`; the dictionary of existing
      records shows each live record as the table holds it. */
  ghost predicate ClassifyDone(store0: map<string, TrackingRecord>, data: seq<Pair>, k: nat, now: int,
                               store: map<string, TrackingRecord>, existing: map<string, TrackingRecord>,
                               cached: seq<string>, pending: seq<Pair>)
    requires k <= |data|
  {
    var c := Classify(store0, data[..k], now);
    && store == c.store && cached == c.cached && pending == c.pending
    && store.Keys == store0.Keys
    && (forall i :: 0 <= i < |data| ==> (data[i].0 in existing <==> data[i].0 in store0))
    && (forall w :: w in existing ==> w in store && existing[w] == store[w])
  }

  class BatchProcessor {
    const dhl: DhlApiService

    constructor(dhl: DhlApiService)
      ensures this.dhl == dhl
    {
      this.dhl := dhl;
    }

    /** One turn of the result loops (lines 147-161 and 85-101): a success
        is upserted and counted; a failure is counted when the pass counts
        failures. */
    method Absorb(r: TrackResult, batchId: Option<string>, countFailures: bool,
                  repo: TrackingRepository, usage: ApiUsageRepository, today: string, now: int)
      requires repo.Valid()
      modifies repo, usage
      ensures repo.Valid()
      ensures repo.records == UpsertAll(old(repo.records), SuccessPatches([r], batchId), now)
      ensures usage.days == Recorded(old(usage.days), today, Flags([r], countFailures), now)
    {
      assert [r][..0] == [];
      if r.Tracked? {
        var _ := repo.Upsert(AsPatch(r, batchId), now);
        var _ := usage.IncrementUsage(true, today, now);
      } else if countFailures {
        var _ := usage.IncrementUsage(false, today, now);
      }
    }

    /** The result loop over `rs`, after the results `prior` of the same
        pass. */
    method AbsorbAll(ghost store0: map<string, TrackingRecord>, ghost days0: map<string, Usage>, ghost prior: seq<TrackResult>,
                     rs: seq<TrackResult>, batchId: Option<string>, countFailures: bool,
                     successes0: seq<TrackResult>, failing0: seq<Pair>,
                     repo: TrackingRepository, usage: ApiUsageRepository, today: string, now: int)
      returns (successes: seq<TrackResult>, failing: seq<Pair>)
      requires repo.Valid()
      requires Absorbed(store0, days0, today, now, prior, batchId, countFailures, repo.records, usage.days, successes0, failing0)
      modifies repo, usage
      ensures repo.Valid()
      ensures Absorbed(store0, days0, today, now, prior + rs, batchId, countFailures, repo.records, usage.days, successes, failing)
    {
      successes, failing := successes0, failing0;
      var j := 0;
      assert prior + rs[..0] == prior;
      while j < |rs|
        invariant 0 <= j <= |rs| && repo.Valid()
        invariant Absorbed(store0, days0, today, now, prior + rs[..j], batchId, countFailures,
                           repo.records, usage.days, successes, failing)
      {
        var r := rs[j];
        ghost var store, days := repo.records, usage.days;
        Absorb(r, batchId, countFailures, repo, usage, today, now);
        AbsorbedNext(store0, days0, today, now, prior, rs, j, batchId, countFailures,
                     store, days, successes, failing, repo.records, usage.days);
        successes := successes + (if r.Tracked? then [r] else []);
        failing := failing + (if r.Tracked? then [] else [r.AsPair()]);
        j := j + 1;
      }
      assert rs[..j] == rs;
    }

    /** One chunk of the first pass (lines 139-165): look the chunk up,
        record its successes, pause before the next chunk. */
    method FirstPassChunk(ghost calls0: seq<string>, ghost trace0: seq<TraceEvent>,
                          ghost store0: map<string, TrackingRecord>, ghost days0: map<string, Usage>,
                          ghost acc: seq<TrackResult>, items: seq<Pair>, i: nat, batchId: string,
                          successes0: seq<TrackResult>, failing0: seq<Pair>,
                          repo: TrackingRepository, usage: ApiUsageRepository, today: string, now: int)
      returns (end: nat, rs: seq<TrackResult>, successes: seq<TrackResult>, failing: seq<Pair>)
      requires i < |items| && repo.Valid()
      requires BatchDone(TrackSingleOf(dhl.env.transport, now), calls0, trace0, items, i, BatchSize, BatchDelayMs, acc,
                         dhl.env.calls, dhl.env.trace)
      requires Absorbed(store0, days0, today, now, acc, Some(batchId), false, repo.records, usage.days,
                        successes0, failing0)
      modifies dhl.env, repo, usage
      ensures repo.Valid()
      ensures end == (if i + BatchSize < |items| then i + BatchSize else |items|)
      ensures BatchDone(TrackSingleOf(dhl.env.transport, now), calls0, trace0, items, end, BatchSize, BatchDelayMs, acc + rs,
                        dhl.env.calls, dhl.env.trace)
      ensures Absorbed(store0, days0, today, now, acc + rs, Some(batchId), false, repo.records, usage.days,
                       successes, failing)
    {
      end := if i + BatchSize < |items| then i + BatchSize else |items|;
      ghost var calls, trace := dhl.env.calls, dhl.env.trace;
      rs := LookupChunk(items, i, end, now);
      successes, failing := AbsorbAll(store0, days0, acc, rs, Some(batchId), false, successes0, failing0,
                                      repo, usage, today, now);
      PauseAfterChunk(calls0, trace0, acc, items, i, end, calls, trace, rs, now);
    }

    /** `track_batch` on the chunk `items[i..end]` (line 144). */
    method LookupChunk(items: seq<Pair>, i: nat, end: nat, now: int) returns (rs: seq<TrackResult>)
      requires 0 < end - i <= Config.DhlBatchSize && end <= |items|
      modifies dhl.env
      ensures rs == Outcomes(TrackSingleOf(dhl.env.transport, now), old(dhl.env.calls), items[i..end])
      ensures dhl.env.calls == old(dhl.env.calls) + Keys(items[i..end])
      ensures dhl.env.trace == old(dhl.env.trace) + CallsOf(Keys(items[i..end]))
    {
      var batch := items[i..end];
      rs := dhl.TrackBatch(batch, FirstPassPauseMs, now);
      BatchTraceSmall(batch, Config.DhlBatchSize, FirstPassPauseMs);
    }

    /** The pause before the next chunk (lines 163-165), which completes
        the chunk's part of the batch trace. */
    method PauseAfterChunk(ghost calls0: seq<string>, ghost trace0: seq<TraceEvent>, ghost acc: seq<TrackResult>,
                           items: seq<Pair>, i: nat, end: nat,
                           ghost calls: seq<string>, ghost trace: seq<TraceEvent>, ghost rs: seq<TrackResult>, now: int)
      requires i < |items| && end == (if i + BatchSize < |items| then i + BatchSize else |items|)
      requires BatchDone(TrackSingleOf(dhl.env.transport, now), calls0, trace0, items, i, BatchSize, BatchDelayMs, acc,
                         calls, trace)
      requires rs == Outcomes(TrackSingleOf(dhl.env.transport, now), calls, items[i..end])
      requires dhl.env.calls == calls + Keys(items[i..end])
      requires dhl.env.trace == trace + CallsOf(Keys(items[i..end]))
      modifies dhl.env
      ensures BatchDone(TrackSingleOf(dhl.env.transport, now), calls0, trace0, items, end, BatchSize, BatchDelayMs, acc + rs,
                        dhl.env.calls, dhl.env.trace)
    {
      ghost var before := dhl.env.trace;
      if end < |items| {
        dhl.env.Sleep(BatchDelayMs);
        assert dhl.env.trace == before + PauseIf(true, BatchDelayMs);
      } else {
        NoPause(before, BatchDelayMs);
      }
      BatchStep(TrackSingleOf(dhl.env.transport, now), calls0, trace0, items, i, end, BatchSize, BatchDelayMs, acc,
                calls, trace, rs, dhl.env.trace);
    }

    /** The first pass of `_process_with_multi_retry` (lines 130-165). */
    method FirstPass(items: seq<Pair>, batchId: string, repo: TrackingRepository, usage: ApiUsageRepository,
                     today: string, now: int)
      returns (successes: seq<TrackResult>, failing: seq<Pair>, apiCalls: nat)
      requires repo.Valid()
      modifies dhl.env, repo, usage
      ensures repo.Valid()
      ensures Matches(old(dhl.env.trace), old(repo.records), old(usage.days), today, now,
                      FirstPassTally(TrackSingleOf(dhl.env.transport, now), old(dhl.env.calls), items, batchId),
                      dhl.env.calls, dhl.env.trace, repo.records, usage.days, successes, failing, apiCalls)
    {
      ghost var calls0, trace0 := dhl.env.calls, dhl.env.trace;
      ghost var store0, days0 := repo.records, usage.days;
      ghost var acc: seq<TrackResult> := [];
      successes, failing, apiCalls := [], [], 0;
      var i := 0;
      assert items[..0] == [] && items[0..] == items;
      while i < |items|
        invariant 0 <= i <= |items| && repo.Valid() && apiCalls == i
        invariant BatchDone(TrackSingleOf(dhl.env.transport, now), calls0, trace0, items, i, BatchSize, BatchDelayMs, acc,
                            dhl.env.calls, dhl.env.trace)
        invariant Absorbed(store0, days0, today, now, acc, Some(batchId), false, repo.records, usage.days,
                           successes, failing)
        decreases |items| - i
      {
        var end, rs;
        end, rs, successes, failing := FirstPassChunk(calls0, trace0, store0, days0, acc, items, i, batchId,
                                                      successes, failing, repo, usage, today, now);
        apiCalls := apiCalls + (end - i);
        acc := acc + rs;
        i := end;
      }
      FirstPassMatches(TrackSingleOf(dhl.env.transport, now), calls0, trace0, store0, days0, items, batchId, today, now, acc,
                       dhl.env.calls, dhl.env.trace, repo.records, usage.days, successes, failing, apiCalls);
    }

    /** `_retry_failed_waybills(failed, attempt)` */
    method RetryFailedWaybills(failed: seq<Pair>, attempt: nat, repo: TrackingRepository, usage: ApiUsageRepository,
                               today: string, now: int)
      returns (successful: seq<TrackResult>, stillFailed: seq<Pair>)
      requires repo.Valid()
      modifies dhl.env, repo, usage
      ensures repo.Valid()
      ensures failed == [] ==>
        && successful == [] && stillFailed == []
        && dhl.env.calls == old(dhl.env.calls) && dhl.env.trace == old(dhl.env.trace)
        && repo.records == old(repo.records) && usage.days == old(usage.days)
      ensures failed != [] ==>
        && dhl.env.calls == old(dhl.env.calls) + Keys(failed)
        && dhl.env.trace == old(dhl.env.trace) + [Slept(RetryDelayMs(attempt))]
                            + BatchTrace(failed, Config.DhlBatchSize, RetryPauseMs)
        && Absorbed(old(repo.records), old(usage.days), today, now,
                    Outcomes(TrackSingleOf(dhl.env.transport, now), old(dhl.env.calls), failed), None, true,
                    repo.records, usage.days, successful, stillFailed)
    {
      if failed == [] {
        return [], [];
      }
      var delayMs := RetryDelayMs(attempt);
      dhl.env.Sleep(delayMs);
      var rs := dhl.TrackBatch(failed, RetryPauseMs, now);
      assert Absorbed(repo.records, usage.days, today, now, [], None, true, repo.records, usage.days, [], []);
      successful, stillFailed := AbsorbAll(repo.records, usage.days, [], rs, None, true, [], [], repo, usage, today, now);
      assert [] + rs == rs;
    }

    /** Round `attempt` of the retry loop (lines 183-195) when waybills are
        failing: the retry, its successes added, its failures kept. */
    method RetryRound(ghost trace0: seq<TraceEvent>, ghost store0: map<string, TrackingRecord>,
                      ghost days0: map<string, Usage>, ghost st0: Tally, ghost done: nat, attempt: nat,
                      successes0: seq<TrackResult>, failing0: seq<Pair>, apiCalls0: nat,
                      repo: TrackingRepository, usage: ApiUsageRepository, today: string, now: int)
      returns (successes: seq<TrackResult>, failing: seq<Pair>, apiCalls: nat)
      requires repo.Valid() && failing0 != [] && attempt == done + 1
      requires Matches(trace0, store0, days0, today, now, Rounds(TrackSingleOf(dhl.env.transport, now), st0, done),
                       dhl.env.calls, dhl.env.trace, repo.records, usage.days, successes0, failing0, apiCalls0)
      modifies dhl.env, repo, usage
      ensures repo.Valid()
      ensures Matches(trace0, store0, days0, today, now, Rounds(TrackSingleOf(dhl.env.transport, now), st0, attempt),
                      dhl.env.calls, dhl.env.trace, repo.records, usage.days, successes, failing, apiCalls)
    {
      ghost var st := Rounds(TrackSingleOf(dhl.env.transport, now), st0, done);
      ghost var store, days, calls, trace := repo.records, usage.days, dhl.env.calls, dhl.env.trace;
      ghost var rs := Outcomes(TrackSingleOf(dhl.env.transport, now), calls, failing0);
      var successful, still := RetryFailedWaybills(failing0, attempt, repo, usage, today, now);
      RetryMatches(trace0, store0, days0, today, now, st, attempt, rs, calls, trace, store, days,
                   successes0, failing0, apiCalls0,
                   dhl.env.calls, dhl.env.trace, repo.records, usage.days, successful, still);
      MatchesPosition(trace0, store0, days0, today, now, st, calls, trace, store, days, successes0, failing0, apiCalls0);
      RoundsNext(TrackSingleOf(dhl.env.transport, now), st0, done, calls, failing0, rs);
      successes := successes0 + successful;
      failing := still;
      apiCalls := apiCalls0 + |successful| + |still|;
    }

    /** The retry rounds of `_process_with_multi_retry` (lines 172-205),
        from the state the first pass left. */
    method RetryRounds(ghost trace0: seq<TraceEvent>, ghost store0: map<string, TrackingRecord>,
                       ghost days0: map<string, Usage>, ghost st0: Tally,
                       successes0: seq<TrackResult>, failing0: seq<Pair>, apiCalls0: nat,
                       repo: TrackingRepository, usage: ApiUsageRepository, today: string, now: int)
      returns (successes: seq<TrackResult>, failing: seq<Pair>, apiCalls: nat)
      requires repo.Valid()
      requires Matches(trace0, store0, days0, today, now, st0, dhl.env.calls, dhl.env.trace, repo.records,
                       usage.days, successes0, failing0, apiCalls0)
      modifies dhl.env, repo, usage
      ensures repo.Valid()
      ensures Matches(trace0, store0, days0, today, now, Rounds(TrackSingleOf(dhl.env.transport, now), st0, MaxRetries),
                      dhl.env.calls, dhl.env.trace, repo.records, usage.days, successes, failing, apiCalls)
    {
      successes, failing, apiCalls := successes0, failing0, apiCalls0;
      var attempt := 1;
      ghost var done := 0;
      while attempt <= MaxRetries
        invariant 1 <= attempt <= MaxRetries + 1 && repo.Valid() && done == attempt - 1
        invariant Matches(trace0, store0, days0, today, now, Rounds(TrackSingleOf(dhl.env.transport, now), st0, done),
                          dhl.env.calls, dhl.env.trace, repo.records, usage.days, successes, failing, apiCalls)
        decreases MaxRetries + 1 - attempt
      {
        if failing == [] {
          break;
        }
        successes, failing, apiCalls := RetryRound(trace0, store0, days0, st0, done, attempt, successes, failing, apiCalls,
                                                   repo, usage, today, now);
        done := attempt;
        attempt := attempt + 1;
      }
      RoundsDone(TrackSingleOf(dhl.env.transport, now), st0, done, failing);
    }

    /** The failure records of lines 207-221. */
    method RecordTerminalFailures(failing: seq<Pair>, batchId: string, repo: TrackingRepository, now: int)
      requires repo.Valid()
      modifies repo
      ensures repo.Valid()
      ensures repo.records == UpsertAll(old(repo.records), TerminalPatches(failing, batchId, now), now)
    {
      var terminal := TerminalPatches(failing, batchId, now);
      var j := 0;
      assert terminal[..0] == [];
      while j < |failing|
        invariant 0 <= j <= |failing| && repo.Valid()
        invariant AllKeyed(terminal[..j])
        invariant repo.records == UpsertAll(old(repo.records), terminal[..j], now)
      {
        var _ := repo.Upsert(TerminalPatch(failing[j], batchId, now), now);
        UpsertAllStep(old(repo.records), terminal, j, now);
        j := j + 1;
      }
      assert terminal[..j] == terminal;
    }

    /** `_process_with_multi_retry(tracking_data, batch_id)` */
    method ProcessWithMultiRetry(items: seq<Pair>, batchId: string, repo: TrackingRepository,
                                 usage: ApiUsageRepository, today: string, now: int)
      returns (out: RetryOutcome)
      requires repo.Valid()
      modifies dhl.env, repo, usage
      ensures repo.Valid()
      ensures var m := MultiRetry(TrackSingleOf(dhl.env.transport, now), old(dhl.env.calls), items, batchId, now);
        && dhl.env.calls == m.calls
        && dhl.env.trace == old(dhl.env.trace) + m.trace
        && repo.records == UpsertAll(old(repo.records), m.patches, now)
        && usage.days == Recorded(old(usage.days), today, m.flags, now)
        && out == RetryOutcome(m.successes, m.failing, m.apiCalls)
    {
      ghost var look, calls0, trace0 := TrackSingleOf(dhl.env.transport, now), dhl.env.calls, dhl.env.trace;
      ghost var store0, days0 := repo.records, usage.days;
      ghost var st0 := FirstPassTally(look, calls0, items, batchId);
      var successes: seq<TrackResult>, failing: seq<Pair>, apiCalls: nat := FirstPass(items, batchId, repo, usage, today, now);
      ghost var st := Rounds(look, st0, MaxRetries);
      if failing != [] {
        successes, failing, apiCalls := RetryRounds(trace0, store0, days0, st0, successes, failing, apiCalls,
                                                    repo, usage, today, now);
        ghost var storeMid := repo.records;
        if failing != [] {
          RecordTerminalFailures(failing, batchId, repo, now);
        }
        StoreAfter(store0, st.patches, TerminalPatches(st.failing, batchId, now), storeMid, repo.records, now);
      } else {
        RoundsIdle(look, st0, 0, MaxRetries);
        assert st.patches + TerminalPatches(st.failing, batchId, now) == st.patches;
      }
      out := RetryOutcome(successes, failing, apiCalls);
    }

    /** `[get_by_tracking_number(k) for k in keys]` without the misses
        (lines 312-316 and, for the live cached records, 323). */
    method ReadBack(keys: seq<string>, repo: TrackingRepository) returns (rs: seq<TrackingRecord>)
      requires repo.Valid()
      ensures rs == ReRead(repo.records, keys)
    {
      rs := [];
      var j := 0;
      while j < |keys|
        invariant 0 <= j <= |keys|
        invariant rs == ReRead(repo.records, keys[..j])
      {
        var r := repo.GetByTrackingNumber(keys[j]);
        assert keys[..j + 1][..j] == keys[..j];
        if r.Some? {
          rs := rs + [r.value];
        }
        j := j + 1;
      }
      assert keys[..j] == keys;
    }

    /** The cache split of lines 285-302 over the dictionary of existing
        records: a missing bin is filled in (on the live record and in the
        table), a record checked within the hour is used as it is, anything
        else is looked up. */
    method SplitCached(data: seq<Pair>, existing0: map<string, TrackingRecord>, repo: TrackingRepository, now: int)
      returns (cached: seq<string>, pending: seq<Pair>)
      requires repo.Valid()
      requires forall i :: 0 <= i < |data| ==> (data[i].0 in existing0 <==> data[i].0 in repo.records)
      requires forall w :: w in existing0 ==> w in repo.records && existing0[w] == repo.records[w]
      modifies repo
      ensures repo.Valid()
      ensures repo.records == Classify(old(repo.records), data, now).store
      ensures cached == Classify(old(repo.records), data, now).cached
      ensures pending == Classify(old(repo.records), data, now).pending
    {
      ghost var store0 := repo.records;
      var existing := existing0;
      cached, pending := [], [];
      var k := 0;
      assert data[..0] == [];
      while k < |data|
        invariant 0 <= k <= |data| && repo.Valid()
        invariant ClassifyDone(store0, data, k, now, repo.records, existing, cached, pending)
      {
        existing, cached, pending := ClassifyOne(data, k, store0, existing, cached, pending, repo, now);
        k := k + 1;
      }
      assert data[..k] == data;
    }

    /** One turn of the cache split (lines 285-302). */
    method ClassifyOne(data: seq<Pair>, k: nat, ghost store0: map<string, TrackingRecord>,
                       existing0: map<string, TrackingRecord>, cached0: seq<string>, pending0: seq<Pair>,
                       repo: TrackingRepository, now: int)
      returns (existing: map<string, TrackingRecord>, cached: seq<string>, pending: seq<Pair>)
      requires k < |data| && repo.Valid()
      requires ClassifyDone(store0, data, k, now, repo.records, existing0, cached0, pending0)
      modifies repo
      ensures repo.Valid()
      ensures ClassifyDone(store0, data, k + 1, now, repo.records, existing, cached, pending)
    {
      existing, cached, pending := existing0, cached0, pending0;
      var (w, bin) := data[k];
      ghost var store := repo.records;
      assert data[..k + 1][..k] == data[..k];
      if w in existing {
        var record := existing[w];
        if NeedsBin(bin, record) {
          var _ := repo.Update(w, BinPatch(bin), now);
          record := Updated(record, BinPatch(bin), now);
          assert (store - {w})[w := record] == store[w := record];
          existing := existing[w := record];
        }
        if Fresh(record, now) {
          cached := cached + [w];
        } else {
          pending := pending + [(w, bin)];
        }
      } else {
        pending := pending + [(w, bin)];
      }
    }

    /** `existing_map` of lines 281-283: the stored records of the batch's
        waybills, by number. */
    method ExistingRecords(data: seq<Pair>, repo: TrackingRepository) returns (existing: map<string, TrackingRecord>)
      requires repo.Valid()
      ensures forall i :: 0 <= i < |data| ==> (data[i].0 in existing <==> data[i].0 in repo.records)
      ensures forall w :: w in existing ==> w in repo.records && existing[w] == repo.records[w]
    {
      var existingRecords := repo.GetMultiple(Keys(data));
      existing := map r | r in existingRecords :: r.trackingNumber := r;
      forall i | 0 <= i < |data| ensures data[i].0 in existing <==> data[i].0 in repo.records {
        assert Keys(data)[i] == data[i].0;
      }
    }

    /** `process_batch` after the quota check and the truncation (lines
        280-324). */
    method ProcessWithinQuota(data: seq<Pair>, batchId: string, repo: TrackingRepository,
                              usage: ApiUsageRepository, today: string, now: int)
      returns (result: BatchResult)
      requires repo.Valid()
      modifies dhl.env, repo, usage
      ensures repo.Valid()
      ensures var run := ProcessData(TrackSingleOf(dhl.env.transport, now), old(dhl.env.calls), old(repo.records),
                                     old(usage.days), data, batchId, today, now);
        && result == run.result && repo.records == run.store && usage.days == run.days
        && dhl.env.calls == run.calls && dhl.env.trace == old(dhl.env.trace) + run.trace
    {
      var existing := ExistingRecords(data, repo);
      var cached, pending := SplitCached(data, existing, repo, now);
      if pending == [] {
        var cachedRecords := ReadBack(cached, repo);
        return BatchResult(batchId, |data|, |cachedRecords|, 0, cachedRecords, 0, None);
      }
      var out := ProcessWithMultiRetry(pending, batchId, repo, usage, today, now);
      var found := ReadBack(TrackingNumbers(out.successfulResults), repo);
      var cachedRecords := ReadBack(cached, repo);
      result := BatchResult(batchId, |data|, |found| + |cachedRecords|, |out.failedWaybills|,
                            found + cachedRecords, out.totalApiCalls, None);
    }

    /** `process_batch(tracking_data)` for the batch id `batchId` (lines
        253-338). No raised error reaches the handler of lines 340-344:
        every upsert here supplies a tracking number. */
    method ProcessBatch(items: seq<Pair>, batchId: string, repo: TrackingRepository,
                        usage: ApiUsageRepository, today: string, now: int)
      returns (result: BatchResult)
      requires repo.Valid()
      modifies dhl.env, repo, usage
      ensures repo.Valid()
      ensures var run := ProcessBatchSpec(TrackSingleOf(dhl.env.transport, now), old(dhl.env.calls),
                                          old(repo.records), old(usage.days), items, batchId, today, now);
        && result == run.result && repo.records == run.store && usage.days == run.days
        && dhl.env.calls == run.calls && dhl.env.trace == old(dhl.env.trace) + run.trace
    {
      var remaining := usage.GetRemainingRequests(Config.DhlDailyLimit, today, now);
      if remaining == 0 {
        return BatchResult(batchId, |items|, 0, |items|, [], 0, Some(QuotaMessage));
      }
      var data := if |items| > remaining then items[..remaining] else items;
      result := ProcessWithinQuota(data, batchId, repo, usage, today, now);
    }

    /** `process_large_batch`: the same run. */
    method ProcessLargeBatch(items: seq<Pair>, batchId: string, repo: TrackingRepository,
                             usage: ApiUsageRepository, today: string, now: int)
      returns (result: BatchResult)
      requires repo.Valid()
      modifies dhl.env, repo, usage
      ensures repo.Valid()
      ensures var run := ProcessBatchSpec(TrackSingleOf(dhl.env.transport, now), old(dhl.env.calls),
                                          old(repo.records), old(usage.days), items, batchId, today, now);
        && result == run.result && repo.records == run.store && usage.days == run.days
        && dhl.env.calls == run.calls && dhl.env.trace == old(dhl.env.trace) + run.trace
    {
      result := ProcessBatch(items, batchId, repo, usage, today, now);
    }
  }
}
