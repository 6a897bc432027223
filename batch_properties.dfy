/** What a whole batch run guarantees, stated over the specification
    functions of the batch processor: the cache split, the bookkeeping of
    the first pass and the retry rounds, the failure records, the totals
    `process_batch` reports, and how far the requests can exceed the day's
    quota. */
module BatchProperties {
  import opened Common
  import opened Records
  import opened Repositories
  import opened DhlService
  import opened BatchProcessor
  import Config

  // ---------------------------------------------------------------------
  // The cache split

  /** A check made now is fresh. */
  lemma FreshNow(r: TrackingRecord, p: Patch, now: int)
    ensures Fresh(Updated(r, p, now), now)
  {
    assert (now - now) % 86400 == 0;
  }

  /** One item of the split, for a stored waybill: its bin is filled in only
      when the item brings one and the record has none; a record whose bin
      was just filled in counts as checked now and is answered from the
      cache; otherwise the record is untouched and answered from the cache
      exactly when it is fresh. */
  lemma ClassifyStepBin(c: Classification, p: Pair, now: int)
    requires p.0 in c.store
    ensures var c' := ClassifyStep(c, p, now);
      && c'.store.Keys == c.store.Keys
      && (forall w :: w in c.store && w != p.0 ==> c'.store[w] == c.store[w])
      && (NeedsBin(p.1, c.store[p.0]) ==>
            c'.store[p.0] == Updated(c.store[p.0], BinPatch(p.1), now) && c'.store[p.0].binId == p.1 &&
            c'.cached == c.cached + [p.0] && c'.pending == c.pending)
      && (!NeedsBin(p.1, c.store[p.0]) ==> c'.store == c.store)
      && (Fresh(c'.store[p.0], now) ==> c'.cached == c.cached + [p.0] && c'.pending == c.pending)
      && (!Fresh(c'.store[p.0], now) ==> c'.cached == c.cached && c'.pending == c.pending + [p])
  {
    var r := c.store[p.0];
    if NeedsBin(p.1, r) {
      FreshNow(r, BinPatch(p.1), now);
      UpdatedFields(r, BinPatch(p.1), now);
    }
  }

  /** The split as a whole: every item is either answered from the cache or
      looked up, in input order; the items looked up are items of the batch,
      and every waybill without a record is among them; what is answered
      from the cache is a stored record checked within the hour; the table
      keeps its keys and stays keyed by tracking number. */
  lemma {:induction false} ClassifySplit(store: map<string, TrackingRecord>, items: seq<Pair>, now: int)
    ensures |Classify(store, items, now).cached| + |Classify(store, items, now).pending| == |items|
    ensures Classify(store, items, now).store.Keys == store.Keys
    ensures StoreValid(store) ==> StoreValid(Classify(store, items, now).store)
    ensures forall i :: 0 <= i < |Classify(store, items, now).cached| ==>
      Classify(store, items, now).cached[i] in Classify(store, items, now).store &&
      Fresh(Classify(store, items, now).store[Classify(store, items, now).cached[i]], now)
    ensures forall i :: 0 <= i < |Classify(store, items, now).pending| ==> Classify(store, items, now).pending[i] in items
    ensures forall i :: 0 <= i < |items| && items[i].0 !in store ==> items[i] in Classify(store, items, now).pending
    decreases |items|
  {
    if items != [] {
      var init := items[..|items| - 1];
      var p := items[|items| - 1];
      ClassifySplit(store, init, now);
      var c := Classify(store, init, now);
      var c' := ClassifyStep(c, p, now);
      assert Classify(store, items, now) == c';
      if p.0 in c.store {
        ClassifyStepBin(c, p, now);
        UpdatedFields(c.store[p.0], BinPatch(p.1), now);
        forall i | 0 <= i < |c'.cached| ensures c'.cached[i] in c'.store && Fresh(c'.store[c'.cached[i]], now) {
          if i < |c.cached| && c.cached[i] == p.0 && NeedsBin(p.1, c.store[p.0]) {
            FreshNow(c.store[p.0], BinPatch(p.1), now);
          }
        }
      }
      forall i | 0 <= i < |c'.pending| ensures c'.pending[i] in items {
        if i < |c.pending| {
          assert c'.pending[i] == c.pending[i];
          assert c.pending[i] in init;
        }
      }
      forall i | 0 <= i < |items| && items[i].0 !in store ensures items[i] in c'.pending {
        if i < |items| - 1 {
          assert items[i] == init[i];
        }
      }
    }
  }

  /** With no stored records, every item is looked up. */
  lemma {:induction false} ClassifyEmpty(items: seq<Pair>, now: int)
    ensures Classify(map[], items, now) == Classification(map[], [], items)
    decreases |items|
  {
    if items != [] {
      ClassifyEmpty(items[..|items| - 1], now);
      assert items == items[..|items| - 1] + [items[|items| - 1]];
    }
  }

  // ---------------------------------------------------------------------
  // The bookkeeping of a run

  /** The numbers of a sequence of dictionaries, in order. */
  function PatchNumbers(ps: seq<Patch>): (ks: seq<string>)
    requires AllKeyed(ps)
    ensures |ks| == |ps| && forall i :: 0 <= i < |ps| ==> ks[i] == ps[i].trackingNumber.value
  {
    seq(|ps|, i requires 0 <= i < |ps| => ps[i].trackingNumber.value)
  }

  /** What every state of a run over `n` waybills keeps, when its first pass
      left `firstFailures` of them failing: each waybill is once a success or
      still failing; every request is counted as an API call; the API calls
      are the usage calls plus the first pass's failures; every success is
      a successful usage call and is upserted. */
  predicate Conserved(st: Tally, calls0: seq<string>, n: nat, firstFailures: nat) {
    && TallyKeyed(st)
    && |st.successes| + |st.failing| == n
    && |st.calls| == |calls0| + st.apiCalls
    && st.calls[..|calls0|] == calls0
    && st.apiCalls == |st.flags| + firstFailures
    && Count(st.flags, true) == |st.successes|
    && PatchNumbers(st.patches) == TrackingNumbers(st.successes)
  }

  lemma FirstPassConserved(look: Lookup, calls0: seq<string>, items: seq<Pair>, batchId: string)
    ensures Conserved(FirstPassTally(look, calls0, items, batchId), calls0, |items|,
                      |FirstPassTally(look, calls0, items, batchId).failing|)
  {
    var rs := Outcomes(look, calls0, items);
    PartitionSizes(rs);
    FlagsCounts(rs, false);
    SuccessPatchKeys(rs, Some(batchId));
    assert (calls0 + Keys(items))[..|calls0|] == calls0;
  }

  lemma RetryStepConserved(st: Tally, rs: seq<TrackResult>, attempt: nat, calls0: seq<string>, n: nat, f: nat)
    requires Conserved(st, calls0, n, f) && |rs| == |st.failing|
    ensures Conserved(RetryStep(st, rs, attempt), calls0, n, f)
  {
    if st.failing != [] {
      var st' := RetryStep(st, rs, attempt);
      PartitionSizes(rs);
      FlagsCounts(rs, true);
      CountAppend(st.flags, Flags(rs, true), true);
      SuccessPatchKeys(rs, None);
      assert (st.calls + Keys(st.failing))[..|calls0|] == st.calls[..|calls0|];
      assert PatchNumbers(st'.patches) == PatchNumbers(st.patches) + PatchNumbers(SuccessPatches(rs, None));
      assert TrackingNumbers(st'.successes) == TrackingNumbers(st.successes) + TrackingNumbers(Successes(rs));
    }
  }

  lemma {:induction false} RoundsConserved(look: Lookup, st0: Tally, k: nat, calls0: seq<string>, n: nat, f: nat)
    requires Conserved(st0, calls0, n, f)
    ensures Conserved(Rounds(look, st0, k), calls0, n, f)
  {
    if k > 0 {
      RoundsConserved(look, st0, k - 1, calls0, n, f);
      var st := Rounds(look, st0, k - 1);
      RetryStepConserved(st, Outcomes(look, st.calls, st.failing), k, calls0, n, f);
    }
  }

  /** The bookkeeping of `_process_with_multi_retry`: every waybill ends
      among the successes or among the failures; the API calls it reports
      are the requests it made; every success was counted as a successful
      usage call and upserted; a first-pass failure is the only request
      without a usage call. */
  lemma MultiRetryAccounting(look: Lookup, calls0: seq<string>, items: seq<Pair>, batchId: string, now: int)
    ensures |MultiRetry(look, calls0, items, batchId, now).successes|
          + |MultiRetry(look, calls0, items, batchId, now).failing| == |items|
    ensures |MultiRetry(look, calls0, items, batchId, now).calls|
         == |calls0| + MultiRetry(look, calls0, items, batchId, now).apiCalls
    ensures MultiRetry(look, calls0, items, batchId, now).calls[..|calls0|] == calls0
    ensures MultiRetry(look, calls0, items, batchId, now).apiCalls
         == |MultiRetry(look, calls0, items, batchId, now).flags| + |FirstPassTally(look, calls0, items, batchId).failing|
    ensures Count(MultiRetry(look, calls0, items, batchId, now).flags, true)
         == |MultiRetry(look, calls0, items, batchId, now).successes|
    ensures forall i :: 0 <= i < |MultiRetry(look, calls0, items, batchId, now).successes| ==>
      MultiRetry(look, calls0, items, batchId, now).successes[i].trackingNumber
        in PatchKeys(MultiRetry(look, calls0, items, batchId, now).patches)
  {
    var st0 := FirstPassTally(look, calls0, items, batchId);
    FirstPassConserved(look, calls0, items, batchId);
    RoundsConserved(look, st0, MaxRetries, calls0, |items|, |st0.failing|);
    var st := Rounds(look, st0, MaxRetries);
    var m := MultiRetry(look, calls0, items, batchId, now);
    forall i | 0 <= i < |m.successes| ensures m.successes[i].trackingNumber in PatchKeys(m.patches) {
      assert TrackingNumbers(st.successes)[i] == PatchNumbers(st.patches)[i];
      assert m.patches[i] == st.patches[i];
    }
  }

  /** The usage table after a run: one request per API call, except the
      first pass's failures, which are not counted. */
  lemma RunUsage(look: Lookup, calls0: seq<string>, items: seq<Pair>, batchId: string,
                 days: map<string, Usage>, today: string, now: int)
    ensures Used(Recorded(days, today, MultiRetry(look, calls0, items, batchId, now).flags, now), today)
          + |FirstPassTally(look, calls0, items, batchId).failing|
         == Used(days, today) + MultiRetry(look, calls0, items, batchId, now).apiCalls
  {
    MultiRetryAccounting(look, calls0, items, batchId, now);
    RecordedCounts(days, today, MultiRetry(look, calls0, items, batchId, now).flags, now);
  }

  /** A run whose first pass leaves nothing failing makes no retry round
      and writes no failure record. */
  lemma NoRetriesWithoutFailures(look: Lookup, calls0: seq<string>, items: seq<Pair>, batchId: string, now: int)
    requires FirstPassTally(look, calls0, items, batchId).failing == []
    ensures MultiRetry(look, calls0, items, batchId, now) == FirstPassTally(look, calls0, items, batchId)
  {
    var st0 := FirstPassTally(look, calls0, items, batchId);
    RoundsIdle(look, st0, 0, MaxRetries);
    assert st0.patches + TerminalPatches([], batchId, now) == st0.patches;
  }

  // ---------------------------------------------------------------------
  // The failure records

  /** A record as the failure record of lines 207-221 leaves it. */
  predicate IsTerminal(r: TrackingRecord, batchId: string, now: int) {
    && !r.isSuccessful
    && r.errorMessage == Some(TerminalMessage)
    && r.batchId == Some(batchId)
    && r.lastChecked == Some(now)
  }

  /** One failure record: the waybill is stored as a failure with the
      terminal message, the batch id, the time of the run and the item's
      bin; every other record is untouched. */
  lemma TerminalStep(before: map<string, TrackingRecord>, p: Pair, batchId: string, now: int)
    ensures p.0 in UpsertStore(before, TerminalPatch(p, batchId, now), now)
    ensures IsTerminal(UpsertStore(before, TerminalPatch(p, batchId, now), now)[p.0], batchId, now)
    ensures UpsertStore(before, TerminalPatch(p, batchId, now), now)[p.0].binId == p.1
    ensures forall w :: w in before && w != p.0 ==> UpsertStore(before, TerminalPatch(p, batchId, now), now)[w] == before[w]
  {
    if p.0 in before {
      UpdatedFields(before[p.0], TerminalPatch(p, batchId, now), now);
    }
  }

  /** The bin of the last item of `failing` for waybill `w`, if any. */
  function LastBin(failing: seq<Pair>, w: string): Option<Option<string>> {
    if failing == [] then None
    else if failing[|failing| - 1].0 == w then Some(failing[|failing| - 1].1)
    else LastBin(failing[..|failing| - 1], w)
  }

  /** Each waybill of `failing` is stored as a failure with the terminal
      message, the batch id and the time of the run, with the bin of its
      last item. */
  predicate Terminated(s: map<string, TrackingRecord>, failing: seq<Pair>, batchId: string, now: int) {
    forall i :: 0 <= i < |failing| ==>
      && failing[i].0 in s
      && IsTerminal(s[failing[i].0], batchId, now)
      && LastBin(failing, failing[i].0) == Some(s[failing[i].0].binId)
  }

  lemma TerminatedStep(before: map<string, TrackingRecord>, init: seq<Pair>, last: Pair, batchId: string, now: int)
    requires Terminated(before, init, batchId, now)
    ensures Terminated(UpsertStore(before, TerminalPatch(last, batchId, now), now), init + [last], batchId, now)
  {
    var after := UpsertStore(before, TerminalPatch(last, batchId, now), now);
    var failing := init + [last];
    assert failing[..|failing| - 1] == init;
    TerminalStep(before, last, batchId, now);
    forall i | 0 <= i < |failing|
      ensures failing[i].0 in after && IsTerminal(after[failing[i].0], batchId, now)
      ensures LastBin(failing, failing[i].0) == Some(after[failing[i].0].binId)
    {
      if failing[i].0 != last.0 {
        assert failing[i] == init[i];
      }
    }
  }

  /** After the failure records of lines 207-221, every waybill still
      failing is stored as a terminal failure. */
  lemma {:induction false} TerminalRecords(store: map<string, TrackingRecord>, failing: seq<Pair>,
                                           batchId: string, now: int)
    ensures Terminated(UpsertAll(store, TerminalPatches(failing, batchId, now), now), failing, batchId, now)
    decreases |failing|
  {
    if failing != [] {
      var init := failing[..|failing| - 1];
      var last := failing[|failing| - 1];
      var ps := TerminalPatches(failing, batchId, now);
      assert ps[..|ps| - 1] == TerminalPatches(init, batchId, now);
      TerminalRecords(store, init, batchId, now);
      TerminatedStep(UpsertAll(store, TerminalPatches(init, batchId, now), now), init, last, batchId, now);
      assert failing == init + [last];
    }
  }

  // ---------------------------------------------------------------------
  // `process_batch`

  /** Re-reading stored numbers finds every one of them, in order. */
  lemma {:induction false} ReReadComplete(store: map<string, TrackingRecord>, keys: seq<string>)
    requires forall i :: 0 <= i < |keys| ==> keys[i] in store
    ensures |ReRead(store, keys)| == |keys|
    ensures forall i :: 0 <= i < |keys| ==> ReRead(store, keys)[i] == store[keys[i]]
    decreases |keys|
  {
    if keys != [] {
      ReReadComplete(store, keys[..|keys| - 1]);
    }
  }

  /** A run within the quota: every item is counted once, as a success
      (looked up or answered from the cache) or as a failure; the API calls
      it reports are the requests it made; it reports no error. */
  lemma ProcessDataTotals(look: Lookup, calls0: seq<string>, store0: map<string, TrackingRecord>,
                          days1: map<string, Usage>, data: seq<Pair>, batchId: string, today: string, now: int)
    ensures ProcessData(look, calls0, store0, days1, data, batchId, today, now).result.totalRequested == |data|
    ensures ProcessData(look, calls0, store0, days1, data, batchId, today, now).result.successful
          + ProcessData(look, calls0, store0, days1, data, batchId, today, now).result.failed == |data|
    ensures |ProcessData(look, calls0, store0, days1, data, batchId, today, now).calls|
         == |calls0| + ProcessData(look, calls0, store0, days1, data, batchId, today, now).result.apiCallsMade
    ensures ProcessData(look, calls0, store0, days1, data, batchId, today, now).calls[..|calls0|] == calls0
    ensures ProcessData(look, calls0, store0, days1, data, batchId, today, now).result.error == None
  {
    var c := Classify(store0, data, now);
    ClassifySplit(store0, data, now);
    if c.pending == [] {
      ReReadComplete(c.store, c.cached);
    } else {
      var m := MultiRetry(look, calls0, c.pending, batchId, now);
      MultiRetryAccounting(look, calls0, c.pending, batchId, now);
      var store2 := UpsertAll(c.store, m.patches, now);
      UpsertAllFacts(c.store, m.patches, now);
      ReReadComplete(store2, TrackingNumbers(m.successes));
      ReReadComplete(store2, c.cached);
    }
  }

  /** With no quota left: every item is reported failed with the quota
      message, nothing is looked up or stored, and only today's usage row
      is created. */
  lemma QuotaExhausted(look: Lookup, calls0: seq<string>, store0: map<string, TrackingRecord>,
                       days0: map<string, Usage>, items: seq<Pair>, batchId: string, today: string, now: int)
    requires Used(days0, today) >= Config.DhlDailyLimit
    ensures ProcessBatchSpec(look, calls0, store0, days0, items, batchId, today, now)
         == BatchRun(BatchResult(batchId, |items|, 0, |items|, [], 0, Some(QuotaMessage)),
                     store0, WithToday(days0, today, now), calls0, [])
  {
  }

  /** With quota left: only the first `remaining` items are processed and
      the total requested is their number; each of them is counted once as
      a success or a failure, so the excess is not counted as failed; the
      API calls reported are the requests made. */
  lemma WithinQuota(look: Lookup, calls0: seq<string>, store0: map<string, TrackingRecord>,
                    days0: map<string, Usage>, items: seq<Pair>, batchId: string, today: string, now: int)
    requires Used(days0, today) < Config.DhlDailyLimit
    ensures ProcessBatchSpec(look, calls0, store0, days0, items, batchId, today, now).result.totalRequested
         == Min(|items|, Config.DhlDailyLimit - Used(days0, today))
    ensures ProcessBatchSpec(look, calls0, store0, days0, items, batchId, today, now).result.successful
          + ProcessBatchSpec(look, calls0, store0, days0, items, batchId, today, now).result.failed
         == ProcessBatchSpec(look, calls0, store0, days0, items, batchId, today, now).result.totalRequested
    ensures |ProcessBatchSpec(look, calls0, store0, days0, items, batchId, today, now).calls|
         == |calls0| + ProcessBatchSpec(look, calls0, store0, days0, items, batchId, today, now).result.apiCallsMade
  {
    var remaining := Remaining(days0, today, Config.DhlDailyLimit);
    var data := if |items| > remaining then items[..remaining] else items;
    ProcessDataTotals(look, calls0, store0, WithToday(days0, today, now), data, batchId, today, now);
  }

  // ---------------------------------------------------------------------
  // The quota and the retries

  /** A lookup that never finds a shipment. */
  ghost predicate NeverTracks(look: Lookup) {
    forall w, b, k :: !look(w, b, k).Tracked?
  }

  /** When every lookup fails, every waybill fails again. */
  lemma {:induction false} FailuresAll(rs: seq<TrackResult>, items: seq<Pair>)
    requires |rs| == |items|
    requires forall i :: 0 <= i < |rs| ==> !rs[i].Tracked? && rs[i].AsPair() == items[i]
    ensures Failures(rs) == items
    decreases |rs|
  {
    if rs != [] {
      FailuresAll(rs[..|rs| - 1], items[..|items| - 1]);
    }
  }

  lemma OutcomesAllFail(look: Lookup, calls: seq<string>, items: seq<Pair>)
    requires Echoes(look) && NeverTracks(look)
    ensures Failures(Outcomes(look, calls, items)) == items
  {
    var rs := Outcomes(look, calls, items);
    OutcomesEcho(look, calls, items);
    forall i | 0 <= i < |rs| ensures !rs[i].Tracked? {
      OutcomesAt(look, calls, items, i);
    }
    FailuresAll(rs, items);
  }

  /** When `items` fail whatever was requested before, each retry round
      looks every one of them up again. */
  lemma {:induction false} RoundsAllFail(look: Lookup, st0: Tally, k: nat, items: seq<Pair>)
    requires items != [] && st0.failing == items
    requires forall calls :: Failures(Outcomes(look, calls, items)) == items
    ensures Rounds(look, st0, k).failing == items
    ensures |Rounds(look, st0, k).calls| == |st0.calls| + k * |items|
  {
    if k > 0 {
      RoundsAllFail(look, st0, k - 1, items);
      var st := Rounds(look, st0, k - 1);
      assert |Rounds(look, st0, k).calls| == |st.calls| + |items|;
      assert (k - 1) * |items| + |items| == k * |items|;
    }
  }

  /** The retries are not bounded by the day's quota: with no stored record
      and a lookup that always fails, a batch of as many waybills as the
      quota allows makes one first-pass request and `MaxRetries` retries
      for each of them. */
  lemma QuotaOverspend(look: Lookup, calls0: seq<string>, days0: map<string, Usage>, items: seq<Pair>,
                       batchId: string, today: string, now: int)
    requires Echoes(look) && NeverTracks(look)
    requires items != [] && Used(days0, today) + |items| == Config.DhlDailyLimit
    ensures |ProcessBatchSpec(look, calls0, map[], days0, items, batchId, today, now).calls|
         == |calls0| + |items| + MaxRetries * |items|
  {
    ClassifyEmpty(items, now);
    var st0 := FirstPassTally(look, calls0, items, batchId);
    var m := MultiRetry(look, calls0, items, batchId, now);
    var run := ProcessBatchSpec(look, calls0, map[], days0, items, batchId, today, now);
    assert Remaining(days0, today, Config.DhlDailyLimit) == |items|;
    assert run == ProcessData(look, calls0, map[], WithToday(days0, today, now), items, batchId, today, now);
    assert run.calls == m.calls;
    assert m.calls == Rounds(look, st0, MaxRetries).calls;
    forall calls ensures Failures(Outcomes(look, calls, items)) == items {
      OutcomesAllFail(look, calls, items);
    }
    RoundsAllFail(look, st0, MaxRetries, items);
    assert |st0.calls| == |calls0| + |items|;
  }
}
