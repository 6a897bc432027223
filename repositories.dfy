/** The data-access layer: the tracking-record repository (a table keyed by
    tracking number) and the per-day API usage repository (a table keyed by
    ISO date). The database is an in-memory map; a commit that the database
    would refuse (a NULL or duplicate tracking number) is an `Err` that
    leaves the map as it was. */
module Repositories {
  import opened Common
  import opened Records

  /** SQLite's refusal of a row without a tracking number. */
  const NotNullViolation := "NOT NULL constraint failed: tracking_records.tracking_number"
  /** SQLite's refusal of a second row with the same tracking number. */
  const UniqueViolation := "UNIQUE constraint failed: tracking_records.tracking_number"

  /** Every row is stored under its own tracking number. */
  ghost predicate StoreValid(store: map<string, TrackingRecord>) {
    forall k :: k in store ==> store[k].trackingNumber == k
  }

  /** The table after `upsert(d)` for a dictionary with a tracking number:
      the existing row updated, or a new row created. */
  function UpsertStore(store: map<string, TrackingRecord>, p: Patch, now: int): (s: map<string, TrackingRecord>)
    requires Keyed(p)
    ensures s.Keys == store.Keys + {p.trackingNumber.value}
    ensures StoreValid(store) ==> StoreValid(s)
  {
    var k := p.trackingNumber.value;
    if k in store then store[k := Updated(store[k], p, now)] else store[k := Created(p, now)]
  }

  predicate AllKeyed(ps: seq<Patch>) {
    forall i :: 0 <= i < |ps| ==> Keyed(ps[i])
  }

  /** The tracking numbers a sequence of dictionaries supplies. */
  function PatchKeys(ps: seq<Patch>): (ks: set<string>)
    requires AllKeyed(ps)
    ensures forall i :: 0 <= i < |ps| ==> ps[i].trackingNumber.value in ks
    ensures forall k :: k in ks ==> exists i :: 0 <= i < |ps| && ps[i].trackingNumber.value == k
  {
    set i | 0 <= i < |ps| :: ps[i].trackingNumber.value
  }

  /** The table after upserting the dictionaries one after the other. */
  function UpsertAll(store: map<string, TrackingRecord>, ps: seq<Patch>, now: int): map<string, TrackingRecord>
    requires AllKeyed(ps)
  {
    if ps == [] then store
    else UpsertStore(UpsertAll(store, ps[..|ps| - 1], now), ps[|ps| - 1], now)
  }

  lemma UpsertAllStep(store: map<string, TrackingRecord>, ps: seq<Patch>, n: nat, now: int)
    requires n < |ps| && AllKeyed(ps[..n]) && Keyed(ps[n])
    ensures AllKeyed(ps[..n + 1])
    ensures UpsertAll(store, ps[..n + 1], now) == UpsertStore(UpsertAll(store, ps[..n], now), ps[n], now)
  {
    assert ps[..n + 1][..n] == ps[..n];
    assert forall i :: 0 <= i < n ==> ps[..n + 1][i] == ps[..n][i];
  }

  lemma {:induction false} UpsertAllAppend(store: map<string, TrackingRecord>, a: seq<Patch>, b: seq<Patch>, now: int)
    requires AllKeyed(a) && AllKeyed(b)
    ensures AllKeyed(a + b)
    ensures UpsertAll(store, a + b, now) == UpsertAll(UpsertAll(store, a, now), b, now)
    decreases |b|
  {
    assert AllKeyed(a + b) by {
      forall i | 0 <= i < |a + b| ensures Keyed((a + b)[i]) {
        if i < |a| { assert (a + b)[i] == a[i]; } else { assert (a + b)[i] == b[i - |a|]; }
      }
    }
    if b == [] {
      assert a + b == a;
    } else {
      var b' := b[..|b| - 1];
      assert (a + b)[..|a + b| - 1] == a + b';
      assert (a + b)[|a + b| - 1] == b[|b| - 1];
      UpsertAllAppend(store, a, b', now);
    }
  }

  /** Upserting never loses a row and adds exactly the supplied keys; rows
      whose key is not supplied are untouched; the table stays keyed by
      tracking number. */
  lemma {:induction false} UpsertAllFacts(store: map<string, TrackingRecord>, ps: seq<Patch>, now: int)
    requires AllKeyed(ps)
    ensures UpsertAll(store, ps, now).Keys == store.Keys + PatchKeys(ps)
    ensures forall k :: k in store && k !in PatchKeys(ps) ==> UpsertAll(store, ps, now)[k] == store[k]
    ensures StoreValid(store) ==> StoreValid(UpsertAll(store, ps, now))
  {
    if ps != [] {
      var init := ps[..|ps| - 1];
      UpsertAllFacts(store, init, now);
      PatchKeysSnoc(ps);
    }
  }

  lemma PatchKeysSnoc(ps: seq<Patch>)
    requires ps != [] && AllKeyed(ps)
    ensures AllKeyed(ps[..|ps| - 1])
    ensures PatchKeys(ps) == PatchKeys(ps[..|ps| - 1]) + {ps[|ps| - 1].trackingNumber.value}
  {
    var init := ps[..|ps| - 1];
    assert AllKeyed(init) by {
      forall i | 0 <= i < |init| ensures Keyed(init[i]) { assert init[i] == ps[i]; }
    }
    forall k | k in PatchKeys(ps) ensures k in PatchKeys(init) + {ps[|ps| - 1].trackingNumber.value} {
      var i :| 0 <= i < |ps| && ps[i].trackingNumber.value == k;
      if i < |ps| - 1 { assert init[i] == ps[i]; }
    }
    forall k | k in PatchKeys(init) ensures k in PatchKeys(ps) {
      var i :| 0 <= i < |init| && init[i].trackingNumber.value == k;
      assert ps[i] == init[i];
    }
  }

  /** The table after `mark_bin_closure_email_sent`. */
  function MarkedSent(store: map<string, TrackingRecord>, tn: string, now: int): map<string, TrackingRecord> {
    if tn in store && !store[tn].binClosureEmailSent
    then store[tn := store[tn].(binClosureEmailSent := true, binClosureEmailSentAt := Some(now), updatedAt := Some(now))]
    else store
  }

  /** Marking is idempotent: once the flag is set a second call changes
      nothing, and reports so. */
  lemma MarkedSentIdempotent(store: map<string, TrackingRecord>, tn: string, now: int, later: int)
    ensures var s := MarkedSent(store, tn, now);
      && MarkedSent(s, tn, later) == s
      && !(tn in s && !s[tn].binClosureEmailSent)
  {
  }

  class TrackingRepository {
    var records: map<string, TrackingRecord>

    ghost predicate Valid()
      reads this
    {
      StoreValid(records)
    }

    constructor()
      ensures Valid() && records == map[]
    {
      records := map[];
    }

    /** `create(d)`: the row `TrackingRecord(**d)`, refused when it lacks a
        tracking number or one with the same number exists. */
    method Create(p: Patch, now: int) returns (r: Result<TrackingRecord>)
      requires Valid()
      modifies this
      ensures Valid()
      ensures !Keyed(p) ==> r == Err(NotNullViolation) && records == old(records)
      ensures Keyed(p) && p.trackingNumber.value in old(records) ==>
        r == Err(UniqueViolation) && records == old(records)
      ensures Keyed(p) && p.trackingNumber.value !in old(records) ==>
        r == Ok(Created(p, now)) && records == old(records)[p.trackingNumber.value := Created(p, now)]
    {
      if p.trackingNumber.None? {
        return Err(NotNullViolation);
      }
      var k := p.trackingNumber.value;
      if k in records {
        return Err(UniqueViolation);
      }
      var row := Created(p, now);
      records := records[k := row];
      r := Ok(row);
    }

    /** `get_by_tracking_number(tn)` */
    method GetByTrackingNumber(tn: string) returns (r: Option<TrackingRecord>)
      requires Valid()
      ensures r.Some? <==> tn in records
      ensures r.Some? ==> r.value == records[tn] && r.value.trackingNumber == tn
    {
      if tn in records {
        r := Some(records[tn]);
      } else {
        r := None;
      }
    }

    /** `get_by_tracking_number_async(tn)`: the same lookup. */
    method GetByTrackingNumberAsync(tn: string) returns (r: Option<TrackingRecord>)
      requires Valid()
      ensures r.Some? <==> tn in records
      ensures r.Some? ==> r.value == records[tn] && r.value.trackingNumber == tn
    {
      r := GetByTrackingNumber(tn);
    }

    /** `get_multiple(tns)`: every stored row whose number is requested,
        each once. The SQL query fixes no order; here rows come in the
        order their numbers are first requested. */
    method GetMultiple(tns: seq<string>) returns (rs: seq<TrackingRecord>)
      requires Valid()
      ensures forall i :: 0 <= i < |rs| ==>
        rs[i].trackingNumber in tns && rs[i].trackingNumber in records && records[rs[i].trackingNumber] == rs[i]
      ensures forall t :: t in tns && t in records ==> exists i :: 0 <= i < |rs| && rs[i].trackingNumber == t
      ensures forall i, j :: 0 <= i < j < |rs| ==> rs[i].trackingNumber != rs[j].trackingNumber
    {
      rs := [];
      var seen: set<string> := {};
      var n := 0;
      while n < |tns|
        invariant 0 <= n <= |tns|
        invariant forall i :: 0 <= i < |rs| ==>
          rs[i].trackingNumber in tns[..n] && rs[i].trackingNumber in records && records[rs[i].trackingNumber] == rs[i]
        invariant forall t :: t in tns[..n] && t in records ==> t in seen
        invariant forall t :: t in seen ==> exists i :: 0 <= i < |rs| && rs[i].trackingNumber == t
        invariant forall i :: 0 <= i < |rs| ==> rs[i].trackingNumber in seen
        invariant forall i, j :: 0 <= i < j < |rs| ==> rs[i].trackingNumber != rs[j].trackingNumber
      {
        var t := tns[n];
        assert tns[..n + 1] == tns[..n] + [t];
        if t in records && t !in seen {
          var before := rs;
          rs := rs + [records[t]];
          assert forall i :: 0 <= i < |before| ==> rs[i] == before[i];
          assert rs[|rs| - 1].trackingNumber == t;
          seen := seen + {t};
        }
        n := n + 1;
      }
      assert tns[..n] == tns;
    }

    /** `update(tn, d)`: sets every supplied key (a supplied tracking number
        renames the row, refused when another row has it), then refreshes
        `updated_at` and `last_checked`. A missing row is left alone. */
    method Update(tn: string, p: Patch, now: int) returns (r: Result<Option<TrackingRecord>>)
      requires Valid()
      modifies this
      ensures Valid()
      ensures tn !in old(records) ==> r == Ok(None) && records == old(records)
      ensures tn in old(records) ==>
        var u := Updated(old(records)[tn], p, now);
        if u.trackingNumber == tn || u.trackingNumber !in old(records)
        then r == Ok(Some(u)) && records == (old(records) - {tn})[u.trackingNumber := u]
        else r == Err(UniqueViolation) && records == old(records)
    {
      var existing := GetByTrackingNumber(tn);
      if existing.None? {
        return Ok(None);
      }
      var u := Updated(existing.value, p, now);
      if u.trackingNumber != tn && u.trackingNumber in records {
        return Err(UniqueViolation);
      }
      records := (records - {tn})[u.trackingNumber := u];
      r := Ok(Some(u));
    }

    /** `upsert(d)`: update when a row with `d`'s number exists, create
        otherwise; exactly one row carries that number afterwards. */
    method Upsert(p: Patch, now: int) returns (r: Result<TrackingRecord>)
      requires Valid()
      modifies this
      ensures Valid()
      ensures !Keyed(p) ==> r == Err(NotNullViolation) && records == old(records)
      ensures Keyed(p) ==>
        && records == UpsertStore(old(records), p, now)
        && r == Ok(records[p.trackingNumber.value])
    {
      if p.trackingNumber.None? {
        r := Create(p, now);
        return;
      }
      var k := p.trackingNumber.value;
      var existing := GetByTrackingNumber(k);
      if existing.Some? {
        var u := Update(k, p, now);
        assert Updated(old(records)[k], p, now).trackingNumber == k;
        r := Ok(u.value.value);
      } else {
        r := Create(p, now);
      }
    }

    /** `bulk_upsert(ds)`: one upsert per dictionary, in order. The rows it
        returns are live session objects, so each shows its row as the last
        upsert left it. The first refused dictionary ends the call, leaving
        the earlier upserts done. */
    method BulkUpsert(ps: seq<Patch>, now: int) returns (r: Result<seq<TrackingRecord>>)
      requires Valid()
      modifies this
      ensures Valid()
      ensures AllKeyed(ps) ==>
        && records == UpsertAll(old(records), ps, now)
        && r.Ok? && |r.value| == |ps|
        && (forall i :: 0 <= i < |ps| ==>
              ps[i].trackingNumber.value in records && r.value[i] == records[ps[i].trackingNumber.value])
      ensures !AllKeyed(ps) ==>
        exists n :: 0 <= n < |ps| && !Keyed(ps[n]) && AllKeyed(ps[..n]) &&
          r == Err(NotNullViolation) && records == UpsertAll(old(records), ps[..n], now)
    {
      ghost var init := records;
      var n := 0;
      while n < |ps|
        invariant 0 <= n <= |ps|
        invariant Valid()
        invariant AllKeyed(ps[..n])
        invariant records == UpsertAll(init, ps[..n], now)
      {
        var one := Upsert(ps[n], now);
        if one.Err? {
          assert !AllKeyed(ps);
          return Err(one.error);
        }
        UpsertAllStep(init, ps, n, now);
        n := n + 1;
      }
      assert ps[..n] == ps;
      UpsertAllFacts(init, ps, now);
      var table := records;
      var out := seq(|ps|, i requires 0 <= i < |ps| => table[ps[i].trackingNumber.value]);
      r := Ok(out);
    }

    /** `delete(tn)`: true iff the row existed; it is gone afterwards. */
    method Delete(tn: string) returns (b: bool)
      requires Valid()
      modifies this
      ensures Valid()
      ensures b <==> tn in old(records)
      ensures records == old(records) - {tn}
    {
      b := tn in records;
      records := records - {tn};
    }

    /** `mark_bin_closure_email_sent(tn)`: sets the flag (and its time) on an
        existing row that has not got it yet, and says whether it did. */
    method MarkBinClosureEmailSent(tn: string, now: int) returns (b: bool)
      requires Valid()
      modifies this
      ensures Valid()
      ensures b <==> tn in old(records) && !old(records)[tn].binClosureEmailSent
      ensures records == MarkedSent(old(records), tn, now)
    {
      var existing := GetByTrackingNumber(tn);
      if existing.Some? && !existing.value.binClosureEmailSent {
        records := records[tn := existing.value.(binClosureEmailSent := true,
                                                 binClosureEmailSentAt := Some(now),
                                                 updatedAt := Some(now))];
        return true;
      }
      return false;
    }
  }

  // ---------------------------------------------------------------------
  // API usage

  /** The usage table after `get_or_create_today`. */
  function WithToday(days: map<string, Usage>, today: string, now: int): (d: map<string, Usage>)
    ensures today in d && d.Keys == days.Keys + {today}
    ensures today in days ==> d == days
    ensures today !in days ==> d[today] == Usage(today, 0, 0, 0, now, None)
  {
    if today in days then days else days[today := Usage(today, 0, 0, 0, now, None)]
  }

  /** Requests made today (a day without a row has made none). */
  function Used(days: map<string, Usage>, today: string): nat {
    if today in days then days[today].requestCount else 0
  }

  /** The usage table after `increment_usage(success)`. */
  function Bump(days: map<string, Usage>, today: string, success: bool, now: int): map<string, Usage> {
    var u := WithToday(days, today, now)[today];
    WithToday(days, today, now)[today := u.(
      requestCount := u.requestCount + 1,
      successfulRequests := if success then u.successfulRequests + 1 else u.successfulRequests,
      failedRequests := if success then u.failedRequests else u.failedRequests + 1,
      updatedAt := Some(now))]
  }

  /** The usage table after one `increment_usage` per flag, in order. */
  function Recorded(days: map<string, Usage>, today: string, flags: seq<bool>, now: int): map<string, Usage> {
    if flags == [] then days
    else Bump(Recorded(days, today, flags[..|flags| - 1], now), today, flags[|flags| - 1], now)
  }

  lemma {:induction false} RecordedAppend(days: map<string, Usage>, today: string, a: seq<bool>, b: seq<bool>, now: int)
    ensures Recorded(days, today, a + b, now) == Recorded(Recorded(days, today, a, now), today, b, now)
    decreases |b|
  {
    if b == [] {
      assert a + b == a;
    } else {
      assert (a + b)[..|a + b| - 1] == a + b[..|b| - 1];
      assert (a + b)[|a + b| - 1] == b[|b| - 1];
      RecordedAppend(days, today, a, b[..|b| - 1], now);
    }
  }

  /** Each recorded request adds one to today's total and one to exactly one
      of its success and failure counts; other days are untouched. */
  lemma {:induction false} RecordedCounts(days: map<string, Usage>, today: string, flags: seq<bool>, now: int)
    ensures var d := Recorded(days, today, flags, now);
      && (flags != [] ==> today in d)
      && Used(d, today) == Used(days, today) + |flags|
      && (today in days ==>
            && d[today].successfulRequests == days[today].successfulRequests + Count(flags, true)
            && d[today].failedRequests == days[today].failedRequests + Count(flags, false))
      && (forall k :: k != today ==> (k in d <==> k in days) && (k in days ==> d[k] == days[k]))
  {
    if flags != [] {
      var init := flags[..|flags| - 1];
      var last := flags[|flags| - 1];
      RecordedCounts(days, today, init, now);
      assert flags == init + [last];
      CountAppend(init, [last], true);
      CountAppend(init, [last], false);
    }
  }

  /** `get_remaining_requests(limit)`: never negative. */
  function Remaining(days: map<string, Usage>, today: string, limit: int): (n: nat)
    ensures n == 0 <==> Used(days, today) >= limit
    ensures n > 0 ==> n + Used(days, today) == limit
  {
    if limit - Used(days, today) > 0 then limit - Used(days, today) else 0
  }

  class ApiUsageRepository {
    var days: map<string, Usage>

    constructor()
      ensures days == map[]
    {
      days := map[];
    }

    /** `get_or_create_today()`: today's row, created with zero counts when
        absent. */
    method GetOrCreateToday(today: string, now: int) returns (u: Usage)
      modifies this
      ensures days == WithToday(old(days), today, now)
      ensures u == days[today]
      ensures today in old(days) ==> u == old(days)[today]
    {
      if today !in days {
        days := days[today := Usage(today, 0, 0, 0, now, None)];
      }
      u := days[today];
    }

    /** `increment_usage(success)` */
    method IncrementUsage(success: bool, today: string, now: int) returns (u: Usage)
      modifies this
      ensures days == Bump(old(days), today, success, now)
      ensures u == days[today] && u.requestCount == Used(old(days), today) + 1
    {
      var current := GetOrCreateToday(today, now);
      u := current.(
        requestCount := current.requestCount + 1,
        successfulRequests := if success then current.successfulRequests + 1 else current.successfulRequests,
        failedRequests := if success then current.failedRequests else current.failedRequests + 1,
        updatedAt := Some(now));
      days := days[today := u];
    }

    /** `get_remaining_requests(limit)`; it creates today's row as a side
        effect. */
    method GetRemainingRequests(limit: int, today: string, now: int) returns (n: nat)
      modifies this
      ensures days == WithToday(old(days), today, now)
      ensures n == Remaining(old(days), today, limit)
    {
      var u := GetOrCreateToday(today, now);
      n := if limit - u.requestCount > 0 then limit - u.requestCount else 0;
    }

    /** `can_make_request(limit)`: some requests remain today. */
    method CanMakeRequest(limit: int, today: string, now: int) returns (b: bool)
      modifies this
      ensures days == WithToday(old(days), today, now)
      ensures b <==> Used(old(days), today) < limit
    {
      var n := GetRemainingRequests(limit, today, now);
      b := n > 0;
    }
  }
}
