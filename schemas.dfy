/** The request validators of the API schemas: the single tracking number
    input, the JSON list of tracking numbers, and the two plain-text forms
    (one `waybill` or `waybill,binID` per line) of the bulk and export
    requests. */
module Schemas {
  import opened Common

  /** `min_length` and `max_length` of `TrackingNumberInput.tracking_number`. */
  const MinNumberLength: nat := 5
  const MaxNumberLength: nat := 50
  /** `max_length` of `TrackingNumberInput.bin_id`. */
  const MaxBinLength: nat := 100
  /** The record cap of the bulk request, and `max_items` of the JSON list. */
  const MaxRecords: nat := 1000

  const EmptyNumberMessage := "Tracking number cannot be empty"
  const NoNumbersMessage := "No tracking numbers provided"
  const NoValidMessage := "No valid tracking numbers found"
  const TooManyMessage := "Maximum 1000 tracking numbers allowed"
  const NoValidListMessage := "No valid tracking numbers provided"
  /** The field constraints are checked by the validation library before the
      validators run; these stand for its messages. */
  const TooShortMessage := "String is shorter than the field allows"
  const TooLongMessage := "String is longer than the field allows"
  const TooFewMessage := "List has fewer items than the field allows"
  const TooManyItemsMessage := "List has more items than the field allows"

  function NumberKey(s: string): string { s }

  // ---------------------------------------------------------------------
  // TrackingNumberInput

  /** A tracking number as the validators leave it: non-empty, stripped and
      upper-cased. */
  predicate CleanNumber(w: string) {
    w != [] && Strip(w) == w && Upper(w) == w
  }

  /** `tracking_number`: 5 to 50 characters as given, then stripped and
      upper-cased, refused when nothing is left. */
  function ValidateTrackingNumber(v: string): Result<string> {
    if |v| < MinNumberLength then Err(TooShortMessage)
    else if |v| > MaxNumberLength then Err(TooLongMessage)
    else
      var c := Upper(Strip(v));
      if c == [] then Err(EmptyNumberMessage) else Ok(c)
  }

  /** A number is accepted exactly when its text has 5 to 50 characters and
      is not blank; what is accepted is clean and no longer than the text;
      a blank text of an accepted length is refused as empty. */
  lemma ValidateTrackingNumberFacts(v: string)
    ensures ValidateTrackingNumber(v).Ok? <==> MinNumberLength <= |v| <= MaxNumberLength && !AllSpace(v)
    ensures ValidateTrackingNumber(v).Ok? ==>
      CleanNumber(ValidateTrackingNumber(v).value) && |ValidateTrackingNumber(v).value| <= |v|
    ensures ValidateTrackingNumber(v).Err? && MinNumberLength <= |v| <= MaxNumberLength ==>
      ValidateTrackingNumber(v).error == EmptyNumberMessage
  {
    CleanedIsClean(v);
  }

  /** A clean number of an accepted length is accepted unchanged, so the
      validator is idempotent on what it accepts. */
  lemma ValidateCleanNumber(w: string)
    requires CleanNumber(w) && MinNumberLength <= |w| <= MaxNumberLength
    ensures ValidateTrackingNumber(w) == Ok(w)
  {
    assert !AllSpace(w);
  }

  /** The length limits apply to the text as given: surrounding whitespace
      lets a number shorter than five characters through. */
  lemma ValidateNumberShortAfterStrip()
    ensures ValidateTrackingNumber("  ab1  ") == Ok("AB1")
  {
    var v := "  ab1  ";
    assert StripLeft(v) == "ab1  " by {
      assert v[1..][1..] == "ab1  ";
    }
    assert StripRight("ab1  ") == "ab1" by {
      assert "ab1  "[..4][..3] == "ab1";
    }
    assert Upper("ab1") == "AB1";
  }

  /** `bin_id`: at most 100 characters; stripped when non-empty, otherwise
      passed through. */
  function ValidateBinId(v: Option<string>): Result<Option<string>> {
    if v.Some? && |v.value| > MaxBinLength then Err(TooLongMessage)
    else if Truthy(v) then Ok(Some(Strip(v.value)))
    else Ok(v)
  }

  /** Validating a bin twice gives the same bin. */
  lemma ValidateBinIdIdempotent(v: Option<string>)
    requires ValidateBinId(v).Ok?
    ensures ValidateBinId(ValidateBinId(v).value) == ValidateBinId(v)
  {
    if Truthy(v) {
      var s := Strip(v.value);
      StripIdempotent(v.value);
      assert |s| <= MaxBinLength;
      if s != [] {
        assert ValidateBinId(Some(s)) == Ok(Some(Strip(s)));
      } else {
        assert ValidateBinId(Some(s)) == Ok(Some(s));
      }
    }
  }

  // ---------------------------------------------------------------------
  // BulkTrackingRequest

  /** `[num.strip().upper() for num in v if num.strip()]` */
  function CleanNumbers(v: seq<string>): seq<string> {
    if v == [] then []
    else (if Strip(v[0]) != [] then [Upper(Strip(v[0]))] else []) + CleanNumbers(v[1..])
  }

  /** The entries kept are exactly the cleaned non-blank entries. */
  lemma {:induction false} CleanNumbersMembers(v: seq<string>, x: string)
    ensures x in CleanNumbers(v) <==> exists e :: e in v && Strip(e) != [] && x == Upper(Strip(e))
  {
    if v != [] {
      CleanNumbersMembers(v[1..], x);
      if x in CleanNumbers(v[1..]) {
        var e :| e in v[1..] && Strip(e) != [] && x == Upper(Strip(e));
        assert e in v;
      }
      if exists e :: e in v && Strip(e) != [] && x == Upper(Strip(e)) {
        var e :| e in v && Strip(e) != [] && x == Upper(Strip(e));
        if e != v[0] {
          assert e in v[1..];
        }
      }
    }
  }

  /** `validate_tracking_numbers` with the field's item limits: 1 to 1000
      entries, cleaned, refused when none is left, then the first
      occurrence of each number in order. */
  function BulkNumbers(v: seq<string>): Result<seq<string>> {
    if |v| < 1 then Err(TooFewMessage)
    else if |v| > MaxRecords then Err(TooManyItemsMessage)
    else
      var cleaned := CleanNumbers(v);
      if cleaned == [] then Err(NoValidListMessage)
      else Ok(FirstOccurrences(cleaned, NumberKey, {}))
  }

  /** `BulkTrackingRequest.validate_tracking_numbers` */
  method ValidateTrackingNumbers(v: seq<string>) returns (r: Result<seq<string>>)
    ensures r == BulkNumbers(v)
  {
    if |v| < 1 {
      return Err(TooFewMessage);
    }
    if |v| > MaxRecords {
      return Err(TooManyItemsMessage);
    }
    var cleaned := CleanNumbers(v);
    if cleaned == [] {
      return Err(NoValidListMessage);
    }
    var unique := Dedupe(cleaned, NumberKey);
    r := Ok(unique);
  }

  /** A list is accepted exactly when it has 1 to 1000 entries and one of
      them is not blank. */
  lemma BulkNumbersAccepts(v: seq<string>)
    ensures BulkNumbers(v).Ok? <==> 1 <= |v| <= MaxRecords && exists e :: e in v && Strip(e) != []
  {
    if exists e :: e in v && Strip(e) != [] {
      var e :| e in v && Strip(e) != [];
      CleanNumbersMembers(v, Upper(Strip(e)));
    }
    if CleanNumbers(v) == [] {
      forall e | e in v ensures Strip(e) == [] {
        CleanNumbersMembers(v, Upper(Strip(e)));
      }
    } else {
      CleanNumbersMembers(v, CleanNumbers(v)[0]);
    }
  }

  /** Removing repeated numbers keeps every number. */
  lemma NumbersKept(cleaned: seq<string>)
    ensures forall x :: x in FirstOccurrences(cleaned, NumberKey, {}) <==> x in cleaned
  {
    var ns := FirstOccurrences(cleaned, NumberKey, {});
    FirstOccurrencesIn(cleaned, NumberKey, {});
    forall x | x in cleaned ensures x in ns {
      var i :| 0 <= i < |cleaned| && cleaned[i] == x;
      FirstOccurrencesComplete(cleaned, NumberKey, {}, i);
      var j :| 0 <= j < |ns| && NumberKey(ns[j]) == x;
    }
  }

  /** An accepted list: the numbers are distinct, they are exactly the
      cleaned non-blank entries (see `CleanNumbersMembers`), and their order
      is that of the entries. */
  lemma BulkNumbersSound(v: seq<string>)
    requires BulkNumbers(v).Ok?
    ensures var ns := BulkNumbers(v).value;
      && ns != []
      && DistinctKeys(ns, NumberKey)
      && IsSubsequence(ns, CleanNumbers(v))
      && (forall x :: x in ns <==> x in CleanNumbers(v))
  {
    var cleaned := CleanNumbers(v);
    FirstOccurrencesKeys(cleaned, NumberKey, {});
    FirstOccurrencesInOrder(cleaned, NumberKey, {});
    FirstOccurrencesComplete(cleaned, NumberKey, {}, 0);
    NumbersKept(cleaned);
  }

  // ---------------------------------------------------------------------
  // The plain-text forms

  /** One line of the text, after `line.strip()`. */
  datatype LineParse = Blank | Parsed(pair: Pair) | EmptyWaybill

  /** One line: skipped when blank; `waybill,binID` split at the first comma,
      both sides stripped, the waybill upper-cased and required, an empty
      bin read as none; a line without a comma is a waybill alone. */
  function ParseLine(line: string): LineParse {
    var cleaned := Strip(line);
    if cleaned == [] then Blank
    else if ',' in cleaned then
      var parts := SplitFirst(cleaned, ',');
      var waybill := Upper(Strip(parts.0));
      var bin := Strip(parts.1);
      if waybill == [] then EmptyWaybill
      else Parsed((waybill, if bin != [] then Some(bin) else None))
    else Parsed((Upper(cleaned), None))
  }

  /** A waybill as a line can carry it, and a bin as a line can carry it
      (a bin may contain commas: only the first comma separates). */
  predicate CleanWaybill(w: string) {
    CleanNumber(w) && ',' !in w && '\n' !in w
  }

  predicate CleanBin(b: string) {
    b != [] && Strip(b) == b && '\n' !in b
  }

  predicate CleanPair(p: Pair) {
    CleanWaybill(p.0) && (p.1.Some? ==> CleanBin(p.1.value))
  }

  /** What every parsed line yields: a clean waybill without a comma, and a
      bin that is non-empty and stripped when present. */
  lemma ParseLineSound(line: string)
    requires ParseLine(line).Parsed?
    ensures var p := ParseLine(line).pair;
      && CleanNumber(p.0) && ',' !in p.0
      && (p.1.Some? ==> p.1.value != [] && Strip(p.1.value) == p.1.value)
  {
    var cleaned := Strip(line);
    if ',' in cleaned {
      var parts := SplitFirst(cleaned, ',');
      CleanedIsClean(parts.0);
      StripKeeps(parts.0, ',');
      UpperKeeps(Strip(parts.0), ',');
      StripIdempotent(parts.1);
    } else {
      StripIdempotent(line);
      UpperKeeps(cleaned, ',');
      CleanedIsClean(line);
    }
  }

  /** Upper-casing only changes letters. */
  lemma UpperKeeps(s: string, c: char)
    requires c !in s && !('a' <= c <= 'z') && !('A' <= c <= 'Z')
    ensures c !in Upper(s)
  {
    forall i | 0 <= i < |s| ensures Upper(s)[i] != c {
      assert s[i] != c;
    }
  }

  /** The line that writes a pair. */
  function FormatLine(p: Pair): string {
    if p.1.Some? then p.0 + "," + p.1.value else p.0
  }

  /** The first `sep` of `a + [sep] + b` is the one after `a`. */
  lemma {:induction false} IndexOfAfter(a: string, b: string, sep: char)
    requires sep !in a
    ensures sep in a + [sep] + b && IndexOf(a + [sep] + b, sep) == |a|
    decreases |a|
  {
    var s := a + [sep] + b;
    assert s[|a|] == sep;
    if a != [] {
      assert s[1..] == a[1..] + [sep] + b;
      IndexOfAfter(a[1..], b, sep);
    }
  }

  lemma SplitFirstAt(a: string, b: string, sep: char)
    requires sep !in a
    ensures sep in a + [sep] + b
    ensures SplitFirst(a + [sep] + b, sep) == (a, b)
  {
    var s := a + [sep] + b;
    IndexOfAfter(a, b, sep);
    assert s[..|a|] == a;
    assert s[|a| + 1..] == b;
  }

  /** A clean pair written as a line reads back as the same pair. */
  lemma ParseFormatLine(p: Pair)
    requires CleanPair(p)
    ensures ParseLine(FormatLine(p)) == Parsed(p)
  {
    var w := p.0;
    StripIdempotent(w);
    if p.1.Some? {
      var b := p.1.value;
      var line := w + [','] + b;
      assert FormatLine(p) == line;
      assert line[0] == w[0] && line[|line| - 1] == b[|b| - 1];
      StripNoEdges(line);
      SplitFirstAt(w, b, ',');
    }
  }

  /** The lines up to and including a line that has an empty waybill are an
      error naming that line (counting from 1, blank lines included);
      otherwise the pairs of the non-blank lines in order. */
  function CollectLines(lines: seq<string>): Result<seq<Pair>> {
    if lines == [] then Ok([])
    else
      match CollectLines(lines[..|lines| - 1])
      case Err(e) => Err(e)
      case Ok(ps) =>
        match ParseLine(lines[|lines| - 1])
        case Blank => Ok(ps)
        case Parsed(p) => Ok(ps + [p])
        case EmptyWaybill => Err(LineError(|lines|))
  }

  function LineError(n: nat): string {
    "Line " + NatToString(n) + ": Waybill cannot be empty"
  }

  /** The error names the first line with an empty waybill. */
  lemma {:induction false} CollectLinesFirstError(lines: seq<string>, i: nat)
    requires i < |lines| && ParseLine(lines[i]).EmptyWaybill?
    requires forall j :: 0 <= j < i ==> !ParseLine(lines[j]).EmptyWaybill?
    ensures CollectLines(lines) == Err(LineError(i + 1))
    decreases |lines|
  {
    var init := lines[..|lines| - 1];
    if i < |lines| - 1 {
      assert init[i] == lines[i];
      forall j | 0 <= j < i ensures !ParseLine(init[j]).EmptyWaybill? {
        assert init[j] == lines[j];
      }
      CollectLinesFirstError(init, i);
    } else {
      CollectLinesNoError(init);
    }
  }

  /** Once a prefix of the lines is an error, so are all the lines, with the
      same error. */
  lemma {:induction false} CollectLinesErrExtends(lines: seq<string>, n: nat)
    requires n <= |lines| && CollectLines(lines[..n]).Err?
    ensures CollectLines(lines) == CollectLines(lines[..n])
    decreases |lines| - n
  {
    if n < |lines| {
      var next := lines[..n + 1];
      assert next[..n] == lines[..n];
      CollectLinesErrExtends(lines, n + 1);
    } else {
      assert lines[..n] == lines;
    }
  }

  /** Without an empty waybill the lines always parse. */
  lemma {:induction false} CollectLinesNoError(lines: seq<string>)
    requires forall j :: 0 <= j < |lines| ==> !ParseLine(lines[j]).EmptyWaybill?
    ensures CollectLines(lines).Ok?
    decreases |lines|
  {
    if lines != [] {
      var init := lines[..|lines| - 1];
      forall j | 0 <= j < |init| ensures !ParseLine(init[j]).EmptyWaybill? {
        assert init[j] == lines[j];
      }
      CollectLinesNoError(init);
    }
  }

  /** The pairs of the lines are exactly the parsed pairs, each clean. */
  lemma {:induction false} CollectLinesSound(lines: seq<string>)
    requires CollectLines(lines).Ok?
    ensures forall i :: 0 <= i < |CollectLines(lines).value| ==>
      var p := CollectLines(lines).value[i];
      CleanNumber(p.0) && ',' !in p.0 && (p.1.Some? ==> p.1.value != [] && Strip(p.1.value) == p.1.value)
    decreases |lines|
  {
    if lines != [] {
      CollectLinesSound(lines[..|lines| - 1]);
      if ParseLine(lines[|lines| - 1]).Parsed? {
        ParseLineSound(lines[|lines| - 1]);
      }
    }
  }

  /** A non-blank line always contributes a pair or an error. */
  lemma {:induction false} CollectLinesNonBlank(lines: seq<string>, i: nat)
    requires i < |lines| && !ParseLine(lines[i]).Blank?
    ensures CollectLines(lines).Err? || CollectLines(lines).value != []
    decreases |lines|
  {
    var init := lines[..|lines| - 1];
    if i < |lines| - 1 {
      assert init[i] == lines[i];
      CollectLinesNonBlank(init, i);
    }
  }

  /** Clean pairs written one per line read back as the same pairs. */
  lemma {:induction false} CollectFormatted(ps: seq<Pair>)
    requires forall i :: 0 <= i < |ps| ==> CleanPair(ps[i])
    ensures CollectLines(FormatLines(ps)) == Ok(ps)
    decreases |ps|
  {
    var ls := FormatLines(ps);
    forall i | 0 <= i < |ls| ensures ParseLine(ls[i]) == Parsed(ps[i]) {
      ParseFormatLine(ps[i]);
    }
    CollectAllParsed(ls, ps);
  }

  /** Lines that each parse to a pair collect to those pairs. */
  lemma {:induction false} CollectAllParsed(lines: seq<string>, ps: seq<Pair>)
    requires |lines| == |ps| && forall i :: 0 <= i < |lines| ==> ParseLine(lines[i]) == Parsed(ps[i])
    ensures CollectLines(lines) == Ok(ps)
    decreases |lines|
  {
    if lines != [] {
      var n := |lines| - 1;
      var init := lines[..n];
      forall i | 0 <= i < n ensures ParseLine(init[i]) == Parsed(ps[..n][i]) {
        assert init[i] == lines[i];
      }
      CollectAllParsed(init, ps[..n]);
      SplitLast(ps);
    }
  }

  function FormatLines(ps: seq<Pair>): (ls: seq<string>)
    ensures |ls| == |ps| && forall i :: 0 <= i < |ps| ==> ls[i] == FormatLine(ps[i])
  {
    seq(|ps|, i requires 0 <= i < |ps| => FormatLine(ps[i]))
  }

  /** `parse_tracking_numbers` of both plain-text requests; `capped` is the
      bulk request's limit of 1000 records, counted before duplicates are
      removed. */
  function ParsePlainText(v: string, capped: bool): Result<seq<Pair>> {
    if Strip(v) == [] then Err(NoNumbersMessage)
    else
      match CollectLines(Split(Strip(v), '\n'))
      case Err(e) => Err(e)
      case Ok(data) =>
        if data == [] then Err(NoValidMessage)
        else if capped && |data| > MaxRecords then Err(TooManyMessage)
        else Ok(FirstOccurrences(data, PairKey, {}))
  }

  /** `PlainTextBulkRequest`: the text must not be empty (`min_length=1`). */
  function BulkPlainText(v: string): Result<seq<Pair>> {
    if |v| < 1 then Err(TooShortMessage) else ParsePlainText(v, true)
  }

  /** The loop over the lines (lines 137-156 and 247-265). */
  method CollectLinesLoop(lines: seq<string>) returns (r: Result<seq<Pair>>)
    ensures r == CollectLines(lines)
  {
    var data: seq<Pair> := [];
    var n := 0;
    while n < |lines|
      invariant 0 <= n <= |lines|
      invariant CollectLines(lines[..n]) == Ok(data)
    {
      assert lines[..n + 1][..n] == lines[..n];
      var cleaned := Strip(lines[n]);
      if cleaned != [] {
        if ',' in cleaned {
          var parts := SplitFirst(cleaned, ',');
          var waybill := Upper(Strip(parts.0));
          var bin := if Strip(parts.1) != [] then Some(Strip(parts.1)) else None;
          if waybill == [] {
            CollectLinesErrExtends(lines, n + 1);
            return Err(LineError(n + 1));
          }
          data := data + [(waybill, bin)];
        } else {
          data := data + [(Upper(cleaned), None)];
        }
      }
      n := n + 1;
    }
    assert lines[..n] == lines;
    r := Ok(data);
  }

  /** `PlainTextBulkRequest.parse_tracking_numbers` */
  method ParseBulkText(v: string) returns (r: Result<seq<Pair>>)
    ensures r == BulkPlainText(v)
  {
    if |v| < 1 {
      return Err(TooShortMessage);
    }
    if Strip(v) == [] {
      return Err(NoNumbersMessage);
    }
    var collected := CollectLinesLoop(Split(Strip(v), '\n'));
    if collected.Err? {
      return Err(collected.error);
    }
    var data := collected.value;
    if data == [] {
      return Err(NoValidMessage);
    }
    if |data| > MaxRecords {
      return Err(TooManyMessage);
    }
    var unique := Dedupe(data, PairKey);
    r := Ok(unique);
  }

  /** `PlainTextExportRequest.parse_tracking_numbers`: the same without the
      record cap. */
  method ParseExportText(v: string) returns (r: Result<seq<Pair>>)
    ensures r == ParsePlainText(v, false)
  {
    if Strip(v) == [] {
      return Err(NoNumbersMessage);
    }
    var collected := CollectLinesLoop(Split(Strip(v), '\n'));
    if collected.Err? {
      return Err(collected.error);
    }
    var data := collected.value;
    if data == [] {
      return Err(NoValidMessage);
    }
    var unique := Dedupe(data, PairKey);
    r := Ok(unique);
  }

  /** What an accepted text yields: distinct waybills, each clean and without
      a comma, each with the bin of its first line, in the order of the
      lines; at most 1000 of them for the bulk request. */
  lemma ParsePlainTextSound(v: string, capped: bool)
    requires ParsePlainText(v, capped).Ok?
    ensures var ps := ParsePlainText(v, capped).value;
      && ps != []
      && DistinctKeys(ps, PairKey)
      && IsSubsequence(ps, CollectLines(Split(Strip(v), '\n')).value)
      && (capped ==> |ps| <= MaxRecords)
      && forall i :: 0 <= i < |ps| ==>
           CleanNumber(ps[i].0) && ',' !in ps[i].0 &&
           (ps[i].1.Some? ==> ps[i].1.value != [] && Strip(ps[i].1.value) == ps[i].1.value)
  {
    var data := CollectLines(Split(Strip(v), '\n')).value;
    var ps := FirstOccurrences(data, PairKey, {});
    CollectLinesSound(Split(Strip(v), '\n'));
    FirstOccurrencesKeys(data, PairKey, {});
    FirstOccurrencesInOrder(data, PairKey, {});
    FirstOccurrencesIn(data, PairKey, {});
    FirstOccurrencesComplete(data, PairKey, {}, 0);
    assert |ps| <= |data| by {
      SubsequenceLength(ps, data);
    }
  }

  lemma {:induction false} SubsequenceLength<T>(sub: seq<T>, xs: seq<T>)
    requires IsSubsequence(sub, xs)
    ensures |sub| <= |xs|
    decreases |xs|
  {
    if sub != [] {
      if sub[0] == xs[0] && IsSubsequence(sub[1..], xs[1..]) {
        SubsequenceLength(sub[1..], xs[1..]);
      } else {
        SubsequenceLength(sub, xs[1..]);
      }
    }
  }

  /** "No valid tracking numbers found" is never raised: text that is not
      blank has a non-blank line, which yields a pair or an error. */
  lemma NoValidUnreachable(v: string, capped: bool)
    ensures ParsePlainText(v, capped) != Err(NoValidMessage)
  {
    var s := Strip(v);
    if s != [] {
      var lines := Split(s, '\n');
      StripIdempotent(v);
      assert !AllSpace(s);
      JoinSplit(s, '\n');
      if forall i :: 0 <= i < |lines| ==> AllSpace(lines[i]) {
        JoinAllSpace(lines, '\n');
      }
      var i :| 0 <= i < |lines| && !AllSpace(lines[i]);
      assert Strip(lines[i]) != [];
      CollectLinesNonBlank(lines, i);
      var r := CollectLines(lines);
      if r.Err? {
        LineErrorsOnly(lines);
        var n :| r.error == LineError(n);
        LineErrorIsNotNoValid(n);
      }
    }
  }

  /** A line error is told apart from the message for text without numbers
      by its first letter. */
  lemma LineErrorIsNotNoValid(n: nat)
    ensures LineError(n) != NoValidMessage
  {
    assert LineError(n)[0] == 'L';
    assert NoValidMessage[0] == 'N';
  }

  /** The only errors of the lines are line errors. */
  lemma {:induction false} LineErrorsOnly(lines: seq<string>)
    requires CollectLines(lines).Err?
    ensures exists n :: CollectLines(lines).error == LineError(n)
    decreases |lines|
  {
    if CollectLines(lines[..|lines| - 1]).Err? {
      LineErrorsOnly(lines[..|lines| - 1]);
    }
  }

  lemma {:induction false} JoinAllSpace(ps: seq<string>, sep: char)
    requires ps != [] && IsSpace(sep)
    requires forall i :: 0 <= i < |ps| ==> AllSpace(ps[i])
    ensures AllSpace(Join(ps, sep))
    decreases |ps|
  {
    if |ps| > 1 {
      var tail := ps[1..];
      forall i | 0 <= i < |tail| ensures AllSpace(tail[i]) {
        assert tail[i] == ps[i + 1];
      }
      JoinAllSpace(tail, sep);
      assert AllSpace(ps[0]);
      var j := Join(ps, sep);
      assert j == ps[0] + [sep] + Join(tail, sep);
      forall k | 0 <= k < |j| ensures IsSpace(j[k]) {
        if k < |ps[0]| {
          assert j[k] == ps[0][k];
        } else if k == |ps[0]| {
        } else {
          assert j[k] == Join(tail, sep)[k - |ps[0]| - 1];
        }
      }
    }
  }

  /** Joined text ends with the last character of its last piece. */
  lemma {:induction false} JoinLast(ps: seq<string>, sep: char)
    requires ps != [] && ps[|ps| - 1] != []
    ensures Join(ps, sep) != []
    ensures Join(ps, sep)[|Join(ps, sep)| - 1] == ps[|ps| - 1][|ps[|ps| - 1]| - 1]
    decreases |ps|
  {
    if |ps| > 1 {
      assert ps[1..][|ps| - 2] == ps[|ps| - 1];
      JoinLast(ps[1..], sep);
    }
  }

  /** Joined text starts with the first character of its first piece and
      ends with the last character of its last piece. */
  lemma JoinEnds(ps: seq<string>, sep: char)
    requires ps != [] && ps[0] != [] && ps[|ps| - 1] != []
    ensures Join(ps, sep) != []
    ensures Join(ps, sep)[0] == ps[0][0]
    ensures Join(ps, sep)[|Join(ps, sep)| - 1] == ps[|ps| - 1][|ps[|ps| - 1]| - 1]
  {
    JoinLast(ps, sep);
  }

  /** The text of clean pairs has no whitespace at either end, so stripping
      it changes nothing. */
  lemma FormattedTextStripped(ps: seq<Pair>)
    requires ps != [] && forall i :: 0 <= i < |ps| ==> CleanPair(ps[i])
    ensures Join(FormatLines(ps), '\n') != []
    ensures Strip(Join(FormatLines(ps), '\n')) == Join(FormatLines(ps), '\n')
  {
    assert CleanPair(ps[0]) && CleanPair(ps[|ps| - 1]);
    FormatLinesEdges(ps);
    JoinedStripped(FormatLines(ps), '\n');
  }

  /** The first and the last line of clean pairs start and end with a
      visible character. */
  lemma FormatLinesEdges(ps: seq<Pair>)
    requires ps != [] && CleanPair(ps[0]) && CleanPair(ps[|ps| - 1])
    ensures VisibleEdges(FormatLines(ps))
  {
    var ls := FormatLines(ps);
    var n := |ps| - 1;
    FormatLineEdges(ps[0]);
    FormatLineEdges(ps[n]);
    assert ls[0] == FormatLine(ps[0]) && ls[|ls| - 1] == FormatLine(ps[n]);
  }

  /** The first piece starts and the last piece ends with a visible
      character. */
  predicate VisibleEdges(ps: seq<string>) {
    && ps != [] && ps[0] != [] && ps[|ps| - 1] != []
    && !IsSpace(ps[0][0]) && !IsSpace(ps[|ps| - 1][|ps[|ps| - 1]| - 1])
  }

  /** Pieces with visible outer edges join to a text stripping leaves alone. */
  lemma JoinedStripped(ps: seq<string>, sep: char)
    requires VisibleEdges(ps)
    ensures Join(ps, sep) != [] && Strip(Join(ps, sep)) == Join(ps, sep)
  {
    JoinEnds(ps, sep);
    StripNoEdges(Join(ps, sep));
  }

  /** A clean pair's line starts and ends with a visible character. */
  lemma FormatLineEdges(p: Pair)
    requires CleanPair(p)
    ensures FormatLine(p) != []
    ensures !IsSpace(FormatLine(p)[0]) && !IsSpace(FormatLine(p)[|FormatLine(p)| - 1])
  {
    StrippedEdges(p.0);
    if p.1.Some? {
      var b := p.1.value;
      StrippedEdges(b);
      var l := FormatLine(p);
      assert l == p.0 + "," + b;
      assert l[0] == p.0[0];
      assert l[|l| - 1] == b[|b| - 1];
    }
  }

  /** A non-empty stripped text has no space at either end. */
  lemma StrippedEdges(s: string)
    requires s != [] && Strip(s) == s
    ensures !IsSpace(s[0]) && !IsSpace(s[|s| - 1])
  {
    StripIdempotent(s);
  }

  /** No line of clean pairs contains a line break. */
  lemma FormattedLinesSingle(ps: seq<Pair>)
    requires forall i :: 0 <= i < |ps| ==> CleanPair(ps[i])
    ensures forall i :: 0 <= i < |ps| ==> '\n' !in FormatLines(ps)[i]
  {
    var lines := FormatLines(ps);
    forall i | 0 <= i < |lines| ensures '\n' !in lines[i] {
      assert CleanPair(ps[i]);
      if ps[i].1.Some? {
        assert lines[i] == ps[i].0 + "," + ps[i].1.value;
      }
    }
  }

  /** Distinct clean pairs written one per line read back as the same pairs,
      in order, with the bulk request's cap when there are at most 1000. */
  lemma ParseFormatted(ps: seq<Pair>, capped: bool)
    requires ps != [] && DistinctKeys(ps, PairKey)
    requires forall i :: 0 <= i < |ps| ==> CleanPair(ps[i])
    requires capped ==> |ps| <= MaxRecords
    ensures ParsePlainText(Join(FormatLines(ps), '\n'), capped) == Ok(ps)
  {
    var lines := FormatLines(ps);
    var text := Join(lines, '\n');
    FormattedTextStripped(ps);
    FormattedLinesSingle(ps);
    SplitJoin(lines, '\n');
    assert Split(Strip(text), '\n') == lines;
    CollectFormatted(ps);
    FirstOccurrencesOfDistinct(ps, PairKey, {});
  }

  /** The two plain-text requests agree except that the bulk request also
      refuses empty text by its field constraint and more than 1000 records
      (counted before duplicates are removed). */
  lemma BulkAgreesWithExport(v: string)
    ensures v != [] && BulkPlainText(v) != ParsePlainText(v, false) ==>
      && BulkPlainText(v) == Err(TooManyMessage)
      && CollectLines(Split(Strip(v), '\n')).Ok?
      && |CollectLines(Split(Strip(v), '\n')).value| > MaxRecords
  {
  }
}
