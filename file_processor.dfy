/** The upload processor: the check of an uploaded file, the column finder,
    the row cleaner the CSV and the Excel extractor share, and the
    de-duplication of `process_file`. A spreadsheet is its header list and
    one sequence of cell texts per column, as `astype(str)` leaves them;
    reading the file is done by the caller. */
module FileProcessor {
  import opened Common
  import opened Config

  /** `settings.UPLOAD_DIR` */
  const UploadDir := "./data/uploads"

  /** The header names looked for, in the order the extractors list them. */
  const WaybillCandidates: seq<string> := [
    "waybill", "tracking_number", "tracking", "waybill_number",
    "tracking_no", "waybill_no", "trackingnumber", "waybillnumber",
    "awb", "tracking number", "waybill number"]
  const BinCandidates: seq<string> := [
    "binid", "bin_id", "bin", "binID", "bin ID", "bin-id",
    "bin_no", "binno", "bin number", "binnumber", "location",
    "bin_location", "binlocation"]

  /** An `HTTPException`: its status code and its detail. */
  datatype HttpError = HttpError(statusCode: nat, detail: string)

  /** `', '.join(self.allowed_extensions)` written out. */
  const InvalidTypeMessage := "Invalid file type. Allowed: .csv, .xlsx, .xls"
  /** `self.max_file_size / (1024*1024)` is the float 10.0 for the default. */
  const TooLargeMessage := "File too large. Maximum size: 10.0MB"

  lemma InvalidTypeMessageLists()
    ensures InvalidTypeMessage ==
      "Invalid file type. Allowed: " + AllowedExtensions[0] + ", " + AllowedExtensions[1] + ", " + AllowedExtensions[2]
  {
  }

  // ---------------------------------------------------------------------
  // Paths

  /** The final component of a path: what follows its last '/'. */
  function BaseName(path: string): string {
    match LastIndexOf(path, '/')
    case None => path
    case Some(i) => path[i + 1..]
  }

  /** `Path(path).suffix`: the final component from its last '.', when that
      dot is neither its first nor its last character; otherwise empty. */
  function Suffix(path: string): string {
    var name := BaseName(path);
    match LastIndexOf(name, '.')
    case None => ""
    case Some(i) => if 0 < i < |name| - 1 then name[i..] else ""
  }

  /** The last `c` of `a + [c] + b`, when `b` has none, is the one after `a`. */
  lemma {:induction false} LastIndexOfAt(a: string, b: string, c: char)
    requires c !in b
    ensures LastIndexOf(a + [c] + b, c) == Some(|a|)
    decreases |b|
  {
    var s := a + [c] + b;
    if b != [] {
      assert s[|s| - 1] == b[|b| - 1];
      assert s[..|s| - 1] == a + [c] + b[..|b| - 1];
      LastIndexOfAt(a, b[..|b| - 1], c);
    }
  }

  /** A position holding `c` with no `c` after it is the last `c`. */
  lemma LastIndexOfUnique(s: string, c: char, k: nat)
    requires k < |s| && s[k] == c && c !in s[k + 1..]
    ensures LastIndexOf(s, c) == Some(k)
  {
    assert s == s[..k] + [c] + s[k + 1..];
    LastIndexOfAt(s[..k], s[k + 1..], c);
  }

  /** What a suffix looks like: empty, or a dot followed by at least one
      character and no further dot or '/', at the end of the path. */
  predicate SuffixShaped(ext: string) {
    |ext| >= 2 && ext[0] == '.' && '.' !in ext[1..] && '/' !in ext
  }

  /** The final component has no '/' and ends the path. */
  lemma BaseNameFacts(path: string)
    ensures '/' !in BaseName(path) && EndsWith(path, BaseName(path))
  {
    var r := LastIndexOf(path, '/');
    if r.Some? {
      assert path[|path| - |BaseName(path)|..] == BaseName(path);
    }
  }

  /** The suffix a name's last dot starts is shaped as a suffix. */
  lemma NameSuffixShape(name: string)
    requires '/' !in name
    ensures var ext := Suffix(name);
      ext == [] || (SuffixShaped(ext) && EndsWith(name, ext))
  {
    BaseNameIn(name);
    var r := LastIndexOf(name, '.');
    if r.Some? && 0 < r.value < |name| - 1 {
      var ext := name[r.value..];
      assert ext[1..] == name[r.value + 1..];
    }
  }

  /** Inside a name with no '/', the base name is the name itself. */
  lemma BaseNameIn(name: string)
    requires '/' !in name
    ensures BaseName(name) == name
  {
  }

  /** Every suffix is shaped as one and ends the path. */
  lemma SuffixShape(path: string)
    ensures Suffix(path) == [] || (SuffixShaped(Suffix(path)) && EndsWith(path, Suffix(path)))
  {
    var name := BaseName(path);
    BaseNameFacts(path);
    NameSuffixShape(name);
    BaseNameIn(name);
    assert Suffix(path) == Suffix(name);
    var ext := Suffix(path);
    if ext != [] {
      assert path[|path| - |ext|..] == name[|name| - |ext|..];
    }
  }

  /** The file as it is saved: `upload_<stamp>` with the upload's suffix, in
      the upload directory. */
  function SavedPath(filename: string, stamp: string): string {
    UploadDir + "/" + ("upload_" + stamp + Suffix(filename))
  }

  /** The base name of `dir/name` is `name` when `name` has no '/'. */
  lemma BaseNameJoined(dir: string, name: string)
    requires '/' !in name
    ensures BaseName(dir + "/" + name) == name
  {
    var path := dir + "/" + name;
    assert path == dir + ['/'] + name;
    LastIndexOfAt(dir, name, '/');
    assert path[|dir| + 1..] == name;
  }

  /** The last dot of `stem + ext` is the one that starts `ext`. */
  lemma LastDotOfSuffix(stem: string, ext: string)
    requires SuffixShaped(ext)
    ensures LastIndexOf(stem + ext, '.') == Some(|stem|)
  {
    assert stem + ext == stem + ['.'] + ext[1..];
    LastIndexOfAt(stem, ext[1..], '.');
  }

  /** A file named `stem + ext` in a directory, with no '.' or '/' in the
      stem, has the suffix `ext`. */
  lemma SuffixOfJoined(dir: string, stem: string, ext: string)
    requires stem != [] && '.' !in stem && '/' !in stem
    requires ext == [] || SuffixShaped(ext)
    ensures Suffix(dir + "/" + (stem + ext)) == ext
  {
    var name := stem + ext;
    BaseNameJoined(dir, name);
    if ext == [] {
      assert name == stem;
    } else {
      LastDotOfSuffix(stem, ext);
      assert name[|stem|..] == ext;
    }
  }

  /** The saved file has the suffix of the upload, whenever the time stamp
      has no '.' or '/' (`%Y%m%d_%H%M%S` has neither). */
  lemma SavedSuffix(filename: string, stamp: string)
    requires '.' !in stamp && '/' !in stamp
    ensures Suffix(SavedPath(filename, stamp)) == Suffix(filename)
  {
    var stem := "upload_" + stamp;
    assert '.' !in stem && '/' !in stem by {
      forall i | 0 <= i < |stem| ensures stem[i] != '.' && stem[i] != '/' {
        if i >= 7 {
          assert stem[i] == stamp[i - 7];
        }
      }
    }
    SuffixShape(filename);
    SuffixOfJoined(UploadDir, stem, Suffix(filename));
  }

  // ---------------------------------------------------------------------
  // validate_file

  /** An uploaded file: its name and, when the upload reports one, its
      size in bytes. */
  datatype Upload = Upload(filename: string, size: Option<nat>)

  /** `validate_file`: `None` where it returns True. */
  function ValidateFile(f: Upload): Option<HttpError> {
    if Lower(Suffix(f.filename)) !in AllowedExtensions then Some(HttpError(400, InvalidTypeMessage))
    else if f.size.Some? && f.size.value > MaxFileSize then Some(HttpError(400, TooLargeMessage))
    else None
  }

  /** The last `|ext|` characters of `name`, lower-cased, are `ext`, and
      something comes before them. */
  predicate EndsWithExt(name: string, ext: string) {
    |ext| < |name| && Lower(name[|name| - |ext|..]) == ext
  }

  /** A dot lower-cases only from a dot. */
  lemma LowerDot(c: char)
    ensures LowerChar(c) == '.' <==> c == '.'
  {
  }

  /** When a lower-cased text is an allowed extension, its dot is its first
      character and the only one. */
  lemma AllowedShape(s: string)
    requires Lower(s) in AllowedExtensions
    ensures |s| >= 4 && s[0] == '.' && '.' !in s[1..]
  {
    LowerDot(s[0]);
    forall j | 1 <= j < |s| ensures s[j] != '.' {
      LowerDot(s[j]);
      assert Lower(s)[j] != '.';
    }
  }

  /** The file type is accepted exactly when the file's name ends, ignoring
      case, in ".csv", ".xlsx" or ".xls" after at least one character. */
  lemma ValidateFileType(f: Upload)
    ensures ValidateFile(f) != Some(HttpError(400, InvalidTypeMessage)) <==>
      var name := BaseName(f.filename);
      EndsWithExt(name, ".csv") || EndsWithExt(name, ".xlsx") || EndsWithExt(name, ".xls")
  {
    assert ValidateFile(f) != Some(HttpError(400, InvalidTypeMessage)) <==>
      Lower(Suffix(f.filename)) in AllowedExtensions;
    AllowedSuffixIff(f.filename);
  }

  /** The suffix is allowed exactly when the name ends in an allowed
      extension. */
  lemma AllowedSuffixIff(filename: string)
    ensures Lower(Suffix(filename)) in AllowedExtensions <==>
      var name := BaseName(filename);
      EndsWithExt(name, ".csv") || EndsWithExt(name, ".xlsx") || EndsWithExt(name, ".xls")
  {
    var name := BaseName(filename);
    if Lower(Suffix(filename)) in AllowedExtensions {
      AllowedEndsWith(filename);
    }
    if EndsWithExt(name, ".csv") {
      EndsWithAllowed(filename, ".csv");
    } else if EndsWithExt(name, ".xlsx") {
      EndsWithAllowed(filename, ".xlsx");
    } else if EndsWithExt(name, ".xls") {
      EndsWithAllowed(filename, ".xls");
    }
  }

  /** A name whose suffix is allowed ends in that suffix. */
  lemma AllowedEndsWith(filename: string)
    requires Lower(Suffix(filename)) in AllowedExtensions
    ensures EndsWithExt(BaseName(filename), Lower(Suffix(filename)))
  {
    var name := BaseName(filename);
    var s := Suffix(filename);
    var i := LastIndexOf(name, '.').value;
    assert s == name[i..];
    assert name[|name| - |s|..] == s;
  }

  /** A name ending in an allowed extension has that extension as its
      suffix, ignoring case. */
  lemma EndsWithAllowed(filename: string, ext: string)
    requires ext in AllowedExtensions && EndsWithExt(BaseName(filename), ext)
    ensures Lower(Suffix(filename)) == ext
  {
    var name := BaseName(filename);
    var k := |name| - |ext|;
    var t := name[k..];
    AllowedShape(t);
    assert t[1..] == name[k + 1..];
    LastIndexOfUnique(name, '.', k);
  }

  /** A file within the size limit and of an accepted type passes; a file
      of an accepted type over the limit is refused as too large. */
  lemma ValidateFileSize(f: Upload)
    requires Lower(Suffix(f.filename)) in AllowedExtensions
    ensures ValidateFile(f).None? <==> f.size.None? || f.size.value <= MaxFileSize
    ensures ValidateFile(f).Some? ==> ValidateFile(f).value == HttpError(400, TooLargeMessage)
  {
  }

  // ---------------------------------------------------------------------
  // _find_column

  function LowerAll(names: seq<string>): (r: seq<string>)
    ensures |r| == |names| && forall i :: 0 <= i < |names| ==> r[i] == Lower(names[i])
  {
    seq(|names|, i requires 0 <= i < |names| => Lower(names[i]))
  }

  /** A header names a column of the kind when, lower-cased and stripped, it
      is one of the candidates lower-cased. */
  predicate Names(col: string, candidates: seq<string>) {
    Strip(Lower(col)) in LowerAll(candidates)
  }

  /** The position of the first header that names a column of the kind. */
  function FirstMatch(columns: seq<string>, candidates: seq<string>): (r: Option<nat>)
    ensures r.Some? ==> r.value < |columns|
  {
    if columns == [] then None
    else if Names(columns[0], candidates) then Some(0)
    else match FirstMatch(columns[1..], candidates)
      case None => None
      case Some(i) => Some(i + 1)
  }

  /** `FirstMatch` finds the first naming header, and none when no header
      names the kind. */
  lemma {:induction false} FirstMatchIsFirst(columns: seq<string>, candidates: seq<string>)
    ensures var r := FirstMatch(columns, candidates);
      && (r.Some? ==> r.value < |columns| && Names(columns[r.value], candidates))
      && (r.Some? ==> forall j :: 0 <= j < r.value ==> !Names(columns[j], candidates))
      && (r.None? <==> forall j :: 0 <= j < |columns| ==> !Names(columns[j], candidates))
    decreases |columns|
  {
    if columns != [] {
      FirstMatchIsFirst(columns[1..], candidates);
      if !Names(columns[0], candidates) {
        forall j | 0 < j < |columns| ensures columns[j] == columns[1..][j - 1] {}
      }
    }
  }

  /** `_find_column`, returning the position of the column found. */
  method FindColumn(columns: seq<string>, candidates: seq<string>) returns (r: Option<nat>)
    ensures r == FirstMatch(columns, candidates)
  {
    var i := 0;
    while i < |columns|
      invariant 0 <= i <= |columns|
      invariant forall j :: 0 <= j < i ==> !Names(columns[j], candidates)
    {
      if Names(columns[i], candidates) {
        FirstMatchAt(columns, candidates, i);
        return Some(i);
      }
      i := i + 1;
    }
    FirstMatchIsFirst(columns, candidates);
    r := None;
  }

  /** The first naming header is the one `FirstMatch` finds. */
  lemma {:induction false} FirstMatchAt(columns: seq<string>, candidates: seq<string>, i: nat)
    requires i < |columns| && Names(columns[i], candidates)
    requires forall j :: 0 <= j < i ==> !Names(columns[j], candidates)
    ensures FirstMatch(columns, candidates) == Some(i)
    decreases i
  {
    if i > 0 {
      var tail := columns[1..];
      assert tail[i - 1] == columns[i];
      forall j | 0 <= j < i - 1 ensures !Names(tail[j], candidates) {
        assert tail[j] == columns[j + 1];
      }
      FirstMatchAt(tail, candidates, i - 1);
    }
  }

  /** A header names a kind when its cleaned text is one candidate's. */
  lemma NamesAt(col: string, candidates: seq<string>, k: nat)
    requires k < |candidates| && Strip(Lower(col)) == Lower(candidates[k])
    ensures Names(col, candidates)
  {
    assert LowerAll(candidates)[k] == Lower(candidates[k]);
  }

  /** Header names are compared ignoring case and surrounding spaces: the
      header " Bin ID" names the bin column (the candidate "bin ID"). */
  lemma BinHeaderExample()
    ensures Names(" Bin ID", BinCandidates)
  {
    var h := " Bin ID";
    assert Lower(h) == " bin id";
    assert StripLeft(" bin id") == "bin id" by {
      assert " bin id"[1..] == "bin id";
    }
    assert StripRight("bin id") == "bin id";
    assert Lower(BinCandidates[4]) == "bin id";
    NamesAt(h, BinCandidates, 4);
  }

  // ---------------------------------------------------------------------
  // Choosing the columns

  /** The positions of the waybill column and of the bin column, if any. */
  datatype Choice = Choice(waybill: nat, bin: Option<nat>)

  /** The waybill column is the first one named so, else the first column;
      the bin column the first one named so, else the second column when
      there are two or more, and its header is not empty and differs from
      the waybill column's. No choice is possible without columns. */
  function ChooseColumns(columns: seq<string>): Option<Choice> {
    var w := FirstMatch(columns, WaybillCandidates);
    var b := FirstMatch(columns, BinCandidates);
    if w.None? && |columns| == 0 then None
    else
      var wi := if w.Some? then w.value else 0;
      var bi := if b.None? && |columns| >= 2 && columns[1] != columns[wi] && columns[1] != [] then Some(1) else b;
      Some(Choice(wi, bi))
  }

  /** Columns are chosen whenever there is one; the chosen positions are
      columns of the sheet; a header that names the kind wins over the
      positional fallback. */
  lemma ChooseColumnsFacts(columns: seq<string>)
    ensures ChooseColumns(columns).None? <==> columns == []
    ensures ChooseColumns(columns).Some? ==>
      var c := ChooseColumns(columns).value;
      && c.waybill < |columns|
      && (c.bin.Some? ==> c.bin.value < |columns|)
      && (Names(columns[c.waybill], WaybillCandidates) || forall j :: 0 <= j < |columns| ==> !Names(columns[j], WaybillCandidates))
      && ((exists j :: 0 <= j < |columns| && Names(columns[j], BinCandidates)) ==>
            c.bin.Some? && Names(columns[c.bin.value], BinCandidates))
      && (c.bin.None? ==> |columns| < 2 || columns[1] == columns[c.waybill] || columns[1] == [])
  {
    FirstMatchIsFirst(columns, WaybillCandidates);
    FirstMatchIsFirst(columns, BinCandidates);
  }

  /** Without a header naming either kind, two columns with distinct
      non-empty headers are read as waybill then bin. */
  lemma PositionalColumns(columns: seq<string>)
    requires |columns| >= 2 && columns[1] != [] && columns[0] != columns[1]
    requires forall j :: 0 <= j < |columns| ==> !Names(columns[j], WaybillCandidates) && !Names(columns[j], BinCandidates)
    ensures ChooseColumns(columns) == Some(Choice(0, Some(1)))
  {
    FirstMatchIsFirst(columns, WaybillCandidates);
    FirstMatchIsFirst(columns, BinCandidates);
  }

  // ---------------------------------------------------------------------
  // Cleaning the rows

  /** A cell that holds a value: not empty and not the text of a missing
      value ('nan', 'none', in any case). */
  predicate Present(s: string) {
    s != [] && Lower(s) !in ["nan", "none", ""]
  }

  /** The pair a kept row yields: the waybill upper-cased, the bin as it is
      when present, otherwise none. */
  function KeptRow(w: string, b: Option<string>): Pair {
    (Upper(w), if b.Some? && Present(b.value) then b else None)
  }

  /** The zip loop over the waybill and bin cells. */
  function CleanRows(ws: seq<string>, bs: seq<Option<string>>): seq<Pair>
    requires |ws| == |bs|
  {
    if ws == [] then []
    else
      CleanRows(ws[..|ws| - 1], bs[..|bs| - 1])
        + (if Present(ws[|ws| - 1]) then [KeptRow(ws[|ws| - 1], bs[|bs| - 1])] else [])
  }

  /** Rows are cleaned one by one and keep their order: cleaning two runs of
      rows is cleaning each and concatenating. */
  lemma {:induction false} CleanRowsAppend(ws: seq<string>, bs: seq<Option<string>>, ws': seq<string>, bs': seq<Option<string>>)
    requires |ws| == |bs| && |ws'| == |bs'|
    ensures CleanRows(ws + ws', bs + bs') == CleanRows(ws, bs) + CleanRows(ws', bs')
    decreases |ws'|
  {
    if ws' == [] {
      assert ws + ws' == ws && bs + bs' == bs;
    } else {
      var n := |ws'| - 1;
      assert (ws + ws')[..|ws + ws'| - 1] == ws + ws'[..n];
      assert (bs + bs')[..|bs + bs'| - 1] == bs + bs'[..n];
      CleanRowsAppend(ws, bs, ws'[..n], bs'[..n]);
    }
  }

  /** One row is kept exactly when its waybill is present. */
  lemma CleanRowsOne(w: string, b: Option<string>)
    ensures CleanRows([w], [b]) == if Present(w) then [KeptRow(w, b)] else []
  {
    assert [w][..0] == [] && [b][..0] == [];
  }

  /** What is kept: upper-cased non-empty waybills, bins that are present,
      and never more pairs than rows. */
  lemma {:induction false} CleanRowsSound(ws: seq<string>, bs: seq<Option<string>>)
    requires |ws| == |bs|
    ensures |CleanRows(ws, bs)| <= |ws|
    ensures forall i :: 0 <= i < |CleanRows(ws, bs)| ==>
      var p := CleanRows(ws, bs)[i];
      p.0 != [] && Upper(p.0) == p.0 && (p.1.Some? ==> Present(p.1.value))
    decreases |ws|
  {
    if ws != [] {
      var w := ws[|ws| - 1];
      CleanRowsSound(ws[..|ws| - 1], bs[..|bs| - 1]);
      UpperIdempotent(w);
    }
  }

  /** When every waybill is present, every row is kept, in order. */
  lemma {:induction false} CleanRowsAllPresent(ws: seq<string>, bs: seq<Option<string>>)
    requires |ws| == |bs|
    requires forall i :: 0 <= i < |ws| ==> Present(ws[i])
    ensures |CleanRows(ws, bs)| == |ws|
    ensures forall i :: 0 <= i < |ws| ==> CleanRows(ws, bs)[i] == KeptRow(ws[i], bs[i])
    decreases |ws|
  {
    if ws != [] {
      var ws0 := ws[..|ws| - 1];
      var bs0 := bs[..|bs| - 1];
      forall i | 0 <= i < |ws0| ensures Present(ws0[i]) {
        assert ws0[i] == ws[i];
      }
      CleanRowsAllPresent(ws0, bs0);
    }
  }

  // ---------------------------------------------------------------------
  // The extractors

  /** A spreadsheet as read: the headers, and for each column the text of
      its cells, one per row. */
  datatype Sheet = Sheet(columns: seq<string>, cells: seq<seq<string>>, rows: nat)

  predicate WellFormed(s: Sheet) {
    |s.cells| == |s.columns| && forall c :: 0 <= c < |s.cells| ==> |s.cells[c]| == s.rows
  }

  /** `.str.strip()` of a column. */
  function StripAll(cells: seq<string>): (r: seq<string>)
    ensures |r| == |cells| && forall i :: 0 <= i < |cells| ==> r[i] == Strip(cells[i])
  {
    seq(|cells|, i requires 0 <= i < |cells| => Strip(cells[i]))
  }

  /** The bin of each row: the stripped cell of the bin column, or none for
      every row without one. */
  function BinCells(s: Sheet, bin: Option<nat>): (r: seq<Option<string>>)
    requires WellFormed(s) && (bin.Some? ==> bin.value < |s.columns|)
    ensures |r| == s.rows
  {
    if bin.Some? then
      var cells := StripAll(s.cells[bin.value]);
      seq(s.rows, i requires 0 <= i < s.rows => Some(cells[i]))
    else seq(s.rows, i => None)
  }

  function ExtractError(kind: string, message: string): string {
    "Failed to extract from " + kind + ": " + message
  }

  /** `extract_tracking_numbers_from_csv` (`kind` "CSV") and `_excel`
      (`kind` "Excel"), given what reading the file gave: the sheet, or the
      reader's error. */
  function ExtractSpec(read: Result<Sheet>, kind: string): Result<seq<Pair>>
    requires read.Ok? ==> WellFormed(read.value)
  {
    if read.Err? then Err(ExtractError(kind, read.error))
    else
      var s := read.value;
      match ChooseColumns(s.columns)
      case None => Err(ExtractError(kind, kind + " file has no columns"))
      case Some(c) =>
        ChooseColumnsFacts(s.columns);
        Ok(CleanRows(StripAll(s.cells[c.waybill]), BinCells(s, c.bin)))
  }

  /** The column choice of the extractors. */
  method SelectColumns(columns: seq<string>) returns (c: Option<Choice>)
    ensures c == ChooseColumns(columns)
  {
    var waybillCol := FindColumn(columns, WaybillCandidates);
    var binCol := FindColumn(columns, BinCandidates);
    if waybillCol.None? {
      if |columns| == 0 {
        return None;
      }
      waybillCol := Some(0);
    }
    if binCol.None? && |columns| >= 2 {
      if columns[1] != columns[waybillCol.value] && columns[1] != [] {
        binCol := Some(1);
      }
    }
    c := Some(Choice(waybillCol.value, binCol));
  }

  /** The zip loop over the stripped waybill and bin cells. */
  method ZipRows(waybills: seq<string>, bins: seq<Option<string>>) returns (data: seq<Pair>)
    requires |waybills| == |bins|
    ensures data == CleanRows(waybills, bins)
  {
    data := [];
    var i := 0;
    while i < |waybills|
      invariant 0 <= i <= |waybills|
      invariant data == CleanRows(waybills[..i], bins[..i])
    {
      assert waybills[..i + 1][..i] == waybills[..i];
      assert bins[..i + 1][..i] == bins[..i];
      var waybill := waybills[i];
      if waybill != [] && Lower(waybill) !in ["nan", "none", ""] {
        var bin := bins[i];
        if bin.Some? && bin.value != [] && Lower(bin.value) !in ["nan", "none", ""] {
          data := data + [(Upper(waybill), bin)];
        } else {
          data := data + [(Upper(waybill), None)];
        }
      }
      i := i + 1;
    }
    assert waybills[..i] == waybills && bins[..i] == bins;
  }

  /** The extractor: choose the columns, strip the cells, then the zip
      loop. */
  method Extract(read: Result<Sheet>, kind: string) returns (r: Result<seq<Pair>>)
    requires read.Ok? ==> WellFormed(read.value)
    ensures r == ExtractSpec(read, kind)
  {
    if read.Err? {
      return Err(ExtractError(kind, read.error));
    }
    var s := read.value;
    var choice := SelectColumns(s.columns);
    if choice.None? {
      return Err(ExtractError(kind, kind + " file has no columns"));
    }
    ChooseColumnsFacts(s.columns);
    var waybills := StripAll(s.cells[choice.value.waybill]);
    var bins := BinCells(s, choice.value.bin);
    var data := ZipRows(waybills, bins);
    r := Ok(data);
  }

  /** Without columns the extractor reports it, under its own name. */
  lemma ExtractNoColumns(s: Sheet, kind: string)
    requires WellFormed(s) && s.columns == []
    ensures ExtractSpec(Ok(s), kind) == Err("Failed to extract from " + kind + ": " + kind + " file has no columns")
  {
  }

  /** What an extractor returns: one pair per row with a present waybill, at
      most one per row, each waybill upper-cased and non-empty. */
  lemma ExtractSound(read: Result<Sheet>, kind: string)
    requires read.Ok? ==> WellFormed(read.value)
    requires ExtractSpec(read, kind).Ok?
    ensures |ExtractSpec(read, kind).value| <= read.value.rows
    ensures forall i :: 0 <= i < |ExtractSpec(read, kind).value| ==>
      var p := ExtractSpec(read, kind).value[i];
      p.0 != [] && Upper(p.0) == p.0 && (p.1.Some? ==> Present(p.1.value))
  {
    var s := read.value;
    var c := ChooseColumns(s.columns).value;
    ChooseColumnsFacts(s.columns);
    CleanRowsSound(StripAll(s.cells[c.waybill]), BinCells(s, c.bin));
  }

  // ---------------------------------------------------------------------
  // process_file

  /** What `process_file` ends in: the de-duplicated pairs, the
      `HTTPException` of the file check, or another exception's message. */
  datatype Processed = Accepted(data: seq<Pair>) | Rejected(error: HttpError) | Failed(message: string)

  /** After extraction: the first pair of each waybill, in order. */
  function Finish(r: Result<seq<Pair>>): Processed {
    if r.Err? then Failed(r.error) else Accepted(FirstOccurrences(r.value, PairKey, {}))
  }

  /** `process_file`: check the upload, save it (`saveError` is the saving
      error, if any; `stamp` the time stamp of the saved name), and extract
      from the saved file by its suffix (`read` is what reading it gives). */
  function ProcessFileSpec(f: Upload, stamp: string, saveError: Option<string>, read: Result<Sheet>): Processed
    requires read.Ok? ==> WellFormed(read.value)
  {
    match ValidateFile(f)
    case Some(e) => Rejected(e)
    case None =>
      if saveError.Some? then Failed("Failed to save file: " + saveError.value)
      else
        var ext := Lower(Suffix(SavedPath(f.filename, stamp)));
        if ext == ".csv" then Finish(ExtractSpec(read, "CSV"))
        else if ext in [".xlsx", ".xls"] then Finish(ExtractSpec(read, "Excel"))
        else Failed("Unsupported file type: " + ext)
  }

  method ProcessFile(f: Upload, stamp: string, saveError: Option<string>, read: Result<Sheet>) returns (r: Processed)
    requires read.Ok? ==> WellFormed(read.value)
    ensures r == ProcessFileSpec(f, stamp, saveError, read)
  {
    var check := ValidateFile(f);
    if check.Some? {
      return Rejected(check.value);
    }
    if saveError.Some? {
      return Failed("Failed to save file: " + saveError.value);
    }
    var ext := Lower(Suffix(SavedPath(f.filename, stamp)));
    var extracted: Result<seq<Pair>>;
    if ext == ".csv" {
      extracted := Extract(read, "CSV");
    } else if ext in [".xlsx", ".xls"] {
      extracted := Extract(read, "Excel");
    } else {
      return Failed("Unsupported file type: " + ext);
    }
    if extracted.Err? {
      return Failed(extracted.error);
    }
    var unique := Dedupe(extracted.value, PairKey);
    r := Accepted(unique);
  }

  /** A file that passed the check is always extracted by the extractor of
      its own suffix: "Unsupported file type" is never reached. */
  lemma ProcessFileDispatch(f: Upload, stamp: string, read: Result<Sheet>)
    requires read.Ok? ==> WellFormed(read.value)
    requires '.' !in stamp && '/' !in stamp
    requires ValidateFile(f).None?
    ensures ProcessFileSpec(f, stamp, None, read) ==
      Finish(ExtractSpec(read, if Lower(Suffix(f.filename)) == ".csv" then "CSV" else "Excel"))
  {
    SavedSuffix(f.filename, stamp);
  }

  /** An accepted file went through the extractor its saved suffix picks. */
  lemma AcceptedExtracts(f: Upload, stamp: string, saveError: Option<string>, read: Result<Sheet>, kind: string)
    requires read.Ok? ==> WellFormed(read.value)
    requires ProcessFileSpec(f, stamp, saveError, read).Accepted?
    requires kind == (if Lower(Suffix(SavedPath(f.filename, stamp))) == ".csv" then "CSV" else "Excel")
    ensures ExtractSpec(read, kind).Ok?
    ensures ProcessFileSpec(f, stamp, saveError, read) == Finish(ExtractSpec(read, kind))
  {
    var ext := Lower(Suffix(SavedPath(f.filename, stamp)));
    assert ValidateFile(f).None? && saveError.None?;
    var x := ExtractSpec(read, kind);
    if ext == ".csv" {
      assert ProcessFileSpec(f, stamp, saveError, read) == Finish(x);
    } else {
      assert ext in [".xlsx", ".xls"];
      assert ProcessFileSpec(f, stamp, saveError, read) == Finish(x);
    }
  }

  /** De-duplicating keeps the first pair of each waybill, in order, and
      keeps every waybill upper-cased and non-empty. */
  lemma FinishSound(data: seq<Pair>)
    requires forall i :: 0 <= i < |data| ==> data[i].0 != [] && Upper(data[i].0) == data[i].0
    ensures var out := Finish(Ok(data)).data;
      && DistinctKeys(out, PairKey)
      && IsSubsequence(out, data)
      && forall i :: 0 <= i < |out| ==> out[i].0 != [] && Upper(out[i].0) == out[i].0
  {
    FirstOccurrencesKeys(data, PairKey, {});
    FirstOccurrencesInOrder(data, PairKey, {});
    FirstOccurrencesIn(data, PairKey, {});
  }

  /** What an accepted file yields: distinct waybills, each upper-cased and
      non-empty, the first pair of each waybill, in the order of the
      rows. */
  lemma ProcessFileSound(f: Upload, stamp: string, saveError: Option<string>, read: Result<Sheet>, kind: string)
    requires read.Ok? ==> WellFormed(read.value)
    requires ProcessFileSpec(f, stamp, saveError, read).Accepted?
    requires kind == (if Lower(Suffix(SavedPath(f.filename, stamp))) == ".csv" then "CSV" else "Excel")
    ensures var out := ProcessFileSpec(f, stamp, saveError, read).data;
      && DistinctKeys(out, PairKey)
      && ExtractSpec(read, kind).Ok?
      && IsSubsequence(out, ExtractSpec(read, kind).value)
      && forall i :: 0 <= i < |out| ==> out[i].0 != [] && Upper(out[i].0) == out[i].0
  {
    AcceptedExtracts(f, stamp, saveError, read, kind);
    ExtractSound(read, kind);
    FinishSound(ExtractSpec(read, kind).value);
  }
}
