/** The configuration constants of the tracking service and the validator
    that turns the comma-separated team-leader e-mail setting into a list. */
module Config {
  import opened Common

  /** Requests the DHL API allows per calendar day. */
  const DhlDailyLimit: nat := 250
  /** Waybills tracked concurrently per chunk by the DHL client. */
  const DhlBatchSize: nat := 10
  /** Largest accepted upload, in bytes (10 MiB). */
  const MaxFileSize: nat := 10 * 1024 * 1024
  /** Directory the reports are written to. */
  const ExportDir := "./exports"
  /** Accepted upload suffixes, in the order the error message lists them. */
  const AllowedExtensions: seq<string> := [".csv", ".xlsx", ".xls"]

  /** The stripped, non-blank pieces, in order. */
  function StrippedNonBlank(ps: seq<string>): (r: seq<string>)
    ensures |r| <= |ps|
  {
    if ps == [] then []
    else
      var e := Strip(ps[0]);
      if e != [] then [e] + StrippedNonBlank(ps[1..]) else StrippedNonBlank(ps[1..])
  }

  /** The team-leader e-mail setting as a list: empty text gives no
      addresses, otherwise each comma-separated entry, stripped, with the
      blank entries dropped. */
  function SplitEmails(v: string): (r: seq<string>)
    ensures |r| <= Count(v, ',') + 1
    ensures v == [] ==> r == []
  {
    if v == [] then [] else StrippedNonBlank(Split(v, ','))
  }

  lemma {:induction false} StrippedNonBlankSound(ps: seq<string>, e: string)
    requires e in StrippedNonBlank(ps)
    ensures e != [] && Strip(e) == e
    ensures exists p :: p in ps && Strip(p) == e
  {
    var e0 := Strip(ps[0]);
    StripIdempotent(ps[0]);
    if e0 != [] && e == e0 {
    } else {
      assert e in StrippedNonBlank(ps[1..]);
      StrippedNonBlankSound(ps[1..], e);
      var p :| p in ps[1..] && Strip(p) == e;
      assert p in ps;
    }
  }

  lemma {:induction false} StrippedNonBlankComplete(ps: seq<string>)
    ensures forall p :: p in ps && Strip(p) != [] ==> Strip(p) in StrippedNonBlank(ps)
  {
    if ps != [] {
      StrippedNonBlankComplete(ps[1..]);
      assert forall p :: p in ps ==> p == ps[0] || p in ps[1..];
    }
  }

  /** Every address the setting yields is a non-blank, already stripped entry
      of the comma-separated text, and contains no comma. */
  lemma SplitEmailsSound(v: string, e: string)
    requires e in SplitEmails(v)
    ensures CleanAddress(e)
    ensures exists p :: p in Split(v, ',') && Strip(p) == e
  {
    var ps := Split(v, ',');
    StrippedNonBlankSound(ps, e);
    var p :| p in ps && Strip(p) == e;
    StripKeeps(p, ',');
  }

  /** No non-blank entry of the setting is lost. */
  lemma SplitEmailsComplete(v: string, p: string)
    requires p in Split(v, ',') && Strip(p) != []
    ensures Strip(p) in SplitEmails(v)
  {
    StrippedNonBlankComplete(Split(v, ','));
  }

  /** A list of clean addresses written out comma-separated reads back as the
      same list. */
  lemma {:induction false} SplitEmailsJoin(es: seq<string>)
    requires es != []
    requires forall i :: 0 <= i < |es| ==> CleanAddress(es[i])
    ensures SplitEmails(Join(es, ',')) == es
  {
    assert forall i :: 0 <= i < |es| ==> ',' !in es[i] by {
      forall i | 0 <= i < |es| ensures ',' !in es[i] {
        assert CleanAddress(es[i]);
      }
    }
    SplitJoin(es, ',');
    assert Join(es, ',') != [] by { assert CleanAddress(es[0]); JoinNonEmpty(es, ','); }
    StrippedNonBlankIdentity(es);
  }

  /** An address as the setting can hold it: non-blank, no surrounding
      whitespace, no comma. */
  predicate CleanAddress(e: string) {
    e != [] && Strip(e) == e && ',' !in e
  }

  lemma {:induction false} StrippedNonBlankIdentity(es: seq<string>)
    requires forall i :: 0 <= i < |es| ==> CleanAddress(es[i])
    ensures StrippedNonBlank(es) == es
  {
    if es != [] {
      assert CleanAddress(es[0]);
      var tail := es[1..];
      assert forall i :: 0 <= i < |tail| ==> CleanAddress(tail[i]) by {
        forall i | 0 <= i < |tail| ensures CleanAddress(tail[i]) {
          assert tail[i] == es[i + 1];
        }
      }
      StrippedNonBlankIdentity(tail);
    }
  }

  lemma {:induction false} JoinNonEmpty(ps: seq<string>, sep: char)
    requires ps != [] && ps[0] != []
    ensures Join(ps, sep) != []
  {
  }
}
