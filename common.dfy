/** Values and text operations shared by every part of the tracking system:
    optional values, results with an error message, and the few Python string
    methods (strip, upper, lower, split, endswith, `in`) that the system's
    parsers and validators are written with. */
module Common {

  datatype Option<+T> = None | Some(value: T)

  /** An operation that either yields a value or fails with a message
      (a raised ValueError or similar in the source). */
  datatype Result<+T> = Ok(value: T) | Err(error: string)

  /** A key of a decoded JSON object: absent, present with value `null`, or
      present with a value. `d.get(k, default)` yields the default only for
      an absent key. */
  datatype Field<+T> = Missing | Null | Present(value: T)

  /** Python truthiness of an optional JSON string. */
  predicate TruthyField(f: Field<string>) {
    f.Present? && f.value != ""
  }

  /** A (waybill, binID) pair as the parsers, the file processor and the batch
      processor pass it around. */
  type Pair = (string, Option<string>)

  /** Pairs are de-duplicated by their waybill. */
  function PairKey(p: Pair): string { p.0 }

  /** Python truthiness of an optional string: present and non-empty. */
  predicate Truthy(o: Option<string>) {
    o.Some? && o.value != ""
  }

  /** The waybills of a list of pairs, in order. */
  function Keys(ps: seq<Pair>): (ks: seq<string>)
    ensures |ks| == |ps|
    ensures forall i :: 0 <= i < |ps| ==> ks[i] == ps[i].0
  {
    if ps == [] then [] else [ps[0].0] + Keys(ps[1..])
  }

  lemma AppendAssoc<T>(a: seq<T>, b: seq<T>, c: seq<T>)
    ensures a + (b + c) == a + b + c
  {
  }

  /** A non-empty sequence is its front and its last element. */
  lemma SplitLast<T>(s: seq<T>)
    requires s != []
    ensures s == s[..|s| - 1] + [s[|s| - 1]]
  {
  }

  lemma KeysAppend(xs: seq<Pair>, ys: seq<Pair>)
    ensures Keys(xs + ys) == Keys(xs) + Keys(ys)
  {
  }

  /** Number of occurrences of `x` in `s`. */
  function Count<T(==)>(s: seq<T>, x: T): nat
  {
    if s == [] then 0 else (if s[0] == x then 1 else 0) + Count(s[1..], x)
  }

  lemma {:induction false} CountAppend<T>(a: seq<T>, b: seq<T>, x: T)
    ensures Count(a + b, x) == Count(a, x) + Count(b, x)
  {
    if a != [] {
      assert (a + b)[0] == a[0];
      assert (a + b)[1..] == a[1..] + b;
      CountAppend(a[1..], b, x);
    } else {
      assert a + b == b;
    }
  }

  lemma CountAbsent<T>(s: seq<T>, x: T)
    requires x !in s
    ensures Count(s, x) == 0
  {
  }

  // ---------------------------------------------------------------------
  // Whitespace and case

  /** Python's `str.isspace` for a single character: the characters that
      `str.strip()` removes. */
  predicate IsSpace(c: char) {
    || c == ' '
    || '\t' <= c <= '\r'
    || '\U{1C}' <= c <= '\U{1F}'
    || c == '\U{85}'
    || c == '\U{A0}'
    || c == '\U{1680}'
    || '\U{2000}' <= c <= '\U{200A}'
    || c == '\U{2028}'
    || c == '\U{2029}'
    || c == '\U{202F}'
    || c == '\U{205F}'
    || c == '\U{3000}'
  }

  predicate AllSpace(s: string) {
    forall i :: 0 <= i < |s| ==> IsSpace(s[i])
  }

  /** `s.lstrip()` */
  function StripLeft(s: string): string {
    if s != [] && IsSpace(s[0]) then StripLeft(s[1..]) else s
  }

  /** `s.rstrip()` */
  function StripRight(s: string): string {
    if s != [] && IsSpace(s[|s| - 1]) then StripRight(s[..|s| - 1]) else s
  }

  /** `lstrip` removes a whitespace prefix and leaves no leading whitespace. */
  lemma {:induction false} StripLeftFacts(s: string)
    ensures |StripLeft(s)| <= |s| && StripLeft(s) == s[|s| - |StripLeft(s)|..]
    ensures AllSpace(s[..|s| - |StripLeft(s)|])
    ensures StripLeft(s) != [] ==> !IsSpace(StripLeft(s)[0])
    decreases |s|
  {
    if s != [] && IsSpace(s[0]) {
      StripLeftFacts(s[1..]);
      var r := StripLeft(s);
      assert s[1..][|s| - 1 - |r|..] == s[|s| - |r|..];
      var pre := s[..|s| - |r|];
      forall i | 0 <= i < |pre| ensures IsSpace(pre[i]) {
        if i > 0 {
          assert pre[i] == s[1..][..|s| - 1 - |r|][i - 1];
        }
      }
    }
  }

  /** `rstrip` removes a whitespace suffix and leaves no trailing whitespace. */
  lemma {:induction false} StripRightFacts(s: string)
    ensures |StripRight(s)| <= |s| && StripRight(s) == s[..|StripRight(s)|]
    ensures AllSpace(s[|StripRight(s)|..])
    ensures StripRight(s) != [] ==> !IsSpace(StripRight(s)[|StripRight(s)| - 1])
    decreases |s|
  {
    if s != [] && IsSpace(s[|s| - 1]) {
      var init := s[..|s| - 1];
      StripRightFacts(init);
      var r := StripRight(s);
      assert init[..|r|] == s[..|r|];
      forall i | 0 <= i < |s| - |r| ensures IsSpace(s[|r|..][i]) {
        if i < |s| - 1 - |r| {
          assert s[|r|..][i] == init[|r|..][i];
        }
      }
    }
  }

  /** `s.strip()`: the text without leading and trailing whitespace. */
  function Strip(s: string): (r: string)
    ensures |r| <= |s|
    ensures r != [] ==> !IsSpace(r[0]) && !IsSpace(r[|r| - 1])
    ensures r == [] <==> AllSpace(s)
  {
    var l := StripLeft(s);
    var r := StripRight(l);
    StripLeftFacts(s);
    StripRightFacts(l);
    assert r == [] ==> AllSpace(s) by {
      if r == [] {
        assert l[|r|..] == l;
        assert s[..|s| - |l|] == s;
      }
    }
    assert r != [] ==> !IsSpace(r[0]) by {
      if r != [] {
        assert r[0] == l[0];
      }
    }
    r
  }

  /** Stripping only removes characters. */
  lemma StripKeeps(s: string, c: char)
    requires c !in s
    ensures c !in Strip(s)
  {
    var l := StripLeft(s);
    var r := StripRight(l);
    StripLeftFacts(s);
    StripRightFacts(l);
    assert c !in l by {
      forall i | 0 <= i < |l| ensures l[i] != c {
        assert l[i] == s[|s| - |l| + i];
      }
    }
    forall i | 0 <= i < |r| ensures r[i] != c {
      assert r[i] == l[i];
    }
  }

  /** A string with no whitespace at either end is its own strip. */
  lemma StripNoEdges(s: string)
    requires s != [] && !IsSpace(s[0]) && !IsSpace(s[|s| - 1])
    ensures Strip(s) == s
  {
    assert StripLeft(s) == s;
    assert StripRight(s) == s;
  }

  lemma StripIdempotent(s: string)
    ensures Strip(Strip(s)) == Strip(s)
  {
    var t := Strip(s);
    if t != [] {
      StripNoEdges(t);
    }
  }

  function UpperChar(c: char): char {
    if 'a' <= c <= 'z' then (c as int - 32) as char else c
  }

  function LowerChar(c: char): char {
    if 'A' <= c <= 'Z' then (c as int + 32) as char else c
  }

  /** `s.upper()` */
  function Upper(s: string): (r: string)
    ensures |r| == |s|
    ensures forall i :: 0 <= i < |s| ==> r[i] == UpperChar(s[i])
  {
    seq(|s|, i requires 0 <= i < |s| => UpperChar(s[i]))
  }

  /** `s.lower()` */
  function Lower(s: string): (r: string)
    ensures |r| == |s|
    ensures forall i :: 0 <= i < |s| ==> r[i] == LowerChar(s[i])
  {
    seq(|s|, i requires 0 <= i < |s| => LowerChar(s[i]))
  }

  lemma UpperIdempotent(s: string)
    ensures Upper(Upper(s)) == Upper(s)
  {
  }

  // ---------------------------------------------------------------------
  // Searching and splitting

  /** `t in s` for strings: `t` occurs in `s` as a contiguous piece. */
  predicate ContainsText(s: string, t: string)
    decreases |s|
  {
    (|t| <= |s| && s[..|t|] == t) || (s != [] && ContainsText(s[1..], t))
  }

  /** `s.endswith(t)` */
  predicate EndsWith(s: string, t: string) {
    |t| <= |s| && s[|s| - |t|..] == t
  }

  /** The position of the first `c` in `s`. */
  function IndexOf(s: string, c: char): (i: nat)
    requires c in s
    ensures i < |s| && s[i] == c && c !in s[..i]
  {
    if s[0] == c then 0 else 1 + IndexOf(s[1..], c)
  }

  /** The position of the last `c` in `s` (`s.rfind(c)`), or None. */
  function LastIndexOf(s: string, c: char): (r: Option<nat>)
    ensures r.None? <==> c !in s
    ensures r.Some? ==> r.value < |s| && s[r.value] == c && c !in s[r.value + 1..]
  {
    if s == [] then None
    else if s[|s| - 1] == c then Some(|s| - 1)
    else
      var r := LastIndexOf(s[..|s| - 1], c);
      assert r.Some? ==> s[r.value + 1..] == s[..|s| - 1][r.value + 1..] + [s[|s| - 1]];
      assert r.None? ==> s == s[..|s| - 1] + [s[|s| - 1]];
      r
  }

  /** `s.split(sep)`: the pieces between the separators, `Count(s, sep) + 1` of them. */
  function Split(s: string, sep: char): (r: seq<string>)
    ensures |r| == Count(s, sep) + 1
    ensures forall i :: 0 <= i < |r| ==> sep !in r[i]
  {
    if s == [] then [[]]
    else
      var rest := Split(s[1..], sep);
      if s[0] == sep then [[]] + rest else [[s[0]] + rest[0]] + rest[1..]
  }

  /** `sep.join(ps)` */
  function Join(ps: seq<string>, sep: char): string
    requires ps != []
  {
    if |ps| == 1 then ps[0] else ps[0] + [sep] + Join(ps[1..], sep)
  }

  /** Splitting loses nothing: joining the pieces again gives back the text. */
  lemma {:induction false} JoinSplit(s: string, sep: char)
    ensures Join(Split(s, sep), sep) == s
  {
    if s != [] {
      var rest := Split(s[1..], sep);
      JoinSplit(s[1..], sep);
      if s[0] != sep {
        var r := [[s[0]] + rest[0]] + rest[1..];
        assert r[1..] == rest[1..];
        if |rest| > 1 {
          assert Join(rest, sep) == rest[0] + [sep] + Join(rest[1..], sep);
        }
      }
    }
  }

  lemma {:induction false} SplitPrefix(a: string, b: string, sep: char)
    requires sep !in a
    ensures Split(a + b, sep) == [a + Split(b, sep)[0]] + Split(b, sep)[1..]
  {
    if a != [] {
      var s := a + b;
      var tail := a[1..];
      var sb := Split(b, sep);
      assert s[0] == a[0] && s[0] != sep;
      assert s[1..] == tail + b;
      SplitPrefix(tail, b, sep);
      var rest := Split(s[1..], sep);
      assert rest[0] == tail + sb[0] && rest[1..] == sb[1..];
      assert Split(s, sep) == [[s[0]] + rest[0]] + rest[1..];
      AppendAssoc([a[0]], tail, sb[0]);
      assert [a[0]] + tail == a;
    } else {
      assert a + b == b;
      assert [] + Split(b, sep)[0] == Split(b, sep)[0];
      assert Split(b, sep) == [Split(b, sep)[0]] + Split(b, sep)[1..];
    }
  }

  /** Joining pieces that do not contain the separator and splitting again
      gives back the pieces. */
  lemma {:induction false} SplitJoin(ps: seq<string>, sep: char)
    requires ps != []
    requires forall i :: 0 <= i < |ps| ==> sep !in ps[i]
    ensures Split(Join(ps, sep), sep) == ps
  {
    if |ps| == 1 {
      SplitPrefix(ps[0], [], sep);
      assert ps[0] + [] == ps[0];
    } else {
      var t := Join(ps[1..], sep);
      SplitJoin(ps[1..], sep);
      assert ps[0] + [sep] + t == ps[0] + ([sep] + t);
      SplitPrefix(ps[0], [sep] + t, sep);
      assert ([sep] + t)[1..] == t;
      assert Split([sep] + t, sep) == [[]] + Split(t, sep);
      assert ps[0] + [] == ps[0];
      assert ps == [ps[0]] + ps[1..];
    }
  }

  /** `s.split(sep, 1)` when `sep` occurs: the text before the first separator
      and the text after it (which may contain further separators). */
  function SplitFirst(s: string, sep: char): (r: (string, string))
    requires sep in s
    ensures sep !in r.0
    ensures s == r.0 + [sep] + r.1
  {
    var i := IndexOf(s, sep);
    assert s == s[..i] + [sep] + s[i + 1..];
    (s[..i], s[i + 1..])
  }

  // ---------------------------------------------------------------------
  // Numbers as text

  function DigitChar(d: nat): char
    requires d < 10
  {
    "0123456789"[d]
  }

  /** `str(n)` for a natural number. */
  function NatToString(n: nat): (r: string)
    ensures r != []
    ensures forall i :: 0 <= i < |r| ==> '0' <= r[i] <= '9'
  {
    if n < 10 then [DigitChar(n)] else NatToString(n / 10) + [DigitChar(n % 10)]
  }

  // ---------------------------------------------------------------------
  // Order-preserving de-duplication (the `seen` set loops of the source)

  /** The elements of `xs` whose key is not in `seen` and has not occurred
      before them, in order. */
  function FirstOccurrences<T>(xs: seq<T>, key: T -> string, seen: set<string>): seq<T>
  {
    if xs == [] then []
    else if key(xs[0]) in seen then FirstOccurrences(xs[1..], key, seen)
    else [xs[0]] + FirstOccurrences(xs[1..], key, seen + {key(xs[0])})
  }

  /** The first element of `xs` whose key is `k`. */
  function FirstWithKey<T>(xs: seq<T>, key: T -> string, k: string): T
    requires exists i :: 0 <= i < |xs| && key(xs[i]) == k
  {
    if key(xs[0]) == k then xs[0] else FirstWithKey(xs[1..], key, k)
  }

  predicate DistinctKeys<T>(xs: seq<T>, key: T -> string) {
    forall i, j :: 0 <= i < j < |xs| ==> key(xs[i]) != key(xs[j])
  }

  /** `sub` is `xs` with some elements left out, the rest in order. */
  predicate IsSubsequence<T(==)>(sub: seq<T>, xs: seq<T>)
    decreases |xs|
  {
    || sub == []
    || (xs != [] && ((sub[0] == xs[0] && IsSubsequence(sub[1..], xs[1..])) || IsSubsequence(sub, xs[1..])))
  }

  lemma {:induction false} FirstOccurrencesKeys<T>(xs: seq<T>, key: T -> string, seen: set<string>)
    ensures var r := FirstOccurrences(xs, key, seen);
      && DistinctKeys(r, key)
      && (forall i :: 0 <= i < |r| ==> key(r[i]) !in seen)
  {
    if xs != [] {
      var k := key(xs[0]);
      if k !in seen {
        FirstOccurrencesKeys(xs[1..], key, seen + {k});
      } else {
        FirstOccurrencesKeys(xs[1..], key, seen);
      }
    }
  }

  /** Every key of `xs` not in `seen` is kept: some element of the result
      carries it. */
  lemma {:induction false} FirstOccurrencesComplete<T>(xs: seq<T>, key: T -> string, seen: set<string>, i: nat)
    requires i < |xs| && key(xs[i]) !in seen
    ensures exists j :: 0 <= j < |FirstOccurrences(xs, key, seen)| && key(FirstOccurrences(xs, key, seen)[j]) == key(xs[i])
  {
    var k := key(xs[0]);
    var r := FirstOccurrences(xs, key, seen);
    if k !in seen && key(xs[i]) == k {
      assert r == [xs[0]] + FirstOccurrences(xs[1..], key, seen + {k});
      assert 0 < |r| && key(r[0]) == key(xs[i]);
      assert exists j :: 0 <= j < |r| && key(r[j]) == key(xs[i]);
    } else if k in seen {
      assert i != 0 && xs[i] == xs[1..][i - 1];
      FirstOccurrencesComplete(xs[1..], key, seen, i - 1);
      var rest := FirstOccurrences(xs[1..], key, seen);
      var j :| 0 <= j < |rest| && key(rest[j]) == key(xs[i]);
      assert r == rest;
      assert key(r[j]) == key(xs[i]);
    } else {
      assert i != 0 && xs[i] == xs[1..][i - 1];
      FirstOccurrencesComplete(xs[1..], key, seen + {k}, i - 1);
      var rest := FirstOccurrences(xs[1..], key, seen + {k});
      var j :| 0 <= j < |rest| && key(rest[j]) == key(xs[i]);
      assert r == [xs[0]] + rest;
      assert r[j + 1] == rest[j];
    }
  }

  lemma {:induction false} FirstOccurrencesAreFirst<T>(xs: seq<T>, key: T -> string, seen: set<string>)
    ensures var r := FirstOccurrences(xs, key, seen);
      forall i :: 0 <= i < |r| ==>
        (exists m :: 0 <= m < |xs| && key(xs[m]) == key(r[i])) &&
        r[i] == FirstWithKey(xs, key, key(r[i]))
  {
    if xs != [] {
      var k := key(xs[0]);
      var r := FirstOccurrences(xs, key, seen);
      var seen' := if k in seen then seen else seen + {k};
      var rest := FirstOccurrences(xs[1..], key, seen');
      FirstOccurrencesAreFirst(xs[1..], key, seen');
      FirstOccurrencesKeys(xs[1..], key, seen');
      forall i | 0 <= i < |r|
        ensures (exists m :: 0 <= m < |xs| && key(xs[m]) == key(r[i])) &&
                r[i] == FirstWithKey(xs, key, key(r[i]))
      {
        if k !in seen && i == 0 {
          assert key(xs[0]) == key(r[i]);
        } else {
          var i' := if k in seen then i else i - 1;
          assert r[i] == rest[i'];
          var m :| 0 <= m < |xs[1..]| && key(xs[1..][m]) == key(rest[i']);
          assert key(xs[m + 1]) == key(r[i]);
          assert key(r[i]) != k;
        }
      }
    }
  }

  lemma {:induction false} FirstOccurrencesInOrder<T>(xs: seq<T>, key: T -> string, seen: set<string>)
    ensures IsSubsequence(FirstOccurrences(xs, key, seen), xs)
  {
    if xs != [] {
      var k := key(xs[0]);
      if k in seen {
        FirstOccurrencesInOrder(xs[1..], key, seen);
      } else {
        var r := FirstOccurrences(xs, key, seen);
        FirstOccurrencesInOrder(xs[1..], key, seen + {k});
        assert r[0] == xs[0] && r[1..] == FirstOccurrences(xs[1..], key, seen + {k});
      }
    }
  }

  /** Every element kept is an element of the input. */
  lemma {:induction false} FirstOccurrencesIn<T>(xs: seq<T>, key: T -> string, seen: set<string>)
    ensures forall i :: 0 <= i < |FirstOccurrences(xs, key, seen)| ==> FirstOccurrences(xs, key, seen)[i] in xs
  {
    if xs != [] {
      var k := key(xs[0]);
      var seen' := if k in seen then seen else seen + {k};
      FirstOccurrencesIn(xs[1..], key, seen');
      var r := FirstOccurrences(xs, key, seen);
      forall i | 0 <= i < |r| ensures r[i] in xs {
        if k !in seen && i == 0 {
        } else {
          var i' := if k in seen then i else i - 1;
          assert r[i] == FirstOccurrences(xs[1..], key, seen')[i'];
          assert r[i] in xs[1..];
        }
      }
    }
  }

  /** Input whose keys are all distinct and not yet seen is kept whole. */
  lemma {:induction false} FirstOccurrencesOfDistinct<T>(xs: seq<T>, key: T -> string, seen: set<string>)
    requires DistinctKeys(xs, key)
    requires forall i :: 0 <= i < |xs| ==> key(xs[i]) !in seen
    ensures FirstOccurrences(xs, key, seen) == xs
  {
    if xs != [] {
      var k := key(xs[0]);
      var tail := xs[1..];
      assert DistinctKeys(tail, key) by {
        forall i, j | 0 <= i < j < |tail| ensures key(tail[i]) != key(tail[j]) {
          assert tail[i] == xs[i + 1] && tail[j] == xs[j + 1];
        }
      }
      forall i | 0 <= i < |tail| ensures key(tail[i]) !in seen + {k} {
        assert tail[i] == xs[i + 1];
      }
      FirstOccurrencesOfDistinct(tail, key, seen + {k});
    }
  }

  /** The `seen`-set loop of the source: the first element for each key, in
      input order. */
  method Dedupe<T>(xs: seq<T>, key: T -> string) returns (unique: seq<T>)
    ensures unique == FirstOccurrences(xs, key, {})
  {
    var seen: set<string> := {};
    unique := [];
    var i := 0;
    while i < |xs|
      invariant 0 <= i <= |xs|
      invariant unique + FirstOccurrences(xs[i..], key, seen) == FirstOccurrences(xs, key, {})
    {
      assert xs[i..][1..] == xs[i + 1..];
      if key(xs[i]) !in seen {
        AppendAssoc(unique, [xs[i]], FirstOccurrences(xs[i + 1..], key, seen + {key(xs[i])}));
        seen := seen + {key(xs[i])};
        unique := unique + [xs[i]];
      }
      i := i + 1;
    }
    assert xs[i..] == [];
  }


  /** Upper-casing neither adds nor removes whitespace. */
  lemma UpperSpace(c: char)
    ensures IsSpace(UpperChar(c)) <==> IsSpace(c)
  {
  }

  /** `s.strip().upper()` is already stripped and upper-cased. */
  lemma CleanedIsClean(s: string)
    ensures Strip(Upper(Strip(s))) == Upper(Strip(s))
    ensures Upper(Upper(Strip(s))) == Upper(Strip(s))
  {
    var t := Strip(s);
    var u := Upper(t);
    UpperIdempotent(t);
    if u != [] {
      UpperSpace(t[0]);
      UpperSpace(t[|t| - 1]);
      StripNoEdges(u);
    }
  }
}
