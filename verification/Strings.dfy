/** The string operations the stores rely on: byte order, sorting, trimming and
    UUID parsing. */
module Strings {

  datatype Option<+T> = None | Some(value: T)

  // ----- byte order and sorting (sort.Strings) -----

  predicate LexLe(a: string, b: string) {
    if a == "" then true
    else if b == "" then false
    else if a[0] != b[0] then a[0] < b[0]
    else LexLe(a[1..], b[1..])
  }

  predicate LexLess(a: string, b: string) {
    a != b && LexLe(a, b)
  }

  lemma {:induction false} LexTotal(a: string, b: string)
    ensures LexLe(a, b) || LexLe(b, a)
  {
    if a != "" && b != "" && a[0] == b[0] {
      LexTotal(a[1..], b[1..]);
    }
  }

  lemma {:induction false} LexAntisymmetric(a: string, b: string)
    requires LexLe(a, b) && LexLe(b, a)
    ensures a == b
  {
    if a != "" && b != "" {
      LexAntisymmetric(a[1..], b[1..]);
      assert a == [a[0]] + a[1..] && b == [b[0]] + b[1..];
    }
  }

  lemma {:induction false} LexTransitive(a: string, b: string, c: string)
    requires LexLe(a, b) && LexLe(b, c)
    ensures LexLe(a, c)
  {
    if a != "" && a[0] == b[0] == c[0] {
      LexTransitive(a[1..], b[1..], c[1..]);
    }
  }

  /** A common prefix does not change the order, so keys sorted without their
      namespace stay sorted once it is prepended. */
  lemma {:induction false} LexPrefix(p: string, a: string, b: string)
    ensures LexLe(p + a, p + b) == LexLe(a, b)
  {
    if p == "" {
      assert p + a == a && p + b == b;
    } else {
      assert (p + a)[1..] == p[1..] + a && (p + b)[1..] == p[1..] + b;
      LexPrefix(p[1..], a, b);
    }
  }

  ghost predicate Sorted(s: seq<string>) {
    forall i, j :: 0 <= i < j < |s| ==> LexLe(s[i], s[j])
  }

  function Insert(x: string, s: seq<string>): (r: seq<string>)
    ensures multiset(r) == multiset(s) + multiset{x}
  {
    if s == [] then [x]
    else if LexLe(x, s[0]) then [x] + s
    else
      assert s == [s[0]] + s[1..];
      [s[0]] + Insert(x, s[1..])
  }

  function SortStrings(s: seq<string>): (r: seq<string>)
    ensures multiset(r) == multiset(s)
    ensures |r| == |s|
  {
    if s == [] then []
    else
      assert s == [s[0]] + s[1..];
      var r := Insert(s[0], SortStrings(s[1..]));
      assert |multiset(r)| == |multiset(s)|;
      r
  }

  lemma {:induction false} InsertSorted(x: string, s: seq<string>)
    requires Sorted(s)
    ensures Sorted(Insert(x, s))
  {
    if s == [] {
    } else if LexLe(x, s[0]) {
      forall j | 0 <= j < |s| ensures LexLe(x, s[j]) {
        if j > 0 { LexTransitive(x, s[0], s[j]); }
      }
    } else {
      InsertSorted(x, s[1..]);
      var t := Insert(x, s[1..]);
      LexTotal(x, s[0]);
      forall j | 0 <= j < |t| ensures LexLe(s[0], t[j]) {
        assert t[j] in multiset(t);
        if t[j] != x {
          assert t[j] in multiset(s[1..]);
          assert t[j] in s[1..];
        }
      }
    }
  }

  /** `sort.Strings` returns a sorted permutation. */
  lemma {:induction false} SortStringsSorted(s: seq<string>)
    ensures Sorted(SortStrings(s))
  {
    if s != [] {
      SortStringsSorted(s[1..]);
      InsertSorted(s[0], SortStrings(s[1..]));
    }
  }

  lemma SortStringsMembers(s: seq<string>, x: string)
    ensures x in SortStrings(s) <==> x in s
  {
    assert x in SortStrings(s) <==> x in multiset(SortStrings(s));
    assert x in s <==> x in multiset(s);
  }

  // ----- trimming and UUID parsing -----

  predicate IsSpace(c: char) {
    c in {' ', '\t', '\n', '\r'}
  }

  function Trim(s: string): string {
    if s == "" then ""
    else if IsSpace(s[0]) then Trim(s[1..])
    else if IsSpace(s[|s| - 1]) then Trim(s[..|s| - 1])
    else s
  }

  lemma {:induction false} TrimTwice(s: string)
    ensures Trim(Trim(s)) == Trim(s)
    decreases |s|
  {
    if s != "" && IsSpace(s[0]) {
      TrimTwice(s[1..]);
    } else if s != "" && IsSpace(s[|s| - 1]) {
      TrimTwice(s[..|s| - 1]);
    }
  }

  predicate IsHex(c: char) {
    '0' <= c <= '9' || 'a' <= c <= 'f' || 'A' <= c <= 'F'
  }

  function Lower(s: string): (r: string)
    ensures |r| == |s|
  {
    seq(|s|, i requires 0 <= i < |s| =>
      if 'A' <= s[i] <= 'Z' then (s[i] as int + 32) as char else s[i])
  }

  predicate IsHyphenated(s: string) {
    |s| == 36 && HyphenatedFrom(s, 0)
  }

  predicate HyphenatedFrom(s: string, i: nat)
    requires |s| == 36 && i <= 36
    decreases 36 - i
  {
    i == 36 ||
    ((if i == 8 || i == 13 || i == 18 || i == 23 then s[i] == '-' else IsHex(s[i])) && HyphenatedFrom(s, i + 1))
  }

  /** `uuid.Parse`: plain, `urn:uuid:`, braced and undashed forms, all returned
      in the canonical lower-case hyphenated form. */
  function ParseUuid(s: string): (r: Option<string>)
    ensures r.Some? ==> |r.value| == 36
  {
    if |s| == 36 then
      if IsHyphenated(s) then Some(Lower(s)) else None
    else if |s| == 45 then
      if Lower(s[..9]) == "urn:uuid:" && IsHyphenated(s[9..]) then Some(Lower(s[9..])) else None
    else if |s| == 38 then
      if IsHyphenated(s[1..37]) then Some(Lower(s[1..37])) else None
    else if |s| == 32 then
      var h := s[..8] + "-" + s[8..12] + "-" + s[12..16] + "-" + s[16..20] + "-" + s[20..];
      if IsHyphenated(h) then Some(Lower(h)) else None
    else None
  }

  predicate IsUuid(s: string) {
    ParseUuid(s).Some?
  }

  // ----- case folding -----

  predicate EqualFold(a: string, b: string) {
    Lower(a) == Lower(b)
  }
}
