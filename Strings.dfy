/**
 * The string operations of JavaScript that the modelled code relies on:
 * `startsWith`, `endsWith`, `trim`, `split` and `join` on one separator,
 * decimal rendering of integers, and the default order of `Array.prototype.sort`.
 */
module Strings {

  predicate StartsWith(s: string, prefix: string) {
    |prefix| <= |s| && s[..|prefix|] == prefix
  }

  predicate EndsWith(s: string, suffix: string) {
    |suffix| <= |s| && s[|s| - |suffix|..] == suffix
  }

  // ---------------------------------------------------------------------------
  // trim
  // ---------------------------------------------------------------------------

  /** The characters `String.prototype.trim` removes: white space and line terminators of ECMAScript. */
  predicate IsWhitespace(c: char) {
    || c == '\t' || c == '\n' || c == '\U{000B}' || c == '\U{000C}' || c == '\r' || c == ' '
    || c == '\U{00A0}' || c == '\U{1680}' || ('\U{2000}' <= c <= '\U{200A}')
    || c == '\U{2028}' || c == '\U{2029}' || c == '\U{202F}' || c == '\U{205F}' || c == '\U{3000}'
    || c == '\U{FEFF}'
  }

  function TrimStart(s: string): (r: string)
    ensures |r| <= |s| && r == s[|s| - |r|..]
    ensures |r| > 0 ==> !IsWhitespace(r[0])
    ensures forall i :: 0 <= i < |s| - |r| ==> IsWhitespace(s[i])
  {
    if |s| > 0 && IsWhitespace(s[0]) then TrimStart(s[1..]) else s
  }

  function TrimEnd(s: string): (r: string)
    ensures |r| <= |s| && r == s[..|r|]
    ensures |r| > 0 ==> !IsWhitespace(r[|r| - 1])
    ensures forall i :: |r| <= i < |s| ==> IsWhitespace(s[i])
  {
    if |s| > 0 && IsWhitespace(s[|s| - 1]) then TrimEnd(s[..|s| - 1]) else s
  }

  function Trim(s: string): string {
    TrimEnd(TrimStart(s))
  }

  /** Trimming the end cannot remove a prefix that starts with a non-blank character. */
  lemma TrimStartsWith(s: string, p: string)
    requires |p| > 0 && !IsWhitespace(p[|p| - 1])
    ensures StartsWith(Trim(s), p) <==> StartsWith(TrimStart(s), p)
  {
    var t := TrimStart(s);
    var r := TrimEnd(t);
    if StartsWith(t, p) {
      assert !IsWhitespace(t[|p| - 1]);
      assert |p| <= |r|;
      assert r[..|p|] == t[..|p|];
    }
    if StartsWith(r, p) {
      assert t[..|p|] == r[..|p|];
    }
  }

  /** Text after a non-blank character is untouched by trimming the start. */
  lemma {:induction false} TrimStartAppend(s: string, t: string)
    requires TrimStart(s) != ""
    ensures TrimStart(s + t) == TrimStart(s) + t
  {
    if IsWhitespace(s[0]) {
      TrimStartAppend(s[1..], t);
      assert (s + t)[1..] == s[1..] + t;
    }
  }

  // ---------------------------------------------------------------------------
  // split and join on a single-character separator
  // ---------------------------------------------------------------------------

  /** `s.split(d)`: the pieces between separators; always at least one piece. */
  function Split(s: string, d: char): (r: seq<string>)
    ensures |r| >= 1
    ensures forall i :: 0 <= i < |r| ==> d !in r[i]
  {
    if |s| == 0 then [""]
    else if s[0] == d then [""] + Split(s[1..], d)
    else
      var rest := Split(s[1..], d);
      [[s[0]] + rest[0]] + rest[1..]
  }

  /** `parts.join(sep)`. */
  function Join(parts: seq<string>, sep: string): string {
    if |parts| == 0 then ""
    else if |parts| == 1 then parts[0]
    else parts[0] + sep + Join(parts[1..], sep)
  }

  /** Joining the pieces of a split with the separator gives the string back. */
  lemma {:induction false} JoinSplit(s: string, d: char)
    ensures Join(Split(s, d), [d]) == s
  {
    if |s| == 0 {
    } else if s[0] == d {
      JoinSplit(s[1..], d);
      assert s == [d] + s[1..];
    } else {
      var rest := Split(s[1..], d);
      JoinSplit(s[1..], d);
      if |rest| == 1 {
        assert s == [s[0]] + rest[0];
      } else {
        assert Join(rest, [d]) == rest[0] + [d] + Join(rest[1..], [d]);
        assert s == [s[0]] + s[1..];
      }
    }
  }

  /** Splitting a piece without separators followed by more text extends only the first piece. */
  lemma {:induction false} SplitPrefix(a: string, tail: string, d: char)
    requires d !in a
    ensures Split(a + tail, d) == [a + Split(tail, d)[0]] + Split(tail, d)[1..]
  {
    if |a| > 0 {
      SplitPrefix(a[1..], tail, d);
      assert (a + tail)[1..] == a[1..] + tail;
      assert (a + tail)[0] == a[0];
      assert [a[0]] + (a[1..] + Split(tail, d)[0]) == a + Split(tail, d)[0];
    } else {
      var r := Split(tail, d);
      assert a + tail == tail && a + r[0] == r[0];
      assert r == [r[0]] + r[1..];
    }
  }

  /** Splitting a join of separator-free pieces gives the pieces back (a join of nothing splits into one empty piece). */
  lemma {:induction false} SplitJoin(parts: seq<string>, d: char)
    requires |parts| >= 1
    requires forall i :: 0 <= i < |parts| ==> d !in parts[i]
    ensures Split(Join(parts, [d]), d) == parts
  {
    if |parts| == 1 {
      SplitPrefix(parts[0], "", d);
      assert parts[0] + "" == parts[0];
    } else {
      var rest := Join(parts[1..], [d]);
      SplitJoin(parts[1..], d);
      assert Join(parts, [d]) == parts[0] + ([d] + rest);
      SplitPrefix(parts[0], [d] + rest, d);
      assert ([d] + rest)[1..] == rest;
      assert Split([d] + rest, d) == [""] + parts[1..];
      assert parts[0] + "" == parts[0];
    }
  }

  // ---------------------------------------------------------------------------
  // decimal rendering of integers (what a template literal does with an integral number)
  // ---------------------------------------------------------------------------

  predicate IsDigit(c: char) {
    '0' <= c <= '9'
  }

  function DigitChar(d: nat): (c: char)
    requires d < 10
    ensures IsDigit(c) && c as int - '0' as int == d
  {
    (d + '0' as int) as char
  }

  function NatToString(n: nat): (r: string)
    ensures |r| >= 1
    ensures forall i :: 0 <= i < |r| ==> IsDigit(r[i])
  {
    if n < 10 then [DigitChar(n)] else NatToString(n / 10) + [DigitChar(n % 10)]
  }

  function IntToString(i: int): string {
    if i < 0 then "-" + NatToString(-i) else NatToString(i)
  }

  /** Reads a string of decimal digits back as a number. */
  function ParseDigits(s: string): nat
    requires forall i :: 0 <= i < |s| ==> IsDigit(s[i])
  {
    if |s| == 0 then 0
    else
      assert IsDigit(s[|s| - 1]);
      ParseDigits(s[..|s| - 1]) * 10 + (s[|s| - 1] as int - '0' as int)
  }

  lemma {:induction false} ParseNatToString(n: nat)
    ensures ParseDigits(NatToString(n)) == n
  {
    if n >= 10 {
      var r := NatToString(n);
      ParseNatToString(n / 10);
      assert r[..|r| - 1] == NatToString(n / 10);
    }
  }

  lemma NatToStringInjective(a: nat, b: nat)
    ensures NatToString(a) == NatToString(b) ==> a == b
  {
    ParseNatToString(a);
    ParseNatToString(b);
  }

  lemma NatToStringInjectiveAll()
    ensures forall a: nat, b: nat :: NatToString(a) == NatToString(b) ==> a == b
  {
    forall a: nat, b: nat ensures NatToString(a) == NatToString(b) ==> a == b {
      NatToStringInjective(a, b);
    }
  }

  // ---------------------------------------------------------------------------
  // the default order of Array.prototype.sort on strings
  // ---------------------------------------------------------------------------

  /** Lexicographic order by character: the order `sort()` uses with no comparator. */
  predicate LexLe(a: string, b: string) {
    |a| == 0 || (|b| > 0 && (a[0] < b[0] || (a[0] == b[0] && LexLe(a[1..], b[1..]))))
  }

  lemma {:induction false} LexLeTotal(a: string, b: string)
    ensures LexLe(a, b) || LexLe(b, a)
  {
    if |a| > 0 && |b| > 0 && a[0] == b[0] {
      LexLeTotal(a[1..], b[1..]);
    }
  }

  lemma {:induction false} LexLeTransitive(a: string, b: string, c: string)
    requires LexLe(a, b) && LexLe(b, c)
    ensures LexLe(a, c)
  {
    if |a| > 0 && a[0] == b[0] && b[0] == c[0] {
      LexLeTransitive(a[1..], b[1..], c[1..]);
    }
  }

  lemma {:induction false} LexLeAntisymmetric(a: string, b: string)
    requires LexLe(a, b) && LexLe(b, a)
    ensures a == b
  {
    if |a| > 0 {
      LexLeAntisymmetric(a[1..], b[1..]);
      assert a == [a[0]] + a[1..] && b == [b[0]] + b[1..];
    }
  }

  predicate Sorted(s: seq<string>) {
    forall i, j :: 0 <= i < j < |s| ==> LexLe(s[i], s[j])
  }

  /** A lower bound of `x` and of every element of `s` bounds every element of a permutation of `s + [x]`. */
  lemma LowerBound(y: string, x: string, s: seq<string>, r: seq<string>)
    requires LexLe(y, x) && Sorted([y] + s)
    requires multiset(r) == multiset(s) + multiset{x}
    ensures forall k :: 0 <= k < |r| ==> LexLe(y, r[k])
  {
    forall k | 0 <= k < |r| ensures LexLe(y, r[k]) {
      assert r[k] in multiset(r);
      if r[k] != x {
        assert r[k] in multiset(s);
        var j :| 0 <= j < |s| && s[j] == r[k];
        assert ([y] + s)[0] == y && ([y] + s)[j + 1] == s[j];
      }
    }
  }

  /** Inserts `x` into a sorted sequence, keeping it sorted. */
  function Insert(x: string, s: seq<string>): (r: seq<string>)
    requires Sorted(s)
    ensures Sorted(r)
    ensures multiset(r) == multiset(s) + multiset{x}
  {
    if |s| == 0 then [x]
    else if LexLe(x, s[0]) then
      assert forall j :: 0 < j < |s| ==> LexLe(x, s[j]) by {
        forall j | 0 < j < |s| ensures LexLe(x, s[j]) {
          LexLeTransitive(x, s[0], s[j]);
        }
      }
      [x] + s
    else
      var rest := Insert(x, s[1..]);
      LexLeTotal(x, s[0]);
      LowerBound(s[0], x, s[1..], rest);
      assert s == [s[0]] + s[1..];
      [s[0]] + rest
  }

  /** `[...].sort()` on strings: a sorted permutation of the input. */
  function SortStrings(s: seq<string>): (r: seq<string>)
    ensures Sorted(r)
    ensures multiset(r) == multiset(s)
  {
    if |s| == 0 then []
    else
      assert s == [s[0]] + s[1..];
      Insert(s[0], SortStrings(s[1..]))
  }

  lemma SortedTail(a: seq<string>)
    requires Sorted(a) && |a| > 0
    ensures Sorted(a[1..])
  {
    forall i, j | 0 <= i < j < |a| - 1 ensures LexLe(a[1..][i], a[1..][j]) {
      assert a[1..][i] == a[i + 1] && a[1..][j] == a[j + 1];
    }
  }

  /** Two sorted arrangements of the same strings start with the same string. */
  lemma SortedSameHead(a: seq<string>, b: seq<string>)
    requires Sorted(a) && Sorted(b) && multiset(a) == multiset(b) && |a| > 0
    ensures |b| > 0 && a[0] == b[0]
  {
    assert a[0] in multiset(b) && |b| == |multiset(b)|;
    assert b[0] in multiset(a);
    var j :| 0 <= j < |b| && b[j] == a[0];
    var k :| 0 <= k < |a| && a[k] == b[0];
    if j > 0 && k > 0 {
      assert LexLe(b[0], b[j]) && LexLe(a[0], a[k]);
      LexLeAntisymmetric(a[0], b[0]);
    }
  }

  lemma MultisetTail(a: seq<string>, b: seq<string>)
    requires |a| > 0 && |b| > 0 && a[0] == b[0] && multiset(a) == multiset(b)
    ensures multiset(a[1..]) == multiset(b[1..])
  {
    var ta, tb := a[1..], b[1..];
    assert a == [a[0]] + ta && b == [b[0]] + tb;
    assert multiset(a) == multiset{a[0]} + multiset(ta);
    assert multiset(b) == multiset{a[0]} + multiset(tb);
    forall x ensures multiset(ta)[x] == multiset(tb)[x] {
      assert multiset(a)[x] == multiset{a[0]}[x] + multiset(ta)[x];
      assert multiset(b)[x] == multiset{a[0]}[x] + multiset(tb)[x];
    }
  }

  /** `sort()` has one answer: two sorted arrangements of the same strings are equal. */
  lemma {:induction false} SortedUnique(a: seq<string>, b: seq<string>)
    requires Sorted(a) && Sorted(b) && multiset(a) == multiset(b)
    ensures a == b
  {
    assert |a| == |multiset(a)| && |b| == |multiset(b)|;
    if |a| > 0 {
      SortedSameHead(a, b);
      MultisetTail(a, b);
      SortedTail(a);
      SortedTail(b);
      SortedUnique(a[1..], b[1..]);
      assert a == [a[0]] + a[1..] && b == [b[0]] + b[1..];
    }
  }

  // ---------------------------------------------------------------------------
  // duplicates
  // ---------------------------------------------------------------------------

  predicate NoDups(s: seq<string>) {
    forall i, j :: 0 <= i < j < |s| ==> s[i] != s[j]
  }

  /** `[...new Set(s)]`: the first occurrence of each string, in order of appearance. */
  function Distinct(s: seq<string>): (r: seq<string>)
    ensures NoDups(r)
    ensures forall x :: x in r <==> x in s
  {
    if |s| == 0 then []
    else
      var d := Distinct(s[..|s| - 1]);
      assert s == s[..|s| - 1] + [s[|s| - 1]];
      if s[|s| - 1] in d then d else d + [s[|s| - 1]]
  }

  lemma {:induction false} NoDupsCount(s: seq<string>, x: string)
    requires NoDups(s)
    ensures multiset(s)[x] <= 1
  {
    if |s| > 0 {
      var p := s[..|s| - 1];
      assert s == p + [s[|s| - 1]];
      NoDupsCount(p, x);
      if x == s[|s| - 1] {
        assert x !in p;
      }
    }
  }

  lemma RepeatedCount(t: seq<string>, i: nat, j: nat)
    requires i < j < |t|
    ensures t[i] == t[j] ==> multiset(t)[t[i]] >= 2
  {
    assert t == t[..j] + t[j..];
    assert t[i] in t[..j] && t[j] in t[j..];
    assert multiset(t)[t[i]] == multiset(t[..j])[t[i]] + multiset(t[j..])[t[i]];
  }

  /** A permutation of a sequence without duplicates has none either. */
  lemma NoDupsPermutation(s: seq<string>, t: seq<string>)
    requires NoDups(s) && multiset(s) == multiset(t)
    ensures NoDups(t)
  {
    forall i, j | 0 <= i < j < |t| ensures t[i] != t[j] {
      RepeatedCount(t, i, j);
      NoDupsCount(s, t[i]);
    }
  }

  /** Without duplicates, a sequence has as many elements as it has distinct ones. */
  lemma {:induction false} NoDupsCard(s: seq<string>)
    requires NoDups(s)
    ensures |set x | x in s| == |s|
  {
    if |s| > 0 {
      var p := s[..|s| - 1];
      NoDupsCard(p);
      assert s == p + [s[|s| - 1]];
      assert (set x | x in s) == (set x | x in p) + {s[|s| - 1]};
      assert s[|s| - 1] !in p;
    }
  }

  /** Two sequences without duplicates and with the same elements are permutations of each other. */
  lemma SameElementsPermutation(s: seq<string>, t: seq<string>)
    requires NoDups(s) && NoDups(t)
    requires forall x :: x in s <==> x in t
    ensures multiset(s) == multiset(t)
  {
    forall x ensures multiset(s)[x] == multiset(t)[x] {
      NoDupsCount(s, x);
      NoDupsCount(t, x);
      assert x in multiset(s) <==> x in s;
      assert x in multiset(t) <==> x in t;
    }
  }

  /** `[...new Set([...a, ...b])].sort()` depends only on which strings `a` and `b` hold, not on their order. */
  lemma SortDistinctOrderFree(a: seq<string>, b: seq<string>, a2: seq<string>, b2: seq<string>)
    requires forall x :: x in a <==> x in a2
    requires forall x :: x in b <==> x in b2
    ensures SortStrings(Distinct(a + b)) == SortStrings(Distinct(a2 + b2))
  {
    var d, d2 := Distinct(a + b), Distinct(a2 + b2);
    SameElementsPermutation(d, d2);
    SortedUnique(SortStrings(d), SortStrings(d2));
  }
}
