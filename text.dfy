/** Small string helpers shared by the modules that build or read text:
    decimal rendering of naturals (JavaScript's template-string rendering of a
    non-negative integer), joining with a separator (Array.prototype.join) and
    the splits used to read such strings back. */
module Text {

  predicate IsDigit(c: char) { '0' <= c <= '9' }

  predicate AllDigits(s: string) { forall i :: 0 <= i < |s| ==> IsDigit(s[i]) }

  function DigitChar(d: nat): (c: char)
    requires d < 10
    ensures IsDigit(c) && (c as int) - ('0' as int) == d
  {
    ('0' as int + d) as char
  }

  function DigitValue(c: char): (d: nat)
    requires IsDigit(c)
    ensures d < 10 && DigitChar(d) == c
  {
    (c as int) - ('0' as int)
  }

  /** Decimal rendering of n, most significant digit first, no leading zeros. */
  function NatToString(n: nat): (s: string)
    ensures |s| >= 1 && AllDigits(s)
    ensures |s| > 1 ==> s[0] != '0'
    decreases n
  {
    if n < 10 then [DigitChar(n)] else NatToString(n / 10) + [DigitChar(n % 10)]
  }

  /** Reads a string of decimal digits as a natural. */
  function ParseDigits(s: string): (n: nat)
    requires AllDigits(s)
    decreases |s|
  {
    if s == [] then 0 else ParseDigits(s[..|s| - 1]) * 10 + DigitValue(s[|s| - 1])
  }

  lemma {:induction false} ParseNatToString(n: nat)
    ensures ParseDigits(NatToString(n)) == n
    decreases n
  {
    var s := NatToString(n);
    if n >= 10 {
      ParseNatToString(n / 10);
      assert s[..|s| - 1] == NatToString(n / 10);
      assert s[|s| - 1] == DigitChar(n % 10);
    }
  }

  /** parts joined with separator c between consecutive parts. */
  function Join(parts: seq<string>, c: char): (s: string)
    decreases |parts|
  {
    if |parts| == 0 then []
    else if |parts| == 1 then parts[0]
    else parts[0] + [c] + Join(parts[1..], c)
  }

  /** s cut at every occurrence of c (String.prototype.split with a one-character separator). */
  function SplitOn(s: string, c: char): (parts: seq<string>)
    ensures |parts| >= 1
    decreases |s|
  {
    if s == [] then [[]]
    else
      var rest := SplitOn(s[1..], c);
      if s[0] == c then [[]] + rest else [[s[0]] + rest[0]] + rest[1..]
  }

  lemma {:induction false} SplitOnFree(a: string, c: char)
    requires c !in a
    ensures SplitOn(a, c) == [a]
    decreases |a|
  {
    if a != [] {
      SplitOnFree(a[1..], c);
      assert [a[0]] + a[1..] == a;
    }
  }

  lemma {:induction false} SplitOnCons(a: string, c: char, b: string)
    requires c !in a
    ensures SplitOn(a + [c] + b, c) == [a] + SplitOn(b, c)
    decreases |a|
  {
    var s := a + [c] + b;
    if a == [] {
      assert s[1..] == b;
    } else {
      assert s[1..] == a[1..] + [c] + b;
      SplitOnCons(a[1..], c, b);
      assert [a[0]] + a[1..] == a;
    }
  }

  /** Splitting a join by its own separator gives the parts back, provided no part holds the separator. */
  lemma {:induction false} SplitJoin(parts: seq<string>, c: char)
    requires |parts| >= 1
    requires forall i :: 0 <= i < |parts| ==> c !in parts[i]
    ensures SplitOn(Join(parts, c), c) == parts
    decreases |parts|
  {
    if |parts| == 1 {
      SplitOnFree(parts[0], c);
    } else {
      SplitJoin(parts[1..], c);
      SplitOnCons(parts[0], c, Join(parts[1..], c));
      assert [parts[0]] + parts[1..] == parts;
    }
  }

  /** A join ends with its last part: no separator follows it. */
  lemma {:induction false} JoinEndsWith(parts: seq<string>, c: char)
    requires |parts| >= 1
    ensures var s, last := Join(parts, c), parts[|parts| - 1];
            |last| <= |s| && s[|s| - |last|..] == last
    decreases |parts|
  {
    if |parts| > 1 {
      JoinEndsWith(parts[1..], c);
      var rest := Join(parts[1..], c);
      var last := parts[|parts| - 1];
      assert parts[1..][|parts[1..]| - 1] == last;
      var s := parts[0] + [c] + rest;
      assert s[|s| - |last|..] == rest[|rest| - |last|..];
    }
  }

  /** The text before and after the first occurrence of c, if any. */
  function SplitFirst(s: string, c: char): (r: Option2)
    ensures r.Found? ==> s == r.before + [c] + r.after && c !in r.before
    ensures r.Absent? <==> c !in s
    decreases |s|
  {
    if s == [] then Absent
    else if s[0] == c then Found([], s[1..])
    else
      match SplitFirst(s[1..], c)
      case Absent => Absent
      case Found(b, a) => Found([s[0]] + b, a)
  }

  datatype Option2 = Absent | Found(before: string, after: string)

  lemma SplitFirstAt(a: string, c: char, b: string)
    requires c !in a
    ensures SplitFirst(a + [c] + b, c) == Found(a, b)
  {
    var r := SplitFirst(a + [c] + b, c);
    assert r.Found?;
    PrefixUnique(a, r.before, c, b, r.after);
  }

  /** Two decompositions at the first c coincide. */
  lemma {:induction false} PrefixUnique(a: string, a': string, c: char, b: string, b': string)
    requires c !in a && c !in a'
    requires a + [c] + b == a' + [c] + b'
    ensures a == a' && b == b'
    decreases |a|
  {
    var s := a + [c] + b;
    assert a != [] ==> s[0] == a[0];
    assert a' != [] ==> s[0] == a'[0];
    if a == [] || a' == [] {
      assert s[1..] == b && s[1..] == b';
    } else {
      assert a[0] == s[0] == a'[0];
      assert a[1..] + [c] + b == s[1..] == a'[1..] + [c] + b';
      PrefixUnique(a[1..], a'[1..], c, b, b');
      assert a == [a[0]] + a[1..] && a' == [a'[0]] + a'[1..];
    }
  }
}
