/** String helpers with JavaScript's meaning: `split`, `includes`,
    `startsWith` and the decimal rendering of a non-negative integer. */
module Strings {

  /** Index of the first occurrence of `c` in `s`, or `|s|` when absent. */
  function IndexOf(s: string, c: char): (k: nat)
    ensures k <= |s|
    ensures k < |s| ==> s[k] == c
    ensures forall i :: 0 <= i < k ==> s[i] != c
  {
    if s == [] then 0
    else if s[0] == c then 0
    else 1 + IndexOf(s[1..], c)
  }

  /** `s.split(sep)` for a one-character separator: the pieces between
      separators, always at least one (`"".split("|")` is `[""]`). */
  function Split(s: string, sep: char): (pieces: seq<string>)
    ensures |pieces| >= 1
    decreases |s|
  {
    var k := IndexOf(s, sep);
    if k == |s| then [s] else [s[..k]] + Split(s[k + 1..], sep)
  }

  /** A string holding the separator is its first piece, the separator, its
      second piece, and a rest that is empty or starts with the separator. */
  lemma SplitShape(s: string, sep: char) returns (a: string, b: string, rest: string)
    requires sep in s
    ensures s == a + [sep] + b + rest
    ensures sep !in a && sep !in b
    ensures rest == [] || rest[0] == sep
  {
    var k := IndexOf(s, sep);
    a := s[..k];
    var tail := s[k + 1..];
    CutAt(s, k);
    var m := IndexOf(tail, sep);
    b, rest := tail[..m], tail[m..];
    Regroup(a, sep, tail, b, rest);
  }

  /** A string is its part before index `k`, the character there, and the
      part after. */
  lemma CutAt(s: string, k: nat)
    requires k < |s|
    ensures s == s[..k] + [s[k]] + s[k + 1..]
  {
  }

  lemma Regroup(a: string, sep: char, tail: string, b: string, rest: string)
    requires tail == b + rest
    ensures a + [sep] + tail == a + [sep] + b + rest
  {
  }

  /** A separator-free head splits off as the first piece. */
  lemma SplitHead(head: string, sep: char, rest: string)
    requires sep !in head
    ensures Split(head + [sep] + rest, sep) == [head] + Split(rest, sep)
  {
    var s := head + [sep] + rest;
    IndexOfPast(head, sep, [sep] + rest);
    assert head + ([sep] + rest) == s;
    assert IndexOf([sep] + rest, sep) == 0;
    assert s[..|head|] == head;
    assert s[|head| + 1..] == rest;
  }

  /** `a + sep + b + rest` splits into `a`, then `b`, when neither holds the
      separator and `rest` is empty or starts with it. */
  lemma SplitFirstTwo(a: string, b: string, sep: char, rest: string)
    requires sep !in a && sep !in b
    requires rest == [] || rest[0] == sep
    ensures var p := Split(a + [sep] + b + rest, sep); |p| >= 2 && p[0] == a && p[1] == b
  {
    assert a + [sep] + b + rest == a + [sep] + (b + rest);
    SplitHead(a, sep, b + rest);
    var tail := Split(b + rest, sep);
    if rest == [] {
      assert b + rest == b;
      SplitWhole(b, sep);
    } else {
      assert b + rest == b + [sep] + rest[1..];
      SplitHead(b, sep, rest[1..]);
    }
    assert tail[0] == b;
  }

  /** A string without the separator is one piece. */
  lemma SplitWhole(s: string, sep: char)
    requires sep !in s
    ensures Split(s, sep) == [s]
  {
    IndexOfPast(s, sep, []);
    assert s + [] == s;
  }

  lemma {:induction false} IndexOfPast(head: string, c: char, tail: string)
    requires c !in head
    ensures IndexOf(head + tail, c) == |head| + IndexOf(tail, c)
  {
    if head != [] {
      assert (head + tail)[1..] == head[1..] + tail;
      IndexOfPast(head[1..], c, tail);
    } else {
      assert head + tail == tail;
    }
  }

  /** `s.includes(sub)`. */
  predicate Contains(s: string, sub: string)
  {
    StartsWith(s, sub) || (s != [] && Contains(s[1..], sub))
  }

  /** `s.startsWith(prefix)`. */
  predicate StartsWith(s: string, prefix: string)
  {
    |prefix| <= |s| && s[..|prefix|] == prefix
  }

  function DigitChar(d: nat): (c: char)
    requires d < 10
  {
    "0123456789"[d]
  }

  function DigitValue(c: char): nat
  {
    if '0' <= c <= '9' then (c as int - '0' as int) else 0
  }

  /** `String(n)` for a non-negative integer: its decimal digits. */
  function NatToString(n: nat): (s: string)
    ensures |s| >= 1
    ensures forall i :: 0 <= i < |s| ==> '0' <= s[i] <= '9'
  {
    if n < 10 then [DigitChar(n)] else NatToString(n / 10) + [DigitChar(n % 10)]
  }

  /** Reading decimal digits back as a number (the inverse of NatToString). */
  function ParseDecimal(s: string): nat
  {
    if s == [] then 0 else 10 * ParseDecimal(s[..|s| - 1]) + DigitValue(s[|s| - 1])
  }

  lemma {:induction false} ParseNatToString(n: nat)
    ensures ParseDecimal(NatToString(n)) == n
  {
    var s := NatToString(n);
    if n < 10 {
      assert s[..0] == [];
    } else {
      ParseNatToString(n / 10);
      assert s[..|s| - 1] == NatToString(n / 10);
    }
  }

  /** Distinct numbers render as distinct strings. */
  lemma NatToStringInjective(m: nat, n: nat)
    requires m != n
    ensures NatToString(m) != NatToString(n)
  {
    ParseNatToString(m);
    ParseNatToString(n);
  }
}
