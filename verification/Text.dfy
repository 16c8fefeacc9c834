/** The parts of `java.lang.String` the core relies on: case mapping,
    `equalsIgnoreCase`, `contains`, `String.join` and the decimal rendering of
    an `int` during string concatenation. Case mapping covers ASCII letters. */
module Text {
  import opened Wrappers

  function LowerChar(c: char): char {
    if 'A' <= c <= 'Z' then (c as int + 32) as char else c
  }

  function UpperChar(c: char): char {
    if 'a' <= c <= 'z' then (c as int - 32) as char else c
  }

  /** `String.toLowerCase`, one character at a time. */
  function Lower(s: string): string {
    seq(|s|, i requires 0 <= i < |s| => LowerChar(s[i]))
  }

  /** One position of `regionMatches(true, ...)`: the characters are equal, or
      equal after upper-casing, or equal after upper- then lower-casing. */
  predicate SameIgnoringCase(a: char, b: char) {
    a == b || UpperChar(a) == UpperChar(b) || LowerChar(UpperChar(a)) == LowerChar(UpperChar(b))
  }

  /** `a.equalsIgnoreCase(b)`; a null argument (`None`) never matches. */
  predicate EqualsIgnoreCase(a: string, b: Option<string>) {
    b.Some? && |a| == |b.value| && forall i :: 0 <= i < |a| ==> SameIgnoringCase(a[i], b.value[i])
  }

  lemma SameIgnoringCaseIff(a: char, b: char)
    ensures SameIgnoringCase(a, b) <==> LowerChar(a) == LowerChar(b)
  {
  }

  /** Ignoring case means comparing the lower-cased strings. */
  lemma EqualsIgnoreCaseIff(a: string, b: string)
    ensures EqualsIgnoreCase(a, Some(b)) <==> Lower(a) == Lower(b)
  {
    if EqualsIgnoreCase(a, Some(b)) {
      forall i | 0 <= i < |a|
        ensures Lower(a)[i] == Lower(b)[i]
      {
        SameIgnoringCaseIff(a[i], b[i]);
      }
    }
    if Lower(a) == Lower(b) {
      forall i | 0 <= i < |a|
        ensures SameIgnoringCase(a[i], b[i])
      {
        assert Lower(a)[i] == Lower(b)[i];
        SameIgnoringCaseIff(a[i], b[i]);
      }
    }
  }

  /** `s.contains(p)`: `p` starts at some position of `s`. The empty string
      occurs in every string. */
  predicate Contains(s: string, p: string)
    decreases |s|
  {
    p <= s || (|s| > 0 && Contains(s[1..], p))
  }

  lemma {:induction false} ContainsAt(s: string, p: string, i: nat)
    requires i <= |s| && p <= s[i..]
    ensures Contains(s, p)
    decreases i
  {
    if i > 0 {
      assert s[1..][i - 1..] == s[i..];
      ContainsAt(s[1..], p, i - 1);
    }
  }

  lemma {:induction false} ContainsWitness(s: string, p: string) returns (i: nat)
    requires Contains(s, p)
    ensures i <= |s| && p <= s[i..]
    decreases |s|
  {
    if p <= s {
      i := 0;
    } else {
      var j := ContainsWitness(s[1..], p);
      assert s[1..][j..] == s[j + 1..];
      i := j + 1;
    }
  }

  /** `contains` agrees with "occurs at some index". */
  lemma ContainsIff(s: string, p: string)
    ensures Contains(s, p) <==> exists i :: 0 <= i <= |s| && p <= s[i..]
  {
    if Contains(s, p) {
      var i := ContainsWitness(s, p);
    }
    if exists i :: 0 <= i <= |s| && p <= s[i..] {
      var i :| 0 <= i <= |s| && p <= s[i..];
      ContainsAt(s, p, i);
    }
  }

  /** A string that contains `p` contains every prefix of `p`. */
  lemma {:induction false} ContainsPrefixOf(s: string, p: string, q: string)
    requires q <= p && Contains(s, p)
    ensures Contains(s, q)
    decreases |s|
  {
    if p <= s {
      assert s[..|q|] == p[..|q|];
    } else {
      ContainsPrefixOf(s[1..], p, q);
    }
  }

  /** `String.endsWith`. */
  predicate EndsWith(s: string, p: string) {
    |p| <= |s| && s[|s| - |p|..] == p
  }

  /** `b` is the tail of `a + b`. */
  lemma SuffixOfAppend(a: string, b: string)
    ensures EndsWith(a + b, b)
  {
  }

  /** `n + c` is the tail of `o + (b + n + c)`. */
  lemma EndsWithNested(o: string, b: string, n: string, c: string)
    ensures EndsWith(o + (b + n + c), n + c)
  {
    assert o + (b + n + c) == (o + b) + (n + c);
  }

  /** A tail of a tail is a tail. */
  lemma EndsWithTrans(s: string, p: string, q: string)
    requires EndsWith(s, p) && EndsWith(p, q)
    ensures EndsWith(s, q)
  {
    assert s[|s| - |q|..] == s[|s| - |p|..][|p| - |q|..];
  }

  /** Strings ending with `n + c1` and `n + c2` differ when the last three
      characters of `c1` and `c2` differ. */
  lemma DistinctClosings(s: string, t: string, n: string, c1: string, c2: string)
    requires |c1| >= 3 && |c2| >= 3 && c1[|c1| - 3..] != c2[|c2| - 3..]
    requires EndsWith(s, n + c1) && EndsWith(t, n + c2)
    ensures s != t
  {
    SuffixOfAppend(n, c1);
    SuffixOfAppend(n, c2);
    EndsWithTrans(s, n + c1, c1);
    EndsWithTrans(t, n + c2, c2);
    EndsWithTrans(s, c1, c1[|c1| - 3..]);
    EndsWithTrans(t, c2, c2[|c2| - 3..]);
    DistinctEndings(s, t, c1[|c1| - 3..], c2[|c2| - 3..]);
  }

  /** Strings with different tails of the same length differ. */
  lemma DistinctEndings(s: string, t: string, p: string, q: string)
    requires EndsWith(s, p) && EndsWith(t, q) && |p| == |q| && p != q
    ensures s != t
  {
  }

  /** `a` opens any concatenation that starts with it. */
  lemma PrefixOfAppend(a: string, b: string, c: string, d: string)
    ensures a <= a + b + c + d
  {
    assert a + b + c + d == a + (b + c + d);
  }

  /** The total length of a list of strings. */
  function TotalLength(xs: seq<string>): nat
    decreases |xs|
  {
    if |xs| == 0 then 0 else |xs[0]| + TotalLength(xs[1..])
  }

  /** `String.join(sep, xs)`: the elements with one separator between each
      neighbouring pair. */
  function Join(sep: string, xs: seq<string>): (r: string)
    ensures |xs| == 0 ==> r == ""
    ensures |xs| > 0 ==> |r| == TotalLength(xs) + (|xs| - 1) * |sep|
    decreases |xs|
  {
    if |xs| == 0 then ""
    else if |xs| == 1 then xs[0]
    else xs[0] + sep + Join(sep, xs[1..])
  }

  /** Appending an element to a non-empty list appends a separator and the
      element to the joined string. */
  lemma {:induction false} JoinAppend(sep: string, xs: seq<string>, x: string)
    requires |xs| > 0
    ensures Join(sep, xs + [x]) == Join(sep, xs) + sep + x
    decreases |xs|
  {
    if |xs| == 1 {
      assert (xs + [x])[1..] == [x];
    } else {
      assert (xs + [x])[1..] == xs[1..] + [x];
      JoinAppend(sep, xs[1..], x);
      assert xs[0] + sep + (Join(sep, xs[1..]) + sep + x) == xs[0] + sep + Join(sep, xs[1..]) + sep + x;
    }
  }

  /** Inserting `x` after `head` in `head + rest + tail`. */
  lemma MiddleInsertion(head: string, x: string, rest: string, tail: string)
    ensures var plain := head + "" + rest + tail;
      |head| <= |plain| && head + x + rest + tail == plain[..|head|] + x + plain[|head|..]
  {
    var plain := head + "" + rest + tail;
    assert plain == head + (rest + tail);
    assert head + x + rest + tail == head + x + (rest + tail);
  }

  /** Inserting `x` just before `tail`. */
  lemma TailInsertion(head: string, x: string, tail: string)
    ensures var plain := head + "" + tail;
      |tail| <= |plain| && head + x + tail == plain[..|plain| - |tail|] + x + tail
  {
    var plain := head + "" + tail;
    assert plain == head + tail;
  }

  /** Different middles of the same length give different strings. */
  lemma DistinctMiddle(a: string, x: string, y: string, m: string)
    requires |x| == |y| && x != y
    ensures |a + x + m| == |a + y + m| && a + x + m != a + y + m
  {
    assert (a + x + m)[|a|..|a| + |x|] == x;
    assert (a + y + m)[|a|..|a| + |y|] == y;
  }

  /** Strings with different openings of the same length differ. */
  lemma DistinctPrefixes(p: string, q: string, s: string, t: string)
    requires p <= s && q <= t && |p| == |q| && p != q
    ensures s != t
  {
  }


  predicate IsDigit(c: char) {
    '0' <= c <= '9'
  }

  predicate AllDigits(s: string) {
    forall i :: 0 <= i < |s| ==> IsDigit(s[i])
  }

  function DigitChar(d: nat): char
    requires d < 10
  {
    ('0' as int + d) as char
  }

  /** The number a string of decimal digits denotes. */
  function DecimalValue(s: string): nat
    requires AllDigits(s)
    decreases |s|
  {
    if |s| == 0 then 0
    else DecimalValue(s[..|s| - 1]) * 10 + (s[|s| - 1] as int - '0' as int)
  }

  /** The decimal text Java writes for a non-negative `int` in a string
      concatenation: digits only, no leading zero, denoting `n`. */
  function NatToDecimal(n: nat): (r: string)
    ensures |r| > 0 && AllDigits(r)
    ensures r[0] == '0' <==> n == 0
    ensures DecimalValue(r) == n
    decreases n
  {
    if n < 10 then [DigitChar(n)]
    else
      var prefix := NatToDecimal(n / 10);
      var r := prefix + [DigitChar(n % 10)];
      assert r[..|r| - 1] == prefix;
      r
  }

  /** Different numbers are written differently. */
  lemma NatToDecimalInjective(m: nat, n: nat)
    requires NatToDecimal(m) == NatToDecimal(n)
    ensures m == n
  {
  }
}
