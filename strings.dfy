/** Decimal rendering and parsing of integers, as Python's `str(int)` and `int(str)`
    do them, and the few string rewrites the plugin performs. */
module Strings {

  predicate IsDigit(c: char)
  {
    '0' <= c <= '9'
  }

  predicate AllDigits(s: string)
  {
    forall i :: 0 <= i < |s| ==> IsDigit(s[i])
  }

  function DigitChar(d: nat): (c: char)
    requires d < 10
    ensures IsDigit(c)
  {
    ('0' as int + d) as char
  }

  function DigitValue(c: char): (d: nat)
    requires IsDigit(c)
    ensures d < 10
  {
    c as int - '0' as int
  }

  /** `str(n)` for a non-negative integer: the shortest decimal numeral. */
  function NatToString(n: nat): (s: string)
    ensures |s| > 0 && AllDigits(s)
    ensures n >= 10 ==> s[0] != '0'
    decreases n
  {
    if n < 10 then [DigitChar(n)] else NatToString(n / 10) + [DigitChar(n % 10)]
  }

  /** `str(i)` for any integer. */
  function IntToString(i: int): (s: string)
    ensures |s| > 0
    ensures i >= 0 ==> AllDigits(s)
    ensures i < 0 ==> s[0] == '-'
  {
    if i < 0 then "-" + NatToString(-i) else NatToString(i)
  }

  /** `int(s)` for a non-empty run of ASCII digits (leading zeros allowed). */
  function DigitsValue(s: string): nat
    requires AllDigits(s)
  {
    if s == [] then 0 else DigitsValue(s[..|s| - 1]) * 10 + DigitValue(s[|s| - 1])
  }

  /** Parsing the rendered numeral gives the number back. */
  lemma {:induction false} DigitsValueOfNatToString(n: nat)
    ensures DigitsValue(NatToString(n)) == n
    decreases n
  {
    if n >= 10 {
      var s := NatToString(n);
      assert s[..|s| - 1] == NatToString(n / 10);
      DigitsValueOfNatToString(n / 10);
    }
  }

  /** Distinct integers have distinct renderings. */
  lemma IntToStringInjective(a: int, b: int)
    requires IntToString(a) == IntToString(b)
    ensures a == b
  {
    var s := IntToString(a);
    if s[0] == '-' {
      assert !IsDigit(s[0]);
      assert a < 0 && b < 0;
      assert NatToString(-a) == s[1..] == NatToString(-b);
      DigitsValueOfNatToString(-a);
      DigitsValueOfNatToString(-b);
    } else {
      assert a >= 0 && b >= 0;
      DigitsValueOfNatToString(a);
      DigitsValueOfNatToString(b);
    }
  }

  /** The longest suffix of `s` made only of digits (what `[0-9]+$` anchors on). */
  function TrailingDigits(s: string): (d: string)
    ensures AllDigits(d) && |d| <= |s|
  {
    if s == [] || !IsDigit(s[|s| - 1]) then []
    else TrailingDigits(s[..|s| - 1]) + [s[|s| - 1]]
  }

  /** The trailing run is a suffix of the text and cannot be extended to the left. */
  lemma {:induction false} TrailingDigitsSuffix(s: string)
    ensures var d := TrailingDigits(s);
            d == s[|s| - |d|..] && (|d| < |s| ==> !IsDigit(s[|s| - |d| - 1]))
  {
    if s != [] && IsDigit(s[|s| - 1]) {
      var init := s[..|s| - 1];
      TrailingDigitsSuffix(init);
      var d' := TrailingDigits(init);
      assert init[|init| - |d'|..] + [s[|s| - 1]] == s[|s| - |d'| - 1..];
      if |d'| < |init| {
        assert init[|init| - |d'| - 1] == s[|s| - |d'| - 2];
      }
    }
  }

  /** A digit run after a text that does not end in a digit is exactly the trailing run. */
  lemma {:induction false} TrailingDigitsAfter(p: string, d: string)
    requires AllDigits(d)
    requires p == [] || !IsDigit(p[|p| - 1])
    ensures TrailingDigits(p + d) == d
    decreases |d|
  {
    if d == [] {
      assert p + d == p;
    } else {
      var s, d' := p + d, d[..|d| - 1];
      assert s[|s| - 1] == d[|d| - 1] && IsDigit(s[|s| - 1]);
      assert s[..|s| - 1] == p + d';
      assert TrailingDigits(s) == TrailingDigits(p + d') + [d[|d| - 1]];
      TrailingDigitsAfter(p, d');
      assert d' + [d[|d| - 1]] == d;
    }
  }

  /** `s.replace(c, r)` for a single character `c`. */
  function ReplaceChar(s: string, c: char, r: string): (t: string)
    ensures c !in s ==> t == s
  {
    if s == [] then []
    else (if s[0] == c then r else [s[0]]) + ReplaceChar(s[1..], c, r)
  }

  /** `s.replace(c, '')` for every character of `cs` in turn. */
  function RemoveChars(s: string, cs: set<char>): (t: string)
    ensures forall i :: 0 <= i < |t| ==> t[i] !in cs
  {
    if s == [] then []
    else (if s[0] in cs then [] else [s[0]]) + RemoveChars(s[1..], cs)
  }

  /** `sep.join(parts)`. */
  function Join(sep: string, parts: seq<string>): string
  {
    if parts == [] then ""
    else if |parts| == 1 then parts[0]
    else parts[0] + sep + Join(sep, parts[1..])
  }

  /** The text up to (not including) the first newline, as `re.search('.*', s)` matches it. */
  function FirstLine(s: string): (t: string)
    ensures '\n' !in t
    ensures t <= s
    ensures |t| < |s| ==> s[|t|] == '\n'
  {
    if s == [] || s[0] == '\n' then [] else [s[0]] + FirstLine(s[1..])
  }
}

/** Sequence helpers: filtering and flattening, with the facts the model relies on. */
module Seqs {

  /** The elements of `s` that satisfy `p`, in their original order. */
  function Filter<T>(p: T -> bool, s: seq<T>): (r: seq<T>)
    ensures |r| <= |s|
    ensures forall i :: 0 <= i < |r| ==> r[i] in s && p(r[i])
  {
    if s == [] then [] else (if p(s[0]) then [s[0]] else []) + Filter(p, s[1..])
  }

  lemma {:induction false} FilterMembership<T>(p: T -> bool, s: seq<T>, x: T)
    ensures x in Filter(p, s) <==> x in s && p(x)
  {
    if s != [] {
      FilterMembership(p, s[1..], x);
      assert s == [s[0]] + s[1..];
    }
  }

  /** Two elements that `p` does not both keep can trade places before a filter. */
  lemma FilterSwap<T>(p: T -> bool, a: T, x: T, t: seq<T>)
    requires !(p(a) && p(x))
    ensures Filter(p, [a]) + Filter(p, [x] + t) == Filter(p, [x]) + Filter(p, [a] + t)
  {
    FilterAppend(p, [x], t);
    FilterAppend(p, [a], t);
    var fa, fx, ft := Filter(p, [a]), Filter(p, [x]), Filter(p, t);
    FilterOne(p, a);
    FilterOne(p, x);
    if p(a) {
      assert fx == [];
      assert fx + ft == ft && fx + (fa + ft) == fa + ft;
    } else {
      assert fa == [];
      assert fa + ft == ft && fa + (fx + ft) == fx + ft;
    }
  }

  lemma FilterOne<T>(p: T -> bool, a: T)
    ensures Filter(p, [a]) == if p(a) then [a] else []
  {
    assert [a][1..] == [];
  }

  lemma {:induction false} FilterAppend<T>(p: T -> bool, a: seq<T>, b: seq<T>)
    ensures Filter(p, a + b) == Filter(p, a) + Filter(p, b)
  {
    if a == [] {
      assert a + b == b;
    } else {
      assert (a + b)[1..] == a[1..] + b;
      FilterAppend(p, a[1..], b);
    }
  }

  /** Filtering keeps everything when every element passes. */
  lemma {:induction false} FilterAll<T>(p: T -> bool, s: seq<T>)
    requires forall i :: 0 <= i < |s| ==> p(s[i])
    ensures Filter(p, s) == s
  {
    if s != [] {
      FilterAll(p, s[1..]);
    }
  }

  /** The concatenation of a sequence of sequences. */
  function Flatten<T>(ss: seq<seq<T>>): seq<T>
  {
    if ss == [] then [] else ss[0] + Flatten(ss[1..])
  }

  lemma {:induction false} FlattenSnoc<T>(ss: seq<seq<T>>, s: seq<T>)
    ensures Flatten(ss + [s]) == Flatten(ss) + s
  {
    if ss == [] {
      assert ss + [s] == [s];
    } else {
      assert (ss + [s])[1..] == ss[1..] + [s];
      FlattenSnoc(ss[1..], s);
    }
  }

  lemma {:induction false} FlattenMembership<T>(ss: seq<seq<T>>, x: T)
    ensures x in Flatten(ss) <==> exists i :: 0 <= i < |ss| && x in ss[i]
  {
    if ss != [] {
      FlattenMembership(ss[1..], x);
      if x in Flatten(ss[1..]) {
        var i :| 0 <= i < |ss[1..]| && x in ss[1..][i];
        assert x in ss[i + 1];
      }
      if exists i :: 0 <= i < |ss| && x in ss[i] {
        var i :| 0 <= i < |ss| && x in ss[i];
        if i > 0 {
          assert x in ss[1..][i - 1];
        }
      }
    }
  }

  /** Mapping one more element: `b` is `f` applied along all of `xs` when `a` is
      `f` along all but the last element and `b` adds `f` of the last. */
  lemma MapSnoc<A, B>(f: A -> B, xs: seq<A>, a: seq<B>, b: seq<B>)
    requires xs != []
    requires |a| == |xs| - 1 && forall i :: 0 <= i < |a| ==> a[i] == f(xs[..|xs| - 1][i])
    requires b == a + [f(xs[|xs| - 1])]
    ensures |b| == |xs| && forall i :: 0 <= i < |xs| ==> b[i] == f(xs[i])
  {
    forall i | 0 <= i < |xs| ensures b[i] == f(xs[i]) {
      if i < |a| {
        assert b[i] == a[i] && xs[..|xs| - 1][i] == xs[i];
      }
    }
  }

  predicate NoDuplicates<T(==)>(s: seq<T>)
  {
    forall i, j :: 0 <= i < j < |s| ==> s[i] != s[j]
  }

  /** The elements of `s` without repetitions, each at its first occurrence. */
  function Distinct<T(==)>(s: seq<T>): (r: seq<T>)
    ensures NoDuplicates(r)
    ensures forall i :: 0 <= i < |s| ==> s[i] in r
    ensures forall i :: 0 <= i < |r| ==> r[i] in s
    decreases |s|
  {
    if s == [] then []
    else
      var rest := Distinct(s[..|s| - 1]);
      if s[|s| - 1] in rest then rest else rest + [s[|s| - 1]]
  }
}
