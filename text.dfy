/** Character classes and string helpers shared by the fixture writer (Python)
    and the fixture reader (C++). Characters are compared by code point; no
    locale, case folding or normalisation is involved. */
module Text {
  import opened Wrappers

  /** ASCII decimal digit: C `isdigit` in the "C" locale. */
  predicate IsDigit(c: char)
  {
    '0' <= c <= '9'
  }

  predicate IsDigits(s: string)
  {
    forall i :: 0 <= i < |s| ==> IsDigit(s[i])
  }

  predicate HasDigit(s: string)
  {
    exists i :: 0 <= i < |s| && IsDigit(s[i])
  }

  function DigitValue(c: char): nat
    requires IsDigit(c)
  {
    (c as int) - ('0' as int)
  }

  function DigitChar(d: nat): (c: char)
    requires d < 10
    ensures IsDigit(c) && DigitValue(c) == d
  {
    (('0' as int) + d) as char
  }

  /** Value of a string of decimal digits, most significant first ("" is 0). */
  function DigitsValue(s: string): nat
    requires IsDigits(s)
  {
    if s == [] then 0 else 10 * DigitsValue(s[..|s| - 1]) + DigitValue(s[|s| - 1])
  }

  /** Decimal rendering of a natural number, as std::to_string and Python's
      str(int) produce it. */
  function NatToString(n: nat): (s: string)
    ensures |s| > 0 && IsDigits(s)
    ensures n < 10 <==> |s| == 1
  {
    if n < 10 then [DigitChar(n)] else NatToString(n / 10) + [DigitChar(n % 10)]
  }

  lemma {:induction false} NatToStringValue(n: nat)
    ensures DigitsValue(NatToString(n)) == n
  {
    if n >= 10 {
      NatToStringValue(n / 10);
      var s := NatToString(n);
      assert s[..|s| - 1] == NatToString(n / 10);
    }
  }

  /** Distinct numbers have distinct renderings. */
  lemma NatToStringInjective(m: nat, n: nat)
    requires NatToString(m) == NatToString(n)
    ensures m == n
  {
    NatToStringValue(m);
    NatToStringValue(n);
  }

  /** C `isspace` in the "C" locale: space, \t, \n, \v, \f, \r. */
  predicate IsCSpace(c: char)
  {
    c == ' ' || 9 <= c as int <= 13
  }

  /** Python `str.isspace` for one character: the characters `str.strip()`
      removes when called without arguments. */
  predicate IsPySpace(c: char)
  {
    var k := c as int;
    (9 <= k <= 13) || (28 <= k <= 32) || k == 0x85 || k == 0xA0 || k == 0x1680
    || (0x2000 <= k <= 0x200A) || k == 0x2028 || k == 0x2029 || k == 0x202F
    || k == 0x205F || k == 0x3000
  }

  predicate NoPySpace(s: string)
  {
    forall i :: 0 <= i < |s| ==> !IsPySpace(s[i])
  }

  function StripLeft(s: string): (r: string)
  {
    if s != [] && IsPySpace(s[0]) then StripLeft(s[1..]) else s
  }

  function StripRight(s: string): (r: string)
  {
    if s != [] && IsPySpace(s[|s| - 1]) then StripRight(s[..|s| - 1]) else s
  }

  /** Python `str.strip()`. */
  function Strip(s: string): string
  {
    StripRight(StripLeft(s))
  }

  /** A string without Python whitespace is its own strip. */
  lemma StripNoSpace(s: string)
    requires NoPySpace(s)
    ensures Strip(s) == s
  {
  }

  /** `t` occurs in `s` starting at index `i`. */
  predicate OccursAt(s: string, t: string, i: nat)
  {
    i + |t| <= |s| && s[i..i + |t|] == t
  }

  /** Index of the first occurrence of `t` in `s`, as std::string::find. */
  function Find(s: string, t: string): (r: Option<nat>)
    ensures r.Some? ==> OccursAt(s, t, r.value)
    ensures r.Some? ==> forall i: nat :: i < r.value ==> !OccursAt(s, t, i)
    ensures r.None? ==> forall i: nat :: !OccursAt(s, t, i)
    decreases |s|
  {
    if |s| < |t| then None
    else if s[..|t|] == t then Some(0)
    else
      match Find(s[1..], t)
      case None =>
        assert forall i: nat :: 1 <= i ==> OccursAt(s, t, i) == OccursAt(s[1..], t, i - 1);
        assert !OccursAt(s, t, 0);
        None
      case Some(k) =>
        assert forall i: nat :: 1 <= i ==> OccursAt(s, t, i) == OccursAt(s[1..], t, i - 1);
        assert !OccursAt(s, t, 0);
        Some(k + 1)
  }

  predicate Contains(s: string, t: string)
  {
    Find(s, t).Some?
  }

  /** A string shorter than `t` cannot contain it. */
  lemma ShorterLacks(s: string, t: string)
    requires |s| < |t|
    ensures !Contains(s, t)
  {
  }

  /** `t` occurs in `s` if `s` starts with it. */
  lemma PrefixContains(s: string, t: string, rest: string)
    requires s == t + rest
    ensures Contains(s, t)
  {
    assert s[..|t|] == t;
  }

  /** If the first character of `t` occurs in `s` only at position 0 and `s`
      does not start with `t`, then `s` does not contain `t`. */
  lemma FirstCharOnlyAtStart(s: string, t: string)
    requires |t| > 0 && |s| >= |t|
    requires forall i :: 0 < i < |s| ==> s[i] != t[0]
    requires s[..|t|] != t
    ensures !Contains(s, t)
  {
    assert !OccursAt(s, t, 0);
  }

  /** `n` copies of `c`: Python `c * n`. */
  function Repeat(c: char, n: nat): (r: string)
    ensures |r| == n && forall i :: 0 <= i < n ==> r[i] == c
  {
    if n == 0 then [] else Repeat(c, n - 1) + [c]
  }

  /** The elements of `xs` with `sep` between neighbours: Python `sep.join(xs)`. */
  function Join(sep: string, xs: seq<string>): string
  {
    if xs == [] then [] else if |xs| == 1 then xs[0] else xs[0] + sep + Join(sep, xs[1..])
  }

  /** Concatenation of all strings: Python `"".join(xs)`. */
  function Concat(xs: seq<string>): string
  {
    if xs == [] then [] else xs[0] + Concat(xs[1..])
  }

  lemma {:induction false} ConcatAppend(xs: seq<string>, ys: seq<string>)
    ensures Concat(xs + ys) == Concat(xs) + Concat(ys)
  {
    if xs != [] {
      assert (xs + ys)[0] == xs[0];
      assert (xs + ys)[1..] == xs[1..] + ys;
      ConcatAppend(xs[1..], ys);
      calc {
        Concat(xs + ys);
        xs[0] + Concat(xs[1..] + ys);
        xs[0] + (Concat(xs[1..]) + Concat(ys));
        (xs[0] + Concat(xs[1..])) + Concat(ys);
      }
    } else {
      assert xs + ys == ys;
    }
  }
}
