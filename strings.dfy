/** Python's ordering and formatting of `str` values, as the integration uses them:
    `<=` on timestamps, `str.capitalize()` for sensor names, `str()` of an `int`,
    and the substring test behind `in` on a string. */
module Strings {

  /** Python's `a <= b` on `str`: lexicographic comparison by code point,
      a proper prefix ordering before the longer string. */
  predicate LessEq(a: string, b: string)
  {
    if a == [] then true
    else if b == [] then false
    else if a[0] != b[0] then a[0] < b[0]
    else LessEq(a[1..], b[1..])
  }

  /** Python's `a < b` on `str`. */
  predicate Less(a: string, b: string)
  {
    !LessEq(b, a)
  }

  lemma {:induction false} LessEqReflexive(a: string)
    ensures LessEq(a, a)
  {
    if a != [] {
      LessEqReflexive(a[1..]);
    }
  }

  lemma {:induction false} LessEqTotal(a: string, b: string)
    ensures LessEq(a, b) || LessEq(b, a)
  {
    if a != [] && b != [] && a[0] == b[0] {
      LessEqTotal(a[1..], b[1..]);
    }
  }

  lemma {:induction false} LessEqAntisymmetric(a: string, b: string)
    requires LessEq(a, b) && LessEq(b, a)
    ensures a == b
  {
    if a != [] && b != [] {
      LessEqAntisymmetric(a[1..], b[1..]);
      assert a == [a[0]] + a[1..] && b == [b[0]] + b[1..];
    }
  }

  lemma {:induction false} LessEqTransitive(a: string, b: string, c: string)
    requires LessEq(a, b) && LessEq(b, c)
    ensures LessEq(a, c)
  {
    if a != [] && b != [] && c != [] && a[0] == b[0] && b[0] == c[0] {
      LessEqTransitive(a[1..], b[1..], c[1..]);
    }
  }

  /** Appending the same suffix to two strings of equal length keeps their order:
      two timestamps formatted with one fixed layout and one UTC offset compare as
      strings exactly as their date-time prefixes do. */
  lemma {:induction false} LessEqSameSuffix(a: string, b: string, suffix: string)
    requires |a| == |b|
    ensures LessEq(a + suffix, b + suffix) <==> LessEq(a, b)
  {
    if a == [] {
      assert a + suffix == suffix && b + suffix == suffix;
      LessEqReflexive(suffix);
    } else {
      assert (a + suffix)[1..] == a[1..] + suffix;
      assert (b + suffix)[1..] == b[1..] + suffix;
      LessEqSameSuffix(a[1..], b[1..], suffix);
    }
  }

  /** Python's `sub in s` on two strings. */
  predicate IsInfix(sub: string, s: string)
  {
    sub <= s || (s != [] && IsInfix(sub, s[1..]))
  }

  function Upper(c: char): char
  {
    if 'a' <= c <= 'z' then (c as int - 32) as char else c
  }

  function Lower(c: char): char
  {
    if 'A' <= c <= 'Z' then (c as int + 32) as char else c
  }

  function LowerAll(s: string): (r: string)
    ensures |r| == |s| && forall i :: 0 <= i < |s| ==> r[i] == Lower(s[i])
  {
    seq(|s|, i requires 0 <= i < |s| => Lower(s[i]))
  }

  /** Python's `str.capitalize()` on ASCII letters: the first character upper-cased,
      every other one lower-cased. */
  function Capitalize(s: string): (r: string)
    ensures |r| == |s|
    ensures s != [] ==> r[0] == Upper(s[0])
    ensures forall i :: 1 <= i < |s| ==> r[i] == Lower(s[i])
  {
    if s == [] then [] else [Upper(s[0])] + LowerAll(s[1..])
  }

  function DigitChar(d: nat): (c: char)
    requires d < 10
    ensures '0' <= c <= '9' && c as int - '0' as int == d
  {
    "0123456789"[d]
  }

  predicate AllDigits(s: string)
  {
    forall i :: 0 <= i < |s| ==> '0' <= s[i] <= '9'
  }

  /** The number a string of decimal digits denotes, most significant digit first. */
  function DecimalValue(s: string): nat
    requires AllDigits(s)
  {
    if s == [] then 0 else DecimalValue(s[..|s| - 1]) * 10 + (s[|s| - 1] as int - '0' as int)
  }

  /** The decimal digits of `n`: they denote `n`, and only zero itself starts with `0`. */
  function NatText(n: nat): (r: string)
    ensures r != [] && AllDigits(r)
    ensures DecimalValue(r) == n
    ensures r[0] == '0' ==> r == "0"
  {
    if n < 10 then [DigitChar(n)]
    else
      var r := NatText(n / 10) + [DigitChar(n % 10)];
      assert r[..|r| - 1] == NatText(n / 10);
      r
  }

  /** Python's `str()` of an `int`: decimal digits, with a leading `-` when negative. */
  function IntText(i: int): (r: string)
    ensures r != []
    ensures (r[0] == '-') <==> (i < 0)
    ensures i < 0 ==> AllDigits(r[1..]) && DecimalValue(r[1..]) == -i && r[1] != '0'
    ensures i >= 0 ==> AllDigits(r) && DecimalValue(r) == i
  {
    if i < 0 then
      var r := "-" + NatText(-i);
      assert r[1..] == NatText(-i);
      r
    else NatText(i)
  }

  /** Different integers have different texts. */
  lemma IntTextInjective(a: int, b: int)
    requires IntText(a) == IntText(b)
    ensures a == b
  {
    if a < 0 {
      assert DecimalValue(IntText(a)[1..]) == -a && DecimalValue(IntText(b)[1..]) == -b;
    } else {
      assert DecimalValue(IntText(a)) == a && DecimalValue(IntText(b)) == b;
    }
  }
}
