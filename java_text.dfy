/**
 * How Java writes an integer as text: `StringBuilder.append(int)` and
 * `append(long)` produce an optional minus sign followed by the ASCII decimal
 * digits of the magnitude, without leading zeros.  The `%d` conversion of
 * `String.format` writes the same text only in a locale whose zero digit is
 * '0' (other locales substitute their own digits); the model takes such a
 * locale for it.
 * The module also defines a reader for such text, used to state that the
 * report's numbers can be read back from it.
 */
module JavaText {
  import opened Seqs

  datatype Option<+T> = None | Some(value: T)

  /** A Java `byte`. */
  newtype byte = x: int | -128 <= x < 128

  predicate IsDigit(c: char) {
    '0' <= c <= '9'
  }

  predicate AllDigits(s: string) {
    forall i :: 0 <= i < |s| ==> IsDigit(s[i])
  }

  function DigitChar(d: nat): (c: char)
    requires d < 10
    ensures IsDigit(c) && c as int - '0' as int == d
  {
    ('0' as int + d) as char
  }

  /** The decimal digits of `n`, most significant first. */
  function NatText(n: nat): (s: string)
    ensures |s| > 0 && AllDigits(s)
    ensures s[0] == '0' <==> n == 0
    decreases n
  {
    if n < 10 then [DigitChar(n)] else NatText(n / 10) + [DigitChar(n % 10)]
  }

  /** The text Java appends for the integer `n`. */
  function IntText(n: int): (s: string)
    ensures |s| > 0
    ensures s[0] == '-' <==> n < 0
  {
    if n < 0 then "-" + NatText(-n) else NatText(n)
  }

  /** The number a string of decimal digits denotes. */
  function DigitsValue(s: string): nat
    requires AllDigits(s)
  {
    if s == [] then 0 else DigitsValue(s[..|s| - 1]) * 10 + (s[|s| - 1] as int - '0' as int)
  }

  lemma {:induction false} NatTextValue(n: nat)
    ensures DigitsValue(NatText(n)) == n
  {
    if n >= 10 {
      var s := NatText(n);
      assert s[..|s| - 1] == NatText(n / 10);
      NatTextValue(n / 10);
    }
  }

  /** The length of the longest run of digits at the start of `s`. */
  function DigitRun(s: string): (k: nat)
    ensures k <= |s| && AllDigits(s[..k])
    ensures k < |s| ==> !IsDigit(s[k])
  {
    if s == [] || !IsDigit(s[0]) then 0
    else
      var k := 1 + DigitRun(s[1..]);
      assert s[..k] == [s[0]] + s[1..][..k - 1];
      k
  }

  lemma {:induction false} DigitRunOfDigits(d: string, rest: string)
    requires AllDigits(d)
    requires rest == [] || !IsDigit(rest[0])
    ensures DigitRun(d + rest) == |d|
  {
    if d != [] {
      assert (d + rest)[1..] == d[1..] + rest;
      DigitRunOfDigits(d[1..], rest);
    }
  }

  /**
   * Reads an integer written as `IntText` writes it at the start of `s`, and
   * returns it with the text that follows; None when `s` does not start with one.
   */
  function ReadInt(s: string): (r: Option<(int, string)>)
    ensures r.Some? ==> |r.value.1| < |s|
  {
    if |s| > 0 && s[0] == '-' then
      var t := s[1..];
      var k := DigitRun(t);
      var v: int := 0 - DigitsValue(t[..k]) as int;
      if k == 0 then None else Some((v, t[k..]))
    else
      var k := DigitRun(s);
      var v: int := DigitsValue(s[..k]);
      if k == 0 then None else Some((v, s[k..]))
  }

  /** Java's text of an integer reads back as that integer, whatever non-digit text follows it. */
  lemma ReadIntText(n: int, rest: string)
    requires rest == [] || !IsDigit(rest[0])
    ensures ReadInt(IntText(n) + rest) == Some((n, rest))
  {
    if n < 0 {
      ReadNegative(-n, rest);
    } else {
      ReadNonNegative(n, rest);
    }
  }

  lemma ReadNonNegative(m: nat, rest: string)
    requires rest == [] || !IsDigit(rest[0])
    ensures ReadInt(NatText(m) + rest) == Some((m, rest))
  {
    ReadDigits(m, rest);
  }

  lemma ReadNegative(m: nat, rest: string)
    requires m > 0
    requires rest == [] || !IsDigit(rest[0])
    ensures ReadInt("-" + NatText(m) + rest) == Some((-(m as int), rest))
  {
    var s := "-" + NatText(m) + rest;
    ReadDigits(m, rest);
    Assoc("-", NatText(m), rest);
    assert s[0] == '-' && s[1..] == NatText(m) + rest;
  }

  /** The digits of a natural number followed by a non-digit: the run of digits and its value. */
  lemma ReadDigits(m: nat, rest: string)
    requires rest == [] || !IsDigit(rest[0])
    ensures DigitRun(NatText(m) + rest) == |NatText(m)|
    ensures (NatText(m) + rest)[..|NatText(m)|] == NatText(m)
    ensures (NatText(m) + rest)[|NatText(m)|..] == rest
    ensures DigitsValue(NatText(m)) == m
  {
    var d := NatText(m);
    DigitRunOfDigits(d, rest);
    NatTextValue(m);
    assert (d + rest)[..|d|] == d;
    assert (d + rest)[|d|..] == rest;
  }

  /** Different integers are printed differently. */
  lemma IntTextInjective(a: int, b: int)
    requires IntText(a) == IntText(b)
    ensures a == b
  {
    ReadIntText(a, []);
    ReadIntText(b, []);
    assert IntText(a) + [] == IntText(a);
    assert IntText(b) + [] == IntText(b);
  }

  /** The text after a literal prefix, or None when `s` does not start with it. */
  function After(s: string, lit: string): (r: Option<string>)
    ensures r.Some? <==> |lit| <= |s| && s[..|lit|] == lit
    ensures r.Some? ==> lit + r.value == s
  {
    if |lit| <= |s| && s[..|lit|] == lit then Some(s[|lit|..]) else None
  }

  lemma AfterPrefix(lit: string, rest: string)
    ensures After(lit + rest, lit) == Some(rest)
  {
    assert (lit + rest)[..|lit|] == lit;
    assert (lit + rest)[|lit|..] == rest;
  }
}
