/**
 * Swift string interpolation of integers (`"\(n)"`): decimal digits, with a
 * leading '-' for a negative value. Beside it, a reader of decimal numerals
 * that serves as its inverse, so that every piece of text the app builds from
 * numbers can be shown to determine those numbers.
 */
module Text {
  import opened Wrappers

  predicate IsDigit(ch: char) {
    '0' <= ch <= '9'
  }

  predicate AllDigits(s: string) {
    forall i :: 0 <= i < |s| ==> IsDigit(s[i])
  }

  function DigitValue(ch: char): (d: nat)
    requires IsDigit(ch)
    ensures d < 10
  {
    ch as int - '0' as int
  }

  function DigitChar(d: nat): (ch: char)
    requires d < 10
    ensures IsDigit(ch) && DigitValue(ch) == d
  {
    ('0' as int + d) as char
  }

  /** `"\(n)"` for a non-negative `n`: its decimal digits, most significant first, no leading zeros. */
  function NatToString(n: nat): (s: string)
    ensures |s| > 0 && AllDigits(s)
    decreases n
  {
    if n < 10 then [DigitChar(n)] else NatToString(n / 10) + [DigitChar(n % 10)]
  }

  /** `"\(i)"` for any `Int`. */
  function IntToString(i: int): (s: string)
    ensures |s| > 0
  {
    if i < 0 then "-" + NatToString(-i) else NatToString(i)
  }

  /** The number a run of decimal digits denotes. */
  function DigitsValue(s: string): nat
    requires AllDigits(s)
    decreases |s|
  {
    if s == [] then 0 else DigitsValue(s[..|s| - 1]) * 10 + DigitValue(s[|s| - 1])
  }

  /** The length of the longest run of digits at the front of `s`. */
  function DigitRun(s: string): (k: nat)
    ensures k <= |s| && AllDigits(s[..k])
    ensures k < |s| ==> !IsDigit(s[k])
    decreases |s|
  {
    if s == [] || !IsDigit(s[0]) then 0
    else
      var k := DigitRun(s[1..]) + 1;
      assert forall i :: 1 <= i < k ==> s[..k][i] == s[1..][..k - 1][i - 1];
      k
  }

  /** Reads a decimal numeral at the front of `s`; gives its value and the text after it. */
  function ReadNat(s: string): Option<(nat, string)> {
    var k := DigitRun(s);
    if k == 0 then None else Some((DigitsValue(s[..k]), s[k..]))
  }

  /** Reads an optionally negative decimal numeral at the front of `s`. */
  function ReadInt(s: string): Option<(int, string)> {
    if |s| > 0 && s[0] == '-' then
      match ReadNat(s[1..])
      case None => None
      case Some((n, rest)) => Some((-(n as int), rest))
    else
      match ReadNat(s)
      case None => None
      case Some((n, rest)) => Some((n as int, rest))
  }

  lemma {:induction false} NatToStringValue(n: nat)
    ensures DigitsValue(NatToString(n)) == n
    decreases n
  {
    if n >= 10 {
      NatToStringValue(n / 10);
      var s := NatToString(n);
      assert s[..|s| - 1] == NatToString(n / 10);
    }
  }

  /** Reading back what `NatToString` wrote gives the number and leaves the text that followed it. */
  lemma ReadNatToString(n: nat, rest: string)
    requires rest == [] || !IsDigit(rest[0])
    ensures ReadNat(NatToString(n) + rest) == Some((n, rest))
  {
    var d := NatToString(n);
    var s := d + rest;
    RunOfDigits(d, rest);
    assert s[..|d|] == d;
    assert s[|d|..] == rest;
    NatToStringValue(n);
  }

  lemma ReadIntToString(i: int, rest: string)
    requires rest == [] || !IsDigit(rest[0])
    ensures ReadInt(IntToString(i) + rest) == Some((i, rest))
  {
    if i < 0 {
      var d := NatToString(-i);
      AppendAssoc("-", d, rest);
      ReadIntAfterMinus(d + rest);
      ReadNatToString(-i, rest);
    } else {
      var d := NatToString(i);
      ReadIntOfDigit(d + rest);
      ReadNatToString(i, rest);
    }
  }

  /** A leading minus sign negates the numeral after it. */
  lemma ReadIntAfterMinus(t: string)
    ensures ReadInt("-" + t) == match ReadNat(t) case None => None case Some((n, rest)) => Some((-(n as int), rest))
  {
    assert ("-" + t)[1..] == t;
  }

  /** Text that starts with a digit reads as a natural number. */
  lemma ReadIntOfDigit(t: string)
    requires t != [] && IsDigit(t[0])
    ensures ReadInt(t) == match ReadNat(t) case None => None case Some((n, rest)) => Some((n as int, rest))
  {
  }

  /** Associativity of concatenation, stated separately so `ReadIntToString` stays within the solver's resource limit. */
  lemma AppendAssoc(a: string, b: string, c: string)
    ensures a + b + c == a + (b + c)
  {
  }

  /** The digit run at the front of `d + rest` is exactly `d` when `rest` does not start with a digit. */
  lemma {:induction false} RunOfDigits(d: string, rest: string)
    requires AllDigits(d)
    requires rest == [] || !IsDigit(rest[0])
    ensures DigitRun(d + rest) == |d|
    decreases |d|
  {
    if d != [] {
      RunOfDigits(d[1..], rest);
      assert (d + rest)[1..] == d[1..] + rest;
    }
  }
}
