/**
 * Decimal rendering of integers, as JavaScript's template literals do it for
 * the integral numbers of the core (`${response.status}`, `${routeId}`). The
 * two agree for magnitudes below 1e21, past which JavaScript switches to
 * exponent notation.
 */
module Strings {

  /** The characters `\d` matches in a JavaScript regular expression without the `u` flag. */
  predicate IsDigit(c: char) {
    '0' <= c <= '9'
  }

  predicate AllDigits(s: string) {
    forall k :: 0 <= k < |s| ==> IsDigit(s[k])
  }

  function DigitChar(d: nat): (c: char)
    requires d < 10
    ensures IsDigit(c)
  {
    (48 + d) as char
  }

  function DigitValue(c: char): (d: nat)
    requires IsDigit(c)
    ensures d < 10 && DigitChar(d) == c
  {
    c as int - 48
  }

  /** Decimal digits of `n`, most significant first, without leading zeros. */
  function NatToString(n: nat): (s: string)
    ensures |s| >= 1 && AllDigits(s)
    ensures |s| > 1 ==> s[0] != '0'
  {
    if n < 10 then [DigitChar(n)] else NatToString(n / 10) + [DigitChar(n % 10)]
  }

  /** String conversion of an integer: a minus sign before the digits of a negative value. */
  function IntToString(i: int): (s: string)
    ensures |s| >= 1
    ensures (s[0] == '-') <==> i < 0
    ensures forall k :: 0 <= k < |s| ==> s[k] == '-' || IsDigit(s[k])
    ensures i >= 0 ==> AllDigits(s) && ParseNat(s) == i
    ensures i < 0 ==> |s| >= 2 && AllDigits(s[1..]) && ParseNat(s[1..]) == -i
  {
    if i < 0 then
      ParseNatToString(-i);
      assert ("-" + NatToString(-i))[1..] == NatToString(-i);
      "-" + NatToString(-i)
    else
      ParseNatToString(i);
      NatToString(i)
  }

  /** Reads back a string of decimal digits. */
  function ParseNat(s: string): nat
    requires |s| >= 1 && AllDigits(s)
  {
    if |s| == 1 then DigitValue(s[0])
    else ParseNat(s[..|s| - 1]) * 10 + DigitValue(s[|s| - 1])
  }

  lemma {:induction false} ParseNatToString(n: nat)
    ensures ParseNat(NatToString(n)) == n
  {
    if n >= 10 {
      var s := NatToString(n);
      assert s[..|s| - 1] == NatToString(n / 10);
      ParseNatToString(n / 10);
    }
  }

  /** Distinct integers render as distinct strings. */
  lemma IntToStringInjective(a: int, b: int)
    requires IntToString(a) == IntToString(b)
    ensures a == b
  {
    if a < 0 {
      assert b < 0;
      assert NatToString(-a) == IntToString(a)[1..] == IntToString(b)[1..] == NatToString(-b);
      ParseNatToString(-a);
      ParseNatToString(-b);
    } else {
      ParseNatToString(a);
      ParseNatToString(b);
    }
  }

  /** The digits of `s`, in order: `s.replace(/\D/g, '')`. */
  function OnlyDigits(s: string): (r: string)
    ensures AllDigits(r) && |r| <= |s|
  {
    if s == [] then []
    else (if IsDigit(s[0]) then [s[0]] else []) + OnlyDigits(s[1..])
  }

  lemma {:induction false} OnlyDigitsAppend(a: string, b: string)
    ensures OnlyDigits(a + b) == OnlyDigits(a) + OnlyDigits(b)
  {
    if a == [] {
      assert a + b == b;
    } else {
      assert (a + b)[0] == a[0];
      assert (a + b)[1..] == a[1..] + b;
      OnlyDigitsAppend(a[1..], b);
    }
  }

  /** A string made only of digits is its own normal form. */
  lemma {:induction false} OnlyDigitsOfDigits(s: string)
    requires AllDigits(s)
    ensures OnlyDigits(s) == s
  {
    if s != [] {
      assert AllDigits(s[1..]);
      OnlyDigitsOfDigits(s[1..]);
    }
  }

  /** Normalising twice is normalising once. */
  lemma OnlyDigitsIdempotent(s: string)
    ensures OnlyDigits(OnlyDigits(s)) == OnlyDigits(s)
  {
    OnlyDigitsOfDigits(OnlyDigits(s));
  }

  /** A non-digit character anywhere in the input is dropped. */
  lemma OnlyDigitsIgnoresNonDigit(a: string, c: char, b: string)
    requires !IsDigit(c)
    ensures OnlyDigits(a + [c] + b) == OnlyDigits(a + b)
  {
    OnlyDigitsAppend(a + [c], b);
    OnlyDigitsAppend(a, [c]);
    OnlyDigitsAppend(a, b);
    assert OnlyDigits([c]) == [];
  }

  lemma OnlyDigitsSkip(c: char, b: string)
    requires !IsDigit(c)
    ensures OnlyDigits([c] + b) == OnlyDigits(b)
  {
    assert ([c] + b)[1..] == b;
  }

  /** A run of digits, a separator, then the rest: the separator is dropped. */
  lemma OnlyDigitsGroup(d: string, c: char, b: string)
    requires AllDigits(d) && !IsDigit(c)
    ensures OnlyDigits(d + [c] + b) == d + OnlyDigits(b)
  {
    assert d + [c] + b == d + ([c] + b);
    OnlyDigitsAppend(d, [c] + b);
    OnlyDigitsOfDigits(d);
    OnlyDigitsSkip(c, b);
  }

  /** The display mask `XX.XXX.XXX/XXXX-XX`: digits everywhere but four separator positions. */
  predicate MaskShaped(s: string) {
    |s| == 18 &&
    (forall k :: 0 <= k < 18 && k != 2 && k != 6 && k != 10 && k != 15 ==> IsDigit(s[k])) &&
    !IsDigit(s[2]) && !IsDigit(s[6]) && !IsDigit(s[10]) && !IsDigit(s[15])
  }

  /** A CNPJ written in the display mask normalises to its fourteen digits. */
  lemma MaskedCnpjDigits(s: string)
    requires MaskShaped(s)
    ensures OnlyDigits(s) == s[..2] + s[3..6] + s[7..10] + s[11..15] + s[16..]
    ensures |OnlyDigits(s)| == 14
  {
    assert s[11..] == s[11..15] + [s[15]] + s[16..];
    OnlyDigitsGroup(s[11..15], s[15], s[16..]);
    OnlyDigitsOfDigits(s[16..]);
    assert s[7..] == s[7..10] + [s[10]] + s[11..];
    OnlyDigitsGroup(s[7..10], s[10], s[11..]);
    assert s[3..] == s[3..6] + [s[6]] + s[7..];
    OnlyDigitsGroup(s[3..6], s[6], s[7..]);
    assert s == s[..2] + [s[2]] + s[3..];
    OnlyDigitsGroup(s[..2], s[2], s[3..]);
  }
}
