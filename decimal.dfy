/**
 * Decimal text of integers, as Swift's string interpolation `"\(n)"` prints
 * an `Int`: an optional leading '-' followed by digits with no leading zero.
 * The parser is the inverse a receiver of that text applies.
 */
module Decimal {
  import opened Wrappers

  predicate IsDigit(c: char) {
    '0' <= c <= '9'
  }

  predicate AllDigits(s: string) {
    forall i :: 0 <= i < |s| ==> IsDigit(s[i])
  }

  function DigitChar(d: nat): (c: char)
    requires d < 10
    ensures IsDigit(c) && DigitValue(c) == d
  {
    (('0' as int) + d) as char
  }

  function DigitValue(c: char): nat
    requires IsDigit(c)
  {
    (c as int) - ('0' as int)
  }

  /** Decimal digits of `n`, most significant first. */
  function NatToText(n: nat): (s: string)
    ensures |s| >= 1 && AllDigits(s)
    ensures |s| == 1 <==> n < 10
    ensures s[0] == '0' <==> n == 0
    decreases n
  {
    if n < 10 then [DigitChar(n)] else NatToText(n / 10) + [DigitChar(n % 10)]
  }

  /** Value of a string of digits, most significant first. */
  function TextToNat(s: string): nat
    requires AllDigits(s)
    decreases |s|
  {
    if s == [] then 0 else TextToNat(s[..|s| - 1]) * 10 + DigitValue(s[|s| - 1])
  }

  lemma {:induction false} NatTextRoundTrip(n: nat)
    ensures TextToNat(NatToText(n)) == n
    decreases n
  {
    var s := NatToText(n);
    if n >= 10 {
      assert s[..|s| - 1] == NatToText(n / 10);
      NatTextRoundTrip(n / 10);
    }
  }

  /** True of the text `IntToText` produces: digits, possibly after one '-'. */
  predicate IsNumeral(s: string) {
    |s| >= 1 &&
    forall i :: 0 <= i < |s| ==> IsDigit(s[i]) || (i == 0 && s[i] == '-' && |s| >= 2)
  }

  /** `"\(i)"` for a Swift `Int`. */
  function IntToText(i: int): (s: string)
    ensures IsNumeral(s)
    ensures s[0] == '-' <==> i < 0
  {
    if i < 0 then "-" + NatToText(-i) else NatToText(i)
  }

  /** Reads back an optionally signed decimal numeral; None for anything else. */
  function TextToInt(s: string): (r: Option<int>)
    ensures r.Some? ==> IsNumeral(s)
  {
    if |s| >= 2 && s[0] == '-' && AllDigits(s[1..]) then Some(-(TextToNat(s[1..]) as int))
    else if |s| >= 1 && AllDigits(s) then Some(TextToNat(s))
    else None
  }

  lemma IntTextRoundTrip(i: int)
    ensures TextToInt(IntToText(i)) == Some(i)
  {
    var s := IntToText(i);
    if i < 0 {
      assert s[1..] == NatToText(-i);
      NatTextRoundTrip(-i);
    } else {
      NatTextRoundTrip(i);
    }
  }

  /** A numeral never contains the separators that surround it in a URL. */
  lemma NumeralHasNoSeparator(s: string, c: char)
    requires IsNumeral(s)
    requires c == ':' || c == '/'
    ensures c !in s
  {
  }
}
