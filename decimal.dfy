/**
 * Decimal text for integers: the two JavaScript conversions the app relies on,
 * `String(n)` (used by `padStart`, `toString` and the secure store) and
 * `Number(s)` (used when the token expiry is read back from the store).
 * JavaScript numbers are doubles; the model keeps to the integers the app
 * stores (prices, counts, epoch milliseconds) and keeps NaN as its own value.
 */
module Decimal {

  predicate IsDigit(c: char) {
    '0' <= c <= '9'
  }

  predicate AllDigits(s: string) {
    forall i :: 0 <= i < |s| ==> IsDigit(s[i])
  }

  function DigitValue(c: char): (d: nat)
    requires IsDigit(c)
    ensures d < 10
  {
    c as int - '0' as int
  }

  function DigitChar(d: nat): (c: char)
    requires d < 10
    ensures IsDigit(c) && DigitValue(c) == d
  {
    ('0' as int + d) as char
  }

  /** Shortest decimal spelling of a natural number: digits only, no leading zero. */
  function NatToString(n: nat): (s: string)
    ensures 1 <= |s| && AllDigits(s)
    ensures |s| > 1 ==> s[0] != '0'
    ensures n < 10 <==> |s| == 1
    ensures 10 <= n < 100 <==> |s| == 2
    decreases n
  {
    if n < 10 then [DigitChar(n)] else NatToString(n / 10) + [DigitChar(n % 10)]
  }

  /** The value of a string of decimal digits (leading zeros allowed, "" is 0). */
  function ParseNat(s: string): nat
    requires AllDigits(s)
  {
    if s == [] then 0 else ParseNat(s[..|s| - 1]) * 10 + DigitValue(s[|s| - 1])
  }

  /** `String(n)` for an integer `n`: a minus sign for negatives, then the digits. */
  function IntToString(n: int): (s: string)
    ensures 1 <= |s|
    ensures n >= 0 ==> AllDigits(s)
    ensures n < 0 ==> s[0] == '-' && AllDigits(s[1..]) && |s| >= 2
  {
    if n < 0 then "-" + NatToString(-n) else NatToString(n)
  }

  /** A JavaScript number as far as this app uses one: an integer or NaN. */
  datatype JsNumber = Num(value: int) | NaN

  /** `String(x)`. */
  function NumberToString(x: JsNumber): string {
    match x
    case Num(v) => IntToString(v)
    case NaN => "NaN"
  }

  /**
   * `Number(s)` on integer text: the empty string is 0, an optional sign
   * followed by one or more digits is that integer, anything else is NaN.
   */
  function ParseNumber(s: string): (x: JsNumber)
    ensures s == "" ==> x == Num(0)
    ensures s != "" && AllDigits(s) ==> x == Num(ParseNat(s))
    ensures x.Num? && s != "" ==> IsDigit(s[|s| - 1])
  {
    if s == "" then Num(0)
    else if AllDigits(s) then Num(ParseNat(s))
    else if |s| >= 2 && s[0] == '-' && AllDigits(s[1..]) then Num(-(ParseNat(s[1..]) as int))
    else if |s| >= 2 && s[0] == '+' && AllDigits(s[1..]) then Num(ParseNat(s[1..]))
    else NaN
  }

  /** Reading back the digits `NatToString` wrote gives the number again. */
  lemma {:induction false} NatRoundTrip(n: nat)
    ensures ParseNat(NatToString(n)) == n
    decreases n
  {
    if n >= 10 {
      NatRoundTrip(n / 10);
      var s := NatToString(n);
      assert s[..|s| - 1] == NatToString(n / 10);
    }
  }

  /** Leading zeros do not change the value of a digit string. */
  lemma {:induction false} LeadingZeroIgnored(s: string)
    requires AllDigits(s)
    ensures AllDigits("0" + s) && ParseNat("0" + s) == ParseNat(s)
    decreases |s|
  {
    var t := "0" + s;
    if s != [] {
      assert t[..|t| - 1] == "0" + s[..|s| - 1];
      LeadingZeroIgnored(s[..|s| - 1]);
    }
  }

  /** `Number(String(n))` is `n` for every integer. */
  lemma IntRoundTrip(n: int)
    ensures ParseNumber(IntToString(n)) == Num(n)
  {
    if n < 0 {
      NatRoundTrip(-n);
      assert IntToString(n)[1..] == NatToString(-n);
    } else {
      NatRoundTrip(n);
    }
  }

  /** `Number(String(x))` is `x` for every number the model stores, NaN included. */
  lemma NumberRoundTrip(x: JsNumber)
    ensures ParseNumber(NumberToString(x)) == x
  {
    match x
    case Num(v) => IntRoundTrip(v);
    case NaN => assert !IsDigit("NaN"[0]);
  }
}
