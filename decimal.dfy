/** Decimal text: Python's int() on a string, str() on an int and the
    zero-padded "{n:03d}" format, restricted to ASCII digits. */
module Decimal {
  import opened DaisyTypes

  predicate IsDigit(c: char) {
    '0' <= c <= '9'
  }

  predicate AllDigits(s: string) {
    forall i :: 0 <= i < |s| ==> IsDigit(s[i])
  }

  function DigitValue(c: char): (d: nat)
    requires IsDigit(c)
    ensures d < 10
  {
    c as int - '0' as int
  }

  function Digit(d: nat): (c: char)
    requires d < 10
    ensures IsDigit(c) && DigitValue(c) == d
  {
    ('0' as int + d) as char
  }

  /** The value of a non-empty string of decimal digits; None for anything else. */
  function ParseDigits(s: string): (r: Option<nat>)
    ensures r.Some? <==> |s| > 0 && AllDigits(s)
    decreases |s|
  {
    if |s| == 0 || !IsDigit(s[|s| - 1]) then None
    else if |s| == 1 then Some(DigitValue(s[0]))
    else
      match ParseDigits(s[..|s| - 1])
      case None => None
      case Some(v) => Some(v * 10 + DigitValue(s[|s| - 1]))
  }

  /** int(s): an optional sign followed by decimal digits. */
  function ParseInt(s: string): (r: Option<int>)
    ensures r.Some? <==>
      (|s| > 0 && AllDigits(s)) ||
      (|s| > 1 && (s[0] == '-' || s[0] == '+') && AllDigits(s[1..]))
  {
    if |s| > 0 && s[0] == '-' then
      match ParseDigits(s[1..])
      case None => None
      case Some(v) => var n: int := v; Some(-n)
    else if |s| > 0 && s[0] == '+' then
      ParseDigits(s[1..])
    else
      match ParseDigits(s)
      case None => None
      case Some(v) => Some(v)
  }

  /** str(n) for a natural number: the shortest decimal spelling. */
  function NatToDecimal(n: nat): (s: string)
    ensures |s| > 0 && AllDigits(s)
  {
    if n < 10 then [Digit(n)] else NatToDecimal(n / 10) + [Digit(n % 10)]
  }

  /** str(i) for any integer. */
  function IntToString(i: int): (s: string)
    ensures |s| > 0
  {
    if i < 0 then "-" + NatToDecimal(-i) else NatToDecimal(i)
  }

  /** f"{n:03d}" for a natural number: padded with zeros to three characters. */
  function Pad3(n: nat): (s: string)
    ensures |s| > 0 && AllDigits(s)
  {
    if n < 10 then "00" + NatToDecimal(n)
    else if n < 100 then "0" + NatToDecimal(n)
    else NatToDecimal(n)
  }

  lemma {:induction false} ParseNatToDecimal(n: nat)
    ensures ParseDigits(NatToDecimal(n)) == Some(n)
  {
    if n >= 10 {
      var s := NatToDecimal(n);
      ParseNatToDecimal(n / 10);
      assert s[..|s| - 1] == NatToDecimal(n / 10);
    }
  }

  /** str() and int() are inverse on every integer. */
  lemma ParseIntToString(i: int)
    ensures ParseInt(IntToString(i)) == Some(i)
  {
    var s := IntToString(i);
    if i < 0 {
      ParseNatToDecimal(-i);
      assert s[1..] == NatToDecimal(-i);
    } else {
      ParseNatToDecimal(i);
    }
  }

  lemma {:induction false} NatToDecimalLength(n: nat)
    ensures n < 10 ==> |NatToDecimal(n)| == 1
    ensures 10 <= n < 100 ==> |NatToDecimal(n)| == 2
    ensures 100 <= n < 1000 ==> |NatToDecimal(n)| == 3
  {
    if n >= 10 {
      NatToDecimalLength(n / 10);
    }
  }

  /** A leading zero does not change the value of a digit string. */
  lemma {:induction false} ParseLeadingZero(s: string)
    requires |s| > 0
    ensures ParseDigits("0" + s) == ParseDigits(s)
    decreases |s|
  {
    var t := "0" + s;
    if |s| > 1 && IsDigit(s[|s| - 1]) {
      assert t[..|t| - 1] == "0" + s[..|s| - 1];
      ParseLeadingZero(s[..|s| - 1]);
    }
  }

  /** Three decimal digits read as a number below 1000, the width of the colour string's fields. */
  lemma ThreeDigits(s: string)
    ensures |s| == 3 && AllDigits(s) ==> ParseInt(s).Some? && 0 <= ParseInt(s).value < 1000
  {
    if |s| == 3 && AllDigits(s) {
      assert s[..2][..1] == s[..1];
      assert ParseDigits(s[..2]).value == ParseDigits(s[..1]).value * 10 + DigitValue(s[1]);
      assert ParseDigits(s).value == ParseDigits(s[..2]).value * 10 + DigitValue(s[2]);
    }
  }

  /** The three-digit format is exactly three characters below 1000 and int() reads it back. */
  lemma Pad3RoundTrip(n: nat)
    requires n < 1000
    ensures |Pad3(n)| == 3
    ensures ParseInt(Pad3(n)) == Some(n)
  {
    NatToDecimalLength(n);
    ParseNatToDecimal(n);
    var d := NatToDecimal(n);
    if n < 10 {
      ParseLeadingZero(d);
      ParseLeadingZero("0" + d);
      assert "00" + d == "0" + ("0" + d);
    } else if n < 100 {
      ParseLeadingZero(d);
    }
  }
}
