/** Decimal numerals as Python's `str` writes an integer, with the inverse
    reading, so that a rendered count, rank or score can be read back. */
module Numerals {

  import opened Records

  predicate IsDigit(c: char) {
    '0' <= c <= '9'
  }

  predicate AllDigits(s: string) {
    forall i :: 0 <= i < |s| ==> IsDigit(s[i])
  }

  function DigitChar(d: nat): (c: char)
    requires d < 10
    ensures IsDigit(c)
  {
    (48 + d) as char
  }

  function DigitValue(c: char): (d: nat)
    requires IsDigit(c)
    ensures d < 10
  {
    c as int - 48
  }

  /** `str(n)` for a non-negative integer: no sign, no leading zero. */
  function NatToString(n: nat): string
    decreases n
  {
    if n < 10 then [DigitChar(n)] else NatToString(n / 10) + [DigitChar(n % 10)]
  }

  lemma {:induction false} NatToStringShape(n: nat)
    ensures var r := NatToString(n);
      |r| > 0 && AllDigits(r) && (|r| > 1 ==> r[0] != '0')
    decreases n
  {
    if n >= 10 {
      NatToStringShape(n / 10);
    }
  }

  /** `str(n)` for any integer: a leading '-' for a negative number. */
  function IntToString(n: int): string {
    if n < 0 then "-" + NatToString(-n) else NatToString(n)
  }

  /** A numeral is digits, after a '-' for a negative number, and ends in a digit. */
  lemma IntToStringShape(n: int)
    ensures var r := IntToString(n);
      && |r| > 0 && IsDigit(r[|r| - 1])
      && (forall i :: 0 <= i < |r| ==> IsDigit(r[i]) || (i == 0 && r[i] == '-'))
  {
    if n < 0 {
      NatToStringShape(-n);
    } else {
      NatToStringShape(n);
    }
  }

  function StringToNat(s: string): nat
    requires AllDigits(s)
  {
    if s == [] then 0 else StringToNat(s[..|s| - 1]) * 10 + DigitValue(s[|s| - 1])
  }

  /** Reads back a numeral written by IntToString; None for any other text. */
  function StringToInt(s: string): Option<int> {
    if |s| > 0 && AllDigits(s) then Some(StringToNat(s))
    else if |s| > 1 && s[0] == '-' && AllDigits(s[1..]) then Some(-(StringToNat(s[1..]) as int))
    else None
  }

  lemma {:induction false} NatRoundTrip(n: nat)
    ensures AllDigits(NatToString(n)) && StringToNat(NatToString(n)) == n
  {
    var s := NatToString(n);
    NatToStringShape(n);
    if n >= 10 {
      NatToStringShape(n / 10);
      NatRoundTrip(n / 10);
      assert s[..|s| - 1] == NatToString(n / 10);
    }
  }

  /** Reading back what `str` wrote gives the integer again. */
  lemma IntRoundTrip(n: int)
    ensures StringToInt(IntToString(n)) == Some(n)
  {
    var s := IntToString(n);
    if n < 0 {
      assert s[1..] == NatToString(-n);
      NatToStringShape(-n);
      NatRoundTrip(-n);
      assert !IsDigit(s[0]);
    } else {
      NatToStringShape(n);
      NatRoundTrip(n);
    }
  }

  /** Two integers are written the same only if they are equal. */
  lemma IntToStringInjective(a: int, b: int)
    requires IntToString(a) == IntToString(b)
    ensures a == b
  {
    IntRoundTrip(a);
    IntRoundTrip(b);
  }
}
