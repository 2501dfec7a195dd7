/** Decimal text of integers, as Rust's `Display` for `i64` writes it, with a reader for it. */
module Decimal {
  import opened Wrappers

  predicate IsDigit(c: char) {
    '0' <= c <= '9'
  }

  predicate AllDigits(s: string) {
    forall i :: 0 <= i < |s| ==> IsDigit(s[i])
  }

  function DigitChar(d: nat): (c: char)
    requires d < 10
    ensures IsDigit(c) && c as int - '0' as int == d
  {
    ('0' as int + d) as char
  }

  function DigitValue(c: char): nat
    requires IsDigit(c)
  {
    c as int - '0' as int
  }

  /** The decimal digits of `n`, most significant first, without leading zeros. */
  function NatToDecimal(n: nat): (r: string)
    ensures 1 <= |r| && AllDigits(r)
    ensures r[0] == '0' ==> n == 0
  {
    if n < 10 then [DigitChar(n)] else NatToDecimal(n / 10) + [DigitChar(n % 10)]
  }

  /** The number a string of digits denotes. */
  function DecimalValue(s: string): nat
    requires AllDigits(s)
  {
    if s == [] then 0 else 10 * DecimalValue(s[..|s| - 1]) + DigitValue(s[|s| - 1])
  }

  lemma {:induction false} DecimalValueOfNat(n: nat)
    ensures DecimalValue(NatToDecimal(n)) == n
  {
    if n >= 10 {
      DecimalValueOfNat(n / 10);
      var r := NatToDecimal(n);
      assert r[..|r| - 1] == NatToDecimal(n / 10);
    }
  }

  /** Reads an optional minus sign followed by at least one digit. */
  function ParseInt(s: string): Option<int> {
    if 2 <= |s| && s[0] == '-' && AllDigits(s[1..]) then Some(-(DecimalValue(s[1..]) as int))
    else if 1 <= |s| && AllDigits(s) then Some(DecimalValue(s))
    else None
  }

  /**
   * No leading zero after the optional minus sign: `0` is the only text
   * that starts with `0`, and no text starts with `-0`.
   */
  predicate NoLeadingZero(r: string) {
    if 1 <= |r| && r[0] == '-' then 2 <= |r| && r[1] != '0'
    else 1 <= |r| && (r[0] == '0' ==> |r| == 1)
  }

  /** `format!("{}", i)`: a minus sign for negative numbers, then the digits of the magnitude. */
  function IntToDecimal(i: int): (r: string)
    ensures ParseInt(r) == Some(i) && NoLeadingZero(r)
    ensures r[0] == '-' <==> i < 0
    ensures AllDigits(r[1..]) && (r[0] == '-' || IsDigit(r[0]))
  {
    DecimalValueOfNat(if i < 0 then -i else i);
    if i < 0 then "-" + NatToDecimal(-i) else NatToDecimal(i)
  }

  lemma {:induction false} DecimalValueAtLeastFirstDigit(s: string)
    requires 1 <= |s| && AllDigits(s)
    ensures DecimalValue(s) >= DigitValue(s[0])
  {
    if |s| > 1 {
      DecimalValueAtLeastFirstDigit(s[..|s| - 1]);
    }
  }

  /** Digits without a leading zero are exactly the text `NatToDecimal` writes for their value. */
  lemma {:induction false} NatToDecimalOfDigits(s: string)
    requires 1 <= |s| && AllDigits(s)
    requires s[0] == '0' ==> |s| == 1
    ensures NatToDecimal(DecimalValue(s)) == s
  {
    if |s| > 1 {
      var front := s[..|s| - 1];
      NatToDecimalOfDigits(front);
      DecimalValueAtLeastFirstDigit(front);
      var n := DecimalValue(s);
      assert n / 10 == DecimalValue(front) && n % 10 == DigitValue(s[|s| - 1]);
      assert s == front + [s[|s| - 1]];
    }
  }

  /**
   * A text that reads back to `i` and has no leading zero is exactly the
   * text `IntToDecimal` writes for `i`: the decimal form is unique.
   */
  lemma DecimalTextUnique(r: string, i: int)
    requires ParseInt(r) == Some(i) && NoLeadingZero(r)
    ensures r == IntToDecimal(i)
  {
    if 2 <= |r| && r[0] == '-' && AllDigits(r[1..]) {
      var digits := r[1..];
      DecimalValueAtLeastFirstDigit(digits);
      NatToDecimalOfDigits(digits);
      assert r == "-" + digits;
    } else {
      NatToDecimalOfDigits(r);
    }
  }
}
