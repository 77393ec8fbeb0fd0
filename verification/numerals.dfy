/** Decimal text of integers (`%d`, `Integer.toString`, JSON number lexemes)
    and the `java.math.BigDecimal` values the report record stores. */
module Numerals {
  import opened Base

  predicate IsDigit(c: char) {
    '0' <= c <= '9'
  }

  function DigitChar(d: nat): (c: char)
    requires d < 10
    ensures IsDigit(c)
  {
    ('0' as int + d) as char
  }

  function DigitValue(c: char): nat
    requires IsDigit(c)
  {
    c as int - '0' as int
  }

  predicate AllDigits(s: string) {
    forall i :: 0 <= i < |s| ==> IsDigit(s[i])
  }

  /** Decimal digits of a natural number, most significant first, without
      leading zeros. */
  function DecimalString(n: nat): (r: string)
    ensures |r| >= 1 && AllDigits(r)
    ensures |r| > 1 ==> r[0] != '0'
    decreases n
  {
    if n < 10 then [DigitChar(n)] else DecimalString(n / 10) + [DigitChar(n % 10)]
  }

  /** The value of a string of decimal digits. */
  function DigitsValue(s: string): nat
    requires AllDigits(s)
    decreases |s|
  {
    if |s| == 0 then 0 else 10 * DigitsValue(s[..|s| - 1]) + DigitValue(s[|s| - 1])
  }

  /** Reading the rendered digits back yields the number. */
  lemma {:induction false} DigitsValueOfDecimal(n: nat)
    ensures DigitsValue(DecimalString(n)) == n
    decreases n
  {
    var r := DecimalString(n);
    if n >= 10 {
      DigitsValueOfDecimal(n / 10);
      assert r[..|r| - 1] == DecimalString(n / 10);
    }
  }

  /** `Integer.toString(i)` / `String.format("%d", i)`. */
  function IntString(i: int): string {
    if i < 0 then "-" + DecimalString(-i) else DecimalString(i)
  }

  /** `Integer.parseInt` on an optional minus sign and at least one digit. */
  function ParseInt(s: string): Option<int> {
    if |s| > 1 && s[0] == '-' && AllDigits(s[1..]) then Some(-(DigitsValue(s[1..]) as int))
    else if |s| > 0 && AllDigits(s) then Some(DigitsValue(s))
    else None
  }

  /** Rendering and parsing are inverse: the text determines the integer. */
  lemma ParseIntString(i: int)
    ensures ParseInt(IntString(i)) == Some(i)
  {
    var s := IntString(i);
    if i < 0 {
      assert s[1..] == DecimalString(-i);
      DigitsValueOfDecimal(-i);
      assert |s| > 1 && s[0] == '-' && AllDigits(s[1..]);
    } else {
      DigitsValueOfDecimal(i);
      assert IsDigit(s[0]) && s[0] != '-';
    }
  }

  lemma IntStringInjective(i: int, j: int)
    requires IntString(i) == IntString(j)
    ensures i == j
  {
    ParseIntString(i);
    ParseIntString(j);
  }

  function Pow10(k: nat): (p: nat)
    ensures p >= 1
  {
    if k == 0 then 1 else 10 * Pow10(k - 1)
  }

  /** A `BigDecimal` with non-negative scale: `unscaled × 10^-scale`. */
  datatype Decimal = Decimal(unscaled: int, scale: nat) {

    function Value(): real {
      unscaled as real / Pow10(scale) as real
    }

    /** `BigDecimal.precision()`: the number of digits of the unscaled value. */
    function Precision(): nat {
      |DecimalString(if unscaled < 0 then -unscaled else unscaled)|
    }

    /** `@Digits(integer, fraction)`: at most `integer` digits before the
        point and at most `fraction` after it. */
    predicate FitsDigits(integer: nat, fraction: nat) {
      Precision() - scale <= integer && scale <= fraction
    }
  }
}
