/** Rust's `u16` and the decimal text form `format!` writes and `str::parse::<u16>` reads. */
module Numbers {
  import opened Wrappers

  /** A value of Rust's `u16`. */
  type U16 = x: int | 0 <= x < 0x1_0000

  const U16Max: U16 := 0xFFFF

  predicate IsDigit(c: char) {
    '0' <= c <= '9'
  }

  function DigitValue(c: char): nat
    requires IsDigit(c)
  {
    (c as int) - ('0' as int)
  }

  function DigitChar(d: nat): (c: char)
    requires d < 10
    ensures IsDigit(c) && DigitValue(c) == d
  {
    ('0' as int + d) as char
  }

  predicate AllDigits(s: string) {
    forall i :: 0 <= i < |s| ==> IsDigit(s[i])
  }

  /** The number a string of decimal digits denotes, most significant digit first. */
  function DigitsValue(s: string): nat
    requires AllDigits(s)
  {
    if s == [] then 0 else DigitsValue(s[..|s| - 1]) * 10 + DigitValue(s[|s| - 1])
  }

  /** `format!("{}", n)`: the digits of `n` with no sign and no leading zero. */
  function Decimal(n: nat): (s: string)
    ensures |s| > 0 && AllDigits(s)
  {
    if n < 10 then [DigitChar(n)] else Decimal(n / 10) + [DigitChar(n % 10)]
  }

  /**
   * `s.parse::<u16>()`: an optional `+`, then one or more decimal digits
   * whose value fits in 16 bits; anything else is an error.
   */
  function ParseU16(s: string): Option<U16>
  {
    var digits := if |s| > 0 && s[0] == '+' then s[1..] else s;
    if digits == [] || !AllDigits(digits) || DigitsValue(digits) > U16Max then None
    else Some(DigitsValue(digits))
  }

  /** Reading back what `Decimal` wrote gives the number. */
  lemma {:induction false} DecimalValue(n: nat)
    ensures DigitsValue(Decimal(n)) == n
  {
    if n >= 10 {
      var s := Decimal(n);
      assert s[..|s| - 1] == Decimal(n / 10);
      DecimalValue(n / 10);
    }
  }

  /** Every `u16` survives a trip through its decimal text. */
  lemma ParseDecimal(n: U16)
    ensures ParseU16(Decimal(n)) == Some(n)
  {
    DecimalValue(n);
  }

  /** The decimal text of a number past `u16::MAX` does not parse: the parser reports overflow. */
  lemma ParseOverflow(n: nat)
    requires n > U16Max
    ensures ParseU16(Decimal(n)).None?
  {
    DecimalValue(n);
  }
}
