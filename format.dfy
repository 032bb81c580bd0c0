/** Decimal formatting of integers, as Go's `fmt.Sprintf("%d", x)` prints them,
    together with the parser that undoes it. */
module Format {

  predicate IsDigit(c: char) {
    '0' <= c <= '9'
  }

  function DigitChar(d: nat): (c: char)
    requires d < 10
    ensures IsDigit(c) && DigitValue(c) == d
  {
    (('0' as int) + d) as char
  }

  function DigitValue(c: char): int {
    (c as int) - ('0' as int)
  }

  /** The digits of `n` with no leading zero. */
  function NatToDecimal(n: nat): (s: string)
    ensures |s| >= 1
    ensures forall i :: 0 <= i < |s| ==> IsDigit(s[i])
    decreases n
  {
    if n < 10 then [DigitChar(n)] else NatToDecimal(n / 10) + [DigitChar(n % 10)]
  }

  /** `%d`: a minus sign followed by the digits of the magnitude when negative. */
  function IntToDecimal(x: int): (s: string)
    ensures |s| >= 1
    ensures s[0] == '-' <==> x < 0
    ensures forall i :: 1 <= i < |s| ==> s[i] != '-'
  {
    if x < 0 then "-" + NatToDecimal(-x) else NatToDecimal(x)
  }

  function ParseNatDecimal(s: string): int {
    if s == [] then 0 else ParseNatDecimal(s[..|s| - 1]) * 10 + DigitValue(s[|s| - 1])
  }

  function ParseDecimal(s: string): int {
    if |s| > 0 && s[0] == '-' then -ParseNatDecimal(s[1..]) else ParseNatDecimal(s)
  }

  lemma {:induction false} NatDecimalRoundTrip(n: nat)
    ensures ParseNatDecimal(NatToDecimal(n)) == n
    decreases n
  {
    var s := NatToDecimal(n);
    if n < 10 {
      assert s[..|s| - 1] == [];
    } else {
      assert s[..|s| - 1] == NatToDecimal(n / 10);
      NatDecimalRoundTrip(n / 10);
    }
  }

  /** Printing with `%d` loses nothing: the integer can be read back. */
  lemma DecimalRoundTrip(x: int)
    ensures ParseDecimal(IntToDecimal(x)) == x
  {
    if x < 0 {
      assert IntToDecimal(x)[1..] == NatToDecimal(-x);
      NatDecimalRoundTrip(-x);
    } else {
      NatDecimalRoundTrip(x);
    }
  }

  lemma DecimalInjective(x: int, y: int)
    ensures IntToDecimal(x) == IntToDecimal(y) <==> x == y
  {
    DecimalRoundTrip(x);
    DecimalRoundTrip(y);
  }
}
