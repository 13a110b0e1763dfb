/** JavaScript's `String(n)` and `Number(s)` conversions, over integers.
    `String` prints the decimal digits with a leading '-' for negatives;
    `Number` trims whitespace, reads "" as 0, and accepts an optional sign
    followed by decimal digits; anything else is NaN. */
module JsNumbers {
  import opened Strings

  /** The result of `Number(...)`: a finite value or NaN. */
  datatype NumberValue = Finite(value: int) | NaN

  function DigitChar(d: nat): (c: char)
    requires d < 10
    ensures IsAsciiDigit(c)
  {
    ('0' as int + d) as char
  }

  function DigitValue(c: char): (d: nat)
    requires IsAsciiDigit(c)
    ensures d < 10 && DigitChar(d) == c
  {
    c as int - '0' as int
  }

  predicate AllDigits(s: string)
  {
    forall i :: 0 <= i < |s| ==> IsAsciiDigit(s[i])
  }

  /** The decimal numeral of a natural number, most significant digit first. */
  function NatToString(n: nat): (s: string)
    ensures |s| >= 1 && AllDigits(s)
    decreases n
  {
    if n < 10 then [DigitChar(n)] else NatToString(n / 10) + [DigitChar(n % 10)]
  }

  /** `String(n)` for an integer. */
  function IntToString(n: int): (s: string)
    ensures s != [] && (n < 0 <==> s[0] == '-')
    ensures n >= 0 ==> AllDigits(s)
  {
    if n < 0 then "-" + NatToString(-n) else NatToString(n)
  }

  /** The value of a string of decimal digits, read left to right. */
  function DigitsValue(s: string): nat
    requires AllDigits(s)
    decreases |s|
  {
    if s == [] then 0 else DigitsValue(s[..|s| - 1]) * 10 + DigitValue(s[|s| - 1])
  }

  /** `Number(s)` for the integer numerals the application exchanges. */
  function ParseNumber(s: string): (r: NumberValue)
    ensures Trim(s) == [] ==> r == Finite(0)
    ensures r.Finite? && r.value < 0 ==> Trim(s)[0] == '-'
  {
    var t := Trim(s);
    if t == [] then Finite(0)
    else if (t[0] == '-' || t[0] == '+') && |t| > 1 && AllDigits(t[1..]) then
      var magnitude: int := DigitsValue(t[1..]);
      if t[0] == '-' then Finite(-magnitude) else Finite(magnitude)
    else if AllDigits(t) then Finite(DigitsValue(t))
    else NaN
  }

  lemma {:induction false} NatToStringValue(n: nat)
    ensures DigitsValue(NatToString(n)) == n
    decreases n
  {
    if n >= 10 {
      NatToStringValue(n / 10);
      var s := NatToString(n);
      assert s[..|s| - 1] == NatToString(n / 10);
    }
  }

  /** `Number(String(n)) === n` for every integer. */
  lemma NumberOfString(n: int)
    ensures ParseNumber(IntToString(n)) == Finite(n)
  {
    var s := IntToString(n);
    TrimNoSpace(s);
    assert Trim(s) == s;
    if n < 0 {
      NatToStringValue(-n);
      assert s[1..] == NatToString(-n);
      assert AllDigits(s[1..]);
    } else {
      NatToStringValue(n);
      assert s[0] != '-' && s[0] != '+';
    }
  }
}
