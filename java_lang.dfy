/**
 * The pieces of java.lang used by `CgMinerResponse`, `YmlConfiguration` and
 * `ExcavatorFactory`: the widths of `int` and `long`, the exceptions they
 * throw, and `Integer.parseInt` in radix 10 together with its inverse, the
 * decimal form of an integer.
 */
module JavaLang {
  import opened Wrappers

  const INT_MIN: int := -0x8000_0000
  const INT_MAX: int := 0x7fff_ffff

  /** A Java `int`. */
  type Int32 = x: int | -0x8000_0000 <= x <= 0x7fff_ffff

  /** A Java `long`. */
  type Long = x: int | -0x8000_0000_0000_0000 <= x <= 0x7fff_ffff_ffff_ffff

  /** The exceptions the modelled code can throw. */
  datatype Exception =
    | NullPointer(message: string)
    | IllegalArgument(message: string)
      /** `NumberFormatException` for the given input (None is a null string). */
    | NumberFormat(input: Option<string>)

  predicate IsDigit(c: char) { '0' <= c <= '9' }

  predicate AllDigits(s: string) { forall i :: 0 <= i < |s| ==> IsDigit(s[i]) }

  predicate IsSign(c: char) { c == '-' || c == '+' }

  function DigitValue(c: char): (d: nat)
    requires IsDigit(c)
    ensures d < 10
  {
    c as int - '0' as int
  }

  function DigitChar(d: nat): (c: char)
    requires d < 10
    ensures IsDigit(c) && DigitValue(c) == d
  {
    ('0' as int + d) as char
  }

  /** The value of a string of decimal digits, most significant first. */
  function DigitsValue(s: string): nat
    requires AllDigits(s)
    decreases |s|
  {
    if s == [] then 0 else DigitsValue(s[..|s| - 1]) * 10 + DigitValue(s[|s| - 1])
  }

  /**
   * `Integer.parseInt(s)`: an optional leading '-' or '+' followed by at least
   * one decimal digit, whose value lies in the range of `int`; anything else,
   * including a null string, throws `NumberFormatException`.
   */
  function ParseInt(s: Option<string>): (r: Result<Int32, Exception>)
    ensures r.Err? ==> r.error == NumberFormat(s)
    ensures r.Ok? ==> s.Some? && |s.value| > 0 && AllDigits(s.value[1..])
    ensures r.Ok? ==> IsDigit(s.value[0]) || (IsSign(s.value[0]) && |s.value| > 1)
    ensures r.Ok? && r.value < 0 ==> s.value[0] == '-'
    ensures r.Ok? && AllDigits(s.value) ==> r.value == DigitsValue(s.value)
    ensures s.Some? && AllDigits(s.value) && s.value != [] && DigitsValue(s.value) <= INT_MAX ==> r.Ok?
  {
    match s
    case None => Err(NumberFormat(None))
    case Some(text) =>
      var signed := |text| > 0 && IsSign(text[0]);
      var digits := if signed then text[1..] else text;
      if digits == [] || !AllDigits(digits) then Err(NumberFormat(s))
      else
        var magnitude: int := DigitsValue(digits);
        var v: int := if signed && text[0] == '-' then -magnitude else magnitude;
        if INT_MIN <= v <= INT_MAX then Ok(v) else Err(NumberFormat(s))
  }

  /** The decimal form of a natural number: its digits without leading zeros. */
  function NatToDecimal(n: nat): (s: string)
    ensures |s| > 0 && AllDigits(s)
    ensures |s| > 1 ==> s[0] != '0'
  {
    if n < 10 then [DigitChar(n)] else NatToDecimal(n / 10) + [DigitChar(n % 10)]
  }

  /**
   * The decimal form of any integer, '-' for negatives; on the range of `int`
   * it is what `Integer.toString(n)` gives.
   */
  function ToDecimal(n: int): (s: string)
    ensures |s| > 0
  {
    if n < 0 then "-" + NatToDecimal(-n) else NatToDecimal(n)
  }

  lemma {:induction false} DigitsValueOfNatToDecimal(n: nat)
    ensures DigitsValue(NatToDecimal(n)) == n
  {
    var s := NatToDecimal(n);
    if n >= 10 {
      DigitsValueOfNatToDecimal(n / 10);
      assert s[..|s| - 1] == NatToDecimal(n / 10);
    }
  }

  /**
   * Parsing the canonical decimal form of any integer gives that integer back
   * when it fits in an `int`, and throws `NumberFormatException` otherwise.
   */
  lemma ParseToDecimal(n: int)
    ensures ParseInt(Some(ToDecimal(n))) ==
            if INT_MIN <= n <= INT_MAX then Ok(n) else Err(NumberFormat(Some(ToDecimal(n))))
  {
    var text := ToDecimal(n);
    if n < 0 {
      DigitsValueOfNatToDecimal(-n);
      assert text[1..] == NatToDecimal(-n);
    } else {
      DigitsValueOfNatToDecimal(n);
    }
  }

  lemma {:induction false} DigitsValueLeadingZero(s: string)
    requires AllDigits(s)
    ensures AllDigits("0" + s) && DigitsValue("0" + s) == DigitsValue(s)
  {
    if s != [] {
      DigitsValueLeadingZero(s[..|s| - 1]);
      assert ("0" + s)[..|s|] == "0" + s[..|s| - 1];
    }
  }

  /** Leading zeros do not change what a string of digits parses to. */
  lemma ParseIgnoresLeadingZero(digits: string)
    requires AllDigits(digits)
    ensures ParseInt(Some("0" + digits)).ToOption() ==
            if digits == [] then Some(0) else ParseInt(Some(digits)).ToOption()
  {
    DigitsValueLeadingZero(digits);
  }

  /**
   * A leading '-' negates the value of the digits that follow, and accepts
   * one more value than a string of digits alone: -2^31.
   */
  lemma ParseMinusSign(digits: string)
    requires AllDigits(digits) && digits != []
    ensures ParseInt(Some("-" + digits)).ToOption() ==
            if DigitsValue(digits) <= -INT_MIN then Some(-(DigitsValue(digits) as int)) else None
  {
    assert ("-" + digits)[1..] == digits;
  }

  /** Leading zeros after a '-' do not change the parsed value either; "-0" is 0. */
  lemma ParseIgnoresLeadingZeroAfterMinus(digits: string)
    requires AllDigits(digits)
    ensures ParseInt(Some("-0" + digits)).ToOption() ==
            if digits == [] then Some(0) else ParseInt(Some("-" + digits)).ToOption()
  {
    DigitsValueLeadingZero(digits);
    assert ("-0" + digits)[1..] == "0" + digits;
    if digits != [] {
      assert ("-" + digits)[1..] == digits;
    }
  }

  /** An explicit '+' sign is accepted and changes nothing. */
  lemma ParsePlusSign(digits: string)
    ensures ParseInt(Some("+" + digits)).ToOption() ==
            if digits != [] && IsSign(digits[0]) then None else ParseInt(Some(digits)).ToOption()
  {
  }

  /**
   * A character that is not a decimal digit, other than a sign in the first
   * position, makes the parse fail; so does a lone sign.
   */
  lemma ParseRejectsNonDigit(text: string, i: nat)
    requires i < |text| && !IsDigit(text[i])
    requires i == 0 ==> !IsSign(text[0]) || |text| == 1
    ensures ParseInt(Some(text)) == Err(NumberFormat(Some(text)))
  {
  }
}
