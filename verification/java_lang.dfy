/** The pieces of java.lang the preference layer leans on: 32-bit `int`,
    the exceptions it can raise, `String.valueOf(int)` and `Integer.parseInt`. */
module JavaLang {
  import opened Wrappers

  /** The exceptions a preference read can raise. */
  datatype JavaException =
    | NumberFormatException     // Integer.parseInt on text that is not an int
    | ClassCastException        // a stored value of the other type (string vs boolean)
    | IllegalArgumentException  // Preconditions.checkArgument failed
    | NullPointerException      // Float.parseFloat(null)

  const Int32Min: int := -0x8000_0000
  const Int32Max: int := 0x7fff_ffff

  /** Java's `int`. */
  type Int32 = x: int | -0x8000_0000 <= x <= 0x7fff_ffff

  predicate IsDigit(c: char) {
    '0' <= c <= '9'
  }

  predicate AllDigits(s: string) {
    forall i :: 0 <= i < |s| ==> IsDigit(s[i])
  }

  function DigitValue(c: char): (d: nat)
    requires IsDigit(c)
    ensures d < 10
  {
    (c as int) - ('0' as int)
  }

  function DigitChar(d: nat): (c: char)
    requires d < 10
    ensures IsDigit(c) && DigitValue(c) == d
  {
    (('0' as int) + d) as char
  }

  /** The number a string of decimal digits denotes (leading zeros allowed). */
  function DigitsValue(s: string): nat
    requires AllDigits(s)
  {
    if s == [] then 0 else DigitsValue(s[..|s| - 1]) * 10 + DigitValue(s[|s| - 1])
  }

  /** The shortest decimal text of `n`: digits only, and no leading zero. */
  function DecimalText(n: nat): (s: string)
    ensures 1 <= |s| && AllDigits(s)
    ensures |s| > 1 ==> s[0] != '0'
  {
    if n < 10 then [DigitChar(n)] else DecimalText(n / 10) + [DigitChar(n % 10)]
  }

  lemma {:induction false} DecimalTextValue(n: nat)
    ensures DigitsValue(DecimalText(n)) == n
  {
    if n >= 10 {
      var s := DecimalText(n / 10);
      assert DecimalText(n)[..|s|] == s;
      DecimalTextValue(n / 10);
    }
  }

  /** `String.valueOf(int)`: an optional minus sign, then the decimal text
      of the magnitude. */
  function IntToString(i: Int32): (s: string)
    ensures 1 <= |s|
    ensures s[0] == '-' <==> i < 0
  {
    if i < 0 then "-" + DecimalText(-(i as int)) else DecimalText(i)
  }

  /** `Integer.parseInt(s)` in radix 10: an optional '-' or '+', then one or
      more digits, and the value must fit in an `int`; anything else throws
      NumberFormatException. */
  function ParseInt(s: string): (r: Result<Int32, JavaException>)
    ensures r.Err? ==> r.error == NumberFormatException
    ensures r.Ok? ==> 1 <= |s| && (r.value < 0 ==> s[0] == '-')
  {
    if |s| == 0 then Err(NumberFormatException)
    else if s[0] == '-' then ParseMagnitude(true, s[1..])
    else if s[0] == '+' then ParseMagnitude(false, s[1..])
    else ParseMagnitude(false, s)
  }

  /** The part of `Integer.parseInt` after the sign: one or more digits, whose
      value (negated when `negative`) must fit in an `int`. */
  function ParseMagnitude(negative: bool, digits: string): Result<Int32, JavaException>
  {
    if |digits| == 0 || !AllDigits(digits) then Err(NumberFormatException)
    else
      var v: int := if negative then -(DigitsValue(digits) as int) else DigitsValue(digits);
      if Int32Min <= v <= Int32Max then Ok(v) else Err(NumberFormatException)
  }

  /** Parsing the text `String.valueOf` gives for an `int` yields that `int`
      back. */
  lemma ParseIntOfValueOf(i: Int32)
    ensures ParseInt(IntToString(i)) == Ok(i)
  {
    var s := IntToString(i);
    if i < 0 {
      assert s[1..] == DecimalText(-(i as int));
      DecimalTextValue(-(i as int));
    } else {
      assert IsDigit(s[0]);
      DecimalTextValue(i);
    }
  }

  /** A character that is neither a digit nor a leading sign makes the
      parse fail. */
  lemma ParseIntRejectsNonDigit(s: string, k: nat)
    requires k < |s| && !IsDigit(s[k])
    requires k == 0 ==> s[0] != '-' && s[0] != '+'
    ensures ParseInt(s) == Err(NumberFormatException)
  {
  }

  /** Plain digit strings parse to the number they denote, as long as that
      number fits in an `int`, and fail otherwise. */
  lemma ParseIntOfDigits(s: string)
    requires 1 <= |s| && AllDigits(s)
    ensures DigitsValue(s) <= Int32Max ==> ParseInt(s) == Ok(DigitsValue(s))
    ensures DigitsValue(s) > Int32Max ==> ParseInt(s) == Err(NumberFormatException)
  {
  }

  /** Digits after a leading '-' or '+' parse to the number they denote,
      negated for '-', as long as that fits in an `int`, and fail otherwise. */
  lemma ParseIntOfSignedDigits(sign: char, s: string)
    requires sign == '-' || sign == '+'
    requires 1 <= |s| && AllDigits(s)
    ensures
      var v := if sign == '-' then -(DigitsValue(s) as int) else DigitsValue(s);
      ParseInt([sign] + s) == if Int32Min <= v <= Int32Max then Ok(v) else Err(NumberFormatException)
  {
    var t := [sign] + s;
    assert t[0] == sign && t[1..] == s;
  }

  /** A lone sign, or nothing at all, is not a number. */
  lemma ParseIntRejectsBareSign()
    ensures ParseInt("") == Err(NumberFormatException)
    ensures ParseInt("-") == Err(NumberFormatException)
    ensures ParseInt("+") == Err(NumberFormatException)
  {
  }
}
