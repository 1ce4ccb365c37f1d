/** Decimal text of integers, as written by `String.valueOf(int)` / `String.valueOf(long)`
    and read back by `Integer.parseInt` / `Long.parseLong`. The header codec stores every
    number as such text; timestamps use the same text in place of ISO-8601. */
module Decimal {
  import opened Values

  predicate IsDigit(c: char) {
    '0' <= c <= '9'
  }

  predicate AllDigits(s: string) {
    forall i :: 0 <= i < |s| ==> IsDigit(s[i])
  }

  function DigitChar(d: nat): (c: char)
    requires d < 10
    ensures IsDigit(c)
  {
    "0123456789"[d]
  }

  function DigitValue(c: char): (d: nat)
    requires IsDigit(c)
    ensures d < 10
  {
    (c as int - '0' as int) as nat
  }

  /** The digits of a natural number, most significant first, without leading zeros. */
  function Digits(n: nat): (s: string)
    ensures 1 <= |s| && AllDigits(s)
    decreases n
  {
    if n < 10 then [DigitChar(n)] else Digits(n / 10) + [DigitChar(n % 10)]
  }

  /** The number a non-empty run of digits denotes (leading zeros allowed). */
  function DigitsValue(s: string): (n: nat)
    requires AllDigits(s)
    decreases |s|
  {
    if s == [] then 0 else DigitsValue(s[..|s| - 1]) * 10 + DigitValue(s[|s| - 1])
  }

  /** `String.valueOf` on an integer. */
  function FormatInt(n: int): (s: string)
    ensures 1 <= |s|
    ensures n >= 0 ==> AllDigits(s)
    ensures n < 0 ==> s[0] == '-' && AllDigits(s[1..])
  {
    if n < 0 then "-" + Digits(-n) else Digits(n)
  }

  /** The unbounded value of an optionally signed run of ASCII digits; None for any other
      text (empty text, a sign alone, a non-digit). */
  function ParseDecimal(s: string): (r: Option<int>)
    ensures r.Some? <==> (|s| >= 1 && AllDigits(s)) || (|s| >= 2 && (s[0] == '-' || s[0] == '+') && AllDigits(s[1..]))
  {
    if |s| >= 2 && s[0] == '-' && AllDigits(s[1..]) then Some(-(DigitsValue(s[1..]) as int))
    else if |s| >= 2 && s[0] == '+' && AllDigits(s[1..]) then Some(DigitsValue(s[1..]))
    else if |s| >= 1 && AllDigits(s) then Some(DigitsValue(s))
    else None
  }

  /** `Integer.parseInt`: the text's value when it is a decimal numeral in `int` range,
      otherwise `NumberFormatException`. */
  function ParseInt32(s: string): (r: Result<int32>)
    ensures r.Ok? <==> ParseDecimal(s).Some? && INT32_MIN <= ParseDecimal(s).value <= INT32_MAX
    ensures r.Ok? ==> r.value == ParseDecimal(s).value
    ensures r.Err? ==> r.error == NumberFormatException(s)
  {
    match ParseDecimal(s)
    case Some(v) => if INT32_MIN <= v <= INT32_MAX then Ok(v) else Err(NumberFormatException(s))
    case None => Err(NumberFormatException(s))
  }

  /** `Long.parseLong`, as `ParseInt32` for the `long` range. */
  function ParseInt64(s: string): (r: Result<int64>)
    ensures r.Ok? <==> ParseDecimal(s).Some? && INT64_MIN <= ParseDecimal(s).value <= INT64_MAX
    ensures r.Ok? ==> r.value == ParseDecimal(s).value
    ensures r.Err? ==> r.error == NumberFormatException(s)
  {
    match ParseDecimal(s)
    case Some(v) => if INT64_MIN <= v <= INT64_MAX then Ok(v) else Err(NumberFormatException(s))
    case None => Err(NumberFormatException(s))
  }

  lemma {:induction false} DigitsValueOfDigits(n: nat)
    ensures DigitsValue(Digits(n)) == n
    decreases n
  {
    var s := Digits(n);
    if n < 10 {
      assert s == [DigitChar(n)];
      assert s[..0] == [];
    } else {
      DigitsValueOfDigits(n / 10);
      assert s[..|s| - 1] == Digits(n / 10);
      assert s[|s| - 1] == DigitChar(n % 10);
    }
  }

  /** Reading back what was written gives the same number, for every integer. */
  lemma ParseFormat(n: int)
    ensures ParseDecimal(FormatInt(n)) == Some(n)
  {
    var s := FormatInt(n);
    if n < 0 {
      ParseNegative(-n);
    } else {
      DigitsValueOfDigits(n);
      assert s[0] != '-' && s[0] != '+';
    }
  }

  lemma ParseNegative(m: nat)
    requires m > 0
    ensures ParseDecimal("-" + Digits(m)) == Some(-(m as int))
  {
    var s := "-" + Digits(m);
    DigitsValueOfDigits(m);
    assert s[1..] == Digits(m);
  }

  /** `Integer.parseInt(String.valueOf(n)) == n` for every `int`. */
  lemma ParseFormatInt32(n: int32)
    ensures ParseInt32(FormatInt(n)) == Ok(n)
  {
    ParseFormat(n);
  }

  /** `Long.parseLong(String.valueOf(n)) == n` for every `long`. */
  lemma ParseFormatInt64(n: int64)
    ensures ParseInt64(FormatInt(n)) == Ok(n)
  {
    ParseFormat(n);
  }

  /** Text with a character that is neither a digit nor a leading sign never parses. */
  lemma NonNumericFails(s: string, i: nat)
    requires i < |s| && !IsDigit(s[i]) && !(i == 0 && (s[i] == '-' || s[i] == '+'))
    ensures ParseInt32(s).Err? && ParseInt64(s).Err?
  {
    assert !AllDigits(s) by { assert !IsDigit(s[i]); }
    if i > 0 {
      assert !AllDigits(s[1..]) by { assert s[1..][i - 1] == s[i]; }
    }
  }
}
