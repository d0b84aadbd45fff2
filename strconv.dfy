/**
 * Decimal integer parsing as Go's strconv.Atoi performs it on a 64-bit
 * platform, where `int` is 64 bits wide, together with the decimal
 * formatting it inverts.
 */
module Strconv {
  import opened Wrappers

  const MinInt64: int := -0x8000_0000_0000_0000
  const MaxInt64: int := 0x7FFF_FFFF_FFFF_FFFF

  predicate IsDigit(c: char) {
    '0' <= c <= '9'
  }

  predicate AllDigits(s: string) {
    forall k :: 0 <= k < |s| ==> IsDigit(s[k])
  }

  function DigitValue(c: char): nat
    requires IsDigit(c)
  {
    (c as int) - ('0' as int)
  }

  function DigitChar(d: nat): (c: char)
    requires d < 10
    ensures IsDigit(c) && DigitValue(c) == d
  {
    ('0' as int + d) as char
  }

  /** The number written by the decimal digits `s`, most significant first. */
  function DecimalValue(s: string): nat
    requires AllDigits(s)
  {
    if |s| == 0 then 0 else DecimalValue(s[..|s| - 1]) * 10 + DigitValue(s[|s| - 1])
  }

  /**
   * strconv.Atoi: an optional sign followed by one or more decimal digits,
   * whose value must fit a 64-bit int. Anything else (the empty string, a
   * lone sign, a non-digit, underscores, surrounding spaces, overflow) is an
   * error, modelled as None.
   */
  function Atoi(s: string): (r: Option<int>)
    ensures r.Some? ==> MinInt64 <= r.value <= MaxInt64
    // Accepted text: digits only, or a sign followed by at least one digit and digits only after it.
    ensures r.Some? ==> |s| > 0 && (IsDigit(s[0]) || s[0] == '-' || s[0] == '+')
    ensures r.Some? ==> forall k :: 1 <= k < |s| ==> IsDigit(s[k])
    ensures r.Some? && (s[0] == '-' || s[0] == '+') ==> |s| > 1
    // Its value is the signed decimal value of the digits.
    ensures r.Some? && IsDigit(s[0]) ==> AllDigits(s) && r.value == DecimalValue(s)
    ensures r.Some? && s[0] == '+' ==> AllDigits(s[1..]) && r.value == DecimalValue(s[1..])
    ensures r.Some? && s[0] == '-' ==> AllDigits(s[1..]) && r.value == -(DecimalValue(s[1..]) as int)
    // Every such text whose value fits is accepted, and one that does not fit is refused.
    ensures AllDigits(s) && 0 < |s| ==>
              r == (if DecimalValue(s) <= MaxInt64 then Some(DecimalValue(s)) else None)
    ensures |s| > 1 && s[0] == '+' && AllDigits(s[1..]) ==>
              r == (if DecimalValue(s[1..]) <= MaxInt64 then Some(DecimalValue(s[1..])) else None)
    ensures |s| > 1 && s[0] == '-' && AllDigits(s[1..]) ==>
              r == (if DecimalValue(s[1..]) <= -MinInt64 then Some(-(DecimalValue(s[1..]) as int)) else None)
  {
    if |s| == 0 then None
    else
      var negative := s[0] == '-';
      var digits := if s[0] == '-' || s[0] == '+' then s[1..] else s;
      if |digits| == 0 || !AllDigits(digits) then None
      else
        var magnitude: int := DecimalValue(digits);
        var n := if negative then -magnitude else magnitude;
        if MinInt64 <= n <= MaxInt64 then Some(n) else None
  }

  /** Decimal digits of a natural number, without leading zeros. */
  function Digits(n: nat): (s: string)
    ensures |s| > 0 && AllDigits(s)
  {
    if n < 10 then [DigitChar(n)] else Digits(n / 10) + [DigitChar(n % 10)]
  }

  /** strconv.Itoa: decimal text of an integer, with a leading '-' when negative. */
  function Itoa(n: int): (s: string)
    ensures |s| > 0
  {
    if n < 0 then "-" + Digits(-n) else Digits(n)
  }

  lemma {:induction false} DecimalValueOfDigits(n: nat)
    ensures DecimalValue(Digits(n)) == n
  {
    if n >= 10 {
      var s := Digits(n);
      DecimalValueOfDigits(n / 10);
      assert s[..|s| - 1] == Digits(n / 10);
    }
  }

  /** Parsing the decimal text of any 64-bit integer gives that integer back. */
  lemma AtoiItoa(n: int)
    requires MinInt64 <= n <= MaxInt64
    ensures Atoi(Itoa(n)) == Some(n)
  {
    var s := Itoa(n);
    if n < 0 {
      DecimalValueOfDigits(-n);
      assert s[1..] == Digits(-n);
    } else {
      DecimalValueOfDigits(n);
      assert IsDigit(s[0]);
    }
  }
}
