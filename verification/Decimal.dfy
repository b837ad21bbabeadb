/** Decimal numerals: what `%d` prints and what the digit scanner reads back. */
module Decimal {

  predicate IsDigit(c: char) {
    '0' <= c <= '9'
  }

  function DigitChar(d: nat): (c: char)
    requires d < 10
    ensures IsDigit(c) && DigitValue(c) == d
  {
    ('0' as int + d) as char
  }

  function DigitValue(c: char): nat
    requires IsDigit(c)
  {
    c as int - '0' as int
  }

  predicate AllDigits(s: string) {
    forall i :: 0 <= i < |s| ==> IsDigit(s[i])
  }

  function Digits(n: nat): (s: string)
    ensures s != [] && AllDigits(s)
  {
    if n < 10 then [DigitChar(n)] else Digits(n / 10) + [DigitChar(n % 10)]
  }

  /** `%d`, also `strconv.Itoa` */
  function Print(i: int): string {
    if i < 0 then "-" + Digits(-i) else Digits(i)
  }

  function Value(s: string): nat
    requires AllDigits(s)
  {
    if s == [] then 0 else 10 * Value(s[..|s| - 1]) + DigitValue(s[|s| - 1])
  }

  lemma {:induction false} ValueOfDigits(n: nat)
    ensures Value(Digits(n)) == n
  {
    if n < 10 {
      assert Digits(n)[..0] == [];
    } else {
      ValueOfDigits(n / 10);
      assert Digits(n)[..|Digits(n)| - 1] == Digits(n / 10);
    }
  }

  /** The decimal numeral, fixed digit by digit: no leading zero, one digit for one-digit numbers, the last
      digit first, and the rest is the numeral of the tenth. */
  lemma {:induction false} DecimalNumeral(n: nat)
    ensures |Digits(n)| > 1 ==> Digits(n)[0] != '0'
    ensures n < 10 ==> |Digits(n)| == 1
    ensures n >= 10 ==> Digits(n)[..|Digits(n)| - 1] == Digits(n / 10)
    ensures Digits(n)[|Digits(n)| - 1] as int == 48 + n % 10
  {
    if n >= 10 {
      DecimalNumeral(n / 10);
      assert Digits(n)[0] == Digits(n / 10)[0];
    }
  }

  lemma {:induction false} PositiveValue(s: string)
    requires AllDigits(s) && s != [] && s[0] != '0'
    ensures Value(s) > 0
  {
    var f := s[..|s| - 1];
    if f != [] {
      PositiveValue(f);
    }
  }

  /** Every numeral without a leading zero is what is printed for its value. */
  lemma {:induction false} NumeralIsPrinted(s: string)
    requires AllDigits(s) && s != [] && (|s| > 1 ==> s[0] != '0')
    ensures Digits(Value(s)) == s
  {
    var f := s[..|s| - 1];
    if f == [] {
      assert Value(f) == 0 && Value(s) == DigitValue(s[0]);
    } else {
      PositiveValue(f);
      NumeralIsPrinted(f);
      assert s == f + [s[|s| - 1]];
    }
  }

  /** A negative number has a minus sign before the numeral. */
  lemma PrintedSign(i: int)
    ensures Print(i) == if i < 0 then ['-'] + Digits(0 - i) else Digits(i)
  {
  }

  lemma PrintParts(i: int)
    ensures Print(i) != [] && (Print(i)[0] == '-' <==> i < 0)
    ensures i >= 0 ==> AllDigits(Print(i))
    ensures forall k :: 0 <= k < |Print(i)| ==> IsDigit(Print(i)[k]) || Print(i)[k] == '-'
  {
  }
}
