/**
 * Rust's `Display` for integers, as used by `format!("posts_page_{}", page)`:
 * an optional '-' followed by the decimal digits of the magnitude, most
 * significant first, without leading zeros.
 */
module Decimal {

  predicate IsDigit(c: char) {
    '0' <= c <= '9'
  }

  function DigitChar(d: nat): (c: char)
    requires d < 10
    ensures IsDigit(c) && c as int - '0' as int == d
  {
    ('0' as int + d) as char
  }

  /** The digits of a non-negative number. */
  function Digits(n: nat): (s: string)
    ensures 1 <= |s|
    ensures forall i :: 0 <= i < |s| ==> IsDigit(s[i])
    ensures s[0] == '0' <==> n == 0
    ensures n == 0 ==> |s| == 1
    decreases n
  {
    if n < 10 then [DigitChar(n)] else Digits(n / 10) + [DigitChar(n % 10)]
  }

  function DigitValue(c: char): (d: nat)
    requires IsDigit(c)
    ensures d < 10 && DigitChar(d) == c
  {
    c as int - '0' as int
  }

  /** The number a string of digits denotes. */
  function Value(s: string): nat
    requires forall i :: 0 <= i < |s| ==> IsDigit(s[i])
  {
    if s == [] then 0 else Value(s[..|s| - 1]) * 10 + DigitValue(s[|s| - 1])
  }

  lemma {:induction false} ValueOfDigits(n: nat)
    ensures Value(Digits(n)) == n
    decreases n
  {
    if n >= 10 {
      var s := Digits(n);
      assert s[..|s| - 1] == Digits(n / 10);
      ValueOfDigits(n / 10);
    }
  }

  /**
   * Whether `s` has the shape `Show` produces: an optional '-' and then one or
   * more digits, with no leading zero and no "-0".
   */
  predicate IsNumeral(s: string) {
    && 1 <= |s|
    && (s[0] == '-' ==> 2 <= |s| && s[1] != '0')
    && (s[0] == '0' ==> |s| == 1)
    && (IsDigit(s[0]) || s[0] == '-')
    && forall i :: 0 < i < |s| ==> IsDigit(s[i])
  }

  /** The text of an integer. */
  function Show(n: int): (s: string)
    ensures IsNumeral(s)
    ensures s[0] == '-' <==> n < 0
  {
    if n < 0 then "-" + Digits(-n) else Digits(n)
  }

  /** The integer a numeral denotes. */
  function Read(s: string): int
    requires IsNumeral(s)
  {
    if s[0] == '-' then -(Value(s[1..]) as int) else Value(s)
  }

  lemma ReadShow(n: int)
    ensures Read(Show(n)) == n
  {
    var s := Show(n);
    if n < 0 {
      var d := Digits(-n);
      assert s == "-" + d && s[0] == '-' && s[1..] == d;
      ValueOfDigits(-n);
      assert Read(s) == -(Value(d) as int);
    } else {
      assert s == Digits(n) && s[0] != '-';
      ValueOfDigits(n);
      assert Read(s) == Value(s);
    }
  }

  /** Distinct integers have distinct texts. */
  lemma ShowInjective(a: int, b: int)
    ensures Show(a) == Show(b) ==> a == b
  {
    ReadShow(a);
    ReadShow(b);
  }
}
