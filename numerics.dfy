/**
 * Swift's 64-bit `Int`: its range, its truncating division and its decimal
 * rendering by string interpolation (`"\(n)"`).
 */
module Numerics {

  const IntMin: int := -0x8000_0000_0000_0000
  const IntMax: int := 0x7FFF_FFFF_FFFF_FFFF

  /** A value of Swift's `Int` on a 64-bit platform. */
  newtype Int64 = x: int | -0x8000_0000_0000_0000 <= x <= 0x7FFF_FFFF_FFFF_FFFF

  predicate InInt64Range(x: int) {
    IntMin <= x <= IntMax
  }

  /**
   * Swift's `/` on integers: the quotient rounded toward zero, so the
   * remainder takes the sign of the dividend (Dafny's own `/` is Euclidean).
   */
  function TruncDiv(a: int, b: int): (q: int)
    requires b > 0
    ensures a >= 0 ==> 0 <= a - q * b < b
    ensures a < 0 ==> -b < a - q * b <= 0
  {
    if a >= 0 then a / b else -((-a) / b)
  }

  predicate IsDigit(c: char) {
    '0' <= c <= '9'
  }

  predicate AllDigits(s: string) {
    forall i | 0 <= i < |s| :: IsDigit(s[i])
  }

  function DigitChar(d: nat): (c: char)
    requires d < 10
  {
    ('0' as int + d) as char
  }

  function DigitValue(c: char): nat
    requires IsDigit(c)
  {
    c as int - '0' as int
  }

  /** The decimal digits of `n`, most significant first, without leading zeros. */
  function Digits(n: nat): (s: string)
    ensures |s| > 0 && AllDigits(s)
    ensures |s| > 1 ==> s[0] != '0'
    decreases n
  {
    if n < 10 then [DigitChar(n)] else Digits(n / 10) + [DigitChar(n % 10)]
  }

  /** The value of a non-empty string of decimal digits. */
  function ParseDigits(s: string): nat
    requires |s| > 0 && AllDigits(s)
    decreases |s|
  {
    if |s| == 1 then DigitValue(s[0])
    else ParseDigits(s[..|s| - 1]) * 10 + DigitValue(s[|s| - 1])
  }

  lemma {:induction false} ParseDigitsOfDigits(n: nat)
    ensures ParseDigits(Digits(n)) == n
    decreases n
  {
    if n >= 10 {
      var s := Digits(n);
      assert s[..|s| - 1] == Digits(n / 10);
      ParseDigitsOfDigits(n / 10);
    }
  }

  /**
   * `"\(n)"` for an integer: a minus sign for negatives, then the digits of
   * the magnitude, which read back as the magnitude.
   */
  function Description(n: int): (s: string)
    ensures |s| > 0 && (s[0] == '-' <==> n < 0)
    ensures n >= 0 && |s| > 1 ==> s[0] != '0'
    ensures n >= 0 ==> AllDigits(s) && ParseDigits(s) == n
    ensures n < 0 ==> |s| > 1 && AllDigits(s[1..]) && ParseDigits(s[1..]) == -n
    ensures n < 0 ==> s[1] != '0'
  {
    if n < 0 then
      ParseDigitsOfDigits(-n);
      assert ("-" + Digits(-n))[1..] == Digits(-n);
      "-" + Digits(-n)
    else
      ParseDigitsOfDigits(n);
      Digits(n)
  }

  /** A rendering never contains a space, so it ends where a following space begins. */
  lemma DescriptionHasNoSpace(n: int)
    ensures ' ' !in Description(n)
  {
    if n < 0 {
      assert Description(n) == "-" + Digits(-n);
    }
  }

  /** Different integers render differently: the rendering can be read back. */
  lemma DescriptionInjective(a: int, b: int)
    ensures Description(a) == Description(b) ==> a == b
  {
    if Description(a) == Description(b) {
      if a < 0 && b < 0 {
        assert Digits(-a) == Description(a)[1..];
        ParseDigitsOfDigits(-a);
        ParseDigitsOfDigits(-b);
      } else if a >= 0 && b >= 0 {
        ParseDigitsOfDigits(a);
        ParseDigitsOfDigits(b);
      }
    }
  }
}
