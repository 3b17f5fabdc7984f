/**
  The decimal text of a score and the digits the score display shows. The
  display converts the score to its decimal string and reads the characters
  back one at a time from the right, so the i-th character from the right
  is the i-th least significant decimal digit.
*/
module ScoreText {

  /** The character of a decimal digit. */
  function DigitChar(d: int): (c: char)
    requires 0 <= d < 10
    ensures '0' <= c <= '9' && c as int - '0' as int == d
  {
    (d + '0' as int) as char
  }

  /** The value of a decimal digit character, as a one-character integer parse gives it. */
  function CharValue(c: char): (d: int)
    requires '0' <= c <= '9'
    ensures 0 <= d < 10
  {
    c as int - '0' as int
  }

  predicate IsDigits(s: string) {
    forall i | 0 <= i < |s| :: '0' <= s[i] <= '9'
  }

  /** The decimal text of a natural number: no sign, no leading zeros, "0" for zero. */
  function DecimalString(n: nat): (s: string)
    ensures 1 <= |s| && IsDigits(s)
    ensures |s| > 1 ==> s[0] != '0'
  {
    if n < 10 then [DigitChar(n)] else DecimalString(n / 10) + [DigitChar(n % 10)]
  }

  /** The number a string of decimal digits denotes. */
  function ParseDecimal(s: string): nat
    requires IsDigits(s)
  {
    if |s| == 0 then 0 else 10 * ParseDecimal(s[..|s| - 1]) + CharValue(s[|s| - 1])
  }

  /** Parsing the decimal text of a number gives the number back. */
  lemma {:induction false} ParseDecimalString(n: nat)
    ensures ParseDecimal(DecimalString(n)) == n
  {
    var s := DecimalString(n);
    if n >= 10 {
      ParseDecimalString(n / 10);
      assert s[..|s| - 1] == DecimalString(n / 10);
    }
  }

  /** The i-th least significant decimal digit of n. */
  function DigitAt(n: nat, i: nat): (d: nat)
    ensures d < 10
  {
    if i == 0 then n % 10 else DigitAt(n / 10, i - 1)
  }

  /** Reading the text from the right gives the digits, least significant first. */
  lemma {:induction false} CharFromRight(n: nat, i: nat)
    requires i < |DecimalString(n)|
    ensures var s := DecimalString(n); CharValue(s[|s| - 1 - i]) == DigitAt(n, i)
  {
    var s := DecimalString(n);
    if n >= 10 && i > 0 {
      CharFromRight(n / 10, i - 1);
      assert s[|s| - 1 - i] == DecimalString(n / 10)[|DecimalString(n / 10)| - 1 - (i - 1)];
    }
  }

  /** The text has one character per digit: 1 to 3 below 1000, 4 from 1000 to 9999, more beyond. */
  lemma {:induction false} DecimalLength(n: nat)
    ensures var len := |DecimalString(n)|;
            && (len <= 3 <==> n < 1000)
            && (len == 4 <==> 1000 <= n < 10000)
            && (len <= 4 <==> n < 10000)
  {
    if n >= 10 {
      DecimalLength(n / 10);
    }
  }

  /** A longer number has at least as long a text. */
  lemma {:induction false} DecimalLengthMonotone(m: nat, n: nat)
    requires m <= n
    ensures |DecimalString(m)| <= |DecimalString(n)|
  {
    if m >= 10 {
      DecimalLengthMonotone(m / 10, n / 10);
    }
  }

  /** Beyond the length of the text every digit is zero. */
  lemma {:induction false} DigitAtBeyond(n: nat, i: nat)
    requires i >= |DecimalString(n)|
    ensures DigitAt(n, i) == 0
  {
    if n >= 10 {
      DigitAtBeyond(n / 10, i - 1);
    } else if i > 0 {
      ZeroDigits(i - 1);
    }
  }

  lemma {:induction false} ZeroDigits(i: nat)
    ensures DigitAt(0, i) == 0
  {
    if i > 0 {
      ZeroDigits(i - 1);
    }
  }

  /** Four display digits hold the whole of a score below 10000. */
  lemma FourDigits(n: nat)
    requires n < 10000
    ensures n == 1000 * DigitAt(n, 3) + 100 * DigitAt(n, 2) + 10 * DigitAt(n, 1) + DigitAt(n, 0)
  {
    var a := n / 10;
    var b := a / 10;
    var c := b / 10;
    assert n == 10 * a + n % 10;
    assert a == 10 * b + a % 10;
    assert b == 10 * c + b % 10;
    assert a < 1000 && b < 100 && c < 10;
    assert DigitAt(n, 1) == DigitAt(a, 0) == a % 10;
    assert DigitAt(n, 2) == DigitAt(a, 1) == DigitAt(b, 0) == b % 10;
    assert DigitAt(n, 3) == DigitAt(a, 2) == DigitAt(b, 1) == DigitAt(c, 0) == c;
  }
}
