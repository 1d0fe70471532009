/** Natural numbers as the source's f-strings print them. */
module Decimals {
  const DIGITS: string := "0123456789"

  function Decimal(n: nat): string {
    if n < 10 then [DIGITS[n]] else Decimal(n / 10) + [DIGITS[n % 10]]
  }

  lemma {:induction false} DecimalIsInjective(a: nat, b: nat)
    requires Decimal(a) == Decimal(b)
    ensures a == b
  {
    DecimalIsLonger(a);
    DecimalIsLonger(b);
    LastDigit(a);
    LastDigit(b);
    if a >= 10 && b >= 10 {
      DecimalIsInjective(a / 10, b / 10);
    }
  }

  lemma {:induction false} LastDigit(n: nat)
    ensures Decimal(n) != "" && Decimal(n)[|Decimal(n)| - 1] == DIGITS[n % 10]
    ensures n >= 10 ==> Decimal(n)[..|Decimal(n)| - 1] == Decimal(n / 10)
    ensures n == n / 10 * 10 + n % 10
  {
  }

  /** One digit below ten, more from ten on. */
  lemma {:induction false} DecimalIsLonger(n: nat)
    ensures |Decimal(n)| >= 1 && (|Decimal(n)| == 1 <==> n < 10)
  {
    if n >= 10 {
      DecimalIsLonger(n / 10);
    }
  }

  lemma {:induction false} OnlyDigits(n: nat, c: char)
    requires c in Decimal(n)
    ensures c in DIGITS
  {
    if n >= 10 && c in Decimal(n / 10) {
      OnlyDigits(n / 10, c);
    }
  }
}
