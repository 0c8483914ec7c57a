/**
 * The verification code: String(Math.floor(100000 + Math.random() * 900000)).
 * The random draw is an input; its decimal rendering is modelled exactly.
 */
module Otp {

  /** Math.floor(Math.random() * 900000): the random part of a code. */
  type Roll = r: int | 0 <= r < 900000

  predicate IsDigit(c: char)
  {
    '0' <= c <= '9'
  }

  predicate AllDigits(s: string)
  {
    forall i :: 0 <= i < |s| ==> IsDigit(s[i])
  }

  function Pow10(k: nat): nat
  {
    if k == 0 then 1 else 10 * Pow10(k - 1)
  }

  /** String(n) for a natural number: its decimal digits, without leading zeros. */
  function Decimal(n: nat): (s: string)
    ensures 1 <= |s| && AllDigits(s)
    ensures s[0] == '0' ==> n == 0
  {
    if n < 10 then [('0' as int + n) as char]
    else Decimal(n / 10) + [('0' as int + n % 10) as char]
  }

  /** Number(s) for a string of decimal digits: the inverse of Decimal. */
  function ValueOf(s: string): nat
    requires AllDigits(s)
  {
    if s == [] then 0 else 10 * ValueOf(s[..|s| - 1]) + (s[|s| - 1] as int - '0' as int)
  }

  lemma {:induction false} ValueOfDecimal(n: nat)
    ensures ValueOf(Decimal(n)) == n
  {
    var s := Decimal(n);
    if n >= 10 {
      ValueOfDecimal(n / 10);
      assert s[..|s| - 1] == Decimal(n / 10);
    }
  }

  lemma DecimalInjective(m: nat, n: nat)
    ensures Decimal(m) == Decimal(n) <==> m == n
  {
    if Decimal(m) == Decimal(n) {
      ValueOfDecimal(m);
      ValueOfDecimal(n);
    }
  }

  lemma {:induction false} DecimalLength(n: nat, k: nat)
    requires Pow10(k) <= n < Pow10(k + 1)
    ensures |Decimal(n)| == k + 1
  {
    if k > 0 {
      assert Pow10(k) == 10 * Pow10(k - 1);
      assert Pow10(k + 1) == 10 * Pow10(k);
      DecimalLength(n / 10, k - 1);
    }
  }

  /**
   * The code sendVerifyOtp stores: always six digits, never a leading zero,
   * and it denotes exactly 100000 + roll.
   */
  function OtpCode(roll: Roll): (code: string)
    ensures |code| == 6 && AllDigits(code) && code[0] != '0'
    ensures ValueOf(code) == 100000 + roll
  {
    assert Pow10(5) == 100000 && Pow10(6) == 1000000;
    DecimalLength(100000 + roll, 5);
    ValueOfDecimal(100000 + roll);
    Decimal(100000 + roll)
  }

  /** Distinct draws give distinct codes, so the code identifies its draw. */
  lemma OtpCodeInjective(a: Roll, b: Roll)
    ensures OtpCode(a) == OtpCode(b) <==> a == b
  {
  }
}
