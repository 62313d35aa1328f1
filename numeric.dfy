/**
 * Exact models of the number handling the pages use on ratings:
 * `Math.round(x * 10) / 10`, `x.toFixed(1)`, `Number(...)` on such a string,
 * and the decimal rendering of an integer in a template string.
 */
module Numeric {
  import opened Wrappers

  /** `Math.round(y)`: the nearest integer, halves rounded towards +infinity. */
  function MathRound(y: real): (n: int)
    ensures y - 1.0 / 2.0 < n as real <= y + 1.0 / 2.0
  {
    (y + 1.0 / 2.0).Floor
  }

  /** `Math.round(x * 10) / 10`: x rounded to one decimal, halves upwards. */
  function RoundTo1(x: real): (r: real)
    ensures (10.0 * r).Floor as real == 10.0 * r
    ensures x - 1.0 / 20.0 < r <= x + 1.0 / 20.0
  {
    MathRound(10.0 * x) as real / 10.0
  }

  lemma RoundTo1Bounds(x: real, lo: int, hi: int)
    requires lo as real <= x <= hi as real
    ensures lo as real <= RoundTo1(x) <= hi as real
  {
    var n := MathRound(10.0 * x);
    assert 10 * lo <= n by {
      assert (10 * lo) as real <= 10.0 * x + 1.0 / 2.0;
    }
    assert n <= 10 * hi by {
      assert 10.0 * x + 1.0 / 2.0 < (10 * hi + 1) as real;
    }
  }

  /** The integer n with n/10 closest to a non-negative x, the larger one on a tie (`toFixed(1)`'s choice). */
  function Tenths(x: real): (n: nat)
    requires x >= 0.0
    ensures (n as real) - 1.0 / 2.0 <= 10.0 * x < (n as real) + 1.0 / 2.0
  {
    MathRound(10.0 * x)
  }

  /** The numeric value of `x.toFixed(1)`: the magnitude rounded half-up, the sign kept. */
  function ToFixed1(x: real): (r: real)
    ensures x - 1.0 / 20.0 <= r <= x + 1.0 / 20.0
    ensures x >= 0.0 ==> r >= 0.0
  {
    if x < 0.0 then -(Tenths(-x) as real / 10.0) else Tenths(x) as real / 10.0
  }

  /** In exact arithmetic, `toFixed(1)` and `Math.round(10x)/10` agree on non-negative values. */
  lemma ToFixed1IsRoundTo1(x: real)
    requires x >= 0.0
    ensures ToFixed1(x) == RoundTo1(x)
  {
  }

  /** Even in exact arithmetic they differ on negative ties: `Math.round` goes up, `toFixed` goes away from zero. */
  lemma NegativeTieDiffers()
    ensures RoundTo1(-0.25) == -0.2
    ensures ToFixed1(-0.25) == -0.3
  {
    assert MathRound(-2.5) == -2;
    assert Tenths(0.25) == 3;
  }

  /** A total between n*lo and n*hi has its mean between lo and hi. */
  lemma MeanBetween(total: real, n: nat, lo: real, hi: real)
    requires n > 0
    requires Times(lo, n) <= total <= Times(hi, n)
    ensures lo <= total / n as real <= hi
  {
    TimesIsProduct(lo, n);
    TimesIsProduct(hi, n);
    var m := total / n as real;
    assert m * n as real == total;
  }

  /** `a` added up `n` times: a product that induction over a count can use without multiplying. */
  function Times(a: real, n: nat): real {
    if n == 0 then 0.0 else Times(a, n - 1) + a
  }

  lemma {:induction false} TimesIsProduct(a: real, n: nat)
    ensures Times(a, n) == a * n as real
  {
    if n > 0 {
      TimesIsProduct(a, n - 1);
    }
  }

  // Decimal digits

  function Digit(d: nat): (c: char)
    requires d < 10
    ensures '0' <= c <= '9'
  {
    "0123456789"[d]
  }

  predicate IsDigit(c: char) {
    '0' <= c <= '9'
  }

  function DigitValue(c: char): nat
    requires IsDigit(c)
  {
    (c - '0') as nat
  }

  /** The decimal rendering of a natural number, without leading zeros. */
  function NatToString(n: nat): (s: string)
    ensures |s| >= 1
    ensures forall i :: 0 <= i < |s| ==> IsDigit(s[i])
  {
    if n < 10 then [Digit(n)] else NatToString(n / 10) + [Digit(n % 10)]
  }

  /** The value of a string of decimal digits. */
  function DigitsValue(s: string): nat
    requires forall i :: 0 <= i < |s| ==> IsDigit(s[i])
  {
    if |s| == 0 then 0 else DigitsValue(s[..|s| - 1]) * 10 + DigitValue(s[|s| - 1])
  }

  /** Reading back a rendered number gives the number. */
  lemma {:induction false} NatToStringRoundTrip(n: nat)
    ensures DigitsValue(NatToString(n)) == n
  {
    var s := NatToString(n);
    if n < 10 {
      assert DigitValue(Digit(n)) == n;
    } else {
      NatToStringRoundTrip(n / 10);
      assert s[..|s| - 1] == NatToString(n / 10);
      assert DigitValue(Digit(n % 10)) == n % 10;
    }
  }

  lemma NatToStringInjective(a: nat, b: nat)
    requires NatToString(a) == NatToString(b)
    ensures a == b
  {
    NatToStringRoundTrip(a);
    NatToStringRoundTrip(b);
  }

  /** `${n}` for an integer: a minus sign before the digits of a negative value. */
  function IntToString(n: int): (s: string)
    ensures |s| >= 1
  {
    if n < 0 then "-" + NatToString(-n) else NatToString(n)
  }

  /** A rendering starts with '-' exactly when the integer is negative. */
  lemma IntToStringSign(n: int)
    ensures IntToString(n)[0] == '-' <==> n < 0
  {
    if n >= 0 {
      assert IsDigit(NatToString(n)[0]);
    }
  }

  /** Different integers render differently. */
  lemma IntToStringInjective(a: int, b: int)
    requires IntToString(a) == IntToString(b)
    ensures a == b
  {
    IntToStringSign(a);
    IntToStringSign(b);
    var sa, sb := IntToString(a), IntToString(b);
    if a < 0 {
      assert sa[1..] == NatToString(-a) && sb[1..] == NatToString(-b);
      NatToStringInjective(-a, -b);
    } else {
      NatToStringInjective(a, b);
    }
  }

  /** `n / 10` written with exactly one decimal, as `toFixed(1)` lays out its digits. */
  function TenthsToString(n: nat): string {
    NatToString(n / 10) + "." + [Digit(n % 10)]
  }

  /** `x.toFixed(1)` for the magnitudes ratings take (below 10^21, where JavaScript switches to exponent form). */
  function ToFixed1String(x: real): string {
    if x < 0.0 then "-" + TenthsToString(Tenths(-x)) else TenthsToString(Tenths(x))
  }

  /** `Number(s)` for a string of the shape `<digits>.<digit>`; None for any other shape. */
  function ParseTenths(s: string): Option<real> {
    if |s| >= 3 && s[|s| - 2] == '.' && IsDigit(s[|s| - 1])
       && forall i :: 0 <= i < |s| - 2 ==> IsDigit(s[i])
    then Some(DigitsValue(s[..|s| - 2]) as real + DigitValue(s[|s| - 1]) as real / 10.0)
    else None
  }

  /** `Number(x.toFixed(1))` is the rounded value: the string and numeric readings of the rounding agree. */
  lemma ParseToFixed1(x: real)
    requires x >= 0.0
    ensures ParseTenths(ToFixed1String(x)) == Some(ToFixed1(x))
  {
    var n := Tenths(x);
    var s := ToFixed1String(x);
    assert s[..|s| - 2] == NatToString(n / 10);
    NatToStringRoundTrip(n / 10);
    assert DigitValue(Digit(n % 10)) == n % 10;
    assert (n / 10) as real + (n % 10) as real / 10.0 == n as real / 10.0;
  }
}
