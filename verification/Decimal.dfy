/** Decimal rendering, as strconv.Itoa and the `d` and `012d` formats produce it for naturals. */
module Decimal {
  predicate IsDigit(c: char) {
    '0' <= c <= '9'
  }

  predicate AllDigits(s: string) {
    forall i | 0 <= i < |s| :: IsDigit(s[i])
  }

  function DigitChar(d: nat): (c: char)
    requires d < 10
    ensures IsDigit(c)
  {
    '0' + d as char
  }

  function DigitValue(c: char): (d: nat)
    requires IsDigit(c)
    ensures d < 10
  {
    (c as int) - ('0' as int)
  }

  function Itoa(n: nat): (s: string)
    ensures |s| > 0 && AllDigits(s)
  {
    if n < 10 then [DigitChar(n)] else Itoa(n / 10) + [DigitChar(n % 10)]
  }

  function ParseNat(s: string): nat
    requires AllDigits(s)
  {
    if s == "" then 0
    else 10 * ParseNat(s[..|s| - 1]) + DigitValue(s[|s| - 1])
  }

  /** Parsing a rendered number gives the number back. */
  lemma {:induction false} ParseItoa(n: nat)
    ensures ParseNat(Itoa(n)) == n
  {
    if n >= 10 {
      ParseItoa(n / 10);
      assert Itoa(n)[..|Itoa(n)| - 1] == Itoa(n / 10);
    }
  }

  function Pow10(k: nat): (p: nat)
    ensures p >= 1
  {
    if k == 0 then 1 else 10 * Pow10(k - 1)
  }

  /** A rendering has at most k digits exactly when the number is below 10^k. */
  lemma {:induction false} ItoaLength(n: nat, k: nat)
    requires k >= 1
    ensures |Itoa(n)| <= k <==> n < Pow10(k)
  {
    if n < 10 {
      assert Pow10(k) == 10 * Pow10(k - 1);
    } else if k == 1 {
      assert Pow10(1) == 10 * Pow10(0);
    } else {
      ItoaLength(n / 10, k - 1);
    }
  }

  function Zeros(k: nat): (s: string)
    ensures |s| == k && AllDigits(s)
  {
    if k == 0 then "" else Zeros(k - 1) + "0"
  }

  /** The `012d` format: pad on the left to twelve digits, never truncate. */
  function Pad12(n: nat): (s: string)
    ensures |s| >= 12 && AllDigits(s)
  {
    var d := Itoa(n);
    if |d| >= 12 then d else Zeros(12 - |d|) + d
  }

  lemma {:induction false} ParseZeros(k: nat)
    ensures ParseNat(Zeros(k)) == 0
  {
    if k > 0 {
      ParseZeros(k - 1);
      assert Zeros(k)[..k - 1] == Zeros(k - 1);
    }
  }

  lemma {:induction false} ParsePrefixed(z: string, s: string)
    requires AllDigits(z) && AllDigits(s) && ParseNat(z) == 0
    ensures AllDigits(z + s) && ParseNat(z + s) == ParseNat(s)
  {
    if s == "" {
      assert z + s == z;
    } else {
      var n := |s| - 1;
      ParsePrefixed(z, s[..n]);
      assert (z + s)[..|z + s| - 1] == z + s[..n];
    }
  }

  /** Padding keeps the number, so distinct numbers get distinct placeholders, and
      the result has exactly twelve digits exactly when the number is below 10^12. */
  lemma Pad12Exact(n: nat)
    ensures ParseNat(Pad12(n)) == n
    ensures |Pad12(n)| == 12 <==> n < Pow10(12)
  {
    ParseItoa(n);
    ItoaLength(n, 12);
    if |Itoa(n)| < 12 {
      ParseZeros(12 - |Itoa(n)|);
      ParsePrefixed(Zeros(12 - |Itoa(n)|), Itoa(n));
    }
  }
}
