/** Decimal rendering of row ids inside idempotency keys and business numbers. */
module Digits {

  function DigitChar(d: nat): char
    requires d < 10
  {
    "0123456789"[d]
  }

  function Str(n: nat): string {
    if n < 10 then [DigitChar(n)] else Str(n / 10) + [DigitChar(n % 10)]
  }

  lemma {:induction false} StrInjective(m: nat, n: nat)
    requires Str(m) == Str(n)
    ensures m == n
  {
    var s, t := Str(m), Str(n);
    assert s[|s| - 1] == DigitChar(m % 10);
    assert t[|t| - 1] == DigitChar(n % 10);
    StrNonEmpty(m / 10);
    StrNonEmpty(n / 10);
    if m >= 10 && n >= 10 {
      assert s[..|s| - 1] == Str(m / 10);
      assert t[..|t| - 1] == Str(n / 10);
      StrInjective(m / 10, n / 10);
    }
  }

  lemma StrNonEmpty(n: nat)
    ensures |Str(n)| >= 1
  {
  }

  function Pow10(k: nat): nat { if k == 0 then 1 else 10 * Pow10(k - 1) }

  lemma {:induction false} StrLength(n: nat, k: nat)
    requires k >= 1 && n < Pow10(k)
    ensures |Str(n)| <= k
  {
    if n >= 10 {
      assert k >= 2;
      StrLength(n / 10, k - 1);
    }
  }
}
