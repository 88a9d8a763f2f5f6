/** strconv.Itoa / fmt's %d on natural numbers. */
module Decimal {

  function Pow10(k: nat): (p: nat)
    ensures p >= 1
  {
    if k == 0 then 1 else 10 * Pow10(k - 1)
  }

  function Digit(d: nat): char
    requires d < 10
  {
    '0' + d as char
  }

  predicate IsDigit(c: char) {
    '0' <= c <= '9'
  }

  function Itoa(n: nat): (s: string)
    ensures |s| >= 1 && forall i | 0 <= i < |s| :: IsDigit(s[i])
  {
    if n < 10 then [Digit(n)] else Itoa(n / 10) + [Digit(n % 10)]
  }

  lemma {:induction false} ItoaInjective(m: nat, n: nat)
    requires Itoa(m) == Itoa(n)
    ensures m == n
  {
    var s := Itoa(m);
    assert s[|s| - 1] == Digit(m % 10) && s[|s| - 1] == Digit(n % 10);
    if m >= 10 && n >= 10 {
      assert Itoa(m / 10) == s[..|s| - 1] == Itoa(n / 10);
      ItoaInjective(m / 10, n / 10);
    }
  }

  /** A number has at most k digits exactly when it is below 10^k. */
  lemma {:induction false} ItoaLength(n: nat, k: nat)
    requires k >= 1
    ensures |Itoa(n)| <= k <==> n < Pow10(k)
  {
    if n >= 10 {
      if k == 1 {
        assert Pow10(1) == 10 * Pow10(0);
      } else {
        ItoaLength(n / 10, k - 1);
        assert n / 10 < Pow10(k - 1) <==> n < 10 * Pow10(k - 1);
      }
    } else {
      assert Pow10(k) == 10 * Pow10(k - 1);
    }
  }

  function Zeros(k: nat): (s: string)
    ensures |s| == k && forall i | 0 <= i < k :: s[i] == '0'
  {
    seq(k, i => '0')
  }

  lemma {:induction false} ItoaOfPow10(k: nat)
    ensures Itoa(Pow10(k)) == ['1'] + Zeros(k)
  {
    if k == 0 {
      assert Digit(1) == '1';
    } else {
      ItoaOfPow10(k - 1);
      assert Pow10(k) / 10 == Pow10(k - 1) && Pow10(k) % 10 == 0 && Pow10(k) >= 10;
      assert ['1'] + Zeros(k) == (['1'] + Zeros(k - 1)) + ['0'];
    }
  }
}
