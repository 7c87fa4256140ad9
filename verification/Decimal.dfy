/** Decimal rendering, as printf and String() do it. */
module Decimal {
  function Digit(d: nat): (c: char)
    requires d < 10
    ensures '0' <= c <= '9' && c as int == '0' as int + d
  {
    '0' + d as char
  }

  predicate IsDigit(c: char) { '0' <= c <= '9' }

  function Dec(n: nat): (s: string)
    ensures |s| >= 1 && forall i | 0 <= i < |s| :: IsDigit(s[i])
  {
    if n < 10 then [Digit(n)] else Dec(n / 10) + [Digit(n % 10)]
  }

  /** The number a run of digits denotes. */
  function Value(s: string): nat
    requires forall i | 0 <= i < |s| :: IsDigit(s[i])
  {
    if s == "" then 0 else
    assert IsDigit(s[|s| - 1]);
    10 * Value(s[..|s| - 1]) + (s[|s| - 1] as int - '0' as int)
  }

  lemma {:induction false} ValueOfDec(n: nat)
    ensures Value(Dec(n)) == n
  {
    if n < 10 {
      assert Dec(n)[..0] == "";
    } else {
      ValueOfDec(n / 10);
      assert Dec(n)[..|Dec(n)| - 1] == Dec(n / 10);
    }
  }

  lemma DecInjective(m: nat, n: nat)
    requires Dec(m) == Dec(n)
    ensures m == n
  {
    ValueOfDec(m);
    ValueOfDec(n);
  }

  /** More digits, larger number. */
  lemma {:induction false} LongerIsLarger(m: nat, n: nat)
    requires m <= n
    ensures |Dec(m)| <= |Dec(n)|
    decreases n
  {
    if n >= 10 {
      if m >= 10 { LongerIsLarger(m / 10, n / 10); }
    }
  }

  /** Cutting off digits gives a smaller number's. */
  lemma {:induction false} DigitsKept(n: nat, keep: nat) returns (m: nat)
    requires 1 <= keep < |Dec(n)|
    ensures m < n && Dec(m) == Dec(n)[..keep]
    decreases n
  {
    m := n / 10;
    assert Dec(n) == Dec(m) + [Digit(n % 10)];
    if keep < |Dec(m)| { m := DigitsKept(m, keep); }
  }
}
