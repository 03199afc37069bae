/** Products as repeated sums, for measures that change by one step at a time. */
module Counting {
  /** `a * b`, one `a` at a time: the steps below add and take away single ones. */
  function Times(a: nat, b: nat): nat {
    if b == 0 then 0 else Times(a, b - 1) + a
  }

  lemma {:induction false} TimesIsProduct(a: nat, b: nat)
    ensures Times(a, b) == a * b
  {
    if b > 0 {
      TimesIsProduct(a, b - 1);
    }
  }

  lemma {:induction false} TimesMonotonic(a: nat, b: nat, c: nat)
    requires b <= c
    ensures Times(a, b) <= Times(a, c)
    decreases c
  {
    if b < c {
      TimesMonotonic(a, b, c - 1);
    }
  }

  lemma {:induction false} TimesSum(a: nat, b: nat, c: nat)
    ensures Times(a, b + c) == Times(a, b) + Times(a, c)
    decreases c
  {
    if c > 0 {
      TimesSum(a, b, c - 1);
    }
  }
}
