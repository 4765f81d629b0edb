/** Sums over the first natural numbers. */
module Sums {
  function Sum(f: nat -> nat, n: nat): nat {
    if n == 0 then 0 else Sum(f, n - 1) + f(n - 1)
  }

  lemma {:induction false} SumDiffers(f: nat -> nat, g: nat -> nat, k: nat, n: nat)
    requires forall j: nat :: j < n && j != k ==> f(j) == g(j)
    ensures Sum(f, n) + (if k < n then g(k) else 0) == Sum(g, n) + (if k < n then f(k) else 0)
  {
    if n > 0 { SumDiffers(f, g, k, n - 1); }
  }

  lemma {:induction false} SumAtMost(f: nat -> nat, g: nat -> nat, n: nat)
    requires forall j: nat :: j < n ==> f(j) <= g(j)
    ensures Sum(f, n) <= Sum(g, n)
  {
    if n > 0 { SumAtMost(f, g, n - 1); }
  }

  lemma {:induction false} SumGrows(f: nat -> nat, m: nat, n: nat)
    requires m <= n
    ensures Sum(f, m) <= Sum(f, n)
  {
    if m < n { SumGrows(f, m, n - 1); }
  }

  lemma {:induction false} SumZero(f: nat -> nat, n: nat)
    requires forall j: nat :: j < n ==> f(j) == 0
    ensures Sum(f, n) == 0
  {
    if n > 0 { SumZero(f, n - 1); }
  }
}
