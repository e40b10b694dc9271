/**
 * Products of naturals as repeated addition. Offsets, buffer sizes and
 * window starts are stated with `Mul` so that the solver reasons about them
 * linearly; `MulIsProduct` says it is ordinary multiplication.
 */
module Arith {

  function Mul(a: nat, b: nat): nat
  {
    if a == 0 then 0 else Mul(a - 1, b) + b
  }

  lemma {:induction false} MulIsProduct(a: nat, b: nat)
    ensures Mul(a, b) == a * b
  {
    if a > 0 {
      MulIsProduct(a - 1, b);
    }
  }

  lemma {:induction false} MulMono(a: nat, b: nat, k: nat)
    requires a <= b
    ensures Mul(a, k) <= Mul(b, k)
  {
    if a < b {
      MulMono(a, b - 1, k);
    }
  }

  lemma {:induction false} MulAdd(a: nat, b: nat, k: nat)
    ensures Mul(a + b, k) == Mul(a, k) + Mul(b, k)
  {
    if b > 0 {
      MulAdd(a, b - 1, k);
    }
  }

  lemma MulSmall(k: nat)
    ensures Mul(0, k) == 0 && Mul(1, k) == k && Mul(2, k) == k + k
  {
  }

  lemma {:induction false} MulOneRight(a: nat)
    ensures Mul(a, 1) == a
  {
    if a > 0 {
      MulOneRight(a - 1);
    }
  }
}
