/** Arithmetic shared by the models. */
module Arith {

  function Min(a: int, b: int): int {
    if a < b then a else b
  }

  function Max(a: int, b: int): int {
    if a < b then b else a
  }

  /** n gains of a. */
  function Times(n: nat, a: nat): nat {
    if n == 0 then 0 else a + Times(n - 1, a)
  }

  lemma {:induction false} TimesIsProduct(n: nat, a: nat)
    ensures Times(n, a) == n * a
  {
    if n > 0 {
      TimesIsProduct(n - 1, a);
      assert n * a == a + (n - 1) * a;
    }
  }
}
