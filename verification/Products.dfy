/** Products by repeated addition, which keep the solver away from products of variables. */
module Products {

  function Times(n: nat, s: nat): nat
    decreases n + s
  {
    if n == 0 then 0 else s + Times(n - 1, s)
  }

  lemma {:induction false} TimesIsProduct(n: nat, s: nat)
    ensures Times(n, s) == n * s
  {
    if n > 0 {
      TimesIsProduct(n - 1, s);
    }
  }
}
