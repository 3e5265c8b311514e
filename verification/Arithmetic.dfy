/** Quotients and remainders of products. */
module Arithmetic {
  lemma SmallMod(q: nat, r: nat, n: nat)
    requires n > 0 && r < n
    ensures (q * n + r) % n == r && (q * n + r) / n == q
  {
    var x := q * n + r;
    if x / n < q {
      MulMono(x / n + 1, q, n);
    } else if q < x / n {
      MulMono(q + 1, x / n, n);
    }
  }

  lemma MulMono(a: nat, b: nat, n: nat)
    requires a <= b
    ensures a * n <= b * n
  {
  }
}
