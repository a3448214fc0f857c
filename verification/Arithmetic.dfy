/** Facts about products and quotients that the solver needs to be pointed at. */
module Arithmetic {
  lemma MulMono(a: int, b: int, c: nat)
    requires a <= b
    ensures a * c <= b * c
  {
  }

  lemma DivMeans(a: nat, d: nat)
    requires d > 0
    ensures a / d * d <= a < (a / d + 1) * d
  {
  }

  lemma QuotientIs(a: nat, d: nat, q: nat)
    requires d > 0 && q * d <= a < (q + 1) * d
    ensures a / d == q && a % d == a - q * d
  {
    var p := a / d;
    DivMeans(a, d);
    if p < q { MulMono(p + 1, q, d); }
    if p > q { MulMono(q + 1, p, d); }
  }

  lemma DivMono(a: nat, b: nat, d: nat)
    requires d > 0 && a <= b
    ensures a / d <= b / d
  {
    DivMeans(a, d);
    DivMeans(b, d);
    if b / d < a / d { MulMono(b / d + 1, a / d, d); }
  }
}
