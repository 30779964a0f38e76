/** Facts about products that the solver is better told than left to find. */
module Arithmetic {
  lemma Commutes(a: int, b: int)
    ensures a * b == b * a
  {}

  lemma Distribute(a: int, n: int)
    ensures a * (n + 1) == a * n + a
  {}

  lemma Difference(a: int, b: int, w: int)
    ensures a * w - b * w == (a - b) * w
  {}

  lemma Negated(a: int, n: int)
    ensures -a * n == -(a * n)
  {}

  lemma Monotone(k: int, a: int, b: int)
    requires k >= 0 && a <= b
    ensures k * a <= k * b
  {}

  lemma Division(a: int, d: int)
    requires d > 0
    ensures a == a / d * d + a % d && 0 <= a % d < d
  {}
}
