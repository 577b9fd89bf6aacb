/** Arithmetic shared by the layout and timer modules: `Math.min`, the range
    of a `Math.random()` draw, and facts about integer division. */
module Arith {

  /** `Math.min` on integers. */
  function Min(a: int, b: int): int
  {
    if a <= b then a else b
  }

  /** `Math.min` on numbers. */
  function MinReal(a: real, b: real): real
  {
    if a <= b then a else b
  }

  /** A value `Math.random()` can return. */
  predicate IsDraw(r: real)
  {
    0.0 <= r < 1.0
  }

  /** A multiple of `n` strictly between `-n` and `n` is zero. */
  lemma SmallMultiple(k: int, n: nat)
    requires -(n as int) < k * n < n
    ensures k == 0
  {
  }

  /** A negative multiple of a positive number has a negative factor. */
  lemma NegativeMultiple(k: int, n: nat)
    requires k * n < 0
    ensures k < 0
  {
  }

  /** Quotient and remainder are determined by any decomposition
      `x == q * n + r` with `0 <= r < n`. */
  lemma DivModUnique(x: int, n: nat, q: int, r: int)
    requires 0 <= r < n && x == q * n + r
    ensures x / n == q && x % n == r
  {
    var q', r' := x / n, x % n;
    assert x == q' * n + r';
    assert (q - q') * n == q * n - q' * n;
    SmallMultiple(q - q', n);
  }
}
