// What the other modules share: optional values, the smaller and larger of two, and
// the uniqueness of quotient and remainder.

module Basics {

  datatype Option<+T> = None | Some(value: T)

  function Min(a: int, b: int): int { if a <= b then a else b }

  function Max(a: int, b: int): int { if a <= b then b else a }

  lemma MulBounds(d: int, n: int)
    requires n >= 1
    ensures d >= 1 ==> d * n >= n
    ensures d <= -1 ==> d * n <= -n
  {
  }

  /** Quotient and remainder are the only pair that fits. */
  lemma DivModUnique(a: int, n: int, q: int, r: int)
    requires n >= 1 && 0 <= r < n && a == q * n + r
    ensures a / n == q && a % n == r
  {
    var d := a / n - q;
    assert a == (a / n) * n + a % n;
    assert d * n == r - a % n;
    MulBounds(d, n);
  }
}
