/** Small facts about real multiplication and division. The solver handles each of them
    alone but not inside larger proofs, so the vector lemmas call them by name. */
module Reals {

  lemma SquareNonNegative(a: real)
    ensures 0.0 <= a * a
  {
  }

  lemma MulPositive(a: real, b: real)
    requires 0.0 < a && 0.0 < b
    ensures 0.0 < a * b
  {
  }

  /** Division undone by multiplication. */
  lemma DivMul(x: real, y: real)
    requires y != 0.0
    ensures (x / y) * y == x
  {
  }

  /** A quotient is the only number that multiplies back to the dividend. */
  lemma DivUnique(x: real, y: real, q: real)
    requires y != 0.0 && q * y == x
    ensures x / y == q
  {
  }

  /** Dividing twice by d is undone by multiplying by d². */
  lemma DivTwiceMul(x: real, d: real)
    requires d != 0.0
    ensures (x / d) / d * (d * d) == x
  {
    DivMul(x, d);
    DivMul(x / d, d);
    assert (x / d) / d * (d * d) == ((x / d) / d * d) * d;
  }

  /** A common positive factor cancels: (a·k) / (k·m) = a / m. */
  lemma DivCancel(a: real, k: real, m: real)
    requires 0.0 < k && 0.0 < m
    ensures (a * k) / (k * m) == a / m
  {
    var q := a / m;
    DivMul(a, m);
    assert q * (k * m) == (q * m) * k;
    DivUnique(a * k, k * m, q);
  }

  /** Dividing twice by k·d and multiplying by k² is dividing twice by d. */
  lemma DivTwiceScaled(u: real, d: real, k: real)
    requires 0.0 < d && 0.0 < k
    ensures (u / (k * d)) / (k * d) * (k * k) == (u / d) / d
  {
    var p := u / (k * d);
    var q := p / (k * d);
    DivMul(u, k * d);
    DivMul(p, k * d);
    var r := q * (k * k);
    assert r * d * d == u;
    var s := u / d;
    DivMul(u, d);
    DivMul(s, d);
    assert (s / d) * d * d == u;
    assert r * (d * d) == (s / d) * (d * d);
  }
}
