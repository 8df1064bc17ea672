/** Facts about real division used by the percentage-change lemmas. */
module Arith {

  /** Dividing by a positive number and multiplying back is the identity. */
  lemma DivMul(a: real, b: real)
    requires b > 0.0
    ensures (a / b) * b == a
  {}

  /** Dividing by a positive number keeps the sign. */
  lemma DivSign(a: real, b: real)
    requires b > 0.0
    ensures a / b < 0.0 <==> a < 0.0
    ensures a / b == 0.0 <==> a == 0.0
    ensures a / b > 0.0 <==> a > 0.0
  {
    DivMul(a, b);
    var q := a / b;
    if q < 0.0 { assert q * b < 0.0; }
    if q > 0.0 { assert q * b > 0.0; }
  }

  /** Comparing a quotient with `c` is comparing the dividend with `c * b`. */
  lemma DivCompare(a: real, b: real, c: real)
    requires b > 0.0
    ensures a / b <= c <==> a <= c * b
    ensures a / b < c <==> a < c * b
  {
    DivMul(a, b);
    var d := a / b - c;
    assert d * b == a - c * b;
    if d < 0.0 { assert d * b < 0.0; }
    if d > 0.0 { assert d * b > 0.0; }
  }
}
