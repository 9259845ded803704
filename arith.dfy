/** Arithmetic facts the solver does not find on its own: monotonicity of
    products and uniqueness of quotient and remainder. */
module Arith {

  lemma {:induction false} MulMonotone(a: nat, b: nat, c: nat)
    requires b <= c
    ensures a * b <= a * c
  {
    if a > 0 {
      MulMonotone(a - 1, b, c);
      assert a * b == (a - 1) * b + b;
      assert a * c == (a - 1) * c + c;
    }
  }

  /** Quotient and remainder are the only ones: k == m * q + r with
      0 <= r < m forces k / m == q and k % m == r. */
  lemma DivModUnique(k: int, m: int, q: int, r: int)
    requires m >= 1 && 0 <= r < m && k == m * q + r
    ensures k / m == q && k % m == r
  {
    var d := k / m - q;
    assert m * d == r - k % m;
    if d >= 1 {
      MulMonotone(m, 1, d);
    }
  }

  lemma ScaleMonotone(x: real, y: real, d: real)
    requires x <= y && 0.0 <= d
    ensures x * d <= y * d
  {
  }

  /** A fraction of a non-negative amount lies between 0 and the amount. */
  lemma ScaleFraction(f: real, d: real)
    ensures 0.0 <= f <= 1.0 && 0.0 <= d ==> 0.0 <= f * d <= d
  {
    if 0.0 <= f <= 1.0 && 0.0 <= d {
      ScaleMonotone(0.0, f, d);
      ScaleMonotone(f, 1.0, d);
    }
  }

  lemma ScaleStrict(x: real, y: real, d: real)
    requires x < y && 0.0 < d
    ensures x * d < y * d
  {
  }

  lemma DivMonotone(a: real, b: real, w: real)
    requires a <= b && 0.0 < w
    ensures a / w <= b / w
  {
  }

  lemma DivStrict(a: real, b: real, w: real)
    requires a < b && 0.0 < w
    ensures a / w < b / w
  {
  }

  /** Dividing by a positive amount turns a bound on a product into a bound
      on the factor, and back. */
  lemma ScaleBound(a: real, x: real, u: real)
    requires 0.0 < u
    ensures a * u <= x <==> a <= x / u
  {
    if a * u <= x {
      DivMonotone(a * u, x, u);
      CancelFactor(a, u);
    }
    if a <= x / u {
      ScaleMonotone(a, x / u, u);
    }
  }

  lemma CancelFactor(a: real, d: real)
    requires d != 0.0
    ensures (a * d) / d == a
  {
  }
}
