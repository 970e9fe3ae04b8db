/** Integer powers of reals: the value std::pow computes for a natural
    exponent, taken exactly (no floating-point rounding). */
module Power {

  function Pow(x: real, n: nat): (r: real)
    ensures x >= 0.0 ==> r >= 0.0
    ensures x > 0.0 ==> r > 0.0
    ensures x >= 1.0 ==> r >= 1.0
  {
    if n == 0 then 1.0 else x * Pow(x, n - 1)
  }

  /** Exponents add: growing for m periods and then for n more is growing
      for m + n periods. */
  lemma {:induction false} PowAdd(x: real, m: nat, n: nat)
    ensures Pow(x, m + n) == Pow(x, m) * Pow(x, n)
  {
    if m > 0 {
      PowAdd(x, m - 1, n);
      assert Pow(x, m + n) == x * Pow(x, (m - 1) + n);
    }
  }

  /** Bernoulli's inequality: compound growth is never below simple growth. */
  lemma {:induction false} Bernoulli(h: real, n: nat)
    requires h >= -1.0
    ensures Pow(1.0 + h, n) >= 1.0 + (n as real) * h
  {
    if n > 0 {
      Bernoulli(h, n - 1);
      BernoulliStep(h, (n - 1) as real, Pow(1.0 + h, n - 1));
      assert Pow(1.0 + h, n) == (1.0 + h) * Pow(1.0 + h, n - 1);
    }
  }

  /** One more period of growth: if p is at least 1 + k*h, then (1 + h)*p is
      at least 1 + (k + 1)*h. */
  lemma BernoulliStep(h: real, k: real, p: real)
    requires h >= -1.0 && k >= 0.0 && p >= 1.0 + k * h
    ensures (1.0 + h) * p >= 1.0 + (k + 1.0) * h
  {
    calc {
      (1.0 + h) * p;
    >=  { MulMonotone(1.0 + h, 1.0 + k * h, p); }
      (1.0 + h) * (1.0 + k * h);
    ==  { Expand(h, k); }
      1.0 + (k + 1.0) * h + k * (h * h);
    >=  { SquareNonNegative(h); MulMonotone(k, 0.0, h * h); }
      1.0 + (k + 1.0) * h;
    }
  }

  lemma SquareNonNegative(h: real)
    ensures h * h >= 0.0
  {
    if h < 0.0 {
      MulMonotone(-h, 0.0, -h);
    } else {
      MulMonotone(h, 0.0, h);
    }
  }

  lemma Expand(h: real, k: real)
    ensures (1.0 + h) * (1.0 + k * h) == 1.0 + (k + 1.0) * h + k * (h * h)
  {
  }

  /** A larger exponent gives a larger power once the base is at least 1. */
  lemma {:induction false} PowMonotoneInExponent(x: real, m: nat, n: nat)
    requires x >= 1.0 && m <= n
    ensures Pow(x, m) <= Pow(x, n)
  {
    if m < n {
      PowMonotoneInExponent(x, m, n - 1);
      MulMonotone(Pow(x, n - 1), 1.0, x);
    }
  }

  /** A larger non-negative base gives a larger power. */
  lemma {:induction false} PowMonotoneInBase(x: real, y: real, n: nat)
    requires 0.0 <= x <= y
    ensures Pow(x, n) <= Pow(y, n)
  {
    if n > 0 {
      PowMonotoneInBase(x, y, n - 1);
      var px, py := Pow(x, n - 1), Pow(y, n - 1);
      calc {
        Pow(x, n);
        x * px;
      <=  { MulMonotone(x, px, py); }
        x * py;
      ==
        py * x;
      <=  { MulMonotone(py, x, y); }
        py * y;
      ==
        Pow(y, n);
      }
    }
  }

  lemma MulMonotone(c: real, a: real, b: real)
    requires c >= 0.0 && a <= b
    ensures c * a <= c * b
  {
  }
}
