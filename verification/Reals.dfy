/** Arithmetic on reals. */
module Reals {
  function Min(a: real, b: real): real {
    if a < b then a else b
  }

  function Max(a: real, b: real): real {
    if a > b then a else b
  }

  /** Products have a function of their own, so that proofs can keep them whole. */
  function Times(a: real, b: real): real {
    a * b
  }

  lemma TimesDistributes(a: real, b: real, c: real)
    ensures Times(a, b + c) == Times(a, b) + Times(a, c) && Times(a + b, c) == Times(a, c) + Times(b, c)
    ensures Times(a, b - c) == Times(a, b) - Times(a, c) && Times(-a, b) == -Times(a, b)
  {
  }

  lemma TimesCommutes(a: real, b: real)
    ensures Times(a, b) == Times(b, a)
  {
  }

  lemma TimesQuotient(a: real, b: real)
    requires b != 0.0
    ensures Times(b, a / b) == a
  {
  }

  lemma TimesSign(a: real, b: real)
    ensures a >= 0.0 && b >= 0.0 ==> Times(a, b) >= 0.0
    ensures a <= 0.0 && b >= 0.0 ==> Times(a, b) <= 0.0
    ensures a >= 0.0 && b <= 0.0 ==> Times(a, b) <= 0.0
    ensures a == 0.0 || b == 0.0 ==> Times(a, b) == 0.0
  {
  }

  lemma TimesPositive(a: real, b: real)
    ensures a > 0.0 && b > 0.0 ==> Times(a, b) > 0.0
  {
  }

  lemma TimesGrows(c: real, a: real, b: real)
    requires c >= 0.0 && a <= b
    ensures Times(c, a) <= Times(c, b)
  {
    assert c * (b - a) >= 0.0;
  }

  lemma SquareIsPositive(a: real)
    requires a != 0.0
    ensures Times(a, a) > 0.0
  {
    var b := -a;
    TimesPositive(a, a);
    TimesPositive(b, b);
    TimesDistributes(b, 0.0, b);
    TimesDistributes(b, a, a);
    TimesSign(b, 0.0);
    hide Times;
    assert a == -b == 0.0 - b;
  }

  lemma SquareGrows(a: real, b: real)
    requires a >= 0.0 && b >= 0.0
    ensures a < b ==> Times(a, a) < Times(b, b)
  {
    TimesPositive(b - a, b + a);
    assert Times(b - a, b + a) == Times(b, b) - Times(a, a);
  }

  lemma QuotientGrows(a: real, b: real, n: real)
    requires a <= b && n > 0.0
    ensures a / n <= b / n
  {
    var x, y := a / n, b / n;
    assert x * n == a && y * n == b;
    assert x > y ==> (x - y) * n > 0.0;
  }

  lemma QuotientOrder(x: real, y: real, z: real)
    requires y > 0.0
    ensures x / y <= z <==> x <= Times(z, y)
    ensures z <= x / y <==> Times(z, y) <= x
  {
    var q := x / y;
    assert q * y == x;
    assert q < z ==> (z - q) * y > 0.0;
    assert z < q ==> (q - z) * y > 0.0;
    assert (z - q) * y == z * y - x;
    assert (q - z) * y == x - z * y;
  }

  lemma QuotientSign(a: real, b: real)
    requires a >= 0.0 && b > 0.0
    ensures a / b >= 0.0
  {
    var q := a / b;
    assert q * b == a;
  }
}
