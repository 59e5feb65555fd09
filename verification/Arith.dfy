/** Facts about division, remainder, powers and real products that the encoders
    and the forecasts rest on. */
module Arith {
  function Pow(base: nat, e: nat): (p: nat)
    requires base >= 1
    ensures p >= 1
  {
    if e == 0 then 1 else base * Pow(base, e - 1)
  }

  function Pow2(n: nat): (p: nat)
    ensures p >= 1
  {
    if n == 0 then 1 else 2 * Pow2(n - 1)
  }

  lemma ProductAtLeast(m: int, k: int)
    requires m >= 1
    ensures k >= 1 ==> m * k >= m
    ensures k <= -1 ==> m * k <= -m
  {
  }

  // Quotient and remainder are determined by what they add up to.
  lemma DivMod(v: nat, m: nat, q: nat, r: nat)
    requires m >= 1 && v == m * q + r && r < m
    ensures v / m == q && v % m == r
  {
    var k := q - v / m;
    assert v == m * (v / m) + v % m;
    assert m * k == m * q - m * (v / m);
    ProductAtLeast(m, k);
  }

  lemma SmallMod(v: nat, m: nat)
    requires v < m
    ensures v % m == v && v / m == 0
  {
  }

  lemma BelowProduct(a: nat, b: nat, l: nat, r: nat)
    requires r < a && l < b
    ensures a * l + r < a * b
  {
    ProductAtLeast(a, b - l);
    assert a * (b - l) == a * b - a * l;
  }

  // Dividing by a and then by b, with the two remainders put together.
  lemma TwoDivisions(v: nat, a: nat, b: nat)
    requires a >= 1 && b >= 1
    ensures a * b >= 1
    ensures v / (a * b) == v / a / b
    ensures v % (a * b) == a * (v / a % b) + v % a
  {
    var q, r := v / a, v % a;
    var h, l := q / b, q % b;
    ProductAtLeast(a, b);
    BelowProduct(a, b, l, r);
    assert q == b * h + l;
    assert v == a * q + r;
    Regroup(a, b, h, l, r);
    DivMod(v, a * b, h, a * l + r);
  }

  lemma Regroup(a: int, b: int, h: int, l: int, r: int)
    ensures a * (b * h + l) + r == (a * b) * h + (a * l + r)
  {
  }

  // Only the low bits of a number matter to its low bits further down.
  lemma ModThenDiv(v: nat, a: nat, b: nat)
    requires a >= 1 && b >= 1
    ensures a * b >= 1
    ensures v % (a * b) / a == v / a % b
  {
    TwoDivisions(v, a, b);
    DivMod(v % (a * b), a, v / a % b, v % a);
  }

  lemma ModOfMod(v: nat, a: nat, b: nat)
    requires a >= 1 && b >= 1
    ensures a * b >= 1
    ensures v % (a * b) % a == v % a
  {
    TwoDivisions(v, a, b);
    DivMod(v % (a * b), a, v / a % b, v % a);
  }

  lemma {:induction false} PowAdds(base: nat, a: nat, b: nat)
    requires base >= 1
    ensures Pow(base, a + b) == Pow(base, a) * Pow(base, b)
  {
    if a > 0 {
      PowAdds(base, a - 1, b);
      TimesAssociates(base, Pow(base, a - 1), Pow(base, b));
    }
  }

  lemma TimesAssociates(a: int, b: int, c: int)
    ensures a * (b * c) == (a * b) * c
  {
  }

  // -------------------------------------------------------------------- reals

  // Multiplication, with the sign of its result.
  function Product(a: real, b: real): (p: real)
    ensures (a > 0.0 && b > 0.0) || (a < 0.0 && b < 0.0) ==> p > 0.0
    ensures a == 0.0 ==> p == 0.0
  {
    a * b
  }

  function Square(r: real): (q: real)
    ensures q >= 0.0
    ensures r != 0.0 ==> q > 0.0
  {
    Product(r, r)
  }

  lemma QuotientTimes(a: real, b: real)
    requires b != 0.0
    ensures a / b * b == a && b * (a / b) == a
  {
  }

  lemma ProductNonZero(a: real, b: real)
    requires a != 0.0 && b != 0.0
    ensures a * b != 0.0
  {
  }
}
