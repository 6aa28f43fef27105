/** Amounts, quantities, prices and rates are integers counting ten-thousandths: the scale of every
    NUMERIC(19,4) column. This module holds the one rounding rule, Decimal.toDecimalPlaces(4) in its
    default mode: to the nearest integer, a tie going away from zero. */
module Rounding {

  const SCALE := 10000

  /** n / d rounded to the nearest integer, a tie away from zero. */
  function RoundDiv(n: int, d: int): (r: int)
    requires d > 0
    ensures 0 <= n ==> -d < 2 * (d * r - n) <= d && 0 <= r
    ensures n <= 0 ==> -d <= 2 * (d * r - n) < d && r <= 0
  {
    if 0 <= n then
      FloorHalf(n, d);
      (2 * n + d) / (2 * d)
    else
      FloorHalf(-n, d);
      -((2 * -n + d) / (2 * d))
  }

  lemma {:induction false} FloorHalf(n: nat, d: int)
    requires d > 0
    ensures 0 <= (2 * n + d) / (2 * d)
    ensures -d < 2 * (d * ((2 * n + d) / (2 * d)) - n) <= d
  {
    var q, m := (2 * n + d) / (2 * d), (2 * n + d) % (2 * d);
    assert 2 * n + d == (2 * d) * q + m;
    assert (2 * d) * q == 2 * (d * q);
  }

  /** r is a nearest integer to n / d, and on a tie the one further from zero. */
  predicate Nearest(n: int, d: int, r: int)
  {
    if 0 <= n then -d < 2 * (d * r - n) <= d else -d <= 2 * (d * r - n) < d
  }

  lemma {:induction false} NearestOrdered(a: int, b: int, d: int, r: int, s: int)
    requires d > 0 && a <= b && Nearest(a, d, r) && Nearest(b, d, s)
    ensures r <= s
  {
    if s < r {
      MulGap(d, s, r);
    }
  }

  lemma {:induction false} MulGap(d: nat, s: int, r: int)
    requires s < r
    ensures d * s + d <= d * r
    decreases r - s
  {
    if s + 1 < r {
      MulGap(d, s + 1, r);
    }
  }

  /** Nearest has one solution, so it is a specification of the rule and not only a consequence. */
  lemma {:induction false} RoundDivUnique(n: int, d: int, r: int)
    requires d > 0
    ensures Nearest(n, d, r) <==> r == RoundDiv(n, d)
  {
    if Nearest(n, d, r) {
      NearestOrdered(n, n, d, r, RoundDiv(n, d));
      NearestOrdered(n, n, d, RoundDiv(n, d), r);
    }
  }

  lemma {:induction false} RoundDivExact(m: int, d: int)
    requires d > 0
    ensures RoundDiv(m * d, d) == m
  {
    assert d * m == m * d;
    RoundDivUnique(m * d, d, m);
  }

  lemma {:induction false} RoundDivMonotone(a: int, b: int, d: int)
    requires d > 0 && a <= b
    ensures RoundDiv(a, d) <= RoundDiv(b, d)
  {
    NearestOrdered(a, b, d, RoundDiv(a, d), RoundDiv(b, d));
  }

  lemma {:induction false} RoundDivNegates(n: int, d: int)
    requires d > 0
    ensures RoundDiv(-n, d) == -RoundDiv(n, d)
  {
    if n != 0 {
      assert d * -RoundDiv(n, d) == -(d * RoundDiv(n, d));
      RoundDivUnique(-n, d, -RoundDiv(n, d));
    }
  }

  /** quantity x price, rounded once to the column's scale. */
  function ValueOf(quantity: int, price: int): (v: int)
    ensures 0 <= quantity && 0 <= price ==> 0 <= v
  {
    ProductSign(quantity, price);
    RoundDiv(quantity * price, SCALE)
  }

  /** The stored worth is the nearest ten-thousandth of the product, a tie away from zero. */
  lemma {:induction false} WorthIsNearest(quantity: int, price: int)
    ensures Nearest(quantity * price, 10000, ValueOf(quantity, price))
    ensures forall v :: Nearest(quantity * price, 10000, v) ==> v == ValueOf(quantity, price)
  {
    forall v | Nearest(quantity * price, 10000, v) ensures v == ValueOf(quantity, price) {
      RoundDivUnique(quantity * price, SCALE, v);
    }
  }

  lemma {:induction false} ProductSign(a: int, b: int)
    ensures 0 <= a && 0 <= b ==> 0 <= a * b
  {
  }

  /** What rounding added to quantity x price, in units of 10^-8. */
  function Residue(quantity: int, price: int): (e: int)
    ensures -10000 <= 2 * e <= 10000
  {
    SCALE * ValueOf(quantity, price) - quantity * price
  }

  /** Nothing is added exactly when the product fits the column. */
  lemma {:induction false} ExactProductHasNoResidue(quantity: int, price: int)
    ensures Residue(quantity, price) == 0 <==> (quantity * price) % SCALE == 0
  {
    var n := quantity * price;
    if n % SCALE == 0 {
      RoundDivExact(n / SCALE, SCALE);
      assert n == (n / SCALE) * SCALE;
    }
  }
}
