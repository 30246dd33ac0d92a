// The fixed-point arithmetic of src/domain/currency/exchange_rates.py: how far the
// rounded results can be from the exact ones.
module CurrencyArithmetic {
  import opened Basics

  const SCALE: int := 1_000_000

  // Round-half-up division by the scale; amounts and rates are not negative.
  function Scaled(x: int): int {
    (x + SCALE / 2) / SCALE
  }

  function ConvertBy(amount: int, rate: int): int {
    Scaled(amount * rate)
  }

  function InverseRate(rate: int): int
    requires rate > 0
  {
    (SCALE * SCALE + rate / 2) / rate
  }

  function CrossRate(fromUsd: int, usdTo: int): int {
    Scaled(fromUsd * usdTo)
  }

  // Rounding is to the nearest, upwards on a tie.
  lemma ScaledIsNearest(x: int)
    ensures -SCALE <= 2 * (x - SCALE * Scaled(x)) < SCALE
  {
  }

  lemma ConvertIsNearest(amount: int, rate: int)
    ensures -SCALE <= 2 * (amount * rate - SCALE * ConvertBy(amount, rate)) < SCALE
  {
    ScaledIsNearest(amount * rate);
  }

  lemma ConvertIsMonotone(a: int, b: int, rate: int)
    requires a <= b && rate >= 0
    ensures ConvertBy(a, rate) <= ConvertBy(b, rate)
  {
    assert (b - a) * rate >= 0;
    ScaledIsNearest(a * rate);
    ScaledIsNearest(b * rate);
  }

  lemma ConvertIsMonotoneInTheRate(amount: int, r: int, s: int)
    requires r <= s && amount >= 0
    ensures ConvertBy(amount, r) <= ConvertBy(amount, s)
  {
    assert amount * (s - r) >= 0;
    ScaledIsNearest(amount * r);
    ScaledIsNearest(amount * s);
  }

  // Converting two amounts separately or together differs by at most one unit.
  lemma ConvertIsAdditiveWithinOne(a: int, b: int, rate: int)
    ensures Abs(ConvertBy(a + b, rate) - (ConvertBy(a, rate) + ConvertBy(b, rate))) <= 1
  {
    assert (a + b) * rate == a * rate + b * rate;
    ScaledIsNearest(a * rate);
    ScaledIsNearest(b * rate);
    ScaledIsNearest((a + b) * rate);
  }

  // The stored inverse is the nearest fraction.
  lemma InverseIsNearest(rate: int)
    requires rate > 0
    ensures -rate <= 2 * (SCALE * SCALE - rate * InverseRate(rate)) <= rate
    ensures InverseRate(rate) >= 0
  {
    var x := SCALE * SCALE + rate / 2;
    assert x == rate * (x / rate) + x % rate;
  }

  lemma QuotientVanishes(x: int, r: int)
    requires x >= 0 && r > 0
    ensures x / r == 0 <==> x < r
  {
    var q := x / r;
    assert x == r * q + x % r;
    if q >= 1 { assert r * q >= r; }
  }

  // The stored inverse of a very large rate is zero: exactly the rates above twice
  // the square of the scale cannot be used backwards.
  lemma InverseVanishes(rate: int)
    requires rate > 0
    ensures InverseRate(rate) == 0 <==> rate > 2 * SCALE * SCALE
  {
    QuotientVanishes(SCALE * SCALE + rate / 2, rate);
  }

  // There and back through a rate and its stored inverse.
  lemma RoundTripError(a: int, r: int)
    requires a >= 0 && r > 0
    ensures var inv := InverseRate(r);
            2 * SCALE * SCALE * Abs(ConvertBy(ConvertBy(a, r), inv) - a) <= a * r + inv * SCALE + SCALE * SCALE
  {
    var inv := InverseRate(r);
    var b := ConvertBy(a, r);
    var c := ConvertBy(b, inv);
    ConvertIsNearest(a, r);
    ConvertIsNearest(b, inv);
    InverseIsNearest(r);
    RoundTripIdentity(a, r, inv, b, c);
    ProductBound(a, 2 * (SCALE * SCALE - r * inv), r);
    ProductBound(inv, 2 * (a * r - SCALE * b), SCALE);
  }

  // The error is made of the three rounding errors.
  lemma RoundTripIdentity(a: int, r: int, inv: int, b: int, c: int)
    ensures 2 * SCALE * SCALE * (a - c) == a * (2 * (SCALE * SCALE - r * inv)) + inv * (2 * (a * r - SCALE * b)) + SCALE * (2 * (b * inv - SCALE * c))
  {
    assert a * (2 * (SCALE * SCALE - r * inv)) == 2 * SCALE * SCALE * a - 2 * (a * r * inv);
    assert inv * (2 * (a * r - SCALE * b)) == 2 * (a * r * inv) - 2 * SCALE * (b * inv);
  }

  lemma ProductBound(x: int, e: int, m: int)
    requires x >= 0 && -m <= e <= m
    ensures -(x * m) <= x * e <= x * m
  {
    assert x * (m - e) >= 0;
    assert x * (m + e) >= 0;
  }

  // One step by the stored cross rate against two steps by its two legs.
  lemma CrossRateError(a: int, r1: int, r2: int)
    requires a >= 0 && r1 >= 0 && r2 >= 0
    ensures 2 * SCALE * Abs(ConvertBy(a, CrossRate(r1, r2)) - ConvertBy(ConvertBy(a, r1), r2)) <= a + r2 + 2 * SCALE
  {
    var rc := CrossRate(r1, r2);
    var one := ConvertBy(a, rc);
    var b := ConvertBy(a, r1);
    var two := ConvertBy(b, r2);
    ConvertIsNearest(a, rc);
    ConvertIsNearest(b, r2);
    ConvertIsNearest(a, r1);
    ScaledIsNearest(r1 * r2);
    CrossIdentity(a, r1, r2, rc, b, one, two);
    ProductBound(a, 2 * (r1 * r2 - SCALE * rc), SCALE);
    ProductBound(r2, 2 * (a * r1 - SCALE * b), SCALE);
  }

  // The error is made of the four rounding errors.
  lemma CrossIdentity(a: int, r1: int, r2: int, rc: int, b: int, one: int, two: int)
    ensures 2 * SCALE * SCALE * (two - one)
         == a * (2 * (r1 * r2 - SCALE * rc)) - r2 * (2 * (a * r1 - SCALE * b)) + SCALE * (2 * (a * rc - SCALE * one)) - SCALE * (2 * (b * r2 - SCALE * two))
  {
    assert a * (2 * (r1 * r2 - SCALE * rc)) == 2 * (a * (r1 * r2)) - 2 * SCALE * (a * rc);
    assert r2 * (2 * (a * r1 - SCALE * b)) == 2 * (r2 * (a * r1)) - 2 * SCALE * (b * r2);
    assert a * (r1 * r2) == r2 * (a * r1);
  }
}
