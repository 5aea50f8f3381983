/**
 The engine's mean: a decimal division at 80 significant digits followed by a
 quantize to eighteen places, both rounding half to even. Prices are integers
 counted in units of the 1e-18 quantum.
 */
module Rounding {

  function Pow10(n: nat): (p: int)
    ensures p >= 1
  {
    if n == 0 then 1 else 10 * Pow10(n - 1)
  }

  /** Prices lie strictly below 1e20, that is, below 1e38 quanta. */
  const PRICE_LIMIT: int := 100_000_000_000_000_000_000_000_000_000_000_000_000

  lemma PriceLimitIsPower()
    ensures PRICE_LIMIT == Pow10(38)
  {
    assert Pow10(10) == 10_000_000_000;
    assert Pow10(9) == 1_000_000_000;
    Pow10Adds(9, 10);
    Pow10Adds(19, 19);
  }

  /** a / b rounded to the nearest integer, ties to even. */
  function RoundHalfEven(a: nat, b: int): nat
    requires b > 0
  {
    var q, r := a / b, a % b;
    if 2 * r < b then q
    else if 2 * r > b then q + 1
    else if q % 2 == 0 then q else q + 1
  }

  /**
   The number of decimal places an 80-digit division by 60 keeps: the largest
   scale, searched upward from `d`, at which the quotient still has at most 80
   digits before the point.
   */
  function ScaleFrom(s: int, d: nat): (scale: nat)
    requires s > 0 && s * Pow10(d) < 60 * Pow10(80)
    ensures scale >= d
    ensures s * Pow10(scale) < 60 * Pow10(80) <= s * Pow10(scale + 1)
    decreases 60 * Pow10(80) - s * Pow10(d)
  {
    assert Pow10(d + 1) == 10 * Pow10(d);
    assert s * Pow10(d + 1) == 10 * (s * Pow10(d));
    if s * Pow10(d + 1) < 60 * Pow10(80) then ScaleFrom(s, d + 1) else d
  }

  lemma Pow10Adds(a: nat, b: nat)
    ensures Pow10(a + b) == Pow10(a) * Pow10(b)
  {
    if a > 0 { Pow10Adds(a - 1, b); }
  }

  lemma MulMonotone(a: int, b: int, c: int)
    requires a <= b && c >= 0
    ensures a * c <= b * c
  {
  }

  lemma ProductBound(s: int, big: int, rest: int, two: int, forty: int)
    requires 0 < s < 60 * big && rest == two * forty && two >= 1 && forty >= 1
    ensures s * two < 60 * (big * rest)
  {
    MulMonotone(1, forty, two);
    MulMonotone(two, rest, s);
    MulMonotone(s, 60 * big - 1, rest);
    assert s * two <= s * rest;
    assert (60 * big - 1) * rest == 60 * (big * rest) - rest;
  }

  lemma SumFits(s: int)
    requires 0 < s < 60 * PRICE_LIMIT
    ensures s * Pow10(2) < 60 * Pow10(80)
  {
    PriceLimitIsPower();
    Pow10Adds(38, 42);
    Pow10Adds(2, 40);
    ProductBound(s, Pow10(38), Pow10(42), Pow10(2), Pow10(40));
  }

  /** The 80-digit quotient: `coefficient` times ten to the minus `scale`. */
  datatype Quotient = Quotient(coefficient: nat, scale: nat)

  function DivideBy60(s: int): Quotient
    requires 0 < s < 60 * PRICE_LIMIT
  {
    SumFits(s);
    var scale := ScaleFrom(s, 2);
    Quotient(RoundHalfEven(s * Pow10(scale), 60), scale)
  }

  /** The engine's price: the 80-digit quotient quantized to the price quantum. */
  function Mean60(s: int): nat
    requires 0 < s < 60 * PRICE_LIMIT
  {
    var q := DivideBy60(s);
    RoundHalfEven(q.coefficient, Pow10(q.scale))
  }

  lemma MultipleIsZero(d: int, b: int)
    requires b > 0 && -b < d * b < b
    ensures d == 0
  {
    if d <= -1 { MulMonotone(d, -1, b); }
    if d >= 1 { MulMonotone(1, d, b); }
  }

  lemma DivisionIsUnique(a: int, b: int, q: int, r: int)
    requires b > 0 && a == q * b + r && 0 <= r < b
    ensures a / b == q && a % b == r
  {
    assert a == (a / b) * b + a % b;
    var d := q - a / b;
    assert d * b == q * b - (a / b) * b;
    MultipleIsZero(d, b);
  }

  lemma SplitProduct(n: int, r: int, scale: int)
    requires scale % 2 == 0
    ensures (60 * n + r) * scale == 60 * (n * scale) + r * scale
    ensures n * scale == 2 * (n * (scale / 2))
  {
    assert scale == 2 * (scale / 2);
  }

  /** Half-even rounding of `60 np + rs` over sixty, for an even `np`. */
  lemma ShiftedRounding(np: int, rs: int, total: int) returns (x: int)
    requires np >= 0 && rs >= 0 && np % 2 == 0 && total == 60 * np + rs
    ensures RoundHalfEven(total, 60) == np + x
    ensures -30 <= 60 * x - rs <= 30
  {
    var q0, r0 := rs / 60, rs % 60;
    x := if 2 * r0 < 60 then q0 else if 2 * r0 > 60 then q0 + 1
         else if q0 % 2 == 0 then q0 else q0 + 1;
    DivisionIsUnique(total, 60, np + q0, r0);
  }

  /** Rounding at any even scale above sixty first does not move the final rounding. */
  lemma NoDoubleRounding(s: nat, scale: int)
    requires scale > 60 && scale % 2 == 0
    ensures s * scale >= 0
    ensures RoundHalfEven(RoundHalfEven(s * scale, 60), scale) == RoundHalfEven(s, 60)
  {
    var n, r := s / 60, s % 60;
    assert s == 60 * n + r;
    SplitProduct(n, r, scale);
    MulMonotone(0, n, scale);
    MulMonotone(0, r, scale);
    var x := ShiftedRounding(n * scale, r * scale, s * scale);
    RemainderBounds(r, scale, x);
    DivisionIsUnique(n * scale + x, scale, n, x);
  }

  /** Where the once-rounded remainder lies relative to half a unit. */
  lemma RemainderBounds(r: nat, scale: int, x: int)
    requires r < 60 && scale > 60 && scale % 2 == 0
    requires -30 <= 60 * x - r * scale <= 30
    ensures 0 <= x < scale
    ensures r < 30 ==> 2 * x < scale
    ensures r == 30 ==> 2 * x == scale
    ensures r > 30 ==> 2 * x > scale
  {
    MulMonotone(0, r, scale);
    MulMonotone(r, 59, scale);
    if r < 30 { MulMonotone(r, 29, scale); }
    if r > 30 { MulMonotone(31, r, scale); }
  }

  lemma Pow10Even(n: nat)
    requires n >= 2
    ensures Pow10(n) % 2 == 0 && Pow10(n) > 60
  {
    Pow10Adds(2, n - 2);
    assert Pow10(2) == 100;
    assert Pow10(n) == 2 * (50 * Pow10(n - 2));
  }

  /**
   Exact mean: the two-stage decimal arithmetic equals one half-even rounding of
   the exact sum over sixty, and lies within half a quantum of the true mean.
   */
  lemma MeanIsExact(s: int)
    requires 0 < s < 60 * PRICE_LIMIT
    ensures Mean60(s) == RoundHalfEven(s, 60)
    ensures -30 <= 60 * Mean60(s) - s <= 30
  {
    SumFits(s);
    var scale := ScaleFrom(s, 2);
    Pow10Even(scale);
    NoDoubleRounding(s, Pow10(scale));
  }

  /** A mean of sixty values bounded below and above stays between the bounds. */
  lemma MeanIsBetween(s: int, lo: int, hi: int)
    requires 0 < s < 60 * PRICE_LIMIT
    requires 60 * lo <= s <= 60 * hi
    ensures lo <= Mean60(s) <= hi
  {
    MeanIsExact(s);
  }
}
