/**
 Quantile brackets of the accuracy histograms (price_collector/ghost_twap_accuracy.py): the
 bucket found by counting up to the nearest rank really holds that quantile.
 */
module Quantiles {
  import opened Core
  import opened Accuracy

  /** How many of the values fall into each bucket. */
  function HistogramOf(values: seq<real>): (h: seq<int>)
    ensures |h| == BINS
  {
    if values == [] then seq(BINS, i => 0)
    else
      var before, b := HistogramOf(values[..|values| - 1]), BinOf(values[|values| - 1]);
      before[b := before[b] + 1]
  }

  function SumTo(h: seq<int>, n: nat): int
    requires n <= |h|
  {
    if n == 0 then 0 else SumTo(h, n - 1) + h[n - 1]
  }

  function Rank(n: nat, numerator: nat, denominator: nat): int
    requires denominator > 0
  {
    (n * numerator + denominator - 1) / denominator
  }

  /** The running total has not reached the rank within the first `n` buckets. */
  ghost predicate Short(h: seq<int>, rank: int, n: nat)
    requires n <= |h|
  {
    forall i :: 0 < i <= n ==> SumTo(h, i) < rank
  }

  /** A proportion of at most one asks for no more than the total. */
  lemma RankFits(n: nat, numerator: nat, denominator: nat)
    requires denominator > 0 && numerator <= denominator
    ensures Rank(n, numerator, denominator) <= n
  {
    MulMonotone(n, numerator, denominator);
    DivideProduct(n * numerator + denominator - 1, n, denominator);
  }

  lemma MulMonotone(n: nat, a: nat, b: nat)
    requires a <= b
    ensures n * a <= n * b
  {
  }

  lemma DivideProduct(x: nat, n: nat, d: nat)
    requires d > 0 && x < n * d + d
    ensures x / d <= n
  {
    var q, r := x / d, x % d;
    assert x == q * d + r;
    if q >= n + 1 { MulMonotone(d, n + 1, q); }
  }

  /**
   The first bucket at which the running total reaches the rank; a proportion of at most
   one finds it in every histogram that is not empty.
   */
  method QuantileBracket(h: seq<int>, numerator: nat, denominator: nat) returns (bucket: Option<nat>)
    requires |h| == BINS && denominator > 0 && SumTo(h, BINS) >= 0
    ensures bucket.None? ==> SumTo(h, BINS) == 0
                             || Short(h, Rank(SumTo(h, BINS), numerator, denominator), BINS)
    ensures bucket.Some? ==>
              var rank := Rank(SumTo(h, BINS), numerator, denominator);
              && SumTo(h, BINS) != 0 && bucket.value < BINS && rank <= SumTo(h, bucket.value + 1)
              && Short(h, rank, bucket.value)
    ensures numerator <= denominator ==> (bucket.Some? <==> SumTo(h, BINS) != 0)
  {
    var n := SumTo(h, BINS);
    if n == 0 { return None; }
    var rank := Rank(n, numerator, denominator);
    var total := 0;
    for i := 0 to BINS
      invariant total == SumTo(h, i)
      invariant Short(h, rank, i)
    {
      total := total + h[i];
      if total >= rank { return Some(i); }
    }
    if numerator <= denominator { RankFits(n, numerator, denominator); }
    return None;
  }

  // ---------------------------------------------------------------- buckets

  lemma {:induction false} BoundsRise(i: nat, j: nat)
    requires i <= j < |BOUNDS_BPS|
    ensures BOUNDS_BPS[i] <= BOUNDS_BPS[j]
  {
  }

  lemma {:induction false} BelowIsPrefix(x: real, n: nat, i: nat)
    requires i < n <= |BOUNDS_BPS|
    ensures BOUNDS_BPS[i] < x <==> i < BoundsBelow(x, n)
  {
    BoundsRise(i, n - 1);
    if i < n - 1 {
      BelowIsPrefix(x, n - 1, i);
      if BOUNDS_BPS[n - 1] < x { AllBelow(x, n - 1); }
    } else if n > 1 {
      if BOUNDS_BPS[n - 1] < x { AllBelow(x, n - 1); }
    }
  }

  lemma {:induction false} AllBelow(x: real, n: nat)
    requires n < |BOUNDS_BPS| && BOUNDS_BPS[n] < x
    ensures BoundsBelow(x, n) == n
  {
    if n > 0 {
      BoundsRise(n - 1, n);
      AllBelow(x, n - 1);
    }
  }

  /** A value's bucket: above every bound before it, not above its own. */
  lemma BinBrackets(x: real)
    ensures var b := BinOf(x);
            && (b > 0 ==> BOUNDS_BPS[b - 1] < x) && (b < |BOUNDS_BPS| ==> x <= BOUNDS_BPS[b])
  {
    var b := BinOf(x);
    if b > 0 { BelowIsPrefix(x, |BOUNDS_BPS|, b - 1); }
    if b < |BOUNDS_BPS| { BelowIsPrefix(x, |BOUNDS_BPS|, b); }
  }

  lemma {:induction false} BelowIsMonotone(x: real, y: real, n: nat)
    requires x <= y && n <= |BOUNDS_BPS|
    ensures BoundsBelow(x, n) <= BoundsBelow(y, n)
  {
    if n > 0 { BelowIsMonotone(x, y, n - 1); }
  }

  // ---------------------------------------------------------------- counting

  function CountBelow(values: seq<real>, b: nat): nat {
    if values == [] then 0
    else CountBelow(values[..|values| - 1], b) + (if BinOf(values[|values| - 1]) < b then 1 else 0)
  }

  function CountAtMost(values: seq<real>, q: real): nat {
    if values == [] then 0 else CountAtMost(values[..|values| - 1], q) + (if values[|values| - 1] <= q then 1 else 0)
  }

  function CountLess(values: seq<real>, q: real): nat {
    if values == [] then 0 else CountLess(values[..|values| - 1], q) + (if values[|values| - 1] < q then 1 else 0)
  }

  lemma {:induction false} SumToUpdate(h: seq<int>, b: nat, n: nat)
    requires b < |h| && n <= |h|
    ensures SumTo(h[b := h[b] + 1], n) == SumTo(h, n) + if b < n then 1 else 0
  {
    if n > 0 { SumToUpdate(h, b, n - 1); }
  }

  lemma {:induction false} EmptySum(n: nat)
    requires n <= BINS
    ensures SumTo(HistogramOf([]), n) == 0
  {
    if n > 0 { EmptySum(n - 1); }
  }

  /** The histogram's running totals count the values of the buckets so far. */
  lemma {:induction false} TotalsCount(values: seq<real>, n: nat)
    requires n <= BINS
    ensures SumTo(HistogramOf(values), n) == CountBelow(values, n)
  {
    if values == [] {
      EmptySum(n);
    } else {
      TotalsCount(values[..|values| - 1], n);
      SumToUpdate(HistogramOf(values[..|values| - 1]), BinOf(values[|values| - 1]), n);
    }
  }

  lemma {:induction false} CountsCompare(values: seq<real>, q: real)
    ensures CountAtMost(values, q) <= CountBelow(values, BinOf(q) + 1)
    ensures CountBelow(values, BinOf(q)) <= CountLess(values, q)
  {
    if values != [] {
      var x := values[|values| - 1];
      CountsCompare(values[..|values| - 1], q);
      if x <= q { BelowIsMonotone(x, q, |BOUNDS_BPS|); } else { BelowIsMonotone(q, x, |BOUNDS_BPS|); }
    }
  }

  lemma {:induction false} CountGrows(values: seq<real>, a: nat, b: nat)
    requires a <= b
    ensures CountBelow(values, a) <= CountBelow(values, b)
  {
    if values != [] { CountGrows(values[..|values| - 1], a, b); }
  }

  /** The rank-th smallest value: at least that many are no larger, fewer are smaller. */
  predicate IsRanked(values: seq<real>, rank: int, q: real) { CountLess(values, q) < rank <= CountAtMost(values, q) }

  /**
   For any values and any rank, the bucket where the running total first reaches the rank
   is the bucket of the rank-th smallest value, so that value lies within its bounds.
   */
  lemma QuantileIsBracketed(values: seq<real>, rank: int, bucket: nat, q: real)
    requires bucket < BINS && rank <= SumTo(HistogramOf(values), bucket + 1)
    requires Short(HistogramOf(values), rank, bucket)
    requires IsRanked(values, rank, q)
    ensures BinOf(q) == bucket
    ensures bucket > 0 ==> BOUNDS_BPS[bucket - 1] < q
    ensures bucket < |BOUNDS_BPS| ==> q <= BOUNDS_BPS[bucket]
  {
    hide BinOf, HistogramOf, SumTo;
    var b := BinOf(q);
    CountsCompare(values, q);
    BinBrackets(q);
    TotalsCount(values, bucket + 1);
    if b < bucket {
      TotalsCount(values, b + 1);
    } else if bucket < b {
      CountGrows(values, bucket + 1, b);
    }
  }
}
