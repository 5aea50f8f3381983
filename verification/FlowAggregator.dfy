/**
 One-second trade flow (price_collector/binance_futures_streams.py): buckets keyed by
 their second, flushed in order with gaps filled, cumulative and rolling volume deltas.
 Quantities are integers in the feed's smallest unit.
 */
module FlowAggregator {
  import opened Core

  datatype Trade = Trade(id: int, quantity: int, quote: int, buyerIsMaker: bool, tradeCount: int, tradeTimeMs: int,
                         eventTimeMs: int)

  datatype Bucket = Bucket(second: int, receivedMs: int, buyBase: int, sellBase: int, buyQuote: int, sellQuote: int,
                           aggCount: int, tradeCount: int, maxQuote: Option<int>, firstId: Option<int>,
                           lastId: Option<int>, lastTradeMs: Option<int>, lastEventMs: Option<int>) {
    function Delta(): int { buyQuote - sellQuote }

    function TotalQuote(): int { buyQuote + sellQuote }
  }

  datatype Rolled = Rolled(second: int, delta: int, total: int)

  datatype Sample = Sample(bucket: Bucket, cvd: int, cvd10: int, cvd30: int, imbalance: Option<real>,
                           imbalance10: Option<real>, imbalance30: Option<real>)

  datatype Flow = Flow(buckets: map<int, Bucket>, lastFlushed: Option<int>, cvd: int, rolling10: seq<Rolled>,
                       rolling30: seq<Rolled>)

  const NOTHING: Flow := Flow(map[], None, 0, [], [])

  function SecondOf(ms: int): (s: int)
    ensures s % 1000 == 0 && s <= ms < s + 1000
  {
    ms / 1000 * 1000
  }

  function EmptyBucket(second: int, receivedMs: int): Bucket {
    Bucket(second, receivedMs, 0, 0, 0, 0, 0, 0, None, None, None, None, None)
  }

  function MaxWith(o: Option<int>, x: int): Option<int> { Some(if o.None? then x else Max(o.value, x)) }

  function MinWith(o: Option<int>, x: int): Option<int> { Some(if o.None? then x else Min(o.value, x)) }

  function Added(b: Bucket, t: Trade, receivedMs: int): Bucket {
    var sided := if t.buyerIsMaker then b.(sellBase := b.sellBase + t.quantity, sellQuote := b.sellQuote + t.quote)
                 else b.(buyBase := b.buyBase + t.quantity, buyQuote := b.buyQuote + t.quote);
    sided.(aggCount := b.aggCount + 1, tradeCount := b.tradeCount + t.tradeCount,
           maxQuote := MaxWith(b.maxQuote, t.quote),
           firstId := MinWith(b.firstId, t.id), lastId := MaxWith(b.lastId, t.id),
           lastTradeMs := MaxWith(b.lastTradeMs, t.tradeTimeMs), lastEventMs := MaxWith(b.lastEventMs, t.eventTimeMs),
           receivedMs := Max(b.receivedMs, receivedMs))
  }

  function AddTrade(f: Flow, t: Trade, receivedMs: int): (Flow, bool) {
    var second := SecondOf(t.tradeTimeMs);
    if f.lastFlushed.Some? && second <= f.lastFlushed.value then (f, false)
    else
      var b := if second in f.buckets then f.buckets[second] else EmptyBucket(second, receivedMs);
      (f.(buckets := f.buckets[second := Added(b, t, receivedMs)]), true)
  }

  function Trimmed(rolling: seq<Rolled>, cutoffMs: int): seq<Rolled> {
    if rolling != [] && rolling[0].second < cutoffMs then Trimmed(rolling[1..], cutoffMs) else rolling
  }

  function DeltaSum(rolling: seq<Rolled>): int {
    if rolling == [] then 0 else DeltaSum(rolling[..|rolling| - 1]) + rolling[|rolling| - 1].delta
  }

  function TotalSum(rolling: seq<Rolled>): int {
    if rolling == [] then 0 else TotalSum(rolling[..|rolling| - 1]) + rolling[|rolling| - 1].total
  }

  function Ratio(numerator: int, denominator: int): Option<real> {
    if denominator <= 0 then None else Some(numerator as real / denominator as real)
  }

  function Build(f: Flow, b: Bucket): (Flow, Sample) {
    var rolled := Rolled(b.second, b.Delta(), b.TotalQuote());
    var ten, thirty :=
      Trimmed(f.rolling10 + [rolled], b.second - 9000), Trimmed(f.rolling30 + [rolled], b.second - 29_000);
    var cvd := f.cvd + b.Delta();
    (f.(cvd := cvd, rolling10 := ten, rolling30 := thirty),
     Sample(b, cvd, DeltaSum(ten), DeltaSum(thirty), Ratio(b.Delta(), b.TotalQuote()),
            Ratio(DeltaSum(ten), TotalSum(ten)), Ratio(DeltaSum(thirty), TotalSum(thirty))))
  }

  /** Emit one second, empty if nothing was collected for it. */
  function FlushOne(f: Flow, second: int, nowMs: int): (Flow, Sample) {
    var b := if second in f.buckets then f.buckets[second] else EmptyBucket(second, nowMs);
    var (built, sample) := Build(f.(buckets := f.buckets - {second}), b);
    (built.(lastFlushed := Some(second)), sample)
  }

  function FlushFrom(f: Flow, second: int, last: int, nowMs: int): (Flow, seq<Sample>)
    decreases last - second
  {
    if second > last then (f, [])
    else
      var (next, sample) := FlushOne(f, second, nowMs);
      var (done, rest) := FlushFrom(next, second + 1000, last, nowMs);
      (done, [sample] + rest)
  }

  lemma FlushFromSteps(f: Flow, second: int, last: int, nowMs: int, taken: seq<Sample>)
    requires second <= last
    ensures var (next, sample) := FlushOne(f, second, nowMs);
            var (done, rest) := FlushFrom(next, second + 1000, last, nowMs);
            var (all, samples) := FlushFrom(f, second, last, nowMs);
            all == done && taken + samples == taken + [sample] + rest
  {
    hide FlushOne;
  }

  lemma FlushFromEnds(f: Flow, second: int, last: int, nowMs: int)
    requires second > last
    ensures FlushFrom(f, second, last, nowMs) == (f, [])
  {
  }

  function Ready(f: Flow, nowMs: int, delayMs: int): set<int> {
    set s | s in f.buckets && s <= SecondOf(nowMs - Max(0, delayMs))
  }

  function Least(s: set<int>): (m: int)
    requires s != {}
    ensures m in s && forall x :: x in s ==> m <= x
  {
    var negated := set x | x in s :: -x;
    var some := MaxOf(s);
    assert -some in negated;
    assert forall x :: x in s ==> -x in negated;
    -MaxOf(negated)
  }

  function FlushReady(f: Flow, nowMs: int, delayMs: int): (Flow, seq<Sample>) {
    var ready := Ready(f, nowMs, delayMs);
    if ready == {} then (f, [])
    else
      var last := MaxOf(ready);
      if f.lastFlushed.Some? && last <= f.lastFlushed.value then (f, [])
      else FlushFrom(f, if f.lastFlushed.None? then Least(ready) else f.lastFlushed.value + 1000, last, nowMs)
  }

  // ---------------------------------------------------------------- in place

  class Aggregator {
    var buckets: map<int, Bucket>
    var lastFlushed: Option<int>
    var cvd: int
    var rolling10: seq<Rolled>
    var rolling30: seq<Rolled>

    function Model(): Flow
      reads this
    {
      Flow(buckets, lastFlushed, cvd, rolling10, rolling30)
    }

    constructor ()
      ensures Model() == NOTHING
    {
      buckets, lastFlushed, cvd, rolling10, rolling30 := map[], None, 0, [], [];
    }

    method Offer(t: Trade, receivedMs: int) returns (accepted: bool)
      modifies this`buckets
      ensures (Model(), accepted) == AddTrade(old(Model()), t, receivedMs)
    {
      var second := SecondOf(t.tradeTimeMs);
      if lastFlushed.Some? && second <= lastFlushed.value { return false; }
      if second !in buckets { buckets := buckets[second := EmptyBucket(second, receivedMs)]; }
      var bucket := buckets[second];
      if t.buyerIsMaker {
        bucket := bucket.(sellBase := bucket.sellBase + t.quantity, sellQuote := bucket.sellQuote + t.quote);
      } else {
        bucket := bucket.(buyBase := bucket.buyBase + t.quantity, buyQuote := bucket.buyQuote + t.quote);
      }
      bucket := bucket.(aggCount := bucket.aggCount + 1, tradeCount := bucket.tradeCount + t.tradeCount);
      bucket := bucket.(maxQuote := MaxWith(bucket.maxQuote, t.quote), firstId := MinWith(bucket.firstId, t.id));
      bucket := bucket.(lastId := MaxWith(bucket.lastId, t.id),
                        lastTradeMs := MaxWith(bucket.lastTradeMs, t.tradeTimeMs));
      bucket := bucket.(lastEventMs := MaxWith(bucket.lastEventMs, t.eventTimeMs));
      bucket := bucket.(receivedMs := Max(bucket.receivedMs, receivedMs));
      buckets := buckets[second := bucket];
      accepted := true;
      assert buckets == old(buckets)[second := bucket];
    }

    /** Drop what fell out of the window, oldest first. */
    method TrimRolling(rolling: seq<Rolled>, cutoffMs: int) returns (r: seq<Rolled>)
      ensures r == Trimmed(rolling, cutoffMs)
    {
      r := rolling;
      while r != [] && r[0].second < cutoffMs
        invariant Trimmed(r, cutoffMs) == Trimmed(rolling, cutoffMs)
        decreases |r|
      {
        r := r[1..];
      }
    }

    method BuildSample(bucket: Bucket) returns (sample: Sample)
      modifies this`cvd, this`rolling10, this`rolling30
      ensures (Model(), sample) == Build(old(Model()), bucket)
    {
      var delta, total := bucket.Delta(), bucket.TotalQuote();
      cvd := cvd + delta;
      rolling10 := TrimRolling(rolling10 + [Rolled(bucket.second, delta, total)], bucket.second - 9000);
      rolling30 := TrimRolling(rolling30 + [Rolled(bucket.second, delta, total)], bucket.second - 29_000);
      sample := Sample(bucket, cvd, DeltaSum(rolling10), DeltaSum(rolling30), Ratio(delta, total),
                       Ratio(DeltaSum(rolling10), TotalSum(rolling10)),
                       Ratio(DeltaSum(rolling30), TotalSum(rolling30)));
    }

    /** Take out one second, empty or not, and remember it as flushed. */
    method FlushSecond(second: int, nowMs: int) returns (sample: Sample)
      modifies this
      ensures (Model(), sample) == FlushOne(old(Model()), second, nowMs)
    {
      hide Build;
      var bucket := if second in buckets then buckets[second] else EmptyBucket(second, nowMs);
      buckets := buckets - {second};
      sample := BuildSample(bucket);
      lastFlushed := Some(second);
    }

    method Flush(nowMs: int, delayMs: int) returns (samples: seq<Sample>)
      modifies this
      ensures (Model(), samples) == FlushReady(old(Model()), nowMs, delayMs)
    {
      hide FlushOne, FlushFrom;
      samples := [];
      var ready := Ready(Model(), nowMs, delayMs);
      if ready == {} { return; }
      var last := MaxOf(ready);
      if lastFlushed.Some? && last <= lastFlushed.value { return; }
      var second := if lastFlushed.None? then Least(ready) else lastFlushed.value + 1000;
      ghost var target := FlushFrom(Model(), second, last, nowMs);
      assert samples + target.1 == target.1;
      while second <= last
        invariant var (done, rest) := FlushFrom(Model(), second, last, nowMs);
                  target == (done, samples + rest)
        decreases last - second
      {
        FlushFromSteps(Model(), second, last, nowMs, samples);
        var sample := FlushSecond(second, nowMs);
        samples := samples + [sample];
        second := second + 1000;
      }
      FlushFromEnds(Model(), second, last, nowMs);
      assert samples + [] == samples;
    }
  }
}
