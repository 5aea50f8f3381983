/**
 Flow aggregation refines a per-second fold of the accepted trades, over any interleaving
 of trades and flushes.
 */
module FlowRefinement {
  import opened Core
  import opened FlowAggregator

  datatype Receipt = Receipt(trade: Trade, receivedMs: int) {
    function Second(): int { SecondOf(trade.tradeTimeMs) }
  }

  datatype World = World(flow: Flow, accepted: seq<Receipt>, emitted: seq<Sample>)

  datatype Op = Offer(trade: Trade, receivedMs: int) | Tick(nowMs: int, delayMs: int)

  function Apply(w: World, op: Op): World {
    match op
    case Offer(t, receivedMs) =>
      var (flow, taken) := AddTrade(w.flow, t, receivedMs);
      World(flow, if taken then w.accepted + [Receipt(t, receivedMs)] else w.accepted, w.emitted)
    case Tick(nowMs, delayMs) =>
      var (flow, samples) := FlushReady(w.flow, nowMs, delayMs);
      World(flow, w.accepted, w.emitted + samples)
  }

  function Run(ops: seq<Op>): World {
    if ops == [] then World(NOTHING, [], []) else Apply(Run(ops[..|ops| - 1]), ops[|ops| - 1])
  }

  // ---------------------------------------------------------------- the reference fold

  /** One second's bucket, folded over the accepted trades in receipt order. */
  function Folded(rs: seq<Receipt>, second: int): Option<Bucket> {
    if rs == [] then None
    else
      var before, last := Folded(rs[..|rs| - 1], second), rs[|rs| - 1];
      if last.Second() != second then before
      else Some(Added(if before.Some? then before.value else EmptyBucket(second, last.receivedMs), last.trade,
                      last.receivedMs))
  }

  function CountIn(rs: seq<Receipt>, second: int): nat {
    if rs == [] then 0 else CountIn(rs[..|rs| - 1], second) + (if rs[|rs| - 1].Second() == second then 1 else 0)
  }

  function QuoteIn(rs: seq<Receipt>, second: int, maker: bool): int {
    if rs == [] then 0
    else
      var last := rs[|rs| - 1];
      QuoteIn(rs[..|rs| - 1], second, maker)
      + (if last.Second() == second && last.trade.buyerIsMaker == maker then last.trade.quote else 0)
  }

  predicate InSecond(rs: seq<Receipt>, i: int, second: int) { 0 <= i < |rs| && rs[i].Second() == second }

  /** What the folded bucket says of its second's trades. */
  ghost predicate Summarises(b: Bucket, rs: seq<Receipt>, second: int) {
    && b.second == second && b.aggCount == CountIn(rs, second)
    && b.buyQuote == QuoteIn(rs, second, false) && b.sellQuote == QuoteIn(rs, second, true)
    && b.maxQuote.Some? && b.firstId.Some? && b.lastId.Some?
    && (forall i :: InSecond(rs, i, second) ==>
          && rs[i].trade.quote <= b.maxQuote.value && b.firstId.value <= rs[i].trade.id <= b.lastId.value
          && rs[i].receivedMs <= b.receivedMs)
    && (exists i :: InSecond(rs, i, second) && rs[i].trade.quote == b.maxQuote.value)
    && (exists i :: InSecond(rs, i, second) && rs[i].trade.id == b.firstId.value)
    && (exists i :: InSecond(rs, i, second) && rs[i].trade.id == b.lastId.value)
  }

  /** The fold is empty exactly when the second had no trade, and otherwise summarises all of them. */
  lemma {:induction false} FoldSummarises(rs: seq<Receipt>, second: int)
    ensures Folded(rs, second).None? <==> CountIn(rs, second) == 0
    ensures Folded(rs, second).None? ==> forall i :: !InSecond(rs, i, second)
    ensures Folded(rs, second).Some? ==> Summarises(Folded(rs, second).value, rs, second)
  {
    if rs != [] {
      var n := |rs| - 1;
      var front := rs[..n];
      FoldSummarises(front, second);
      assert forall i :: 0 <= i < n ==> front[i] == rs[i];
      assert forall i :: InSecond(front, i, second) ==> InSecond(rs, i, second);
      assert forall i :: InSecond(rs, i, second) ==> i == n || InSecond(front, i, second);
      if rs[n].Second() == second {
        var before, after := Folded(front, second), Folded(rs, second).value;
        assert InSecond(rs, n, second);
        forall i | InSecond(rs, i, second)
          ensures rs[i].trade.quote <= after.maxQuote.value
                  && after.firstId.value <= rs[i].trade.id <= after.lastId.value
                  && rs[i].receivedMs <= after.receivedMs
        {
          if i < n { assert InSecond(front, i, second); }
        }
        if before.Some? { ExtremesStay(front, rs, before.value, after, second); }
        assert QuoteIn(rs, second, false) == after.buyQuote && QuoteIn(rs, second, true) == after.sellQuote
          by { EmptyQuotes(front, second); }
      }
    }
  }

  lemma {:induction false} EmptyQuotes(rs: seq<Receipt>, second: int)
    ensures CountIn(rs, second) == 0 ==> QuoteIn(rs, second, false) == 0 && QuoteIn(rs, second, true) == 0
  {
    if rs != [] { EmptyQuotes(rs[..|rs| - 1], second); }
  }

  function BaseIn(rs: seq<Receipt>, second: int, maker: bool): int {
    if rs == [] then 0
    else
      var last := rs[|rs| - 1];
      BaseIn(rs[..|rs| - 1], second, maker)
      + (if last.Second() == second && last.trade.buyerIsMaker == maker then last.trade.quantity else 0)
  }

  function TradesIn(rs: seq<Receipt>, second: int): int {
    if rs == [] then 0
    else
      var before, last := TradesIn(rs[..|rs| - 1], second), rs[|rs| - 1];
      before + (if last.Second() == second then last.trade.tradeCount else 0)
  }

  /** The bucket's base volumes, trade count and latest times are those of its second's trades. */
  ghost predicate Totals(b: Bucket, rs: seq<Receipt>, second: int) {
    && b.buyBase == BaseIn(rs, second, false) && b.sellBase == BaseIn(rs, second, true)
    && b.tradeCount == TradesIn(rs, second)
    && b.lastTradeMs.Some? && b.lastEventMs.Some?
    && (forall i :: InSecond(rs, i, second) ==>
          rs[i].trade.tradeTimeMs <= b.lastTradeMs.value && rs[i].trade.eventTimeMs <= b.lastEventMs.value)
    && (exists i :: InSecond(rs, i, second) && rs[i].trade.tradeTimeMs == b.lastTradeMs.value)
    && (exists i :: InSecond(rs, i, second) && rs[i].trade.eventTimeMs == b.lastEventMs.value)
  }

  lemma TotalsExtend(front: seq<Receipt>, r: Receipt, b: Bucket, second: int)
    requires Totals(b, front, second) && r.Second() == second
    ensures Totals(Added(b, r.trade, r.receivedMs), front + [r], second)
  {
    var rs, after := front + [r], Added(b, r.trade, r.receivedMs);
    var n := |front|;
    assert rs[..n] == front;
    assert InSecond(rs, n, second);
    var t :| InSecond(front, t, second) && front[t].trade.tradeTimeMs == b.lastTradeMs.value;
    var e :| InSecond(front, e, second) && front[e].trade.eventTimeMs == b.lastEventMs.value;
    assert InSecond(rs, t, second) && InSecond(rs, e, second);
    assert rs[if r.trade.tradeTimeMs > b.lastTradeMs.value then n else t].trade.tradeTimeMs == after.lastTradeMs.value;
    assert rs[if r.trade.eventTimeMs > b.lastEventMs.value then n else e].trade.eventTimeMs == after.lastEventMs.value;
    forall i | InSecond(rs, i, second)
      ensures rs[i].trade.tradeTimeMs <= after.lastTradeMs.value && rs[i].trade.eventTimeMs <= after.lastEventMs.value
    {
      if i < n { assert InSecond(front, i, second); }
    }
  }

  lemma TotalsStart(front: seq<Receipt>, r: Receipt, second: int)
    requires r.Second() == second && forall i :: !InSecond(front, i, second)
    requires BaseIn(front, second, false) == BaseIn(front, second, true) == TradesIn(front, second) == 0
    ensures Totals(Added(EmptyBucket(second, r.receivedMs), r.trade, r.receivedMs), front + [r], second)
  {
    var rs, n := front + [r], |front|;
    assert rs[..n] == front;
    assert InSecond(rs, n, second);
    forall i | InSecond(rs, i, second)
      ensures i == n
    {
      assert !InSecond(front, i, second);
    }
  }

  lemma TotalsSkip(front: seq<Receipt>, r: Receipt, b: Bucket, second: int)
    requires Totals(b, front, second) && r.Second() != second
    ensures Totals(b, front + [r], second)
  {
    var rs := front + [r];
    assert rs[..|front|] == front;
    forall i | InSecond(front, i, second)
      ensures InSecond(rs, i, second)
    {
    }
    var t :| InSecond(front, t, second) && front[t].trade.tradeTimeMs == b.lastTradeMs.value;
    var e :| InSecond(front, e, second) && front[e].trade.eventTimeMs == b.lastEventMs.value;
    assert InSecond(rs, t, second) && InSecond(rs, e, second);
    forall i | InSecond(rs, i, second)
      ensures rs[i].trade.tradeTimeMs <= b.lastTradeMs.value && rs[i].trade.eventTimeMs <= b.lastEventMs.value
    {
      assert InSecond(front, i, second);
    }
  }

  /** The other figures of a folded bucket, over all trades of its second. */
  lemma {:induction false} FoldTotals(rs: seq<Receipt>, second: int)
    ensures Folded(rs, second).None? ==>
              BaseIn(rs, second, false) == BaseIn(rs, second, true) == TradesIn(rs, second) == 0
    ensures Folded(rs, second).Some? ==> Totals(Folded(rs, second).value, rs, second)
  {
    hide Totals, Added, Receipt.Second;
    if rs != [] {
      var front, r := rs[..|rs| - 1], rs[|rs| - 1];
      FoldTotals(front, second);
      assert rs == front + [r];
      if r.Second() == second {
        if Folded(front, second).Some? {
          TotalsExtend(front, r, Folded(front, second).value, second);
        } else {
          FoldSummarises(front, second);
          TotalsStart(front, r, second);
        }
      } else if Folded(front, second).Some? {
        TotalsSkip(front, r, Folded(front, second).value, second);
      }
    }
  }

  lemma ExtremesStay(front: seq<Receipt>, rs: seq<Receipt>, before: Bucket, after: Bucket, second: int)
    requires rs != [] && front == rs[..|rs| - 1] && InSecond(rs, |rs| - 1, second)
    requires Summarises(before, front, second)
    requires after == Added(before, rs[|rs| - 1].trade, rs[|rs| - 1].receivedMs)
    ensures exists i :: InSecond(rs, i, second) && rs[i].trade.quote == after.maxQuote.value
    ensures exists i :: InSecond(rs, i, second) && rs[i].trade.id == after.firstId.value
    ensures exists i :: InSecond(rs, i, second) && rs[i].trade.id == after.lastId.value
  {
    var n := |rs| - 1;
    var top :| InSecond(front, top, second) && front[top].trade.quote == before.maxQuote.value;
    var low :| InSecond(front, low, second) && front[low].trade.id == before.firstId.value;
    var high :| InSecond(front, high, second) && front[high].trade.id == before.lastId.value;
    assert InSecond(rs, top, second) && InSecond(rs, low, second) && InSecond(rs, high, second);
    assert rs[if rs[n].trade.quote > before.maxQuote.value then n else top].trade.quote == after.maxQuote.value;
    assert rs[if rs[n].trade.id < before.firstId.value then n else low].trade.id == after.firstId.value;
    assert rs[if rs[n].trade.id > before.lastId.value then n else high].trade.id == after.lastId.value;
  }

  lemma FoldSkips(rs: seq<Receipt>, r: Receipt, second: int)
    ensures Folded(rs + [r], second)
            == if r.Second() != second then Folded(rs, second)
               else Some(Added(if Folded(rs, second).Some? then Folded(rs, second).value
                               else EmptyBucket(second, r.receivedMs), r.trade, r.receivedMs))
  {
    assert (rs + [r])[..|rs|] == rs;
  }

  lemma {:induction false} FoldedIsAligned(rs: seq<Receipt>, second: int)
    ensures Folded(rs, second).Some? ==> second % 1000 == 0 && Folded(rs, second).value.second == second
  {
    if rs != [] { FoldedIsAligned(rs[..|rs| - 1], second); }
  }

  // ---------------------------------------------------------------- invariants

  /** Open buckets are the folds of their seconds, all after the last flushed one. */
  ghost predicate BucketsOk(f: Flow, accepted: seq<Receipt>) {
    forall s :: s in f.buckets ==>
      s % 1000 == 0 && Folded(accepted, s) == Some(f.buckets[s]) && (f.lastFlushed.Some? ==> s > f.lastFlushed.value)
  }

  /** Every second that has trades is open or emitted. */
  ghost predicate AllPlaced(f: Flow, accepted: seq<Receipt>, emitted: seq<Sample>) {
    forall s :: Folded(accepted, s).Some? ==> s in f.buckets || Covered(emitted, s)
  }

  predicate Covered(emitted: seq<Sample>, s: int) {
    emitted != [] && emitted[0].bucket.second <= s <= emitted[|emitted| - 1].bucket.second
  }

  /** Emitted seconds are consecutive, up to the last flushed one. */
  predicate Consecutive(f: Flow, emitted: seq<Sample>) {
    && (emitted == [] <==> f.lastFlushed.None?)
    && (forall j | 0 <= j < |emitted| :: emitted[j].bucket.second == emitted[0].bucket.second + 1000 * j)
    && (emitted != [] ==> emitted[0].bucket.second % 1000 == 0
                          && f.lastFlushed == Some(emitted[|emitted| - 1].bucket.second))
  }

  /** An emitted bucket is its second's fold, or empty when the second had no trade. */
  ghost predicate EmittedOk(accepted: seq<Receipt>, emitted: seq<Sample>) {
    forall j :: 0 <= j < |emitted| ==> EmittedFold(accepted, emitted[j].bucket)
  }

  predicate EmittedFold(accepted: seq<Receipt>, b: Bucket) {
    match Folded(accepted, b.second)
    case None => b == EmptyBucket(b.second, b.receivedMs)
    case Some(folded) => b == folded
  }

  function DeltaTo(emitted: seq<Sample>, n: nat): int
    requires n <= |emitted|
  {
    if n == 0 then 0 else DeltaTo(emitted, n - 1) + emitted[n - 1].bucket.Delta()
  }

  /** Running sums: everything so far, and the last ten and thirty samples. */
  ghost predicate SumsOk(emitted: seq<Sample>) {
    forall j :: 0 <= j < |emitted| ==> NewestSums(emitted, j)
  }

  predicate NewestSums(emitted: seq<Sample>, j: nat)
    requires j < |emitted|
  {
    && emitted[j].cvd == DeltaTo(emitted, j + 1)
    && emitted[j].cvd10 == DeltaTo(emitted, j + 1) - DeltaTo(emitted, Max(0, j - 9))
    && emitted[j].cvd30 == DeltaTo(emitted, j + 1) - DeltaTo(emitted, Max(0, j - 29))
  }

  function Rolls(emitted: seq<Sample>): (r: seq<Rolled>)
    ensures |r| == |emitted|
  {
    seq(|emitted|, j requires 0 <= j < |emitted| =>
      Rolled(emitted[j].bucket.second, emitted[j].bucket.Delta(), emitted[j].bucket.TotalQuote()))
  }

  predicate RollingOk(f: Flow, emitted: seq<Sample>) {
    && f.cvd == DeltaTo(emitted, |emitted|)
    && f.rolling10 == Rolls(emitted)[Max(0, |emitted| - 10)..]
    && f.rolling30 == Rolls(emitted)[Max(0, |emitted| - 30)..]
  }

  ghost predicate FlowOk(w: World) {
    && BucketsOk(w.flow, w.accepted) && AllPlaced(w.flow, w.accepted, w.emitted) && Consecutive(w.flow, w.emitted)
    && EmittedOk(w.accepted, w.emitted) && SumsOk(w.emitted) && RollingOk(w.flow, w.emitted)
  }

  // ---------------------------------------------------------------- trades

  lemma OfferKeeps(w: World, t: Trade, receivedMs: int)
    requires FlowOk(w)
    ensures FlowOk(Apply(w, Offer(t, receivedMs)))
  {
    hide SumsOk, RollingOk, Added, Folded, BucketsOk, AllPlaced, EmittedOk;
    var r := Receipt(t, receivedMs);
    var (flow, taken) := AddTrade(w.flow, t, receivedMs);
    if taken {
      LateSecondIsOpen(w, r.Second());
      OpenAfterOffer(w, r, flow);
      EmittedAfterOffer(w, r);
      SameRolling(w, flow);
    }
  }

  lemma SameRolling(w: World, flow: Flow)
    requires RollingOk(w.flow, w.emitted) && flow == w.flow.(buckets := flow.buckets)
    ensures RollingOk(flow, w.emitted)
  {
  }

  lemma OpenAfterOffer(w: World, r: Receipt, flow: Flow)
    requires BucketsOk(w.flow, w.accepted) && AllPlaced(w.flow, w.accepted, w.emitted)
    requires (flow, true) == AddTrade(w.flow, r.trade, r.receivedMs)
    requires Folded(w.accepted, r.Second()).Some? ==> r.Second() in w.flow.buckets
    ensures BucketsOk(flow, w.accepted + [r]) && AllPlaced(flow, w.accepted + [r], w.emitted)
  {
    hide Folded, Added;
    forall s
      ensures s in flow.buckets ==>
                s % 1000 == 0 && Folded(w.accepted + [r], s) == Some(flow.buckets[s])
                && (flow.lastFlushed.Some? ==> s > flow.lastFlushed.value)
      ensures Folded(w.accepted + [r], s).Some? ==> s in flow.buckets || Covered(w.emitted, s)
    {
      FoldSkips(w.accepted, r, s);
    }
  }

  lemma EmittedAfterOffer(w: World, r: Receipt)
    requires EmittedOk(w.accepted, w.emitted)
    requires forall j :: 0 <= j < |w.emitted| ==> w.emitted[j].bucket.second != r.Second()
    ensures EmittedOk(w.accepted + [r], w.emitted)
  {
    hide Folded, Added;
    forall j | 0 <= j < |w.emitted| ensures EmittedFold(w.accepted + [r], w.emitted[j].bucket) {
      FoldSkips(w.accepted, r, w.emitted[j].bucket.second);
      assert EmittedFold(w.accepted, w.emitted[j].bucket);
    }
  }

  /** A second after the last flushed one has its trades in an open bucket. */
  lemma LateSecondIsOpen(w: World, s: int)
    requires FlowOk(w) && (w.flow.lastFlushed.Some? ==> s > w.flow.lastFlushed.value)
    ensures Folded(w.accepted, s).Some? ==> s in w.flow.buckets
    ensures forall j :: 0 <= j < |w.emitted| ==> w.emitted[j].bucket.second != s
  {
    hide SumsOk, RollingOk, Folded;
  }

  // ---------------------------------------------------------------- rolling windows

  predicate Steady(r: seq<Rolled>) {
    forall i | 0 <= i < |r| :: r[i].second == r[0].second + 1000 * i
  }

  /** Trimming a run of consecutive seconds keeps exactly the newest `keep`. */
  lemma {:induction false} TrimKeepsNewest(r: seq<Rolled>, keep: nat)
    requires r != [] && Steady(r) && keep >= 1
    ensures Trimmed(r, r[|r| - 1].second - 1000 * (keep - 1)) == r[Max(0, |r| - keep)..]
    decreases |r|
  {
    var cutoff := r[|r| - 1].second - 1000 * (keep - 1);
    if |r| > keep {
      assert r[1..][|r| - 2] == r[|r| - 1];
      assert Steady(r[1..]);
      TrimKeepsNewest(r[1..], keep);
      assert r[1..][Max(0, |r| - 1 - keep)..] == r[|r| - keep..];
    } else {
      assert r[0].second >= cutoff;
    }
  }

  lemma {:induction false} DeltaOfRolls(emitted: seq<Sample>, from: nat)
    requires from <= |emitted|
    ensures DeltaSum(Rolls(emitted)[from..]) == DeltaTo(emitted, |emitted|) - DeltaTo(emitted, from)
    decreases |emitted| - from
  {
    if from < |emitted| {
      DeltaOfRolls(emitted, from + 1);
      SumSplits(Rolls(emitted)[from..]);
      assert Rolls(emitted)[from..][1..] == Rolls(emitted)[from + 1..];
    }
  }

  lemma {:induction false} SumSplits(r: seq<Rolled>)
    requires r != []
    ensures DeltaSum(r) == r[0].delta + DeltaSum(r[1..])
    decreases |r|
  {
    var n := |r| - 1;
    if n > 0 {
      SumSplits(r[..n]);
      assert r[1..][..n - 1] == r[..n][1..];
    }
  }

  lemma {:induction false} DeltaPrefix(es: seq<Sample>, more: seq<Sample>, n: nat)
    requires n <= |es|
    ensures DeltaTo(es + more, n) == DeltaTo(es, n)
  {
    if n > 0 { DeltaPrefix(es, more, n - 1); }
  }

  // ---------------------------------------------------------------- flushing

  /** The next second to emit follows the last one and none open lies before it. */
  ghost predicate NextSecond(w: World, second: int) {
    && second % 1000 == 0 && (w.flow.lastFlushed.Some? ==> second == w.flow.lastFlushed.value + 1000)
    && forall s :: s in w.flow.buckets ==> s >= second
  }

  lemma BuiltRolls(w: World, b: Bucket)
    requires Consecutive(w.flow, w.emitted) && RollingOk(w.flow, w.emitted)
    requires w.flow.lastFlushed.Some? ==> b.second == w.flow.lastFlushed.value + 1000
    ensures var (f, sample) := Build(w.flow, b);
            && RollingOk(f, w.emitted + [sample]) && sample.bucket == b
            && NewestSums(w.emitted + [sample], |w.emitted|)
  {
    hide Trimmed, DeltaSum, TotalSum, Ratio, Consecutive;
    var n := |w.emitted|;
    var (f, sample) := Build(w.flow, b);
    var emitted := w.emitted + [sample];
    var rolled := Rolled(b.second, b.Delta(), b.TotalQuote());
    assert Rolls(emitted) == Rolls(w.emitted) + [rolled];
    DeltaPrefix(w.emitted, [sample], n);
    NewestRolls(w, emitted, rolled, 10);
    NewestRolls(w, emitted, rolled, 30);
    DeltaOfRolls(emitted, Max(0, n - 9));
    DeltaOfRolls(emitted, Max(0, n - 29));
  }

  lemma SumsExtend(emitted: seq<Sample>, sample: Sample)
    requires SumsOk(emitted) && NewestSums(emitted + [sample], |emitted|)
    ensures SumsOk(emitted + [sample])
  {
    var all := emitted + [sample];
    forall j | 0 <= j < |all| ensures NewestSums(all, j) {
      if j < |emitted| {
        assert all[j] == emitted[j] && NewestSums(emitted, j);
        DeltaPrefix(emitted, [sample], j + 1);
        DeltaPrefix(emitted, [sample], Max(0, j - 9));
        DeltaPrefix(emitted, [sample], Max(0, j - 29));
      }
    }
  }

  lemma RollsLength(emitted: seq<Sample>)
    ensures |Rolls(emitted)| == |emitted|
  {
  }

  lemma RollsAreSteady(w: World, from: nat, rolled: Rolled)
    requires Consecutive(w.flow, w.emitted) && from <= |w.emitted|
    requires w.flow.lastFlushed.Some? ==> rolled.second == w.flow.lastFlushed.value + 1000
    ensures Steady(Rolls(w.emitted)[from..] + [rolled])
  {
    var r := Rolls(w.emitted)[from..] + [rolled];
    forall i | 0 <= i < |r|
      ensures r[i].second == r[0].second + 1000 * i
    {
    }
  }

  lemma NewestRolls(w: World, emitted: seq<Sample>, rolled: Rolled, keep: nat)
    requires Consecutive(w.flow, w.emitted) && |emitted| == |w.emitted| + 1 && keep in {10, 30}
    requires w.flow.lastFlushed.Some? ==> rolled.second == w.flow.lastFlushed.value + 1000
    requires Rolls(emitted) == Rolls(w.emitted) + [rolled]
    ensures Trimmed(Rolls(w.emitted)[Max(0, |w.emitted| - keep)..] + [rolled], rolled.second - 1000 * (keep - 1))
            == Rolls(emitted)[Max(0, |emitted| - keep)..]
  {
    hide Trimmed, Steady, Consecutive, Rolls;
    var n := |w.emitted|;
    var from := Max(0, n - keep);
    RollsLength(w.emitted);
    RollsLength(emitted);
    var r := Rolls(w.emitted)[from..] + [rolled];
    assert r == Rolls(emitted)[from..];
    RollsAreSteady(w, from, rolled);
    TrimKeepsNewest(r, keep);
    assert r[Max(0, |r| - keep)..] == Rolls(emitted)[Max(0, |emitted| - keep)..];
  }

  lemma FlushOneKeeps(w: World, second: int, nowMs: int)
    requires FlowOk(w) && NextSecond(w, second)
    ensures var (flow, sample) := FlushOne(w.flow, second, nowMs);
            var a := World(flow, w.accepted, w.emitted + [sample]);
            FlowOk(a) && NextSecond(a, second + 1000) && flow.buckets == w.flow.buckets - {second}
            && flow.lastFlushed == Some(second)
  {
    hide SumsOk, NewestSums, Folded, Added, Trimmed, AllPlaced, BucketsOk, EmittedOk, Rolls, DeltaTo;
    var b := if second in w.flow.buckets then w.flow.buckets[second] else EmptyBucket(second, nowMs);
    var (flow, sample) := FlushOne(w.flow, second, nowMs);
    var a := World(flow, w.accepted, w.emitted + [sample]);
    FlushedBucket(w, b, second, nowMs);
    FlushedSums(w, b, second, nowMs);
    PlacedAfterFlush(w, a, second, sample);
    EmittedExtends(w.accepted, w.emitted, sample);
  }

  lemma EmittedExtends(accepted: seq<Receipt>, emitted: seq<Sample>, sample: Sample)
    requires EmittedOk(accepted, emitted) && EmittedFold(accepted, sample.bucket)
    ensures EmittedOk(accepted, emitted + [sample])
  {
    hide Folded;
  }

  lemma FlushedBucket(w: World, b: Bucket, second: int, nowMs: int)
    requires FlowOk(w) && NextSecond(w, second)
    requires b == if second in w.flow.buckets then w.flow.buckets[second] else EmptyBucket(second, nowMs)
    ensures EmittedFold(w.accepted, b) && b.second == second
  {
    hide SumsOk, RollingOk, Folded;
    FoldedIsAligned(w.accepted, second);
    LateSecondIsOpen(w, second);
  }

  lemma FlushedSums(w: World, b: Bucket, second: int, nowMs: int)
    requires FlowOk(w) && NextSecond(w, second) && b.second == second
    requires b == if second in w.flow.buckets then w.flow.buckets[second] else EmptyBucket(second, nowMs)
    ensures var (flow, sample) := FlushOne(w.flow, second, nowMs);
            && SumsOk(w.emitted + [sample]) && RollingOk(flow, w.emitted + [sample])
            && sample.bucket == b && flow.lastFlushed == Some(second) && flow.buckets == w.flow.buckets - {second}
  {
    hide Trimmed, SumsOk, NewestSums, BucketsOk, AllPlaced, EmittedOk, DeltaTo, Rolls;
    var popped := w.(flow := w.flow.(buckets := w.flow.buckets - {second}));
    BuiltRolls(popped, b);
    SumsExtend(w.emitted, FlushOne(w.flow, second, nowMs).1);
  }

  lemma PlacedAfterFlush(w: World, a: World, second: int, sample: Sample)
    requires FlowOk(w) && NextSecond(w, second) && a.accepted == w.accepted && a.emitted == w.emitted + [sample]
    requires a.flow.buckets == w.flow.buckets - {second} && a.flow.lastFlushed == Some(second)
    requires sample.bucket.second == second
    ensures BucketsOk(a.flow, a.accepted) && AllPlaced(a.flow, a.accepted, a.emitted) && Consecutive(a.flow, a.emitted)
    ensures NextSecond(a, second + 1000)
  {
    hide SumsOk, RollingOk, Folded, EmittedOk;
    forall s | Folded(a.accepted, s).Some? ensures s in a.flow.buckets || Covered(a.emitted, s) {
      if s !in w.flow.buckets { assert Covered(w.emitted, s); }
    }
  }

  lemma {:induction false} FlushFromKeeps(w: World, second: int, last: int, nowMs: int)
    requires FlowOk(w) && NextSecond(w, second)
    ensures var (flow, samples) := FlushFrom(w.flow, second, last, nowMs);
            FlowOk(World(flow, w.accepted, w.emitted + samples))
    decreases last - second
  {
    hide FlowOk, NextSecond, FlushOne;
    if second <= last {
      FlushOneKeeps(w, second, nowMs);
      var (next, sample) := FlushOne(w.flow, second, nowMs);
      var mid := World(next, w.accepted, w.emitted + [sample]);
      FlushFromKeeps(mid, second + 1000, last, nowMs);
      var rest := FlushFrom(next, second + 1000, last, nowMs).1;
      assert w.emitted + [sample] + rest == w.emitted + ([sample] + rest);
    } else {
      assert w.emitted + [] == w.emitted;
    }
  }

  lemma TickKeeps(w: World, nowMs: int, delayMs: int)
    requires FlowOk(w)
    ensures FlowOk(Apply(w, Tick(nowMs, delayMs)))
  {
    hide SumsOk, RollingOk, Folded, EmittedOk, AllPlaced, FlushFrom;
    var ready := Ready(w.flow, nowMs, delayMs);
    assert w.emitted + [] == w.emitted;
    if ready != {} {
      var last := MaxOf(ready);
      if w.flow.lastFlushed.None? || last > w.flow.lastFlushed.value {
        var second := if w.flow.lastFlushed.None? then Least(ready) else w.flow.lastFlushed.value + 1000;
        assert NextSecond(w, second) by { FirstSecond(w, nowMs, delayMs, second); }
        FlushFromKeeps(w, second, last, nowMs);
      }
    }
  }

  lemma LeastIsFirst(f: Flow, nowMs: int, delayMs: int, s: int)
    requires Ready(f, nowMs, delayMs) != {} && s in f.buckets
    ensures Least(Ready(f, nowMs, delayMs)) in f.buckets && Least(Ready(f, nowMs, delayMs)) <= s
  {
    hide Least;
    assert s !in Ready(f, nowMs, delayMs) ==> s > SecondOf(nowMs - Max(0, delayMs));
  }

  lemma ReadyIsOpen(f: Flow, nowMs: int, delayMs: int)
    requires Ready(f, nowMs, delayMs) != {}
    ensures Least(Ready(f, nowMs, delayMs)) in f.buckets
  {
    hide Least;
  }

  lemma FirstSecond(w: World, nowMs: int, delayMs: int, second: int)
    requires FlowOk(w) && Ready(w.flow, nowMs, delayMs) != {}
    requires second == if w.flow.lastFlushed.None? then Least(Ready(w.flow, nowMs, delayMs))
                       else w.flow.lastFlushed.value + 1000
    ensures NextSecond(w, second)
  {
    hide SumsOk, RollingOk, Folded, EmittedOk, AllPlaced, Ready, Least;
    forall s | s in w.flow.buckets ensures s >= second && s % 1000 == 0 && second % 1000 == 0 {
      LeastIsFirst(w.flow, nowMs, delayMs, s);
    }
    if w.flow.lastFlushed.None? { ReadyIsOpen(w.flow, nowMs, delayMs); }
  }

  /**
   Flow aggregation refines a per-second fold: over any interleaving of trades and flushes,
   emitted seconds are consecutive, no open bucket lies at or before the last flushed one,
   every second that had accepted trades is open or emitted with exactly their fold, and
   the cumulative and rolling deltas are the sums over all, the last ten and the last
   thirty samples.
   */
  lemma {:induction false} AggregationIsFold(ops: seq<Op>)
    ensures FlowOk(Run(ops))
  {
    hide FlowOk, Apply;
    if ops == [] {
      assert FlowOk(World(NOTHING, [], [])) by { NothingIsOk(); }
    } else {
      var w := Run(ops[..|ops| - 1]);
      AggregationIsFold(ops[..|ops| - 1]);
      match ops[|ops| - 1]
      case Offer(t, receivedMs) => OfferKeeps(w, t, receivedMs);
      case Tick(nowMs, delayMs) => TickKeeps(w, nowMs, delayMs);
    }
  }

  lemma NothingIsOk()
    ensures FlowOk(World(NOTHING, [], []))
  {
  }

  lemma SampleOf(w: World, s: int) returns (j: int)
    requires FlowOk(w) && s % 1000 == 0 && Covered(w.emitted, s)
    ensures 0 <= j < |w.emitted| && w.emitted[j].bucket.second == s
    ensures forall k :: 0 <= k < |w.emitted| && k != j ==> w.emitted[k].bucket.second != s
  {
    hide SumsOk, RollingOk, BucketsOk, AllPlaced, EmittedOk;
    var first := w.emitted[0].bucket.second;
    j := (s - first) / 1000;
    assert first + 1000 * j == s;
  }

  /** Each accepted trade is counted in one place only: its own open bucket or the one sample of its second. */
  lemma EachTradeOnce(ops: seq<Op>, i: int)
    requires 0 <= i < |Run(ops).accepted|
    ensures var w := Run(ops);
            var s := w.accepted[i].Second();
            if s in w.flow.buckets then
              Summarises(w.flow.buckets[s], w.accepted, s)
              && forall j :: 0 <= j < |w.emitted| ==> w.emitted[j].bucket.second != s
            else
              exists j :: 0 <= j < |w.emitted| && w.emitted[j].bucket.second == s
                          && Summarises(w.emitted[j].bucket, w.accepted, s)
                          && forall k :: 0 <= k < |w.emitted| && k != j ==> w.emitted[k].bucket.second != s
  {
    hide FlowOk, Folded, Summarises, Run;
    AggregationIsFold(ops);
    var w := Run(ops);
    var s := w.accepted[i].Second();
    FoldSummarises(w.accepted, s);
    assert InSecond(w.accepted, i, s);
    PlaceOf(w, s);
    if s in w.flow.buckets {
      LateSecondIsOpen(w, s);
    } else {
      FoldedIsAligned(w.accepted, s);
      var j := SampleOf(w, s);
      EmittedIsFold(w, j);
    }
  }

  lemma PlaceOf(w: World, s: int)
    requires FlowOk(w) && Folded(w.accepted, s).Some?
    ensures s in w.flow.buckets ==> Folded(w.accepted, s) == Some(w.flow.buckets[s])
                                    && (w.flow.lastFlushed.Some? ==> s > w.flow.lastFlushed.value)
    ensures s !in w.flow.buckets ==> Covered(w.emitted, s)
  {
    hide SumsOk, RollingOk, Folded, EmittedOk;
  }

  lemma EmittedIsFold(w: World, j: int)
    requires FlowOk(w) && 0 <= j < |w.emitted| && Folded(w.accepted, w.emitted[j].bucket.second).Some?
    ensures Some(w.emitted[j].bucket) == Folded(w.accepted, w.emitted[j].bucket.second)
  {
    hide SumsOk, RollingOk, Folded, BucketsOk, AllPlaced;
    assert EmittedFold(w.accepted, w.emitted[j].bucket);
  }
}
