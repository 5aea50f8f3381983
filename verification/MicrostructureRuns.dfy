/**
 The aggregate loop (price_collector/binance_microstructure_collector.py) over whole runs:
 rows are consecutive seconds, each staged trade is counted in exactly the row of its
 receipt time or drops with the next rows marked unhealthy.
 */
module MicrostructureRuns {
  import opened Core
  import opened Microstructure

  datatype Dropped = Dropped(event: Event, rowsBefore: nat)

  datatype World = World(collector: Collector, pending: seq<Event>, nextBoundary: int, lastBoundary: Option<int>,
                         clock: int,
                         accepted: seq<Event>, dropped: seq<Dropped>, rows: seq<Row>)

  /** One event taken from the queue at some clock reading, or one boundary finished. */
  datatype Op = Stage(event: Event, detectedMs: int) | Finish(nowMs: int, finalizationMs: int, quotesFine: bool)

  function FirstBoundary(nowMs: int): int { (nowMs / 1000 + 1) * 1000 }

  function Started(c: Collector, nowMs: int): World {
    World(c, [], FirstBoundary(nowMs), None, nowMs, [], [], [])
  }

  /** Clock readings never go back, and a boundary waits for its flush delay. */
  predicate Enabled(w: World, op: Op, delayMs: nat) {
    match op
    case Stage(_, detectedMs) => w.clock <= detectedMs
    case Finish(nowMs, finalizationMs, _) => w.clock <= nowMs <= finalizationMs && w.nextBoundary + delayMs <= nowMs
  }

  function Applies(w: World, op: Op): World {
    match op
    case Stage(e, detectedMs) =>
      if Late(e, w.lastBoundary) then
        w.(collector := Gapped(w.collector, detectedMs), clock := detectedMs,
           dropped := w.dropped + [Dropped(e, |w.rows|)])
      else w.(pending := Inserted(e, w.pending), clock := detectedMs, accepted := w.accepted + [e])
    case Finish(_, finalizationMs, quotesFine) =>
      var done := Finalized(w.collector, w.pending, w.nextBoundary, Max(0, finalizationMs - w.nextBoundary),
                            quotesFine);
      w.(collector := done.collector, pending := done.pending, nextBoundary := w.nextBoundary + 1000,
         lastBoundary := Some(w.nextBoundary), clock := finalizationMs, rows := w.rows + [done.row])
  }

  ghost predicate Runs(c: Collector, startMs: int, delayMs: nat, ops: seq<Op>) {
    ops == [] || (Runs(c, startMs, delayMs, ops[..|ops| - 1])
                  && Enabled(After(c, startMs, ops[..|ops| - 1]), ops[|ops| - 1], delayMs))
  }

  function After(c: Collector, startMs: int, ops: seq<Op>): World {
    if ops == [] then Started(c, startMs) else Applies(After(c, startMs, ops[..|ops| - 1]), ops[|ops| - 1])
  }

  // ---------------------------------------------------------------- the reference

  /** Everything accepted, in receipt order. */
  function Sorted(es: seq<Event>): seq<Event> {
    if es == [] then [] else Inserted(es[|es| - 1], Sorted(es[..|es| - 1]))
  }

  function Since(es: seq<Event>, lo: Option<int>): seq<Event> {
    if es == [] then []
    else if lo.None? || lo.value <= es[0].receivedMs then [es[0]] + Since(es[1..], lo)
    else Since(es[1..], lo)
  }

  function Between(es: seq<Event>, lo: int, hi: int): seq<Event> {
    if es == [] then []
    else if lo <= es[0].receivedMs < hi then [es[0]] + Between(es[1..], lo, hi)
    else Between(es[1..], lo, hi)
  }

  datatype Venue = Spot | Futures

  function Count(t: Totals, e: Event, venue: Venue): Totals {
    match venue
    case Spot => if e.kind.SpotTrade? then Observed(t, e.kind.trade, e.receivedMs) else t
    case Futures => if e.kind.FuturesTrade? then Observed(t, e.kind.trade, e.receivedMs) else t
  }

  /** One venue's totals over a stretch of events, from nothing. */
  function Tally(es: seq<Event>, venue: Venue): Totals {
    if es == [] then EMPTY else Count(Tally(es[..|es| - 1], venue), es[|es| - 1], venue)
  }

  /** The interval's own figures; the last receipt time also remembers earlier intervals. */
  function Figures(t: Totals): Totals { t.(lastReceived := None) }

  function TotalsOf(c: Collector, venue: Venue): Totals { if venue.Spot? then c.spot else c.futures }

  function RowTotals(r: Row, venue: Venue): Totals { if venue.Spot? then r.spot else r.futures }

  function SecondOf(startMs: int, k: int): int { FirstBoundary(startMs) - 1000 + 1000 * k }

  /** Row k holds its own second, and exactly the accepted events received within it. */
  ghost predicate RowIsCausal(w: World, startMs: int, k: int)
    requires 0 <= k < |w.rows|
  {
    var second := SecondOf(startMs, k);
    && w.rows[k].second == second
    && (k > 0 ==> w.rows[k].span == Some(1000))
    && forall v: Venue :: Figures(RowTotals(w.rows[k], v))
         == Figures(Tally(Between(Sorted(w.accepted), second, second + 1000), v))
  }

  ghost predicate Ordered(es: seq<Event>) { forall i, j :: 0 <= i < j < |es| ==> !Before(es[j], es[i]) }

  // ---------------------------------------------------------------- order

  lemma {:induction false} InsertionKeepsOrder(e: Event, es: seq<Event>)
    requires Ordered(es)
    ensures Ordered(Inserted(e, es))
    ensures multiset(Inserted(e, es)) == multiset(es) + multiset{e}
  {
    if es != [] && !Before(e, es[0]) {
      assert es == [es[0]] + es[1..];
      InsertionKeepsOrder(e, es[1..]);
      var rest := Inserted(e, es[1..]);
      forall j | 0 <= j < |rest|
        ensures !Before(rest[j], es[0])
      {
        assert rest[j] in multiset(rest);
        if rest[j] != e { assert rest[j] in es[1..]; }
      }
    }
  }

  lemma NothingIsOrdered()
    ensures Ordered([])
  {
  }

  /** Receipt order is a rearrangement of what was accepted. */
  lemma {:induction false} SortedIsPermutation(es: seq<Event>)
    ensures Ordered(Sorted(es)) && multiset(Sorted(es)) == multiset(es)
  {
    hide Ordered, Inserted;
    if es == [] {
      NothingIsOrdered();
    } else {
      var front, last := es[..|es| - 1], es[|es| - 1];
      SortedIsPermutation(front);
      InsertionKeepsOrder(last, Sorted(front));
      assert es == front + [last];
    }
  }

  lemma {:induction false} SinceIsAll(es: seq<Event>, lo: Option<int>)
    requires forall e <- es :: lo.None? || lo.value <= e.receivedMs
    ensures Since(es, lo) == es
  {
    if es != [] { SinceIsAll(es[1..], lo); }
  }

  lemma {:induction false} SinceAfterInsert(e: Event, es: seq<Event>, lo: Option<int>)
    requires Ordered(es)
    ensures Since(Inserted(e, es), lo)
         == if lo.None? || lo.value <= e.receivedMs then Inserted(e, Since(es, lo)) else Since(es, lo)
  {
    if es != [] {
      if Before(e, es[0]) {
        assert ([e] + es)[1..] == es;
        if lo.None? || lo.value <= e.receivedMs {
          SinceIsAll(es, lo);
          SinceIsAll([e] + es, lo);
        }
      } else {
        assert ([es[0]] + Inserted(e, es[1..]))[1..] == Inserted(e, es[1..]);
        SinceAfterInsert(e, es[1..], lo);
        var tail := Since(es[1..], lo);
        assert ([es[0]] + tail)[1..] == tail;
      }
    }
  }

  lemma {:induction false} BetweenAfterInsert(e: Event, es: seq<Event>, lo: int, hi: int)
    requires !(lo <= e.receivedMs < hi)
    ensures Between(Inserted(e, es), lo, hi) == Between(es, lo, hi)
  {
    if es == [] || Before(e, es[0]) {
      assert ([e] + es)[1..] == es;
    } else {
      assert ([es[0]] + Inserted(e, es[1..]))[1..] == Inserted(e, es[1..]);
      BetweenAfterInsert(e, es[1..], lo, hi);
    }
  }

  lemma {:induction false} SinceKeepsOrder(es: seq<Event>, lo: Option<int>)
    requires Ordered(es)
    ensures Ordered(Since(es, lo))
    ensures forall e <- Since(es, lo) :: e in es && (lo.Some? ==> lo.value <= e.receivedMs)
  {
    if es != [] { SinceKeepsOrder(es[1..], lo); }
  }

  lemma {:induction false} SinceSince(es: seq<Event>, a: Option<int>, b: int)
    requires a.Some? ==> a.value <= b
    ensures Since(Since(es, a), Some(b)) == Since(es, Some(b))
  {
    if es != [] {
      SinceSince(es[1..], a, b);
      var tail := Since(es[1..], a);
      if a.None? || a.value <= es[0].receivedMs { assert ([es[0]] + tail)[1..] == tail; }
    }
  }

  lemma {:induction false} BetweenSince(es: seq<Event>, lo: int, hi: int)
    ensures Between(Since(es, Some(lo)), lo, hi) == Between(es, lo, hi)
  {
    if es != [] {
      BetweenSince(es[1..], lo, hi);
      var tail := Since(es[1..], Some(lo));
      if lo <= es[0].receivedMs {
        assert ([es[0]] + tail)[1..] == tail;
      } else {
        assert Since(es, Some(lo)) == tail;
      }
    }
  }

  // ---------------------------------------------------------------- the two loops

  lemma {:induction false} BetweenIsNone(es: seq<Event>, lo: int, hi: int)
    requires forall e <- es :: !(lo <= e.receivedMs < hi)
    ensures Between(es, lo, hi) == []
  {
    if es != [] { BetweenIsNone(es[1..], lo, hi); }
  }

  function AllApplied(c: Collector, es: seq<Event>): Collector
    decreases |es|
  {
    if es == [] then c else AllApplied(Applied(c, es[0]), es[1..])
  }

  lemma {:induction false} BelowIsTheInterval(c: Collector, es: seq<Event>, lo: int, hi: int)
    requires Ordered(es) && forall e <- es :: lo <= e.receivedMs
    ensures AppliedBelow(c, es, hi) == (AllApplied(c, Between(es, lo, hi)), Since(es, Some(hi)))
    decreases |es|
  {
    hide Applied;
    if es != [] {
      if es[0].receivedMs < hi {
        BelowIsTheInterval(Applied(c, es[0]), es[1..], lo, hi);
        var rest := Between(es[1..], lo, hi);
        assert ([es[0]] + rest)[1..] == rest;
        assert AllApplied(c, [es[0]] + rest) == AllApplied(Applied(c, es[0]), rest);
      } else {
        forall e | e in es
          ensures hi <= e.receivedMs
        {
          var j :| 0 <= j < |es| && es[j] == e;
          assert j > 0 ==> !Before(es[j], es[0]);
        }
        BetweenIsNone(es, lo, hi);
        SinceIsAll(es, Some(hi));
      }
    }
  }

  ghost predicate SameTotals(a: Collector, b: Collector) {
    a.spot == b.spot && a.futures == b.futures && a.lastSample == b.lastSample
  }

  lemma {:induction false} StaleLeavesTheRest(c: Collector, es: seq<Event>, lo: int)
    requires Ordered(es)
    ensures var (kept, rest) := WithoutStale(c, es, lo);
            && rest == Since(es, Some(lo)) && SameTotals(kept, c) && kept.unhealthyUntil >= c.unhealthyUntil
    ensures (forall e <- es :: lo <= e.receivedMs) ==> WithoutStale(c, es, lo) == (c, es)
    ensures |Since(es, Some(lo))| <= |es| && ((exists e <- es :: e.receivedMs < lo) ==> |Since(es, Some(lo))| < |es|)
    decreases |es|
  {
    if es != [] {
      if es[0].receivedMs < lo {
        StaleLeavesTheRest(if Connects(es[0]) then Applied(c, es[0]) else c, es[1..], lo);
      } else {
        forall e | e in es
          ensures lo <= e.receivedMs
        {
          var j :| 0 <= j < |es| && es[j] == e;
          assert j > 0 ==> !Before(es[j], es[0]);
        }
        SinceIsAll(es, Some(lo));
      }
    }
  }

  // ---------------------------------------------------------------- totals

  lemma {:induction false} TallyFromReset(c: Collector, es: seq<Event>, k: nat, v: Venue)
    requires k <= |es| && TotalsOf(c, v) == ResetInterval(TotalsOf(c, v))
    ensures Figures(TotalsOf(AllApplied(c, es[..k]), v)) == Figures(Tally(es[..k], v))
    decreases k
  {
    hide Observed;
    if k > 0 {
      TallyFromReset(c, es, k - 1, v);
      assert es[..k][..k - 1] == es[..k - 1];
      AppliedLast(c, es[..k]);
      SameFigures(TotalsOf(AllApplied(c, es[..k - 1]), v), Tally(es[..k - 1], v), es[k - 1], v);
    }
  }

  lemma SameFigures(a: Totals, b: Totals, e: Event, v: Venue)
    requires Figures(a) == Figures(b)
    ensures Figures(Count(a, e, v)) == Figures(Count(b, e, v))
  {
  }

  lemma {:induction false} AppliedLast(c: Collector, es: seq<Event>)
    requires es != []
    ensures AllApplied(c, es) == Applied(AllApplied(c, es[..|es| - 1]), es[|es| - 1])
    decreases |es|
  {
    hide Applied;
    if |es| > 1 {
      AppliedLast(Applied(c, es[0]), es[1..]);
      assert es[1..][..|es| - 2] == es[..|es| - 1][1..];
    }
  }

  lemma {:induction false} ApplyingKeepsTheRest(c: Collector, es: seq<Event>)
    ensures AllApplied(c, es).lastSample == c.lastSample && AllApplied(c, es).unhealthyUntil >= c.unhealthyUntil
    decreases |es|
  {
    if es != [] { ApplyingKeepsTheRest(Applied(c, es[0]), es[1..]); }
  }

  // ---------------------------------------------------------------- one boundary

  /** What one finished boundary yields, in terms of the receipt-ordered history behind it. */
  lemma BoundaryFacts(c: Collector, all: seq<Event>, last: Option<int>, boundary: int, jitter: int, quotesFine: bool)
    requires Ordered(all) && (last.Some? ==> last.value == boundary - 1000)
    requires c.spot == ResetInterval(c.spot) && c.futures == ResetInterval(c.futures)
    ensures var done := Finalized(c, Since(all, last), boundary, jitter, quotesFine);
            && done.pending == Since(all, Some(boundary))
            && done.collector.spot == ResetInterval(done.collector.spot)
            && done.collector.futures == ResetInterval(done.collector.futures)
            && done.collector.lastSample == Some(boundary - 1000)
            && done.collector.unhealthyUntil >= c.unhealthyUntil
            && done.row.second == boundary - 1000
            && done.row.span == (if c.lastSample.None? then None else Some(boundary - 1000 - c.lastSample.value))
            && (done.row.healthy ==> c.unhealthyUntil < boundary)
            && ((exists e <- Since(all, last) :: e.receivedMs < boundary - 1000) ==> !done.row.healthy)
            && Figures(done.row.spot) == Figures(Tally(Between(all, boundary - 1000, boundary), Spot))
            && Figures(done.row.futures) == Figures(Tally(Between(all, boundary - 1000, boundary), Futures))
  {
    hide Between, Since, Applied, AllApplied, AppliedBelow, WithoutStale, Tally, Observed;
    var pending, lo := Since(all, last), boundary - 1000;
    SinceKeepsOrder(all, last);
    StaleLeavesTheRest(c, pending, lo);
    SinceSince(all, last, lo);
    var (kept, rest) := WithoutStale(c, pending, lo);
    var marked := if |rest| < |pending| then Gapped(kept, boundary) else kept;
    SinceKeepsOrder(all, Some(lo));
    BelowIsTheInterval(marked, rest, lo, boundary);
    BetweenSince(all, lo, boundary);
    SinceSince(all, Some(lo), boundary);
    var window := Between(all, lo, boundary);
    ApplyingKeepsTheRest(marked, window);
    assert window[..|window|] == window;
    TallyFromReset(marked, window, |window|, Spot);
    TallyFromReset(marked, window, |window|, Futures);
  }

  // ---------------------------------------------------------------- the invariant

  /** A dropped event spoils the next row and the four after it. */
  ghost predicate Spoils(w: World, startMs: int, d: Dropped) {
    && 0 < d.rowsBefore <= |w.rows|
    && d.event.receivedMs < SecondOf(startMs, d.rowsBefore)
    && SecondOf(startMs, d.rowsBefore + 5) <= w.collector.unhealthyUntil
    && forall k :: d.rowsBefore <= k < d.rowsBefore + 5 && k < |w.rows| ==> !w.rows[k].healthy
  }

  ghost predicate Inv(w: World, startMs: int) {
    && w.nextBoundary == FirstBoundary(startMs) + 1000 * |w.rows|
    && w.lastBoundary == (if w.rows == [] then None else Some(w.nextBoundary - 1000))
    && (w.rows != [] ==> w.nextBoundary - 1000 <= w.clock && w.collector.lastSample == Some(w.nextBoundary - 2000))
    && w.pending == Since(Sorted(w.accepted), w.lastBoundary)
    && w.collector.spot == ResetInterval(w.collector.spot) && w.collector.futures == ResetInterval(w.collector.futures)
  }

  ghost predicate CausalRows(w: World, startMs: int) { forall k :: 0 <= k < |w.rows| ==> RowIsCausal(w, startMs, k) }

  ghost predicate DropsSpoil(w: World, startMs: int) { forall d <- w.dropped :: Spoils(w, startMs, d) }

  /** Events from before the first row were discarded only by an unhealthy first row. */
  ghost predicate EarlySpoils(w: World, startMs: int) {
    w.rows != [] ==> forall e <- w.accepted :: e.receivedMs < SecondOf(startMs, 0) ==> !w.rows[0].healthy
  }

  lemma StageKeepsInv(w: World, e: Event, detectedMs: int, startMs: int)
    requires Inv(w, startMs) && w.clock <= detectedMs
    ensures Inv(Applies(w, Stage(e, detectedMs)), startMs)
  {
    hide Since, Inserted;
    if !Late(e, w.lastBoundary) {
      var accepted := w.accepted + [e];
      assert accepted[..|accepted| - 1] == w.accepted;
      SortedIsPermutation(w.accepted);
      assert Sorted(accepted) == Inserted(e, Sorted(w.accepted));
      SinceAfterInsert(e, Sorted(w.accepted), w.lastBoundary);
    }
  }

  lemma StageKeepsRows(w: World, e: Event, detectedMs: int, startMs: int)
    requires Inv(w, startMs) && CausalRows(w, startMs)
    ensures CausalRows(Applies(w, Stage(e, detectedMs)), startMs)
  {
    hide Inserted, Between, Tally;
    if !Late(e, w.lastBoundary) {
      var w' := Applies(w, Stage(e, detectedMs));
      assert w'.accepted[..|w'.accepted| - 1] == w.accepted;
      assert Sorted(w'.accepted) == Inserted(e, Sorted(w.accepted));
      forall k | 0 <= k < |w.rows|
        ensures RowIsCausal(w', startMs, k)
      {
        assert RowIsCausal(w, startMs, k);
        BetweenAfterInsert(e, Sorted(w.accepted), SecondOf(startMs, k), SecondOf(startMs, k) + 1000);
      }
    } else {
      var w' := Applies(w, Stage(e, detectedMs));
      forall k | 0 <= k < |w'.rows|
        ensures RowIsCausal(w', startMs, k)
      {
        assert RowIsCausal(w, startMs, k);
      }
    }
  }

  lemma StageKeepsSpoils(w: World, e: Event, detectedMs: int, startMs: int)
    requires Inv(w, startMs) && w.clock <= detectedMs && DropsSpoil(w, startMs) && EarlySpoils(w, startMs)
    ensures DropsSpoil(Applies(w, Stage(e, detectedMs)), startMs)
            && EarlySpoils(Applies(w, Stage(e, detectedMs)), startMs)
  {
    hide Inserted, Sorted, Since;
    var w' := Applies(w, Stage(e, detectedMs));
    forall d | d in w'.dropped
      ensures Spoils(w', startMs, d)
    {
      assert d in w.dropped ==> Spoils(w, startMs, d);
    }
  }

  lemma FinishFacts(w: World, op: Op, startMs: int)
    requires Inv(w, startMs) && op.Finish?
    ensures var (w', row) := (Applies(w, op), Applies(w, op).rows[|w.rows|]);
            && w'.pending == Since(Sorted(w.accepted), w'.lastBoundary)
            && w'.collector.spot == ResetInterval(w'.collector.spot)
            && w'.collector.futures == ResetInterval(w'.collector.futures)
            && w'.collector.lastSample == Some(w.nextBoundary - 1000)
            && w'.collector.unhealthyUntil >= w.collector.unhealthyUntil
            && row.second == w.nextBoundary - 1000
            && (w.rows != [] ==> row.span == Some(1000))
            && (row.healthy ==> w.collector.unhealthyUntil < w.nextBoundary)
            && ((exists e <- w.pending :: e.receivedMs < w.nextBoundary - 1000) ==> !row.healthy)
            && forall v: Venue :: Figures(RowTotals(row, v))
                 == Figures(Tally(Between(Sorted(w.accepted), w.nextBoundary - 1000, w.nextBoundary), v))
  {
    hide Since, Sorted, Finalized, Between, Tally;
    SortedIsPermutation(w.accepted);
    BoundaryFacts(w.collector, Sorted(w.accepted), w.lastBoundary, w.nextBoundary,
                  Max(0, op.finalizationMs - w.nextBoundary), op.quotesFine);
    var row := Applies(w, op).rows[|w.rows|];
    forall v: Venue
      ensures Figures(RowTotals(row, v))
                == Figures(Tally(Between(Sorted(w.accepted), w.nextBoundary - 1000, w.nextBoundary), v))
    {
      match v
      case Spot =>
      case Futures =>
    }
  }

  lemma FinishKeepsRows(w: World, op: Op, startMs: int)
    requires Inv(w, startMs) && op.Finish? && CausalRows(w, startMs)
    ensures CausalRows(Applies(w, op), startMs)
  {
    hide Since, Sorted, Finalized, Between, Tally;
    var w' := Applies(w, op);
    FinishFacts(w, op, startMs);
    forall k | 0 <= k < |w'.rows|
      ensures RowIsCausal(w', startMs, k)
    {
      if k < |w.rows| {
        assert RowIsCausal(w, startMs, k);
        assert w'.rows[k] == w.rows[k];
      } else {
        assert SecondOf(startMs, k) == w.nextBoundary - 1000;
      }
    }
  }

  lemma {:induction false} PendingHoldsEarly(es: seq<Event>, e: Event)
    requires e in es
    ensures e in Since(es, None)
  {
    if e != es[0] { PendingHoldsEarly(es[1..], e); }
  }

  lemma FinishKeepsSpoils(w: World, op: Op, startMs: int)
    requires Inv(w, startMs) && op.Finish? && DropsSpoil(w, startMs) && EarlySpoils(w, startMs)
    ensures DropsSpoil(Applies(w, op), startMs) && EarlySpoils(Applies(w, op), startMs)
  {
    hide Since, Sorted, Finalized, Between, Tally;
    var w' := Applies(w, op);
    FinishFacts(w, op, startMs);
    forall d | d in w'.dropped
      ensures Spoils(w', startMs, d)
    {
      assert Spoils(w, startMs, d);
      forall k | d.rowsBefore <= k < d.rowsBefore + 5 && k < |w'.rows|
        ensures !w'.rows[k].healthy
      {
        if k < |w.rows| { assert w'.rows[k] == w.rows[k]; }
      }
    }
    if w.rows == [] {
      forall e | e in w'.accepted && e.receivedMs < SecondOf(startMs, 0)
        ensures !w'.rows[0].healthy
      {
        SortedIsPermutation(w.accepted);
        assert e in multiset(w.accepted);
        PendingHoldsEarly(Sorted(w.accepted), e);
      }
    }
  }

  lemma StepKeepsAll(w: World, op: Op, delayMs: nat, startMs: int)
    requires Enabled(w, op, delayMs)
    requires Inv(w, startMs) && CausalRows(w, startMs) && DropsSpoil(w, startMs) && EarlySpoils(w, startMs)
    ensures var w' := Applies(w, op);
            Inv(w', startMs) && CausalRows(w', startMs) && DropsSpoil(w', startMs) && EarlySpoils(w', startMs)
  {
    hide Since, Sorted, Finalized, CausalRows, DropsSpoil, EarlySpoils, Inserted;
    match op
    case Stage(e, detectedMs) =>
      StageKeepsInv(w, e, detectedMs, startMs);
      StageKeepsRows(w, e, detectedMs, startMs);
      StageKeepsSpoils(w, e, detectedMs, startMs);
    case Finish(_, _, _) =>
      FinishFacts(w, op, startMs);
      FinishKeepsRows(w, op, startMs);
      FinishKeepsSpoils(w, op, startMs);
  }

  /** Over any run of the loop from a collector whose interval is empty. */
  lemma {:induction false} RunsAreCausal(c: Collector, startMs: int, delayMs: nat, ops: seq<Op>)
    requires Runs(c, startMs, delayMs, ops)
    requires c.spot == ResetInterval(c.spot) && c.futures == ResetInterval(c.futures)
    ensures var w := After(c, startMs, ops);
            Inv(w, startMs) && CausalRows(w, startMs) && DropsSpoil(w, startMs) && EarlySpoils(w, startMs)
  {
    if ops != [] {
      hide Applies, Inv, CausalRows, DropsSpoil, EarlySpoils, Enabled;
      RunsAreCausal(c, startMs, delayMs, ops[..|ops| - 1]);
      StepKeepsAll(After(c, startMs, ops[..|ops| - 1]), ops[|ops| - 1], delayMs, startMs);
    }
  }

  // ---------------------------------------------------------------- every event accounted for

  lemma {:induction false} BetweenCounts(es: seq<Event>, lo: int, hi: int, e: Event)
    ensures multiset(Between(es, lo, hi))[e] == if lo <= e.receivedMs < hi then multiset(es)[e] else 0
  {
    if es != [] {
      BetweenCounts(es[1..], lo, hi, e);
      assert es == [es[0]] + es[1..];
    }
  }

  /** An accepted event is in the window of exactly one second, as often as it was accepted. */
  lemma EachEventOnce(w: World, startMs: int, e: Event, k: nat)
    ensures multiset(Between(Sorted(w.accepted), SecondOf(startMs, k), SecondOf(startMs, k) + 1000))[e]
         == if e.receivedMs / 1000 == SecondOf(startMs, k) / 1000 then multiset(w.accepted)[e] else 0
  {
    hide Sorted, Between;
    SortedIsPermutation(w.accepted);
    BetweenCounts(Sorted(w.accepted), SecondOf(startMs, k), SecondOf(startMs, k) + 1000, e);
    assert SecondOf(startMs, k) == (startMs / 1000 + k) * 1000;
  }

  function Staged(ops: seq<Op>): seq<Event> {
    if ops == [] then []
    else
      var last := ops[|ops| - 1];
      Staged(ops[..|ops| - 1]) + (if last.Stage? then [last.event] else [])
  }

  function Lost(ds: seq<Dropped>): seq<Event> {
    if ds == [] then [] else Lost(ds[..|ds| - 1]) + [ds[|ds| - 1].event]
  }

  /** Nothing vanishes silently: what was staged is what was accepted and what was dropped. */
  lemma {:induction false} NothingVanishes(c: Collector, startMs: int, ops: seq<Op>)
    ensures var w := After(c, startMs, ops);
            multiset(Staged(ops)) == multiset(w.accepted) + multiset(Lost(w.dropped))
  {
    hide Finalized, Inserted;
    if ops != [] {
      var front, last := ops[..|ops| - 1], ops[|ops| - 1];
      NothingVanishes(c, startMs, front);
      var w, w' := After(c, startMs, front), After(c, startMs, ops);
      if last.Stage? && Late(last.event, w.lastBoundary) {
        assert w'.dropped[..|w'.dropped| - 1] == w.dropped;
      }
    }
  }

  /** A collector with no earlier sample cannot call its first row healthy. */
  lemma {:induction false} FirstRowIsUnhealthy(c: Collector, startMs: int, ops: seq<Op>)
    requires c.lastSample.None?
    ensures var w := After(c, startMs, ops);
            if w.rows == [] then w.collector.lastSample.None? else !w.rows[0].healthy
  {
    if ops != [] {
      var front, last := ops[..|ops| - 1], ops[|ops| - 1];
      FirstRowIsUnhealthy(c, startMs, front);
      var w, w' := After(c, startMs, front), After(c, startMs, ops);
      if w.rows != [] {
        assert w'.rows[0] == w.rows[0];
      } else if last.Finish? {
        StaleKeepsSample(w.collector, w.pending, w.nextBoundary - 1000);
        var (kept, rest) := WithoutStale(w.collector, w.pending, w.nextBoundary - 1000);
        BelowKeepsSample(if |rest| < |w.pending| then Gapped(kept, w.nextBoundary) else kept, rest, w.nextBoundary);
      }
    }
  }

  lemma {:induction false} StaleKeepsSample(c: Collector, es: seq<Event>, lo: int)
    ensures WithoutStale(c, es, lo).0.lastSample == c.lastSample
    decreases |es|
  {
    if es != [] && es[0].receivedMs < lo {
      StaleKeepsSample(if Connects(es[0]) then Applied(c, es[0]) else c, es[1..], lo);
    }
  }

  lemma {:induction false} BelowKeepsSample(c: Collector, es: seq<Event>, hi: int)
    ensures AppliedBelow(c, es, hi).0.lastSample == c.lastSample
    decreases |es|
  {
    if es != [] && es[0].receivedMs < hi { BelowKeepsSample(Applied(c, es[0]), es[1..], hi); }
  }

  // ---------------------------------------------------------------- loss markers and closed sockets

  predicate IsGap(e: Event) { e.kind.Error? || e.kind.Closed? }

  /** A gap spoils every row that ends within five seconds of its receipt, its own row included. */
  ghost predicate GapSpoils(w: World, startMs: int, e: Event) {
    SecondOf(startMs, 0) <= e.receivedMs && (w.lastBoundary.Some? && e.receivedMs < w.lastBoundary.value) ==>
      && e.receivedMs + COOLDOWN_MS <= w.collector.unhealthyUntil
      && forall k :: 0 <= k < |w.rows| && e.receivedMs < SecondOf(startMs, k) + 1000 <= e.receivedMs + COOLDOWN_MS
                     ==> !w.rows[k].healthy
  }

  ghost predicate GapsSpoil(w: World, startMs: int) { forall e <- w.accepted :: IsGap(e) ==> GapSpoils(w, startMs, e) }

  lemma {:induction false} AppliedGapCounts(c: Collector, es: seq<Event>, e: Event)
    requires e in es && IsGap(e)
    ensures AllApplied(c, es).unhealthyUntil >= e.receivedMs + COOLDOWN_MS
    decreases |es|
  {
    if es[0] == e {
      ApplyingKeepsTheRest(Applied(c, e), es[1..]);
    } else {
      AppliedGapCounts(Applied(c, es[0]), es[1..], e);
    }
  }

  lemma BoundaryGapFacts(c: Collector, all: seq<Event>, last: Option<int>, boundary: int, jitter: int,
                         quotesFine: bool, e: Event)
    requires Ordered(all) && (last.Some? ==> last.value == boundary - 1000)
    requires e in Between(all, boundary - 1000, boundary) && IsGap(e)
    ensures var done := Finalized(c, Since(all, last), boundary, jitter, quotesFine);
            && done.collector.unhealthyUntil >= e.receivedMs + COOLDOWN_MS
            && (done.row.healthy ==> e.receivedMs + COOLDOWN_MS < boundary)
  {
    hide Between, Since, Applied, AllApplied, AppliedBelow, WithoutStale;
    var pending, lo := Since(all, last), boundary - 1000;
    SinceKeepsOrder(all, last);
    StaleLeavesTheRest(c, pending, lo);
    SinceSince(all, last, lo);
    var (kept, rest) := WithoutStale(c, pending, lo);
    var marked := if |rest| < |pending| then Gapped(kept, boundary) else kept;
    SinceKeepsOrder(all, Some(lo));
    BelowIsTheInterval(marked, rest, lo, boundary);
    BetweenSince(all, lo, boundary);
    AppliedGapCounts(marked, Between(all, lo, boundary), e);
  }

  lemma FinishKeepsGap(w: World, op: Op, startMs: int, e: Event)
    requires Inv(w, startMs) && op.Finish? && e in w.accepted && IsGap(e) && GapSpoils(w, startMs, e)
    ensures GapSpoils(Applies(w, op), startMs, e)
  {
    hide Since, Sorted, Finalized, Between;
    var w' := Applies(w, op);
    FinishFacts(w, op, startMs);
    var all, boundary := Sorted(w.accepted), w.nextBoundary;
    if boundary - 1000 <= e.receivedMs < boundary {
      SortedIsPermutation(w.accepted);
      BetweenCounts(all, boundary - 1000, boundary, e);
      assert e in multiset(w.accepted);
      BoundaryGapFacts(w.collector, all, w.lastBoundary, boundary, Max(0, op.finalizationMs - boundary),
                       op.quotesFine, e);
    }
    forall k | 0 <= k < |w'.rows| && SecondOf(startMs, 0) <= e.receivedMs < boundary
               && e.receivedMs < SecondOf(startMs, k) + 1000 <= e.receivedMs + COOLDOWN_MS
      ensures !w'.rows[k].healthy
    {
      if k < |w.rows| {
        assert w'.rows[k] == w.rows[k];
      }
    }
  }

  lemma StepKeepsGaps(w: World, op: Op, startMs: int)
    requires Inv(w, startMs) && GapsSpoil(w, startMs)
    ensures GapsSpoil(Applies(w, op), startMs)
  {
    hide Since, Sorted, Finalized, Inserted;
    var w' := Applies(w, op);
    forall e | e in w'.accepted && IsGap(e)
      ensures GapSpoils(w', startMs, e)
    {
      if op.Finish? { FinishKeepsGap(w, op, startMs, e); }
      assert op.Stage? && e in w.accepted ==> GapSpoils(w, startMs, e);
    }
  }

  /** Over any run, every gap the loop accepted keeps the rows of the next five seconds from being called healthy. */
  lemma {:induction false} GapsAreVisible(c: Collector, startMs: int, delayMs: nat, ops: seq<Op>)
    requires Runs(c, startMs, delayMs, ops)
    requires c.spot == ResetInterval(c.spot) && c.futures == ResetInterval(c.futures)
    ensures GapsSpoil(After(c, startMs, ops), startMs)
  {
    if ops != [] {
      hide Applies, Inv, CausalRows, DropsSpoil, EarlySpoils, Enabled, GapsSpoil;
      GapsAreVisible(c, startMs, delayMs, ops[..|ops| - 1]);
      RunsAreCausal(c, startMs, delayMs, ops[..|ops| - 1]);
      StepKeepsGaps(After(c, startMs, ops[..|ops| - 1]), ops[|ops| - 1], startMs);
    } else {
      assert After(c, startMs, ops).accepted == [];
    }
  }

  // ---------------------------------------------------------------- what the totals say

  predicate Trades(e: Event, v: Venue) { if v.Spot? then e.kind.SpotTrade? else e.kind.FuturesTrade? }

  function TradeOf(e: Event, v: Venue): Trade
    requires Trades(e, v)
  {
    e.kind.trade
  }

  /** The interval's figures hang together: flows sum to turnover, hidden liquidity is part of its side. */
  predicate Balanced(t: Totals) {
    && t.turnover == t.buy + t.sell && t.lagCount == t.aggregates <= t.trades
    && 0.0 <= t.rpiBuy <= t.buy && 0.0 <= t.rpiSell <= t.sell
    && (t.aggregates == 0 <==> t.quantity == 0.0) && t.quantity >= 0.0 && (t.aggregates == 0 ==> t.turnover == 0.0)
    && t.high.Some? == t.low.Some? == t.largest.Some? == t.lagMax.Some? == (t.aggregates > 0)
  }

  function Times(a: real, b: real): real { a * b }

  predicate VwapBetween(t: Totals) {
    t.high.Some? && t.low.Some? ==> Times(t.low.value, t.quantity) <= t.turnover <= Times(t.high.value, t.quantity)
  }

  predicate LagBounded(t: Totals) { t.lagMax.Some? ==> t.lagSum <= t.lagMax.value * t.lagCount }

  lemma MulLe(a: real, b: real, q: real)
    requires a <= b && q >= 0.0
    ensures a * q <= b * q
  {
  }

  lemma ObservedStaysBalanced(t: Totals, trade: Trade, receivedMs: int)
    requires Balanced(t) && trade.Sound()
    ensures Balanced(Observed(t, trade, receivedMs))
  {
    if trade.normal.Some? {
      var hidden := trade.quantity - trade.normal.value;
      MulLe(hidden, trade.quantity, trade.price);
      MulLe(0.0, hidden, trade.price);
    }
    MulLe(0.0, trade.quantity, trade.price);
  }

  lemma BelowRaisedBound(turnover: real, quantity: real, was: real, p: real, q: real, bound: real)
    requires turnover <= Times(was, quantity) && quantity >= 0.0 && q >= 0.0 && was <= bound && p <= bound
    ensures turnover + Times(p, q) <= Times(bound, quantity + q)
  {
    MulLe(was, bound, quantity);
    MulLe(p, bound, q);
    assert bound * (quantity + q) == bound * quantity + bound * q;
  }

  lemma AboveLoweredBound(turnover: real, quantity: real, was: real, p: real, q: real, bound: real)
    requires Times(was, quantity) <= turnover && quantity >= 0.0 && q >= 0.0 && bound <= was && bound <= p
    ensures Times(bound, quantity + q) <= turnover + Times(p, q)
  {
    MulLe(bound, was, quantity);
    MulLe(bound, p, q);
    assert bound * (quantity + q) == bound * quantity + bound * q;
  }

  lemma ObservedKeepsVwap(t: Totals, trade: Trade, receivedMs: int)
    requires Balanced(t) && VwapBetween(t) && trade.Sound()
    ensures VwapBetween(Observed(t, trade, receivedMs))
  {
    hide Times, Trade.Notional, Trade.RpiNotional;
    var high, low := Larger(t.high, trade.price).value, Smaller(t.low, trade.price).value;
    var oldHigh, oldLow := if t.high.Some? then t.high.value else high, if t.low.Some? then t.low.value else low;
    if t.high.None? {
      NothingIsZero(t, oldHigh);
      NothingIsZero(t, oldLow);
    }
    NotionalIs(trade);
    BelowRaisedBound(t.turnover, t.quantity, oldHigh, trade.price, trade.quantity, high);
    AboveLoweredBound(t.turnover, t.quantity, oldLow, trade.price, trade.quantity, low);
  }

  lemma NotionalIs(trade: Trade)
    ensures trade.Notional() == Times(trade.price, trade.quantity)
  {
  }

  lemma NothingIsZero(t: Totals, x: real)
    requires Balanced(t) && t.high.None?
    ensures Times(x, t.quantity) == 0.0 == t.turnover
  {
  }

  lemma ObservedKeepsLag(t: Totals, trade: Trade, receivedMs: int)
    requires LagBounded(t) && (t.lagMax.None? ==> t.lagSum == 0 && t.lagCount == 0)
    ensures LagBounded(Observed(t, trade, receivedMs))
  {
    var lag := receivedMs - trade.eventMs;
    var top := Later(t.lagMax, lag).value;
    if t.lagMax.Some? { IntMulLe(t.lagMax.value, top, t.lagCount); }
    assert top * (t.lagCount + 1) == top * t.lagCount + top;
  }

  lemma IntMulLe(a: int, b: int, n: nat)
    requires a <= b
    ensures a * n <= b * n
  {
  }

  ghost predicate Extremes(t: Totals, es: seq<Event>, v: Venue) {
    && (forall e <- es :: Trades(e, v) ==> && t.high.Some? && t.low.Some? && t.largest.Some?
                                           && t.low.value <= TradeOf(e, v).price <= t.high.value
                                           && TradeOf(e, v).Notional() <= t.largest.value)
    && (t.high.Some? ==> exists e <- es :: Trades(e, v) && TradeOf(e, v).price == t.high.value)
    && (t.low.Some? ==> exists e <- es :: Trades(e, v) && TradeOf(e, v).price == t.low.value)
    && (t.largest.Some? ==> exists e <- es :: Trades(e, v) && TradeOf(e, v).Notional() == t.largest.value)
  }

  /** The average price lies between the extremes, which are attained, and every figure agrees with its parts. */
  lemma {:induction false} TalliesSummarise(es: seq<Event>, v: Venue)
    requires forall e <- es :: Trades(e, v) ==> TradeOf(e, v).Sound()
    ensures var t := Tally(es, v);
            && Balanced(t) && VwapBetween(t) && LagBounded(t) && (t.lagMax.None? ==> t.lagSum == 0)
            && t.aggregates == CountOf(es, v)
            && Extremes(t, es, v)
  {
    hide Balanced, VwapBetween, LagBounded, Extremes;
    if es == [] {
      EmptySummarises(v);
    } else {
      var front, last := es[..|es| - 1], es[|es| - 1];
      TalliesSummarise(front, v);
      var t := Tally(front, v);
      if Trades(last, v) {
        ObservedStaysBalanced(t, last.kind.trade, last.receivedMs);
        ObservedKeepsVwap(t, last.kind.trade, last.receivedMs);
        BalancedCounts(t);
        ObservedKeepsLag(t, last.kind.trade, last.receivedMs);
      }
      ObservedKeepsExtremes(t, front, last, v);
      assert es == front + [last];
    }
  }

  /**
   The remembered trade is the newest one, every lag is below the largest, and hidden flow is known
   only if for all.
   */
  ghost predicate Remembers(t: Totals, es: seq<Event>, v: Venue) {
    && (t.rpiComplete <==> forall e <- es :: Trades(e, v) ==> TradeOf(e, v).normal.Some?)
    && (forall e <- es :: Trades(e, v) ==> t.lagMax.Some? && e.receivedMs - TradeOf(e, v).eventMs <= t.lagMax.value)
    && (t.lagMax.Some? ==> exists e <- es :: Trades(e, v) && e.receivedMs - TradeOf(e, v).eventMs == t.lagMax.value)
    && (t.last.Some? <==> t.lastReceived.Some?)
    && (if t.last.None? then forall e <- es :: !Trades(e, v) else exists i :: IsNewest(es, v, i) && Newest(t, es, v, i))
  }

  ghost predicate IsNewest(es: seq<Event>, v: Venue, i: int) {
    0 <= i < |es| && Trades(es[i], v) && forall j :: i < j < |es| ==> !Trades(es[j], v)
  }

  predicate Newest(t: Totals, es: seq<Event>, v: Venue, i: int)
    requires 0 <= i < |es| && Trades(es[i], v)
  {
    t.last == Some(TradeOf(es[i], v).price) && t.lastReceived == Some(es[i].receivedMs)
  }

  lemma RemembersTrade(t: Totals, es: seq<Event>, last: Event, v: Venue)
    requires Remembers(t, es, v) && Trades(last, v)
    ensures Remembers(Count(t, last, v), es + [last], v)
  {
    var all, t' := es + [last], Count(t, last, v);
    assert last in all && IsNewest(all, v, |es|) && Newest(t', all, v, |es|);
    if t.lagMax.Some? {
      var e :| e in es && Trades(e, v) && e.receivedMs - TradeOf(e, v).eventMs == t.lagMax.value;
      assert e in all;
    }
    assert t.rpiComplete ==> forall e <- all :: Trades(e, v) && e != last ==> e in es;
    if !t.rpiComplete {
      var e :| e in es && Trades(e, v) && TradeOf(e, v).normal.None?;
      assert e in all;
    }
  }

  lemma RemembersOther(t: Totals, es: seq<Event>, last: Event, v: Venue)
    requires Remembers(t, es, v) && !Trades(last, v)
    ensures Remembers(t, es + [last], v)
  {
    var all := es + [last];
    forall e | e in all && Trades(e, v)
      ensures e in es
    {
    }
    if t.lagMax.Some? {
      var e :| e in es && Trades(e, v) && e.receivedMs - TradeOf(e, v).eventMs == t.lagMax.value;
      assert e in all;
    }
    if !t.rpiComplete {
      var e :| e in es && Trades(e, v) && TradeOf(e, v).normal.None?;
      assert e in all;
    }
    if t.last.Some? {
      var i :| IsNewest(es, v, i) && Newest(t, es, v, i);
      assert all[i] == es[i] && IsNewest(all, v, i) && Newest(t, all, v, i);
    }
  }

  /** What an interval remembers of its trades in receipt order. */
  lemma {:induction false} TalliesRemember(es: seq<Event>, v: Venue)
    ensures Remembers(Tally(es, v), es, v)
  {
    hide Remembers;
    if es == [] {
      NothingRemembered(v);
    } else {
      var front, last := es[..|es| - 1], es[|es| - 1];
      TalliesRemember(front, v);
      assert es == front + [last];
      if Trades(last, v) { RemembersTrade(Tally(front, v), front, last, v); }
      else { RemembersOther(Tally(front, v), front, last, v); }
    }
  }

  lemma NothingRemembered(v: Venue)
    ensures Remembers(EMPTY, [], v)
  {
  }

  lemma EmptySummarises(v: Venue)
    ensures Balanced(EMPTY) && VwapBetween(EMPTY) && LagBounded(EMPTY) && Extremes(EMPTY, [], v)
  {
  }

  lemma BalancedCounts(t: Totals)
    requires Balanced(t)
    ensures t.lagMax.None? ==> t.lagCount == 0
  {
  }

  lemma ObservedKeepsExtremes(t: Totals, es: seq<Event>, last: Event, v: Venue)
    requires Extremes(t, es, v)
    ensures Extremes(Count(t, last, v), es + [last], v)
  {
    var all, t' := es + [last], Count(t, last, v);
    if Trades(last, v) {
      assert last in all;
      forall e | e in all && Trades(e, v)
        ensures t'.low.value <= TradeOf(e, v).price <= t'.high.value && TradeOf(e, v).Notional() <= t'.largest.value
      {
        assert e in es || e == last;
      }
    }
    if t.high.Some? {
      var e :| e in es && Trades(e, v) && TradeOf(e, v).price == t.high.value;
      assert e in all;
    }
    if t.low.Some? {
      var e :| e in es && Trades(e, v) && TradeOf(e, v).price == t.low.value;
      assert e in all;
    }
    if t.largest.Some? {
      var e :| e in es && Trades(e, v) && TradeOf(e, v).Notional() == t.largest.value;
      assert e in all;
    }
  }

  function CountOf(es: seq<Event>, v: Venue): nat {
    if es == [] then 0 else CountOf(es[..|es| - 1], v) + (if Trades(es[|es| - 1], v) then 1 else 0)
  }
}
