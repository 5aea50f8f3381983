/**
 Causal one-second microstructure rows (price_collector/binance_microstructure.py):
 receipt-ordered finalisation of pending events, interval trade totals and health.
 Book, liquidation and context values enter only as one recorded verdict per row.
 */
module Microstructure {
  import opened Core

  datatype Source = SpotSocket | FuturesTradeSocket | FuturesDepthSocket | LiquidationSocket

  datatype Trade = Trade(price: real, quantity: real, normal: Option<real>, buyerIsMaker: bool, count: int,
                         eventMs: int) {
    function Notional(): real { price * quantity }

    function RpiNotional(): real { if normal.None? then 0.0 else price * (quantity - normal.value) }

    /** What the parser guarantees of an observation. */
    predicate Sound() {
      price > 0.0 && quantity > 0.0 && count > 0 && (normal.Some? ==> 0.0 <= normal.value <= quantity)
    }
  }

  datatype Kind =
    | SpotTrade(trade: Trade)
    | FuturesTrade(trade: Trade)
    | Quote
    | Opened(source: Source)
    | Closed(source: Source)
    | Error

  datatype Event = Event(receivedMs: int, sequence: int, kind: Kind)

  /** Receipt time first, then local sequence. */
  predicate Before(a: Event, b: Event) {
    a.receivedMs < b.receivedMs || (a.receivedMs == b.receivedMs && a.sequence < b.sequence)
  }

  datatype Totals = Totals(buy: real, sell: real, rpiBuy: real, rpiSell: real, turnover: real, quantity: real,
                           trades: int, aggregates: nat, largest: Option<real>, high: Option<real>, low: Option<real>,
                           last: Option<real>, lastReceived: Option<int>, lagSum: int, lagCount: nat,
                           lagMax: Option<int>, rpiComplete: bool)

  const EMPTY: Totals := Totals(0.0, 0.0, 0.0, 0.0, 0.0, 0.0, 0, 0, None, None, None, None, None, 0, 0, None, true)

  function Larger(o: Option<real>, x: real): Option<real> { Some(if o.Some? && o.value > x then o.value else x) }

  function Smaller(o: Option<real>, x: real): Option<real> { Some(if o.Some? && o.value < x then o.value else x) }

  function Later(o: Option<int>, x: int): Option<int> { Some(if o.Some? then Max(o.value, x) else x) }

  function Observed(t: Totals, trade: Trade, receivedMs: int): Totals {
    var sided := if trade.buyerIsMaker
      then t.(sell := t.sell + trade.Notional(), rpiSell := t.rpiSell + trade.RpiNotional())
                 else t.(buy := t.buy + trade.Notional(), rpiBuy := t.rpiBuy + trade.RpiNotional());
    var lag := receivedMs - trade.eventMs;
    sided.(turnover := t.turnover + trade.Notional(), quantity := t.quantity + trade.quantity,
           trades := t.trades + trade.count, aggregates := t.aggregates + 1,
           largest := Larger(t.largest, trade.Notional()), high := Larger(t.high, trade.price),
           low := Smaller(t.low, trade.price), last := Some(trade.price), lastReceived := Some(receivedMs),
           lagSum := t.lagSum + lag, lagCount := t.lagCount + 1, lagMax := Later(t.lagMax, lag),
           rpiComplete := t.rpiComplete && trade.normal.Some?)
  }

  function ResetInterval(t: Totals): Totals { EMPTY.(lastReceived := t.lastReceived) }

  datatype Collector = Collector(spot: Totals, futures: Totals, errors: nat, unhealthyUntil: int, open: set<Source>,
                                 lastSample: Option<int>)

  datatype Row = Row(second: int, span: Option<int>, jitter: int, errors: nat, spot: Totals, futures: Totals,
                     healthy: bool)

  const REQUIRED: set<Source> := {SpotSocket, FuturesTradeSocket, FuturesDepthSocket, LiquidationSocket}
  const COOLDOWN_MS := 5000
  const MAX_JITTER_MS := 500

  function Gapped(c: Collector, ms: int): Collector {
    c.(errors := c.errors + 1, unhealthyUntil := Max(c.unhealthyUntil, ms + COOLDOWN_MS))
  }

  function Applied(c: Collector, e: Event): Collector {
    match e.kind
    case SpotTrade(t) => c.(spot := Observed(c.spot, t, e.receivedMs))
    case FuturesTrade(t) => c.(futures := Observed(c.futures, t, e.receivedMs))
    case Quote => c
    case Opened(s) =>
      c.(unhealthyUntil := if s in c.open then c.unhealthyUntil else Max(c.unhealthyUntil, e.receivedMs + COOLDOWN_MS),
         open := c.open + {s})
    case Closed(s) => Gapped(c.(open := c.open - {s}), e.receivedMs)
    case Error => Gapped(c, e.receivedMs)
  }

  function Connects(e: Event): bool { e.kind.Opened? || e.kind.Closed? }

  function AgeFine(nowMs: int, stamp: Option<int>): bool { stamp.Some? && 0 <= nowMs - stamp.value <= 3000 }

  function LagFine(lag: Option<int>): bool { lag.Some? ==> -1000 <= lag.value <= 2000 }

  /** `quotesFine` is the verdict on books, liquidations and context, which are not modelled. */
  function Snapshot(c: Collector, second: int, nowMs: int, jitter: int, quotesFine: bool): (Collector, Row) {
    var span := if c.lastSample.None? then None else Some(second - c.lastSample.value);
    var healthy :=
      && span.Some? && 800 <= span.value <= 1200
      && 0 <= jitter <= MAX_JITTER_MS
      && nowMs > c.unhealthyUntil
      && REQUIRED <= c.open
      && AgeFine(nowMs, c.spot.lastReceived) && AgeFine(nowMs, c.futures.lastReceived)
      && LagFine(c.spot.lagMax) && LagFine(c.futures.lagMax)
      && (c.futures.aggregates == 0 || c.futures.rpiComplete)
      && quotesFine;
    (c.(spot := ResetInterval(c.spot), futures := ResetInterval(c.futures), lastSample := Some(second)),
     Row(second, span, jitter, c.errors, c.spot, c.futures, healthy))
  }

  /** Too old for the interval: only connection changes still take effect. */
  function WithoutStale(c: Collector, pending: seq<Event>, lower: int): (Collector, seq<Event>)
    decreases |pending|
  {
    if pending != [] && pending[0].receivedMs < lower then
      WithoutStale(if Connects(pending[0]) then Applied(c, pending[0]) else c, pending[1..], lower)
    else (c, pending)
  }

  function AppliedBelow(c: Collector, pending: seq<Event>, boundary: int): (Collector, seq<Event>)
    decreases |pending|
  {
    if pending != [] && pending[0].receivedMs < boundary
      then AppliedBelow(Applied(c, pending[0]), pending[1..], boundary)
    else (c, pending)
  }

  datatype Finished = Finished(collector: Collector, pending: seq<Event>, row: Row)

  function Finalized(c: Collector, pending: seq<Event>, boundary: int, jitter: int, quotesFine: bool): Finished {
    var (kept, rest) := WithoutStale(c, pending, boundary - 1000);
    var marked := if |rest| < |pending| then Gapped(kept, boundary) else kept;
    var (applied, left) := AppliedBelow(marked, rest, boundary);
    var (c', row) := Snapshot(applied, boundary - 1000, boundary, jitter, quotesFine);
    Finished(c', left, row)
  }

  /** The pending heap, as the order in which it pops. */
  function Inserted(e: Event, pending: seq<Event>): seq<Event> {
    if pending == [] || Before(e, pending[0]) then [e] + pending else [pending[0]] + Inserted(e, pending[1..])
  }

  function Late(e: Event, lastBoundary: Option<int>): bool { lastBoundary.Some? && e.receivedMs < lastBoundary.value }

  // ---------------------------------------------------------------- in place

  class CollectorState {
    var spot: Totals
    var futures: Totals
    var errors: nat
    var unhealthyUntil: int
    var open: set<Source>
    var lastSample: Option<int>

    function Model(): Collector
      reads this
    {
      Collector(spot, futures, errors, unhealthyUntil, open, lastSample)
    }

    constructor ()
      ensures Model() == Collector(EMPTY, EMPTY, 0, 0, {}, None)
    {
      spot, futures, errors, unhealthyUntil, open, lastSample := EMPTY, EMPTY, 0, 0, {}, None;
    }

    method RecordGap(receivedMs: int)
      modifies this`errors, this`unhealthyUntil
      ensures Model() == Gapped(old(Model()), receivedMs)
    {
      errors := errors + 1;
      unhealthyUntil := Max(unhealthyUntil, receivedMs + COOLDOWN_MS);
    }

    method ApplyEvent(e: Event)
      modifies this
      ensures Model() == Applied(old(Model()), e)
    {
      match e.kind {
        case SpotTrade(t) => spot := Observed(spot, t, e.receivedMs);
        case FuturesTrade(t) => futures := Observed(futures, t, e.receivedMs);
        case Quote =>
        case Opened(s) =>
          if s !in open { unhealthyUntil := Max(unhealthyUntil, e.receivedMs + COOLDOWN_MS); }
          open := open + {s};
        case Closed(s) =>
          open := open - {s};
          RecordGap(e.receivedMs);
        case Error => RecordGap(e.receivedMs);
      }
    }

    method TakeSnapshot(second: int, nowMs: int, jitter: int, quotesFine: bool) returns (row: Row)
      modifies this`spot, this`futures, this`lastSample
      ensures (Model(), row) == Snapshot(old(Model()), second, nowMs, jitter, quotesFine)
    {
      var span := if lastSample.None? then None else Some(second - lastSample.value);
      var spanFine := span.Some? && 800 <= span.value <= 1200;
      var agesFine := AgeFine(nowMs, spot.lastReceived) && AgeFine(nowMs, futures.lastReceived);
      var lagsFine := LagFine(spot.lagMax) && LagFine(futures.lagMax);
      var rpiFine := futures.aggregates == 0 || futures.rpiComplete;
      var gapFine := nowMs > unhealthyUntil;
      row := Row(second, span, jitter, errors, spot, futures,
                 agesFine && lagsFine && spanFine && 0 <= jitter <= MAX_JITTER_MS && gapFine && REQUIRED <= open
                     && rpiFine
                 && quotesFine);
      lastSample := Some(second);
      spot, futures := ResetInterval(spot), ResetInterval(futures);
    }
  }

  method FinalizeBoundary(state: CollectorState, pending: seq<Event>, boundary: int, jitter: int, quotesFine: bool)
    returns (left: seq<Event>, row: Row)
    modifies state
    ensures Finished(state.Model(), left, row) == Finalized(old(state.Model()), pending, boundary, jitter, quotesFine)
  {
    var droppedStale := false;
    left := pending;
    while left != [] && left[0].receivedMs < boundary - 1000
      invariant WithoutStale(state.Model(), left, boundary - 1000)
                  == WithoutStale(old(state.Model()), pending, boundary - 1000)
      invariant |left| <= |pending| && (droppedStale <==> |left| < |pending|)
      decreases |left|
    {
      if Connects(left[0]) { state.ApplyEvent(left[0]); }
      left := left[1..];
      droppedStale := true;
    }
    if droppedStale { state.RecordGap(boundary); }
    ghost var marked, rest := state.Model(), left;
    while left != [] && left[0].receivedMs < boundary
      invariant AppliedBelow(state.Model(), left, boundary) == AppliedBelow(marked, rest, boundary)
      decreases |left|
    {
      state.ApplyEvent(left[0]);
      left := left[1..];
    }
    row := state.TakeSnapshot(boundary - 1000, boundary, jitter, quotesFine);
  }

  /** An event older than the last finished row is lost, and that loss is charged to the moment it was seen. */
  method StagePendingEvent(state: CollectorState, e: Event, pending: seq<Event>, lastBoundary: Option<int>,
                           detectedMs: int)
    returns (staged: seq<Event>)
    modifies state
    ensures staged == if Late(e, lastBoundary) then pending else Inserted(e, pending)
    ensures state.Model() == if Late(e, lastBoundary) then Gapped(old(state.Model()), detectedMs)
            else old(state.Model())
  {
    if lastBoundary.Some? && e.receivedMs < lastBoundary.value {
      state.RecordGap(detectedMs);
      return pending;
    }
    staged := Inserted(e, pending);
  }
}
