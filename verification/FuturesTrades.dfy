/**
 The last-price feed of the futures socket (price_collector/binance_futures_streams.py):
 accepted trades, and an exact account of duplicates, regressions and missing identifiers.
 */
module FuturesTrades {
  import opened Core

  datatype Trade = Trade(id: int, tradeTimeMs: int)

  datatype Stamp = Stamp(connection: int, monoNs: int)

  datatype Item = Item(sequence: nat, trade: Trade, stamp: Stamp)

  datatype Feed = Feed(current: Option<int>, connections: nat, reconnects: nat, messages: nat, gapEvents: nat,
                       missing: nat,
                       duplicates: nat, regressions: nat, interarrival: Option<int>, longest: Option<int>,
                       lastMono: Option<int>, latest: Option<Item>)

  const IDLE: Feed := Feed(None, 0, 0, 0, 0, 0, 0, 0, None, None, None, None)

  function Opened(f: Feed, connection: int): Feed {
    if f.current == Some(connection) then f
    else f.(current := Some(connection), connections := f.connections + 1,
            reconnects := f.reconnects + (if f.connections > 0 then 1 else 0))
  }

  function Closed(f: Feed, connection: int): Feed {
    if f.current == Some(connection) then f.(current := None) else f
  }

  function Heard(f: Feed, monoNs: int): Feed {
    var elapsed := if f.lastMono.None? then -1 else monoNs - f.lastMono.value;
    var timed := if elapsed < 0 then f
                 else f.(interarrival := Some(elapsed),
                         longest := Some(if f.longest.None? then elapsed else Max(f.longest.value, elapsed)));
    timed.(messages := f.messages + 1, lastMono := Some(monoNs))
  }

  function Taken(f: Feed, t: Trade, stamp: Stamp): Feed {
    f.(latest := Some(Item(if f.latest.None? then 1 else f.latest.value.sequence + 1, t, stamp)))
  }

  function Updated(f: Feed, t: Trade, stamp: Stamp): (Feed, bool) {
    var heard := Heard(Opened(f, stamp.connection), stamp.monoNs);
    if f.latest.None? then (Taken(heard, t, stamp), true)
    else
      var previous := f.latest.value.trade;
      if t.id == previous.id then (heard.(duplicates := f.duplicates + 1), false)
      else if t.id < previous.id || t.tradeTimeMs < previous.tradeTimeMs
        then (heard.(regressions := f.regressions + 1), false)
      else if t.id > previous.id + 1 then
        (Taken(heard.(gapEvents := f.gapEvents + 1, missing := f.missing + (t.id - previous.id - 1)), t, stamp), true)
      else (Taken(heard, t, stamp), true)
  }

  predicate IsFresh(f: Feed, item: Item, nowNs: int, staleAfterMs: int) {
    f.current == Some(item.stamp.connection) && 0 <= nowNs - item.stamp.monoNs <= staleAfterMs * NS_PER_MS
  }

  class FuturesTradeState {
    var current: Option<int>
    var connections: nat
    var reconnects: nat
    var messages: nat
    var gapEvents: nat
    var missing: nat
    var duplicates: nat
    var regressions: nat
    var interarrival: Option<int>
    var longest: Option<int>
    var lastMono: Option<int>
    var latest: Option<Item>

    function Model(): Feed
      reads this
    {
      Feed(current, connections, reconnects, messages, gapEvents, missing, duplicates, regressions, interarrival,
           longest,
           lastMono, latest)
    }

    constructor ()
      ensures Model() == IDLE
    {
      current, lastMono, latest, interarrival, longest := None, None, None, None, None;
      connections, reconnects, messages, gapEvents, missing, duplicates, regressions := 0, 0, 0, 0, 0, 0, 0;
    }

    method ConnectionOpened(connection: int)
      modifies this`current, this`connections, this`reconnects
      ensures Model() == Opened(old(Model()), connection)
    {
      if current == Some(connection) { return; }
      if connections > 0 { reconnects := reconnects + 1; }
      connections := connections + 1;
      current := Some(connection);
    }

    method ConnectionClosed(connection: int)
      modifies this`current
      ensures Model() == Closed(old(Model()), connection)
    {
      if current == Some(connection) { current := None; }
    }

    method HearMessage(monoNs: int)
      modifies this`messages, this`interarrival, this`longest, this`lastMono
      ensures Model() == Heard(old(Model()), monoNs)
    {
      messages := messages + 1;
      if lastMono.Some? {
        var elapsed := monoNs - lastMono.value;
        if elapsed >= 0 {
          interarrival := Some(elapsed);
          longest := Some(if longest.None? then elapsed else Max(longest.value, elapsed));
        }
      }
      lastMono := Some(monoNs);
    }

    method UpdateWs(t: Trade, stamp: Stamp) returns (item: Option<Item>)
      modifies this
      ensures (Model(), item.Some?) == Updated(old(Model()), t, stamp)
      ensures item.Some? ==> item == latest
    {
      hide Heard;
      if current != Some(stamp.connection) { ConnectionOpened(stamp.connection); }
      HearMessage(stamp.monoNs);
      OpenedCounts(old(Model()), stamp.connection);
      HeardCounts(Opened(old(Model()), stamp.connection), stamp.monoNs);
      if latest.Some? {
        var delta := t.id - latest.value.trade.id;
        if delta == 0 {
          duplicates := duplicates + 1;
          return None;
        }
        if delta < 0 || t.tradeTimeMs < latest.value.trade.tradeTimeMs {
          regressions := regressions + 1;
          return None;
        }
        if delta > 1 {
          gapEvents := gapEvents + 1;
          missing := missing + (delta - 1);
        }
      }
      latest := Some(Item(if latest.None? then 1 else latest.value.sequence + 1, t, stamp));
      item := latest;
    }

    /** The latest item, only while its own connection is current and its receipt recent. */
    method FreshCurrent(nowNs: int, staleAfterMs: int) returns (item: Option<Item>)
      requires staleAfterMs > 0
      ensures item == if latest.Some? && IsFresh(Model(), latest.value, nowNs, staleAfterMs) then latest else None
    {
      item := None;
      if latest.Some? && current.Some? && latest.value.stamp.connection == current.value {
        var age := nowNs - latest.value.stamp.monoNs;
        if 0 <= age <= staleAfterMs * NS_PER_MS { item := latest; }
      }
    }
  }

  // ---------------------------------------------------------------- runs

  datatype Op = Open(connection: int) | Close(connection: int) | Receive(trade: Trade, stamp: Stamp)

  datatype World = World(feed: Feed, accepted: seq<Trade>)

  function Apply(w: World, op: Op): World {
    match op
    case Open(c) => w.(feed := Opened(w.feed, c))
    case Close(c) => w.(feed := Closed(w.feed, c))
    case Receive(t, stamp) =>
      var (f, taken) := Updated(w.feed, t, stamp);
      World(f, if taken then w.accepted + [t] else w.accepted)
  }

  function Run(ops: seq<Op>): World {
    if ops == [] then World(IDLE, []) else Apply(Run(ops[..|ops| - 1]), ops[|ops| - 1])
  }

  function IdsOf(ts: seq<Trade>): set<int> { set t | t in ts :: t.id }

  function Skipped(ts: seq<Trade>): set<int>
    requires ts != []
  {
    set i: int | ts[0].id <= i <= ts[|ts| - 1].id && i !in IdsOf(ts)
  }

  /** Identifiers rise, times do not fall, and the counters add up to what was heard and what was skipped. */
  ghost predicate Accounted(w: World) {
    && (forall i, j :: 0 <= i < j < |w.accepted| ==>
          w.accepted[i].id < w.accepted[j].id && w.accepted[i].tradeTimeMs <= w.accepted[j].tradeTimeMs)
    && w.feed.messages == |w.accepted| + w.feed.duplicates + w.feed.regressions
    && (if w.accepted == [] then w.feed.latest.None? && w.feed.missing == 0
        else
          var last := w.accepted[|w.accepted| - 1];
          && w.feed.latest.Some? && w.feed.latest.value.trade == last && w.feed.latest.value.sequence == |w.accepted|
          && |w.accepted| + w.feed.missing == last.id - w.accepted[0].id + 1
          && w.feed.missing == |Skipped(w.accepted)|)
    && w.feed.gapEvents <= w.feed.missing
  }

  function Range(lo: int, hi: int): set<int> {
    set i: int {:trigger Within(i, lo, hi)} | Within(i, lo, hi) && lo <= i < hi
  }

  predicate Within(i: int, lo: int, hi: int) { lo <= i < hi }

  lemma {:induction false} RangeSize(lo: int, hi: int)
    requires lo <= hi
    ensures |Range(lo, hi)| == hi - lo
    decreases hi - lo
  {
    if lo < hi {
      RangeSize(lo, hi - 1);
      assert Range(lo, hi) == Range(lo, hi - 1) + {hi - 1};
    }
  }

  lemma SkippedGrows(ts: seq<Trade>, t: Trade)
    requires ts != [] && t.id > ts[|ts| - 1].id
    requires forall i :: 0 <= i < |ts| ==> ts[i].id <= ts[|ts| - 1].id
    ensures |Skipped(ts + [t])| == |Skipped(ts)| + (t.id - ts[|ts| - 1].id - 1)
  {
    var more, last := ts + [t], ts[|ts| - 1].id;
    var gap := Range(last + 1, t.id);
    RangeSize(last + 1, t.id);
    forall i: int
      ensures i in IdsOf(more) <==> i in IdsOf(ts) || i == t.id
    {
      if i in IdsOf(ts) {
        var x :| x in ts && x.id == i;
        assert x in more;
      }
      assert t in more;
    }
    forall i | i in IdsOf(ts)
      ensures i <= last
    {
      var x :| x in ts && x.id == i;
      var k :| 0 <= k < |ts| && ts[k] == x;
    }
    assert Skipped(more) == Skipped(ts) + gap;
    assert Skipped(ts) !! gap;
  }

  lemma FirstSkipsNothing(t: Trade)
    ensures Skipped([t]) == {}
  {
    assert t in [t];
  }

  lemma ReceiveKeeps(w: World, t: Trade, stamp: Stamp)
    requires Accounted(w)
    ensures Accounted(Apply(w, Receive(t, stamp)))
  {
    hide Skipped, Heard, Opened;
    OpenedCounts(w.feed, stamp.connection);
    HeardCounts(Opened(w.feed, stamp.connection), stamp.monoNs);
    if w.accepted == [] {
      FirstSkipsNothing(t);
      assert w.accepted + [t] == [t];
    } else if t.id > w.accepted[|w.accepted| - 1].id {
      SkippedGrows(w.accepted, t);
    }
  }

  /** Over any run, accepted plus missing is the span of identifiers, and missing is what was never accepted of it. */
  lemma {:induction false} IdsAddUp(ops: seq<Op>)
    ensures Accounted(Run(ops))
  {
    hide Updated, Skipped;
    if ops != [] {
      var w := Run(ops[..|ops| - 1]);
      IdsAddUp(ops[..|ops| - 1]);
      match ops[|ops| - 1]
      case Open(_) =>
      case Close(_) =>
      case Receive(t, stamp) => ReceiveKeeps(w, t, stamp);
    }
  }

  lemma OpenedCounts(f: Feed, connection: int)
    ensures var o := Opened(f, connection);
            o == f.(current := Some(connection), connections := o.connections, reconnects := o.reconnects)
  {
  }

  lemma HeardCounts(f: Feed, monoNs: int)
    ensures var h := Heard(f, monoNs);
            h == f.(messages := f.messages + 1, interarrival := h.interarrival, longest := h.longest,
                    lastMono := Some(monoNs))
  {
  }
}
