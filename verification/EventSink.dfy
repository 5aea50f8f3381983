/**
 The bounded queues around the aggregate loop: the readers' sink, which owes a loss marker
 before anything else once it has dropped an event (price_collector/binance_microstructure.py),
 and the history queue, which gives up its oldest row (price_collector/binance_microstructure_collector.py).
 */
module EventSink {
  import opened Core
  import opened Microstructure

  datatype Sink = Sink(queue: seq<Event>, next: nat, dropped: nat, overflow: Option<int>)

  /** A capacity of zero means no bound. */
  predicate Full<T>(queue: seq<T>, capacity: nat) { 0 < capacity <= |queue| }

  function Flushed(s: Sink, capacity: nat): (Sink, bool) {
    if s.overflow.None? then (s, true)
    else if Full(s.queue, capacity) then (s.(next := s.next + 1), false)
    else (s.(queue := s.queue + [Event(s.overflow.value, s.next, Error)], next := s.next + 1, overflow := None), true)
  }

  function Offered(s: Sink, capacity: nat, kind: Kind, receivedMs: int): (Sink, bool) {
    var (f, clear) := Flushed(s, capacity);
    if !clear then (f.(dropped := f.dropped + 1), false)
    else if Full(f.queue, capacity) then
      (f.(next := f.next + 1, dropped := f.dropped + 1,
          overflow := Some(if f.overflow.None? then receivedMs else f.overflow.value)), false)
    else (f.(queue := f.queue + [Event(receivedMs, f.next, kind)], next := f.next + 1), true)
  }

  class MicrostructureEventSink {
    const capacity: nat
    var queue: seq<Event>
    var next: nat
    var dropped: nat
    var overflow: Option<int>

    function Model(): Sink
      reads this
    {
      Sink(queue, next, dropped, overflow)
    }

    constructor (capacity: nat)
      ensures this.capacity == capacity && Model() == Sink([], 0, 0, None)
    {
      this.capacity := capacity;
      queue, next, dropped, overflow := [], 0, 0, None;
    }

    method PutNowait(e: Event) returns (accepted: bool)
      modifies this`queue
      ensures accepted == !Full(old(queue), capacity)
      ensures queue == if accepted then old(queue) + [e] else old(queue)
    {
      accepted := !Full(queue, capacity);
      if accepted { queue := queue + [e]; }
    }

    method FlushDeferredOverflowError() returns (clear: bool)
      modifies this
      ensures (Model(), clear) == Flushed(old(Model()), capacity)
    {
      if overflow.None? { return true; }
      var marker := Event(overflow.value, next, Error);
      next := next + 1;
      clear := PutNowait(marker);
      if clear { overflow := None; }
    }

    method Offer(kind: Kind, receivedMs: int) returns (accepted: bool)
      modifies this
      ensures (Model(), accepted) == Offered(old(Model()), capacity, kind, receivedMs)
    {
      var clear := FlushDeferredOverflowError();
      if !clear {
        dropped := dropped + 1;
        return false;
      }
      var e := Event(receivedMs, next, kind);
      next := next + 1;
      accepted := PutNowait(e);
      if !accepted {
        dropped := dropped + 1;
        if overflow.None? { overflow := Some(receivedMs); }
      }
    }
  }

  // ---------------------------------------------------------------- runs

  datatype Op = Offer(kind: Kind, receivedMs: int) | Take | Restart

  /** What became of each offer, in order: put in, put in as the owed marker, or lost. */
  datatype Entry = Entered(event: Event) | Marked(event: Event) | Lost(receivedMs: int) | Forgotten

  datatype World = World(sink: Sink, taken: seq<Event>, log: seq<Entry>)

  function MarkerEntries(s: Sink, capacity: nat): seq<Entry> {
    if s.overflow.Some? && !Full(s.queue, capacity) then [Marked(Event(s.overflow.value, s.next, Error))] else []
  }

  function OfferEntries(s: Sink, capacity: nat, kind: Kind, receivedMs: int): seq<Entry> {
    var (f, clear) := Flushed(s, capacity);
    MarkerEntries(s, capacity)
    + [if clear && !Full(f.queue, capacity) then Entered(Event(receivedMs, f.next, kind)) else Lost(receivedMs)]
  }

  function Step(w: World, op: Op, capacity: nat): World {
    match op
    case Offer(kind, receivedMs) =>
      w.(sink := Offered(w.sink, capacity, kind, receivedMs).0,
         log := w.log + OfferEntries(w.sink, capacity, kind, receivedMs))
    case Take =>
      if w.sink.queue == [] then w
      else w.(sink := w.sink.(queue := w.sink.queue[1..]), taken := w.taken + [w.sink.queue[0]])
    case Restart => w.(sink := w.sink.(overflow := None), log := w.log + [Forgotten])
  }

  function Run(ops: seq<Op>, capacity: nat): World {
    if ops == [] then World(Sink([], 0, 0, None), [], [])
    else Step(Run(ops[..|ops| - 1], capacity), ops[|ops| - 1], capacity)
  }

  /** The receipt time of the first loss not yet marked. */
  function Owed(log: seq<Entry>): Option<int> {
    if log == [] then None
    else
      var before := Owed(log[..|log| - 1]);
      match log[|log| - 1]
      case Entered(_) => before
      case Marked(_) => None
      case Forgotten => None
      case Lost(ms) => if before.Some? then before else Some(ms)
  }

  function EventsOf(log: seq<Entry>): seq<Event> {
    if log == [] then []
    else
      var before, last := EventsOf(log[..|log| - 1]), log[|log| - 1];
      if last.Entered? || last.Marked? then before + [last.event] else before
  }

  function Losses(log: seq<Entry>): nat {
    if log == [] then 0 else Losses(log[..|log| - 1]) + (if log[|log| - 1].Lost? then 1 else 0)
  }

  predicate Settles(e: Entry) { e.Marked? || e.Forgotten? }

  ghost predicate SettledBefore(log: seq<Entry>, i: int, j: int) {
    exists k :: 0 <= i < k < j && k < |log| && Settles(log[k])
  }

  /** Between a loss and the next ordinary event lies a marker, stamped with the first loss it stands for. */
  ghost predicate MarkersLead(log: seq<Entry>) {
    && (forall i, j :: 0 <= i < j < |log| && log[i].Lost? && log[j].Entered? ==> SettledBefore(log, i, j))
    && (forall k :: 0 <= k < |log| && log[k].Marked? ==>
          Owed(log[..k]) == Some(log[k].event.receivedMs) && log[k].event.kind.Error?)
  }

  ghost predicate Numbered(es: seq<Event>, bound: nat) {
    && (forall i :: 0 <= i < |es| ==> es[i].sequence < bound)
    && (forall i, j :: 0 <= i < j < |es| ==> es[i].sequence < es[j].sequence)
  }

  lemma {:induction false} NothingOwedIsSettled(log: seq<Entry>, i: nat)
    requires Owed(log).None? && i < |log| && log[i].Lost?
    ensures SettledBefore(log, i, |log|)
  {
    var n := |log| - 1;
    if Settles(log[n]) {
      assert i < n;
    } else {
      assert i < n;
      NothingOwedIsSettled(log[..n], i);
      var k :| i < k < n && Settles(log[..n][k]);
      assert log[k] == log[..n][k];
    }
  }

  lemma AppendKeepsLead(log: seq<Entry>, e: Entry)
    requires MarkersLead(log)
    requires e.Entered? ==> Owed(log).None?
    requires e.Marked? ==> Owed(log) == Some(e.event.receivedMs) && e.event.kind.Error?
    ensures MarkersLead(log + [e])
  {
    hide Owed;
    var more := log + [e];
    forall i, j | 0 <= i < j < |more| && more[i].Lost? && more[j].Entered?
      ensures SettledBefore(more, i, j)
    {
      if j < |log| {
        assert SettledBefore(log, i, j);
        var k :| i < k < j && Settles(log[k]);
        assert Settles(more[k]);
      } else {
        NothingOwedIsSettled(log, i);
        var k :| i < k < |log| && Settles(log[k]);
        assert Settles(more[k]);
      }
    }
    forall k | 0 <= k < |more| && more[k].Marked?
      ensures Owed(more[..k]) == Some(more[k].event.receivedMs) && more[k].event.kind.Error?
    {
      assert more[..k] == log[..k];
      assert k == |log| ==> log[..k] == log;
    }
  }

  lemma AppendOne(log: seq<Entry>, e: Entry)
    ensures Owed(log + [e]) == match e { case Entered(_) => Owed(log) case Marked(_) => None case Forgotten => None
                                         case Lost(ms) => if Owed(log).Some? then Owed(log) else Some(ms) }
    ensures EventsOf(log + [e]) == if e.Entered? || e.Marked? then EventsOf(log) + [e.event] else EventsOf(log)
    ensures Losses(log + [e]) == Losses(log) + if e.Lost? then 1 else 0
  {
    assert (log + [e])[..|log|] == log;
  }

  ghost predicate Inv(w: World, capacity: nat) {
    && w.sink.overflow == Owed(w.log)
    && MarkersLead(w.log)
    && w.taken + w.sink.queue == EventsOf(w.log)
    && Numbered(EventsOf(w.log), w.sink.next)
    && w.sink.dropped == Losses(w.log)
    && (capacity > 0 ==> |w.sink.queue| <= capacity)
  }

  lemma NumberedMore(es: seq<Event>, bound: nat, e: Event, next: nat)
    requires Numbered(es, bound) && bound <= e.sequence < next
    ensures Numbered(es + [e], next)
  {
  }

  lemma FlushKeepsInv(w: World, capacity: nat)
    requires Inv(w, capacity)
    ensures var (s, clear) := Flushed(w.sink, capacity);
            Inv(w.(sink := s, log := w.log + MarkerEntries(w.sink, capacity)), capacity) && (clear ==> s.overflow.None?)
  {
    hide Owed, EventsOf, Losses, MarkersLead, Numbered;
    var s := Flushed(w.sink, capacity).0;
    var entries := MarkerEntries(w.sink, capacity);
    if entries == [] {
      assert w.log + entries == w.log;
      NumberedWider(EventsOf(w.log), w.sink.next, s.next);
    } else {
      AppendKeepsLead(w.log, entries[0]);
      AppendOne(w.log, entries[0]);
      NumberedMore(EventsOf(w.log), w.sink.next, entries[0].event, s.next);
      assert w.taken + s.queue == w.taken + w.sink.queue + [entries[0].event];
    }
  }

  lemma NumberedWider(es: seq<Event>, bound: nat, next: nat)
    requires Numbered(es, bound) && bound <= next
    ensures Numbered(es, next)
  {
  }

  lemma OfferKeepsInv(w: World, kind: Kind, receivedMs: int, capacity: nat)
    requires Inv(w, capacity)
    ensures Inv(Step(w, Offer(kind, receivedMs), capacity), capacity)
  {
    hide Owed, EventsOf, Losses, MarkersLead, Numbered, Flushed, MarkerEntries;
    var (s, clear) := Flushed(w.sink, capacity);
    var log := w.log + MarkerEntries(w.sink, capacity);
    FlushKeepsInv(w, capacity);
    var done := Offered(w.sink, capacity, kind, receivedMs).0;
    var e := if clear && !Full(s.queue, capacity) then Entered(Event(receivedMs, s.next, kind)) else Lost(receivedMs);
    assert w.log + OfferEntries(w.sink, capacity, kind, receivedMs) == log + [e];
    AppendKeepsLead(log, e);
    AppendOne(log, e);
    if e.Entered? {
      NumberedMore(EventsOf(log), s.next, e.event, done.next);
      assert w.taken + done.queue == w.taken + s.queue + [e.event];
    } else {
      NotClearOwes(w.sink, capacity);
      NumberedWider(EventsOf(log), s.next, done.next);
    }
  }

  lemma NotClearOwes(s: Sink, capacity: nat)
    ensures !Flushed(s, capacity).1 ==> Flushed(s, capacity).0.overflow.Some?
  {
  }

  /**
   Whatever the readers offer and whenever the worker takes, no ordinary event enters after a
   loss before its marker, and the worker receives, in strictly rising sequence, all that entered.
   */
  lemma {:induction false} LossesAreMarked(ops: seq<Op>, capacity: nat)
    ensures Inv(Run(ops, capacity), capacity)
  {
    hide Owed, EventsOf, Losses, MarkersLead, Numbered, Offered, OfferEntries;
    if ops == [] {
      EmptyInv(capacity);
    } else {
      var w := Run(ops[..|ops| - 1], capacity);
      LossesAreMarked(ops[..|ops| - 1], capacity);
      match ops[|ops| - 1]
      case Offer(kind, receivedMs) => OfferKeepsInv(w, kind, receivedMs, capacity);
      case Take =>
        if w.sink.queue != [] {
          assert w.taken + [w.sink.queue[0]] + w.sink.queue[1..] == w.taken + w.sink.queue;
        }
      case Restart =>
        AppendKeepsLead(w.log, Forgotten);
        AppendOne(w.log, Forgotten);
    }
  }

  lemma EmptyInv(capacity: nat)
    ensures Inv(World(Sink([], 0, 0, None), [], []), capacity)
  {
  }

  // ---------------------------------------------------------------- history queue

  /** At capacity the oldest queued row makes room. */
  method EnqueueFinalizedRow(rows: seq<Row>, capacity: nat, row: Row) returns (queued: seq<Row>, gone: Option<Row>)
    requires capacity > 0 ==> |rows| <= capacity
    ensures queued == History(rows, capacity, row)
    ensures if Full(rows, capacity) then gone == Some(rows[0]) else gone.None?
  {
    if !Full(rows, capacity) { return rows + [row], None; }
    return rows[1..] + [row], Some(rows[0]);
  }

  function History(rows: seq<Row>, capacity: nat, row: Row): seq<Row> {
    (if Full(rows, capacity) then rows[1..] else rows) + [row]
  }

  /** The worker holds the row it is writing; a cancelled write gives it back. */
  datatype Write = Finished(row: Row) | Taken | Written

  datatype Persistence = Persistence(queue: seq<Row>, inFlight: Option<Row>)

  function Finishes(ws: seq<Write>): seq<Row> {
    if ws == [] then []
    else if ws[|ws| - 1].Finished? then Finishes(ws[..|ws| - 1]) + [ws[|ws| - 1].row] else Finishes(ws[..|ws| - 1])
  }

  function Worked(p: Persistence, w: Write, capacity: nat): Persistence {
    match w
    case Finished(row) => p.(queue := History(p.queue, capacity, row))
    case Taken =>
      if p.queue == [] || p.inFlight.Some? then p else Persistence(p.queue[1..], Some(p.queue[0]))
    case Written => p.(inFlight := None)
  }

  function Persisted(ws: seq<Write>, capacity: nat): Persistence {
    if ws == [] then Persistence([], None) else Worked(Persisted(ws[..|ws| - 1], capacity), ws[|ws| - 1], capacity)
  }

  /** A cancelled write puts its row behind the others, unless the queue is full. */
  method RequeueInflightRow(rows: seq<Row>, capacity: nat, row: Row) returns (queued: seq<Row>, kept: bool)
    ensures kept <==> !Full(rows, capacity)
    ensures queued == Cancelled(Persistence(rows, Some(row)), capacity).queue
  {
    kept := !Full(rows, capacity);
    queued := if kept then rows + [row] else rows;
  }

  function Cancelled(p: Persistence, capacity: nat): Persistence {
    if p.inFlight.None? || Full(p.queue, capacity) then p.(inFlight := None)
    else Persistence(p.queue + [p.inFlight.value], None)
  }

  /** The newest rows of a run, as many as `n`. */
  function Newest(all: seq<Row>, n: nat): seq<Row>
    requires n <= |all|
  {
    all[|all| - n..]
  }

  ghost predicate HoldsNewest(p: Persistence, all: seq<Row>, capacity: nat) {
    && |p.queue| <= |all| && p.queue == Newest(all, |p.queue|) && (capacity > 0 ==> |p.queue| <= capacity)
    && (p.inFlight.Some? && !Full(p.queue, capacity)
        ==> |p.queue| < |all| && p.inFlight.value == all[|all| - |p.queue| - 1])
  }

  lemma FinishKeepsNewest(p: Persistence, all: seq<Row>, capacity: nat, row: Row)
    requires HoldsNewest(p, all, capacity)
    ensures HoldsNewest(Worked(p, Write.Finished(row), capacity), all + [row], capacity)
  {
    var after := History(p.queue, capacity, row);
    assert after == Newest(all + [row], |after|);
  }

  lemma TakeKeepsNewest(p: Persistence, all: seq<Row>, capacity: nat)
    requires HoldsNewest(p, all, capacity)
    ensures HoldsNewest(Worked(p, Taken, capacity), all, capacity)
  {
    if p.queue != [] {
      assert p.queue[1..] == Newest(all, |p.queue| - 1);
      assert p.queue[0] == all[|all| - |p.queue|];
    }
  }

  /**
   The queue always holds the newest rows without a hole, never more than its capacity;
   while it has room, the row in flight is the one just before them.
   */
  lemma {:induction false} HistoryIsNewest(ws: seq<Write>, capacity: nat)
    ensures HoldsNewest(Persisted(ws, capacity), Finishes(ws), capacity)
  {
    if ws != [] {
      hide HoldsNewest, Worked;
      var front := ws[..|ws| - 1];
      HistoryIsNewest(front, capacity);
      var p, all := Persisted(front, capacity), Finishes(front);
      match ws[|ws| - 1]
      case Finished(row) => FinishKeepsNewest(p, all, capacity, row);
      case Taken => TakeKeepsNewest(p, all, capacity);
      case Written => WriteKeepsNewest(p, all, capacity);
    }
    assert ws == [] ==> HoldsNewest(Persisted(ws, capacity), Finishes(ws), capacity);
  }

  lemma WriteKeepsNewest(p: Persistence, all: seq<Row>, capacity: nat)
    requires HoldsNewest(p, all, capacity)
    ensures HoldsNewest(Worked(p, Written, capacity), all, capacity)
  {
  }

  /**
   Giving a cancelled row back costs no newer one and leaves no hole: the queue then holds,
   with the returned row last, exactly the newest rows of the run; a full queue stays as it is.
   */
  lemma CancelledRowLosesNothingNewer(ws: seq<Write>, capacity: nat)
    ensures var (p, all) := (Persisted(ws, capacity), Finishes(ws));
            var after := Cancelled(p, capacity).queue;
            && |after| <= |all| && multiset(after) == multiset(Newest(all, |after|))
            && (capacity > 0 ==> |after| <= capacity)
            && (p.inFlight.Some? && p.inFlight.value !in after ==> Full(p.queue, capacity))
  {
    hide Finishes, Persisted;
    HistoryIsNewest(ws, capacity);
    var p := Persisted(ws, capacity);
    var all := Finishes(ws);
    if p.inFlight.Some? && !Full(p.queue, capacity) {
      assert Newest(all, |p.queue| + 1) == [p.inFlight.value] + p.queue;
    }
  }
}
