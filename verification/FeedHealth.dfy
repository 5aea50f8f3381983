/**
 Hourly receipt diagnostics (price_collector/ghost_twap_health.py): a bounded block of
 hours, filled through silence, with per-feed gap and source-stamp counters.
 */
module FeedHealth {
  import opened Core

  const HOUR_MS := 3_600_000
  const MAX_HOURS := 49

  datatype Feed = SpotFeed | TwapFeed

  datatype Stats = Stats(events: nat, gapEvents: nat, connectionEnds: nat, maxGapNs: int, over3: nat, over5: nat,
                         total3: int, total5: int, holes: nat, late: nat, duplicate: nat, future: nat, maxAgeMs: int)

  const QUIET: Stats := Stats(0, 0, 0, 0, 0, 0, 0, 0, 0, 0, 0, 0, 0)

  datatype Bucket = Bucket(startMs: int, revision: nat, fromMs: int, untilMs: int, complete: bool,
                           feeds: map<Feed, Stats>)

  datatype Health = Health(startedMs: int, hours: seq<Bucket>, dropped: nat, evicted: nat, lastMono: map<Feed, int>,
                           sourceMax: map<Feed, int>)

  datatype Receipt = Receipt(feed: Feed, wallNs: int, monoNs: int, sourceMs: int)

  function HourOf(nowMs: int): int { nowMs / HOUR_MS * HOUR_MS }

  function Opened(startedMs: int, hour: int): Bucket { Bucket(hour, 0, Max(hour, startedMs), hour, false, map[]) }

  function Fresh(startedMs: int, first: int, hour: int): seq<Bucket>
    decreases hour - first
  {
    if first > hour then [] else [Opened(startedMs, first)] + Fresh(startedMs, first + HOUR_MS, hour)
  }

  function Newest<T>(s: seq<T>, n: nat): seq<T> { if |s| > n then s[|s| - n..] else s }

  function Previous(h: Health, hour: int): int {
    if h.hours == [] then hour - HOUR_MS else h.hours[|h.hours| - 1].startMs
  }

  function FirstNew(h: Health, hour: int): int { Max(Previous(h, hour) + HOUR_MS, hour - (MAX_HOURS - 1) * HOUR_MS) }

  function Skipped(h: Health, hour: int): nat {
    if FirstNew(h, hour) > Previous(h, hour) + HOUR_MS then (FirstNew(h, hour) - Previous(h, hour) - HOUR_MS) / HOUR_MS
    else 0
  }

  function Rolled(h: Health, nowMs: int): Health {
    var hour := HourOf(nowMs);
    var all := h.hours + Fresh(h.startedMs, FirstNew(h, hour), hour);
    h.(hours := Newest(all, MAX_HOURS), dropped := h.dropped + Skipped(h, hour),
       evicted := h.evicted + Max(0, |all| - MAX_HOURS))
  }

  /** The hour's own bucket while it is retained, otherwise the newest. */
  function Slot(hours: seq<Bucket>, hour: int): (k: nat)
    requires hours != []
    ensures k < |hours|
  {
    SlotFrom(hours, hour, 0)
  }

  function SlotFrom(hours: seq<Bucket>, hour: int, i: nat): (k: nat)
    requires hours != [] && i <= |hours|
    ensures k < |hours|
    decreases |hours| - i
  {
    if i == |hours| then |hours| - 1 else if hours[i].startMs == hour then i else SlotFrom(hours, hour, i + 1)
  }

  function StatsOf(b: Bucket, feed: Feed): Stats { if feed in b.feeds then b.feeds[feed] else QUIET }

  function WithGap(s: Stats, elapsed: Option<int>): Stats {
    if elapsed.None? || elapsed.value < 0 then s
    else
      var (three, five) := (elapsed.value > 3 * NS_PER_SECOND, elapsed.value > 5 * NS_PER_SECOND);
      s.(maxGapNs := Max(s.maxGapNs, elapsed.value),
         over3 := s.over3 + (if three then 1 else 0), total3 := s.total3 + (if three then elapsed.value else 0),
         over5 := s.over5 + (if five then 1 else 0), total5 := s.total5 + (if five then elapsed.value else 0))
  }

  function WithSource(s: Stats, age: int, source: int, highest: Option<int>): Stats {
    if age < 0 then s.(future := s.future + 1)
    else
      var aged := s.(maxAgeMs := Max(s.maxAgeMs, age));
      if highest.None? then aged
      else if source < highest.value then aged.(late := s.late + 1)
      else if source == highest.value then aged.(duplicate := s.duplicate + 1)
      else aged.(holes := s.holes + Max(0, (source - highest.value) / 1000 - 1))
  }

  function Lookup(m: map<Feed, int>, feed: Feed): Option<int> { if feed in m then Some(m[feed]) else None }

  function Noted(s: Stats, h: Health, e: Receipt): Stats {
    var last := Lookup(h.lastMono, e.feed);
    WithSource(WithGap(s.(events := s.events + 1), if last.None? then None else Some(e.monoNs - last.value)),
               e.wallNs / NS_PER_MS - e.sourceMs, e.sourceMs, Lookup(h.sourceMax, e.feed))
  }

  function Revised(b: Bucket, feed: Feed, s: Stats): Bucket {
    b.(feeds := b.feeds[feed := s], revision := b.revision + 1)
  }

  lemma {:induction false} FreshShape(startedMs: int, first: int, hour: int)
    requires first % HOUR_MS == 0 && hour % HOUR_MS == 0
    ensures var f := Fresh(startedMs, first, hour);
            && |f| == (if first > hour then 0 else (hour - first) / HOUR_MS + 1)
            && forall i :: 0 <= i < |f| ==> f[i] == Opened(startedMs, first + i * HOUR_MS)
    decreases hour - first
  {
    if first <= hour { FreshShape(startedMs, first + HOUR_MS, hour); }
  }

  /** Whatever the clock says, the roll leaves an hour to write to. */
  lemma RollLeavesOne(h: Health, nowMs: int)
    ensures Rolled(h, nowMs).hours != []
  {
  }

  function Highest(h: Health, e: Receipt): int { if e.feed in h.sourceMax then h.sourceMax[e.feed] else e.sourceMs }

  function Observed(h: Health, e: Receipt): Health {
    RollLeavesOne(h, e.wallNs / NS_PER_MS);
    var r := Rolled(h, e.wallNs / NS_PER_MS);
    var k := Slot(r.hours, HourOf(e.wallNs / NS_PER_MS));
    var future := e.wallNs / NS_PER_MS < e.sourceMs;
    r.(hours := r.hours[k := Revised(r.hours[k], e.feed, Noted(StatsOf(r.hours[k], e.feed), h, e))],
       lastMono := h.lastMono[e.feed := e.monoNs],
       sourceMax := if future then h.sourceMax
                    else h.sourceMax[e.feed := Max(e.sourceMs, Highest(h, e))])
  }

  function GapNoted(h: Health, feed: Feed, connectionEnd: bool, wallMs: int): Health {
    RollLeavesOne(h, wallMs);
    var r := Rolled(h, wallMs);
    var k := Slot(r.hours, HourOf(wallMs));
    var s := StatsOf(r.hours[k], feed);
    r.(hours := r.hours[k := Revised(r.hours[k], feed,
         s.(gapEvents := s.gapEvents + 1, connectionEnds := s.connectionEnds + (if connectionEnd then 1 else 0)))])
  }

  // ---------------------------------------------------------------- in place

  class GhostFeedHealth {
    const startedMs: int
    var hours: seq<Bucket>
    var dropped: nat
    var evicted: nat
    var lastMono: map<Feed, int>
    var sourceMax: map<Feed, int>

    function Model(): Health
      reads this
    {
      Health(startedMs, hours, dropped, evicted, lastMono, sourceMax)
    }

    constructor (startedMs: int)
      ensures Model() == Health(startedMs, [], 0, 0, map[], map[])
    {
      this.startedMs := startedMs;
      hours, dropped, evicted, lastMono, sourceMax := [], 0, 0, map[], map[];
    }

    method Hour(nowMs: int) returns (k: nat)
      modifies this`hours, this`dropped, this`evicted
      ensures Model() == Rolled(old(Model()), nowMs) && hours != [] && k == Slot(hours, HourOf(nowMs))
    {
      var hour := HourOf(nowMs);
      var previous := if hours == [] then hour - HOUR_MS else hours[|hours| - 1].startMs;
      var first := Max(previous + HOUR_MS, hour - (MAX_HOURS - 1) * HOUR_MS);
      if first > previous + HOUR_MS { dropped := dropped + (first - previous - HOUR_MS) / HOUR_MS; }
      var stamp := first;
      ghost var all := hours + Fresh(startedMs, first, hour);
      while stamp <= hour
        invariant hours + Fresh(startedMs, stamp, hour) == all
        invariant evicted == old(evicted) && dropped == old(dropped) + Skipped(old(Model()), hour)
        decreases hour - stamp
      {
        assert hours + ([Opened(startedMs, stamp)] + Fresh(startedMs, stamp + HOUR_MS, hour))
            == hours + [Opened(startedMs, stamp)] + Fresh(startedMs, stamp + HOUR_MS, hour);
        hours := hours + [Opened(startedMs, stamp)];
        stamp := stamp + HOUR_MS;
      }
      assert hours + [] == hours;
      while |hours| > MAX_HOURS
        invariant Newest(hours, MAX_HOURS) == Newest(all, MAX_HOURS)
        invariant evicted + Max(0, |hours| - MAX_HOURS) == old(evicted) + Max(0, |all| - MAX_HOURS)
        invariant dropped == old(dropped) + Skipped(old(Model()), hour)
        decreases |hours|
      {
        assert hours[1..][|hours| - 1 - MAX_HOURS..] == hours[|hours| - MAX_HOURS..];
        hours := hours[1..];
        evicted := evicted + 1;
      }
      RollLeavesOne(old(Model()), nowMs);
      k := Slot(hours, hour);
    }

    method Observe(e: Receipt)
      modifies this
      ensures Model() == Observed(old(Model()), e)
    {
      var k := Hour(e.wallNs / NS_PER_MS);
      var values := StatsOf(hours[k], e.feed);
      values := values.(events := values.events + 1);
      if e.feed in lastMono { values := WithGap(values, Some(e.monoNs - lastMono[e.feed])); }
      var age := e.wallNs / NS_PER_MS - e.sourceMs;
      values := WithSource(values, age, e.sourceMs, Lookup(sourceMax, e.feed));
      if age >= 0 {
        var highest := if e.feed in sourceMax then sourceMax[e.feed] else e.sourceMs;
        sourceMax := sourceMax[e.feed := Max(e.sourceMs, highest)];
      }
      lastMono := lastMono[e.feed := e.monoNs];
      hours := hours[k := Revised(hours[k], e.feed, values)];
    }

    method NoteGap(feed: Feed, connectionEnd: bool, wallMs: int)
      modifies this
      ensures Model() == GapNoted(old(Model()), feed, connectionEnd, wallMs)
    {
      var k := Hour(wallMs);
      var values := StatsOf(hours[k], feed);
      values := values.(gapEvents := values.gapEvents + 1,
                        connectionEnds := values.connectionEnds + (if connectionEnd then 1 else 0));
      hours := hours[k := Revised(hours[k], feed, values)];
    }

    /** A report rolls the hours forward and settles how far each has been observed. */
    method Settle(nowMs: int)
      modifies this
      ensures Model() == Settled(old(Model()), nowMs)
    {
      var slot := Hour(nowMs);
      for i := 0 to |hours|
        invariant Model() == Rolled(old(Model()), nowMs).(hours := hours)
        invariant |hours| == |Rolled(old(Model()), nowMs).hours|
        invariant forall j :: 0 <= j < |hours| ==>
                    hours[j] == (if j < i then SettledHour(startedMs, Rolled(old(Model()), nowMs).hours[j], nowMs)
                                                                else Rolled(old(Model()), nowMs).hours[j])
      {
        var until := Min(Max(nowMs, hours[i].startMs), hours[i].startMs + HOUR_MS);
        var complete := startedMs <= hours[i].startMs && nowMs >= hours[i].startMs + HOUR_MS;
        if hours[i].untilMs != until || hours[i].complete != complete {
          hours := hours[i := hours[i].(untilMs := until, complete := complete, revision := hours[i].revision + 1)];
        }
      }
    }
  }

  function SettledHour(startedMs: int, b: Bucket, nowMs: int): Bucket {
    var until := Min(Max(nowMs, b.startMs), b.startMs + HOUR_MS);
    var complete := startedMs <= b.startMs && nowMs >= b.startMs + HOUR_MS;
    if b.untilMs != until || b.complete != complete
    then b.(untilMs := until, complete := complete, revision := b.revision + 1) else b
  }

  function Settled(h: Health, nowMs: int): Health {
    var r := Rolled(h, nowMs);
    r.(hours := seq(|r.hours|, i requires 0 <= i < |r.hours| => SettledHour(h.startedMs, r.hours[i], nowMs)))
  }

  // ---------------------------------------------------------------- runs

  datatype Op = Observe(receipt: Receipt) | NoteGap(feed: Feed, connectionEnd: bool, wallMs: int) | Report(nowMs: int)

  function Apply(h: Health, op: Op): Health {
    match op
    case Observe(e) => Observed(h, e)
    case NoteGap(feed, connectionEnd, wallMs) => GapNoted(h, feed, connectionEnd, wallMs)
    case Report(nowMs) => Settled(h, nowMs)
  }

  function Run(startedMs: int, ops: seq<Op>): Health {
    if ops == [] then Health(startedMs, [], 0, 0, map[], map[])
    else Apply(Run(startedMs, ops[..|ops| - 1]), ops[|ops| - 1])
  }

  function ClockOf(op: Op): int {
    match op
    case Observe(e) => e.wallNs / NS_PER_MS
    case NoteGap(_, _, wallMs) => wallMs
    case Report(nowMs) => nowMs
  }

  /** One unbroken block of at most MAX_HOURS hours ending at `last`. */
  ghost predicate Block(hours: seq<Bucket>, last: int) {
    && |hours| <= MAX_HOURS
    && forall i :: 0 <= i < |hours| ==> hours[i].startMs == last - (|hours| - 1 - i) * HOUR_MS
  }

  /** Every hour since the first one is retained, evicted or known to have been skipped. */
  ghost predicate Accounted(h: Health, first: int, last: int) {
    && first % HOUR_MS == 0 && last % HOUR_MS == 0 && first <= last
    && h.hours != [] && Block(h.hours, last)
    && h.evicted + h.dropped + |h.hours| == (last - first) / HOUR_MS + 1
  }

  lemma RollFirst(h: Health, nowMs: int)
    requires h.hours == []
    ensures Accounted(Rolled(h, nowMs).(evicted := 0, dropped := 0), HourOf(nowMs), HourOf(nowMs))
    ensures Rolled(h, nowMs).evicted == h.evicted && Rolled(h, nowMs).dropped == h.dropped
  {
    FreshShape(h.startedMs, HourOf(nowMs), HourOf(nowMs));
  }

  lemma RollKeeps(h: Health, nowMs: int, first: int, last: int)
    requires Accounted(h, first, last)
    ensures Accounted(Rolled(h, nowMs), first, Max(last, HourOf(nowMs)))
  {
    hide Fresh, Skipped;
    var hour := HourOf(nowMs);
    var start := FirstNew(h, hour);
    var added := Fresh(h.startedMs, start, hour);
    assert Previous(h, hour) == last;
    FreshShape(h.startedMs, start, hour);
    SkippedIs(h, hour, last);
    if hour > last {
      var all := h.hours + added;
      if start == last + HOUR_MS {
        assert forall i :: 0 <= i < |all| ==> all[i].startMs == hour - (|all| - 1 - i) * HOUR_MS;
      } else {
        assert |added| == MAX_HOURS;
        assert Newest(all, MAX_HOURS) == added;
      }
    } else {
      assert h.hours + added == h.hours;
    }
  }

  lemma SkippedIs(h: Health, hour: int, last: int)
    requires h.hours != [] && Previous(h, hour) == last && last % HOUR_MS == 0 && hour % HOUR_MS == 0
    ensures Skipped(h, hour) * HOUR_MS == FirstNew(h, hour) - last - HOUR_MS
  {
  }

  /** The block survives any clock: forward, silent for days, or stepping back. */
  lemma {:induction false} HoursAreAccounted(startedMs: int, ops: seq<Op>) returns (first: int, last: int)
    requires ops != []
    ensures Accounted(Run(startedMs, ops), first, last)
    ensures first == HourOf(ClockOf(ops[0]))
    ensures forall i :: 0 <= i < |ops| ==> HourOf(ClockOf(ops[i])) <= last
    ensures exists i :: 0 <= i < |ops| && HourOf(ClockOf(ops[i])) == last
  {
    hide Rolled, Accounted, HourOf;
    var n := |ops| - 1;
    var h, now := Run(startedMs, ops[..n]), ClockOf(ops[n]);
    if n == 0 {
      RollFirst(h, now);
      first, last := HourOf(now), HourOf(now);
      BareAccounted(Rolled(h, now), first, last);
    } else {
      var before;
      first, before := HoursAreAccounted(startedMs, ops[..n]);
      RollKeeps(h, now, first, before);
      last := Max(before, HourOf(now));
      var i :| 0 <= i < n && HourOf(ClockOf(ops[..n][i])) == before;
      assert HourOf(ClockOf(ops[i])) == before;
      assert forall j :: 0 <= j < n ==> ops[..n][j] == ops[j];
    }
    WritesKeepHours(h, ops[n], first, last);
  }

  lemma BareAccounted(r: Health, first: int, last: int)
    requires Accounted(r.(evicted := 0, dropped := 0), first, last) && r.evicted == 0 && r.dropped == 0
    ensures Accounted(r, first, last)
  {
    assert r.(evicted := 0, dropped := 0) == r;
  }

  lemma WritesKeepHours(h: Health, op: Op, first: int, last: int)
    requires Accounted(Rolled(h, ClockOf(op)), first, last)
    ensures Accounted(Apply(h, op), first, last)
  {
    hide Rolled;
    var r, w := Rolled(h, ClockOf(op)), Apply(h, op);
    assert |w.hours| == |r.hours|;
    assert forall i :: 0 <= i < |r.hours| ==> w.hours[i].startMs == r.hours[i].startMs;
  }

  // ---------------------------------------------------------------- gap time is never counted twice

  predicate Sane(s: Stats) {
    0 <= s.total5 <= s.total3 && s.over5 <= s.over3 && s.total3 >= s.over3 * 3 * NS_PER_SECOND
  }

  ghost predicate AllSane(hours: seq<Bucket>, feed: Feed) {
    forall i :: 0 <= i < |hours| ==> Sane(StatsOf(hours[i], feed))
  }

  /** Gap time over three seconds charged to the retained hours. */
  function GapTime(hours: seq<Bucket>, feed: Feed): int {
    if hours == [] then 0 else GapTime(hours[..|hours| - 1], feed) + StatsOf(hours[|hours| - 1], feed).total3
  }

  lemma {:induction false} GapTimeSplits(a: seq<Bucket>, b: seq<Bucket>, feed: Feed)
    ensures GapTime(a + b, feed) == GapTime(a, feed) + GapTime(b, feed)
  {
    if b == [] {
      assert a + b == a;
    } else {
      assert (a + b)[..|a + b| - 1] == a + b[..|b| - 1];
      GapTimeSplits(a, b[..|b| - 1], feed);
    }
  }

  lemma {:induction false} GapTimeIsPositive(hours: seq<Bucket>, feed: Feed)
    requires AllSane(hours, feed)
    ensures GapTime(hours, feed) >= 0
  {
    if hours != [] { GapTimeIsPositive(hours[..|hours| - 1], feed); }
  }

  lemma {:induction false} QuietHours(hours: seq<Bucket>, feed: Feed)
    requires forall i :: 0 <= i < |hours| ==> hours[i].feeds == map[]
    ensures GapTime(hours, feed) == 0 && AllSane(hours, feed)
  {
    if hours != [] { QuietHours(hours[..|hours| - 1], feed); }
  }

  lemma {:induction false} FreshIsQuiet(startedMs: int, first: int, hour: int)
    ensures forall i :: 0 <= i < |Fresh(startedMs, first, hour)| ==> Fresh(startedMs, first, hour)[i].feeds == map[]
    decreases hour - first
  {
    if first <= hour { FreshIsQuiet(startedMs, first + HOUR_MS, hour); }
  }

  lemma RollLosesGapTime(h: Health, nowMs: int, feed: Feed)
    requires AllSane(h.hours, feed)
    ensures AllSane(Rolled(h, nowMs).hours, feed) && GapTime(Rolled(h, nowMs).hours, feed) <= GapTime(h.hours, feed)
  {
    hide Fresh, Sane, StatsOf;
    var hour := HourOf(nowMs);
    var added := Fresh(h.startedMs, FirstNew(h, hour), hour);
    var all, kept := h.hours + added, Rolled(h, nowMs).hours;
    FreshIsQuiet(h.startedMs, FirstNew(h, hour), hour);
    QuietHours(added, feed);
    GapTimeSplits(h.hours, added, feed);
    assert AllSane(all, feed);
    var gone := all[..|all| - |kept|];
    assert all == gone + kept;
    GapTimeSplits(gone, kept, feed);
    GapTimeIsPositive(gone, feed);
  }

  lemma GapTimeAt(hours: seq<Bucket>, k: nat, b: Bucket, feed: Feed)
    requires k < |hours|
    ensures GapTime(hours[k := b], feed)
              == GapTime(hours, feed) + StatsOf(b, feed).total3 - StatsOf(hours[k], feed).total3
  {
    var more := hours[k := b];
    assert hours == hours[..k] + ([hours[k]] + hours[k + 1..]) && more == hours[..k] + ([b] + hours[k + 1..]);
    GapTimeSplits(hours[..k], [hours[k]] + hours[k + 1..], feed);
    GapTimeSplits([hours[k]], hours[k + 1..], feed);
    GapTimeSplits(hours[..k], [b] + hours[k + 1..], feed);
    GapTimeSplits([b], hours[k + 1..], feed);
    assert [b][..0] == [] && [hours[k]][..0] == [];
  }

  /** Since `start`, the retained hours were charged no more than has passed on the monotonic clock. */
  ghost predicate GapsFit(h: Health, feed: Feed, start: int) {
    && AllSane(h.hours, feed)
    && (if feed in h.lastMono then start <= h.lastMono[feed] && GapTime(h.hours, feed) <= h.lastMono[feed] - start
        else GapTime(h.hours, feed) <= 0)
  }

  lemma NotedAdds(s: Stats, h: Health, e: Receipt)
    requires Sane(s) && (e.feed in h.lastMono ==> h.lastMono[e.feed] <= e.monoNs)
    ensures Sane(Noted(s, h, e))
    ensures s.total3 <= Noted(s, h, e).total3 <= s.total3 + if e.feed in h.lastMono then e.monoNs - h.lastMono[e.feed]
            else 0
  {
  }

  lemma ObserveFits(h: Health, e: Receipt, feed: Feed, start: int)
    requires GapsFit(h, feed, start)
    requires e.feed == feed ==> start <= e.monoNs && (feed in h.lastMono ==> h.lastMono[feed] <= e.monoNs)
    ensures GapsFit(Observed(h, e), feed, start)
  {
    hide Rolled, HourOf, Sane, Noted, StatsOf, GapTime;
    var nowMs := e.wallNs / NS_PER_MS;
    RollLosesGapTime(h, nowMs, feed);
    RollLeavesOne(h, nowMs);
    var r := Rolled(h, nowMs);
    var k := Slot(r.hours, HourOf(nowMs));
    var s := StatsOf(r.hours[k], e.feed);
    var b := Revised(r.hours[k], e.feed, Noted(s, h, e));
    GapTimeAt(r.hours, k, b, feed);
    RevisedStats(r.hours[k], e.feed, Noted(s, h, e), feed);
    if e.feed == feed { NotedAdds(s, h, e); }
    RollKeepsClocks(h, nowMs);
  }

  lemma RollKeepsClocks(h: Health, nowMs: int)
    ensures Rolled(h, nowMs).lastMono == h.lastMono
  {
  }

  lemma RevisedStats(b: Bucket, feed: Feed, s: Stats, other: Feed)
    ensures StatsOf(Revised(b, feed, s), other) == if other == feed then s else StatsOf(b, other)
  {
  }

  lemma GapNoteFits(h: Health, noted: Feed, end: bool, wallMs: int, feed: Feed, start: int)
    requires GapsFit(h, feed, start)
    ensures GapsFit(GapNoted(h, noted, end, wallMs), feed, start)
  {
    hide Rolled, HourOf, GapTime;
    RollLosesGapTime(h, wallMs, feed);
    RollLeavesOne(h, wallMs);
    var r := Rolled(h, wallMs);
    var k := Slot(r.hours, HourOf(wallMs));
    GapTimeAt(r.hours, k, GapNoted(h, noted, end, wallMs).hours[k], feed);
    RollKeepsClocks(h, wallMs);
  }

  lemma {:induction false} SameGapTime(a: seq<Bucket>, b: seq<Bucket>, feed: Feed)
    requires |a| == |b| && forall i :: 0 <= i < |a| ==> a[i].feeds == b[i].feeds
    ensures GapTime(a, feed) == GapTime(b, feed) && (AllSane(a, feed) ==> AllSane(b, feed))
  {
    if a != [] { SameGapTime(a[..|a| - 1], b[..|b| - 1], feed); }
    forall i | 0 <= i < |a| && AllSane(a, feed)
      ensures Sane(StatsOf(b[i], feed))
    {
      assert Sane(StatsOf(a[i], feed));
    }
  }

  lemma ReportFits(h: Health, nowMs: int, feed: Feed, start: int)
    requires GapsFit(h, feed, start)
    ensures GapsFit(Settled(h, nowMs), feed, start)
  {
    hide Rolled, GapTime, AllSane;
    RollLosesGapTime(h, nowMs, feed);
    RollKeepsClocks(h, nowMs);
    SameGapTime(Rolled(h, nowMs).hours, Settled(h, nowMs).hours, feed);
  }

  predicate Receives(op: Op, feed: Feed) { op.Observe? && op.receipt.feed == feed }

  /** A feed's receipts come in monotonic order from `start` on. */
  ghost predicate Monotonic(ops: seq<Op>, feed: Feed, start: int) {
    && (forall i :: 0 <= i < |ops| && Receives(ops[i], feed) ==> start <= ops[i].receipt.monoNs)
    && (forall i, j :: 0 <= i < j < |ops| && Receives(ops[i], feed) && Receives(ops[j], feed)
          ==> ops[i].receipt.monoNs <= ops[j].receipt.monoNs)
  }

  /** Gap time charged to all retained hours fits into the time that really passed between receipts. */
  lemma {:induction false} GapTimeFits(startedMs: int, ops: seq<Op>, feed: Feed, start: int)
    requires Monotonic(ops, feed, start)
    ensures GapsFit(Run(startedMs, ops), feed, start)
    ensures feed in Run(startedMs, ops).lastMono ==>
              exists i :: 0 <= i < |ops| && Receives(ops[i], feed)
                  && ops[i].receipt.monoNs == Run(startedMs, ops).lastMono[feed]
  {
    hide Rolled, GapsFit;
    if ops == [] {
      NothingFits(startedMs, feed, start);
    } else {
      var n := |ops| - 1;
      var front, h := ops[..n], Run(startedMs, ops[..n]);
      GapTimeFits(startedMs, front, feed, start);
      if feed in h.lastMono {
        var i :| 0 <= i < n && Receives(front[i], feed) && front[i].receipt.monoNs == h.lastMono[feed];
        assert Receives(ops[i], feed) && ops[i].receipt.monoNs == h.lastMono[feed];
      }
      match ops[n]
      case Observe(e) =>
        RollKeepsClocks(h, e.wallNs / NS_PER_MS);
        assert e.feed == feed ==> Receives(ops[n], feed);
        ObserveFits(h, e, feed, start);
      case NoteGap(noted, end, wallMs) =>
        RollKeepsClocks(h, wallMs);
        GapNoteFits(h, noted, end, wallMs, feed, start);
      case Report(nowMs) =>
        RollKeepsClocks(h, nowMs);
        ReportFits(h, nowMs, feed, start);
    }
  }

  lemma NothingFits(startedMs: int, feed: Feed, start: int)
    ensures GapsFit(Run(startedMs, []), feed, start)
  {
  }
}
