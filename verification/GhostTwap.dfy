/**
 The forecast engine's data and its transitions as functions of the state
 (price_collector/ghost_twap.py). The class in GhostTwapEngine.dfy updates its
 fields in place and is proved against these functions.

 Prices are integers in units of 1e-18. Stamps are milliseconds, receipt and
 decision clocks nanoseconds.
 */
module GhostTwap {
  import opened Core
  import Rounding

  datatype Feed = Spot | Twap

  datatype PriceEvent = PriceEvent(feed: Feed, value: int, sourceMs: int, wallNs: int, monoNs: int,
                                   sequence: int, eventId: string) {
    predicate Valid() {
      && 0 < value < Rounding.PRICE_LIMIT
      && 0 <= sourceMs && sourceMs % 1000 == 0
      && 0 <= wallNs && 0 <= monoNs && 0 <= sequence
    }

    function ReceivedMs(): int { wallNs / NS_PER_MS }

    /** Not future-dated at receipt. */
    predicate Causal() { sourceMs * NS_PER_MS <= wallNs }
  }

  datatype Policy = Policy(enabled: bool, sourceMaxAgeMs: int, receiptMaxAgeMs: int, maxCarryMs: int,
                           historyMs: int, maxEvents: int, reconnectMaxGapMs: int) {
    predicate Valid() {
      && sourceMaxAgeMs >= 1 && receiptMaxAgeMs >= 1 && maxCarryMs >= 1 && historyMs >= 1 && maxEvents >= 1
      && 0 <= reconnectMaxGapMs <= 10_000
      && historyMs >= 62_000 + sourceMaxAgeMs
    }

    function ReconnectLimitNs(): int { Min(reconnectMaxGapMs, maxCarryMs) * NS_PER_MS }
  }

  datatype Reason =
    | Disabled | GapOrder | AcceptanceOrder | BackloggedEvent
    | Missing(feed: Feed) | Future(feed: Feed) | Stale(feed: Feed)
    | TwapRegression | TwapConflict | MissingSlots | TargetAlreadyReceived
    | TargetReceivedBeforePublication | TargetNotPendingBeforePublication

  datatype Key = Key(feed: Feed, stamp: int)

  datatype GapMarker = GapMarker(feed: Feed, reason: string, ordinal: int, afterSequence: Option<int>)

  const CONNECTION_END: string := "connection_end"

  datatype RecoveryStatus = Waiting | Retained | Cleared

  datatype RecoveryReason =
    | PolicyDisabled | MissingGapClocks | PreGapInvalid(reason: Reason) | PreGapSourceRegression
    | AwaitingFreshAdvancingSpot | HardGap(gap: string) | PostGapInvalid(reason: Reason)
    | SourceNotAdvanced | ReconnectLimitExceeded | BoundedCarryEstimates | ReconnectTimeout

  datatype SpotReconnect = SpotReconnect(gapOrdinal: int, gapWallNs: Option<int>, gapMonoNs: Option<int>,
                                         previous: Option<PriceEvent>, first: Option<PriceEvent>,
                                         status: RecoveryStatus, reason: RecoveryReason)

  datatype Category = Observed | Carried | Pending | FutureSlot | MissingSlot

  datatype Slot = Slot(stamp: int, value: Option<int>, input: Option<PriceEvent>, category: Category,
                       carryAgeMs: Option<int>)

  datatype SlotCounts = SlotCounts(observed: int, carried: int, pending: int, future: int, missing: int)

  datatype MarketWindow = MarketWindow(marketId: int, startMs: int, endMs: int)

  datatype Quality = Healthy | Degraded | Unavailable

  datatype Forecast = Forecast(horizon: int, target: Option<int>, market: Option<MarketWindow>,
                               slotStart: Option<int>, price: Option<int>, quality: Quality,
                               reasons: seq<Reason>, counts: SlotCounts, eta: Option<int>,
                               remaining: Option<int>, overdue: bool)

  datatype Decision = Decision(id: int, wallNs: int, monoNs: int, includedSequence: Option<int>, policy: Policy,
                               spot: Option<PriceEvent>, twap: Option<PriceEvent>, slots: seq<Slot>,
                               forecasts: seq<Forecast>, reasons: seq<Reason>, gapCount: int,
                               lastGaps: map<Feed, GapMarker>, validUntilNs: int,
                               reconnect: Option<SpotReconnect>)

  const HORIZONS: seq<int> := [1, 2, 3, 5, 10, 30]
  const MARKET_MS: int := 300_000

  type History = map<Key, PriceEvent>

  datatype State = State(policy: Policy, history: History, current: map<Feed, PriceEvent>, conflicts: set<int>,
                         highWater: Option<int>, regressed: bool, fault: Option<Reason>,
                         lastEvent: Option<PriceEvent>, lastDecision: Option<(int, int)>, gapCount: int,
                         lastGaps: map<Feed, GapMarker>, reconnect: Option<SpotReconnect>) {
    function Current(feed: Feed): Option<PriceEvent> {
      if feed in current then Some(current[feed]) else None
    }
  }

  /** Bounded is the engine; Unbounded is the reference that neither prunes nor sheds on capacity. */
  datatype Mode = Bounded | Unbounded

  function Init(policy: Policy): State {
    State(policy, map[], map[], {}, None, false, None, None, None, 0, map[], None)
  }

  // ---------------------------------------------------------------- input checks

  function CurrentReasons(p: Policy, event: Option<PriceEvent>, feed: Feed, wall: int, mono: int): (r: seq<Reason>)
    ensures |r| <= 1
  {
    match event
    case None => [Missing(feed)]
    case Some(e) =>
      var sourceAge, wallAge, monoAge :=
        wall - e.sourceMs * NS_PER_MS, wall - e.wallNs, mono - e.monoNs;
      if sourceAge < 0 || wallAge < 0 || monoAge < 0 || !e.Causal() then [Future(feed)]
      else if sourceAge > p.sourceMaxAgeMs * NS_PER_MS
           || Max(wallAge, monoAge) > p.receiptMaxAgeMs * NS_PER_MS then [Stale(feed)]
      else []
  }

  /** Some already accepted event or issued decision is later than these clocks. */
  predicate BehindBoundary(s: State, wall: int, mono: int) {
    || (s.lastDecision.Some? && (wall < s.lastDecision.value.0 || mono < s.lastDecision.value.1))
    || (s.lastEvent.Some? && (wall < s.lastEvent.value.wallNs || mono < s.lastEvent.value.monoNs))
  }

  // ---------------------------------------------------------------- history

  function Without(h: History, feed: Feed): History {
    map k | k in h && k.feed != feed :: h[k]
  }

  /** Source stamps of retained spot events that were not future-dated at receipt. */
  function CausalStamps(h: History): set<int> {
    set k | k in h && k.feed == Spot && h[k].Causal() :: k.stamp
  }

  predicate IsFrontier(h: History, stamp: int) {
    stamp in CausalStamps(h) && forall t | t in CausalStamps(h) :: t <= stamp
  }

  /** The newest spot key in the carry window just below the cutoff. */
  predicate IsSeed(h: History, k: Key, cutoff: int, carry: int) {
    && k in h && k.feed == Spot && cutoff - carry <= k.stamp < cutoff
    && forall other | other in h && other.feed == Spot && other.stamp < cutoff :: other.stamp <= k.stamp
  }

  function PrunedHistory(h: History, cutoff: int, carry: int): History {
    map k | k in h && (k.stamp >= cutoff || IsSeed(h, k, cutoff, carry)) :: h[k]
  }

  function Prune(s: State, wallMs: int): State {
    var kept := PrunedHistory(s.history, wallMs - s.policy.historyMs, s.policy.maxCarryMs);
    s.(history := kept, conflicts := set t | t in s.conflicts && Key(Twap, t) in kept)
  }

  function PruneIn(s: State, wallMs: int, mode: Mode): State {
    if mode == Bounded then Prune(s, wallMs) else s
  }

  // ---------------------------------------------------------------- gaps and reconnects

  /** `raised` is the source's ValueError; the state is the one it leaves behind. */
  datatype Outcome = Outcome(state: State, raised: bool)

  /** What a transport gap leaves: keep the history only for a valid, newest current spot. */
  function TransportGap(s: State, wall: Option<int>, mono: Option<int>): (RecoveryStatus, RecoveryReason) {
    if !s.policy.enabled || s.policy.reconnectMaxGapMs == 0 || s.fault.Some? then (Cleared, PolicyDisabled)
    else if wall.None? || mono.None? then (Cleared, MissingGapClocks)
    else
      var invalid := CurrentReasons(s.policy, s.Current(Spot), Spot, wall.value, mono.value);
      if invalid != [] then (Cleared, PreGapInvalid(invalid[0]))
      else if s.Current(Spot).Some? && IsFrontier(s.history, s.Current(Spot).value.sourceMs)
      then (Waiting, AwaitingFreshAdvancingSpot)
      else (Cleared, PreGapSourceRegression)
  }

  predicate GapOutOfOrder(s: State, feed: Feed, reason: string, wall: Option<int>, mono: Option<int>) {
    && feed == Spot && reason == CONNECTION_END
    && s.policy.enabled && s.policy.reconnectMaxGapMs != 0 && s.fault.None?
    && wall.Some? && mono.Some? && BehindBoundary(s, wall.value, mono.value)
  }

  function CountGap(s: State, feed: Feed, reason: string): State {
    var after := if s.lastEvent.None? then None else Some(s.lastEvent.value.sequence);
    s.(gapCount := s.gapCount + 1,
       lastGaps := s.lastGaps[feed := GapMarker(feed, reason, s.gapCount + 1, after)])
  }

  /** Drop a feed's current input, its TWAP bookkeeping, and its history unless retained. */
  function Forget(s: State, feed: Feed, retain: bool): State {
    s.(history := if retain then s.history else Without(s.history, feed),
       current := s.current - {feed},
       conflicts := if feed == Twap then {} else s.conflicts,
       regressed := if feed == Twap then s.highWater.Some? else s.regressed)
  }

  function RecordGap(s: State, feed: Feed, reason: string, wall: Option<int>, mono: Option<int>): Outcome {
    var counted := CountGap(s, feed, reason);
    if GapOutOfOrder(s, feed, reason, wall, mono) then
      Outcome(counted.(fault := Some(GapOrder)), true)
    else
      var transport := feed == Spot && reason == CONNECTION_END;
      var verdict := TransportGap(s, wall, mono);
      var recovery :=
        if transport then
          Some(SpotReconnect(counted.gapCount, wall, mono, s.Current(Spot), None, verdict.0, verdict.1))
        else if feed == Spot && s.reconnect.Some? then
          Some(s.reconnect.value.(status := Cleared, reason := HardGap(reason)))
        else s.reconnect;
      Outcome(Forget(counted.(reconnect := recovery), feed, transport && verdict.0 == Waiting), false)
  }

  /** A gap with no clocks and a reason other than a connection end never raises. */
  function HardLoss(s: State, reason: string): State
    requires reason != CONNECTION_END
  {
    RecordGap(RecordGap(s, Spot, reason, None, None).state, Twap, reason, None, None).state
  }

  function ClearReconnect(s: State, reason: RecoveryReason, event: Option<PriceEvent>): State
    requires s.reconnect.Some?
  {
    s.(history := Without(s.history, Spot), current := s.current - {Spot},
       reconnect := Some(s.reconnect.value.(status := Cleared, reason := reason, first := event)))
  }

  predicate WaitingForSpot(s: State) {
    && s.reconnect.Some? && s.reconnect.value.status == Waiting
    && s.reconnect.value.previous.Some? && s.reconnect.value.gapWallNs.Some? && s.reconnect.value.gapMonoNs.Some?
  }

  function ResolveReconnect(s: State, e: PriceEvent): Outcome {
    if e.feed != Spot || !WaitingForSpot(s) then Outcome(s, false)
    else
      var r := s.reconnect.value;
      var previous := r.previous.value;
      if e.wallNs < r.gapWallNs.value || e.monoNs < r.gapMonoNs.value then
        Outcome(s.(fault := Some(GapOrder)), true)
      else
        var invalid := CurrentReasons(s.policy, Some(e), Spot, e.wallNs, e.monoNs);
        var sourceDelta := (e.sourceMs - previous.sourceMs) * NS_PER_MS;
        var delta := Max(sourceDelta, Max(e.wallNs - previous.wallNs, e.monoNs - previous.monoNs));
        if invalid != [] then Outcome(ClearReconnect(s, PostGapInvalid(invalid[0]), Some(e)), false)
        else if sourceDelta <= 0 then Outcome(ClearReconnect(s, SourceNotAdvanced, Some(e)), false)
        else if delta > s.policy.ReconnectLimitNs() then
          Outcome(ClearReconnect(s, ReconnectLimitExceeded, Some(e)), false)
        else
          Outcome(s.(reconnect := Some(r.(first := Some(e), status := Retained, reason := BoundedCarryEstimates))),
                  false)
  }

  // ---------------------------------------------------------------- acceptance

  predicate AcceptanceRegressed(s: State, e: PriceEvent) {
    && s.lastEvent.Some?
    && (e.sequence <= s.lastEvent.value.sequence || e.wallNs < s.lastEvent.value.wallNs
        || e.monoNs < s.lastEvent.value.monoNs)
  }

  predicate Backlogged(s: State, e: PriceEvent) {
    s.lastDecision.Some? && (e.wallNs < s.lastDecision.value.0 || e.monoNs < s.lastDecision.value.1)
  }

  function BridgeSequence(s: State, e: PriceEvent): State {
    if s.lastEvent.Some? && e.sequence > s.lastEvent.value.sequence + 1 then HardLoss(s, "sequence_gap") else s
  }

  /** A second value for a retained TWAP stamp marks that stamp as conflicted. */
  function ConflictsAfter(h: History, conflicts: set<int>, e: PriceEvent): set<int> {
    var k := Key(Twap, e.sourceMs);
    if k in h && h[k].value != e.value then conflicts + {e.sourceMs} else conflicts
  }

  /** Conflict set, high water and regression flag after one TWAP event. */
  function NoteTwap(s: State, e: PriceEvent): State {
    if e.feed != Twap then s
    else
      var noted := s.(conflicts := ConflictsAfter(s.history, s.conflicts, e));
      if !e.Causal() then noted
      else if s.highWater.None? || e.sourceMs > s.highWater.value then
        noted.(highWater := Some(e.sourceMs), regressed := false)
      else if e.sourceMs < s.highWater.value then noted.(regressed := true)
      else noted
  }

  function Insert(s: State, e: PriceEvent): State {
    s.(history := s.history[Key(e.feed, e.sourceMs) := e], current := s.current[e.feed := e])
  }

  /** The state just before an accepted event is pruned. */
  function Entered(s: State, e: PriceEvent): State {
    Insert(NoteTwap(s, e), e).(lastEvent := Some(e))
  }

  function Admit(s: State, e: PriceEvent, mode: Mode): State {
    var kept := PruneIn(Entered(s, e), e.ReceivedMs(), mode);
    if mode == Bounded && |kept.history| > kept.policy.maxEvents then Insert(HardLoss(kept, "capacity"), e)
    else kept
  }

  datatype Acceptance = Ignored | Raised | Accepted

  function AcceptOutcome(s: State, e: PriceEvent, mode: Mode): (State, Acceptance) {
    if !s.policy.enabled then (s, Ignored)
    else if AcceptanceRegressed(s, e) then (s.(fault := Some(AcceptanceOrder)), Raised)
    else if Backlogged(s, e) then (s.(fault := Some(BackloggedEvent)), Raised)
    else
      var resolved := ResolveReconnect(BridgeSequence(s, e), e);
      if resolved.raised then (resolved.state, Raised) else (Admit(resolved.state, e, mode), Accepted)
  }

  // ---------------------------------------------------------------- snapshots

  function Predecessor(h: History, stamp: int): Option<PriceEvent> {
    var below := set t | t in CausalStamps(h) && t <= stamp;
    if below == {} then None else Some(h[Key(Spot, MaxOf(below))])
  }

  function SlotAt(s: State, stamp: int, wall: int, mono: int): Slot {
    var spot := s.Current(Spot);
    if stamp * NS_PER_MS > wall then
      if spot.None? || CurrentReasons(s.policy, spot, Spot, wall, mono) != []
      then Slot(stamp, None, None, MissingSlot, None)
      else Slot(stamp, Some(spot.value.value), spot, FutureSlot, None)
    else
      match Predecessor(s.history, stamp)
      case None => Slot(stamp, None, None, MissingSlot, None)
      case Some(e) =>
        var age := stamp - e.sourceMs;
        if age > s.policy.maxCarryMs then Slot(stamp, None, None, MissingSlot, Some(age))
        else
          var category := if age == 0 then Observed
                          else if stamp > MaxOf(CausalStamps(s.history)) then Pending else Carried;
          Slot(stamp, Some(e.value), Some(e), category, Some(age))
  }

  /** The 89 slots from 61 seconds before the anchor's stamp to 27 after it. */
  function Slots(s: State, anchor: PriceEvent, wall: int, mono: int): (r: seq<Slot>)
    ensures |r| == 89
    ensures forall i | 0 <= i < 89 :: r[i] == SlotAt(s, anchor.sourceMs + (i - 61) * 1000, wall, mono)
  {
    seq(89, i => SlotAt(s, anchor.sourceMs + (i - 61) * 1000, wall, mono))
  }

  function CountOf(slots: seq<Slot>, c: Category): nat {
    if slots == [] then 0 else CountOf(slots[..|slots| - 1], c) + (if slots[|slots| - 1].category == c then 1 else 0)
  }

  function SumOf(slots: seq<Slot>): int {
    if slots == [] then 0
    else
      var last := slots[|slots| - 1];
      SumOf(slots[..|slots| - 1]) + (if last.value.Some? then last.value.value else 0)
  }

  function CountsOf(slots: seq<Slot>): SlotCounts {
    SlotCounts(CountOf(slots, Observed), CountOf(slots, Carried), CountOf(slots, Pending),
               CountOf(slots, FutureSlot), CountOf(slots, MissingSlot))
  }

  function MarketFor(stamp: int): MarketWindow {
    var start := stamp / MARKET_MS * MARKET_MS;
    MarketWindow(start / MARKET_MS, start, start + MARKET_MS)
  }

  function GlobalReasons(s: State, wall: int, mono: int): seq<Reason> {
    var anchor := s.Current(Twap);
    (if s.policy.enabled then [] else [Disabled])
    + (if s.fault.Some? then [s.fault.value] else [])
    + CurrentReasons(s.policy, s.Current(Spot), Spot, wall, mono)
    + CurrentReasons(s.policy, anchor, Twap, wall, mono)
    + (if s.regressed then [TwapRegression] else [])
    + (if anchor.Some? && anchor.value.sourceMs in s.conflicts then [TwapConflict] else [])
  }

  /** The sixty slots a horizon averages: the stamps from target-62s to target-3s. */
  function Selected(slots: seq<Slot>, horizon: int): seq<Slot>
    requires 1 <= horizon <= 30 && |slots| == 89
  {
    slots[horizon - 1..horizon + 59]
  }

  /** The sum of sixty priced slots is a legal dividend of the 80-digit division. */
  predicate Priceable(slots: seq<Slot>) {
    0 < SumOf(slots) < 60 * Rounding.PRICE_LIMIT
  }

  function ForecastFor(s: State, slots: seq<Slot>, reasons: seq<Reason>, horizon: int, wall: int): Forecast
    requires 1 <= horizon <= 30 && (|slots| == 89 || s.Current(Twap).None?)
  {
    match s.Current(Twap)
    case None =>
      var issues := reasons + [MissingSlots];
      Forecast(horizon, None, None, None, None, Unavailable, issues, SlotCounts(0, 0, 0, 0, 60), None, None, false)
    case Some(anchor) =>
      var target := anchor.sourceMs + horizon * 1000;
      var selected := Selected(slots, horizon);
      var counts := CountsOf(selected);
      var issues := reasons + (if counts.missing != 0 then [MissingSlots] else [])
                    + (if Key(Twap, target) in s.history then [TargetAlreadyReceived] else []);
      var price := if issues == [] && Priceable(selected) then Some(Rounding.Mean60(SumOf(selected))) else None;
      var eta := anchor.wallNs + horizon * NS_PER_SECOND;
      Forecast(horizon, Some(target), Some(MarketFor(target)), Some(horizon - 1), price,
               if issues != [] then Unavailable else if counts.carried != 0 then Degraded else Healthy,
               issues, counts, Some(eta), Some(eta - wall), eta - wall < 0)
  }

  /** The instants after which one input no longer supports this decision. */
  function InputDeadlines(p: Policy, e: PriceEvent, wall: int, mono: int): seq<int> {
    [e.wallNs + p.receiptMaxAgeMs * NS_PER_MS,
     (e.sourceMs + p.sourceMaxAgeMs) * NS_PER_MS,
     wall + p.receiptMaxAgeMs * NS_PER_MS - (mono - e.monoNs)]
  }

  function Deadlines(s: State, reasons: seq<Reason>, wall: int, mono: int): seq<int> {
    (if reasons != [] then [wall] else [])
    + (if s.Current(Spot).Some? then InputDeadlines(s.policy, s.Current(Spot).value, wall, mono) else [])
    + (if s.Current(Twap).Some? then InputDeadlines(s.policy, s.Current(Twap).value, wall, mono) else [])
  }

  function Earliest(deadlines: seq<int>, fallback: int): (d: int)
    ensures deadlines == [] ==> d == fallback
    ensures deadlines != [] ==> d in deadlines && forall x | x in deadlines :: d <= x
  {
    if deadlines == [] then fallback
    else
      var front, last := deadlines[..|deadlines| - 1], deadlines[|deadlines| - 1];
      assert deadlines == front + [last];
      if front == [] then last else Min(Earliest(front, fallback), last)
  }

  function Decide(s: State, id: int, wall: int, mono: int): (d: Decision)
    ensures |d.forecasts| == 6
  {
    var anchor := s.Current(Twap);
    var reasons := GlobalReasons(s, wall, mono);
    var slots := if anchor.Some? then Slots(s, anchor.value, wall, mono) else [];
    Decision(id, wall, mono, if s.lastEvent.None? then None else Some(s.lastEvent.value.sequence), s.policy,
             s.Current(Spot), anchor, slots,
             seq(6, i requires 0 <= i < 6 => ForecastFor(s, slots, reasons, HORIZONS[i], wall)),
             reasons, s.gapCount, s.lastGaps,
             Earliest(Deadlines(s, reasons, wall, mono), wall), s.reconnect)
  }

  /** A wait that outlived the reconnect allowance is given up before the snapshot. */
  function ExpireReconnect(s: State, wall: int, mono: int): State {
    if WaitingForSpot(s)
       && Max(wall - s.reconnect.value.previous.value.wallNs, mono - s.reconnect.value.previous.value.monoNs)
          > s.policy.ReconnectLimitNs()
    then ClearReconnect(s, ReconnectTimeout, None) else s
  }

  predicate BeforeWaitingGap(s: State, wall: int, mono: int) {
    WaitingForSpot(s) && (wall < s.reconnect.value.gapWallNs.value || mono < s.reconnect.value.gapMonoNs.value)
  }

  /** The state a snapshot computes its decision from. */
  function SnapshotState(s: State, wall: int, mono: int, mode: Mode): State {
    PruneIn(ExpireReconnect(s.(lastDecision := Some((wall, mono))), wall, mono), wall / NS_PER_MS, mode)
  }

  function Snapshot(s: State, id: int, wall: int, mono: int, mode: Mode): (State, Option<Decision>) {
    if BehindBoundary(s, wall, mono) then (s, None)
    else if BeforeWaitingGap(s, wall, mono) then (s.(lastDecision := Some((wall, mono))), None)
    else
      var ready := SnapshotState(s, wall, mono, mode);
      (ready, Some(Decide(ready, id, wall, mono)))
  }
}
