/**
 The independent reader of published payloads (price_collector/ghost_twap_payload.py):
 the checks of the wire parser, and the clock a bound read expires by.
 */
module GhostPayload {
  import opened Core
  import opened GhostTwap
  import Rounding

  /** One reading of the wall clock and of the monotonic clock. */
  datatype Stamp = Stamp(wall: int, mono: int) {
    predicate NotAfter(later: Stamp) { wall <= later.wall && mono <= later.mono }
  }

  datatype WireForecast = WireForecast(forecast: Forecast, maxCarryMs: int)

  /** A payload; `attempted` is absent while it only records an intent. */
  datatype Wire = Wire(id: int, sequence: int, decided: Stamp, completed: Stamp, intended: Stamp,
                       attempted: Option<Stamp>, policy: Policy, spot: Option<PriceEvent>,
                       twap: Option<PriceEvent>, included: Option<int>, reasons: seq<Reason>, gapCount: int,
                       lastGaps: seq<GapMarker>, checked: Stamp, eligible: seq<int>,
                       excluded: map<int, seq<Reason>>, forecasts: seq<WireForecast>,
                       reconnect: Option<SpotReconnect>, validUntilNs: int)

  // ---------------------------------------------------------------- parser checks

  predicate LegalReasons(reasons: seq<Reason>) {
    |reasons| <= 32 && forall i, j | 0 <= i < j < |reasons| :: reasons[i] != reasons[j]
  }

  predicate LegalPrice(price: int) { 0 < price < Rounding.PRICE_LIMIT }

  predicate InputOk(input: Option<PriceEvent>, feed: Feed, at: Stamp, allowFuture: bool) {
    input.Some? ==>
      (var e := input.value;
       && e.feed == feed && e.Valid() && e.sequence >= 1
       && e.wallNs <= at.wall && e.monoNs <= at.mono
       && (allowFuture || e.Causal()))
  }

  /** Fresh on both clocks, without asking whether the source was future at receipt. */
  predicate FreshAt(e: PriceEvent, at: Stamp, p: Policy) {
    && 0 <= at.wall - e.sourceMs * NS_PER_MS <= p.sourceMaxAgeMs * NS_PER_MS
    && 0 <= at.wall - e.wallNs <= p.receiptMaxAgeMs * NS_PER_MS
    && 0 <= at.mono - e.monoNs <= p.receiptMaxAgeMs * NS_PER_MS
  }

  predicate PolicyOk(p: Policy) {
    && p.enabled && 1 <= p.sourceMaxAgeMs <= 5000 && 1 <= p.receiptMaxAgeMs <= 3000
    && 1 <= p.maxCarryMs <= 10_000 && 62_000 + p.sourceMaxAgeMs <= p.historyMs <= 120_000
    && 1 <= p.maxEvents <= 1024 && 0 <= p.reconnectMaxGapMs <= 10_000
  }

  predicate ClocksOk(w: Wire) {
    && w.id >= 1 && w.sequence == w.id && w.attempted.Some?
    && w.decided.wall >= 0 && w.decided.mono >= 0
    && w.decided.NotAfter(w.completed) && w.completed.NotAfter(w.intended) && w.intended.NotAfter(w.attempted.value)
  }

  predicate InputsOk(w: Wire) {
    && InputOk(w.spot, Spot, w.decided, false) && InputOk(w.twap, Twap, w.decided, false)
    && (w.included.Some? ==> w.included.value >= 1)
    && (w.spot.Some? ==> w.included.Some? && w.spot.value.sequence <= w.included.value)
    && (w.twap.Some? ==> w.included.Some? && w.twap.value.sequence <= w.included.value)
    && (w.spot.Some? && w.twap.Some? ==> w.spot.value.sequence != w.twap.value.sequence)
    && LegalReasons(w.reasons)
    && (w.spot.None? ==> Missing(Spot) in w.reasons) && (w.twap.None? ==> Missing(Twap) in w.reasons)
  }

  predicate MarkersOk(gaps: seq<GapMarker>, gapCount: int) {
    && gapCount >= 0 && |gaps| <= 2
    && (forall i, j | 0 <= i < j < |gaps| :: gaps[i].feed != gaps[j].feed)
    && (forall i | 0 <= i < |gaps| ::
          && 1 <= gaps[i].ordinal <= gapCount
          && (gaps[i].afterSequence.Some? ==> gaps[i].afterSequence.value >= 0))
  }

  /** The mask was checked at the attempt and partitions the horizons in their order. */
  predicate SelectionOk(w: Wire) {
    && w.attempted == Some(w.checked)
    && (forall i | 0 <= i < |w.eligible| :: w.eligible[i] in HORIZONS)
    && (forall i, j | 0 <= i < j < |w.eligible| :: w.eligible[i] < w.eligible[j])
    && (forall h | h in w.excluded :: h in HORIZONS && h !in w.eligible)
    && (forall i | 0 <= i < 6 :: HORIZONS[i] in w.eligible || HORIZONS[i] in w.excluded)
  }

  predicate CountsOk(c: SlotCounts) {
    && 0 <= c.observed && 0 <= c.carried && 0 <= c.pending && 0 <= c.future && 0 <= c.missing
    && c.observed + c.carried + c.pending + c.future + c.missing == 60
  }

  /** Target, market, window offset and arrival estimate follow from the anchor alone. */
  predicate GeometryOk(twap: Option<PriceEvent>, wall: int, f: Forecast) {
    match twap
    case None =>
      && f.target.None? && f.slotStart.None? && f.market.None? && f.eta.None? && f.remaining.None?
      && !f.overdue && f.counts.missing == 60
    case Some(anchor) =>
      var target, eta := anchor.sourceMs + f.horizon * 1000, anchor.wallNs + f.horizon * NS_PER_SECOND;
      && f.target == Some(target) && f.slotStart == Some(f.horizon - 1)
      && f.market == Some(MarketFor(target)) && f.eta == Some(eta) && f.remaining == Some(eta - wall)
      && f.overdue == (eta < wall)
  }

  predicate OutcomeOk(w: Wire, f: Forecast) {
    if f.horizon in w.eligible then
      && f.price.Some? && LegalPrice(f.price.value) && f.reasons == [] && f.counts.missing == 0
      && f.quality == (if f.counts.carried != 0 then Degraded else Healthy)
    else
      && f.price.None? && f.quality == Unavailable && f.reasons != []
      && f.horizon in w.excluded && w.excluded[f.horizon] == f.reasons && LegalReasons(w.excluded[f.horizon])
  }

  predicate ForecastOk(w: Wire, i: int)
    requires 0 <= i < 6 && |w.forecasts| == 6
  {
    var f := w.forecasts[i].forecast;
    && f.horizon == HORIZONS[i] && CountsOk(f.counts)
    && 0 <= w.forecasts[i].maxCarryMs <= w.policy.maxCarryMs
    && ((w.forecasts[i].maxCarryMs == 0) <==> (f.counts.carried == 0))
    && LegalReasons(f.reasons) && (forall r | r in w.reasons :: r in f.reasons)
    && GeometryOk(w.twap, w.decided.wall, f) && OutcomeOk(w, f)
  }

  predicate ResumptionOk(w: Wire, r: SpotReconnect) {
    && r.first.Some? && w.spot.Some? && r.previous.Some? && r.gapWallNs.Some? && r.gapMonoNs.Some?
    && (var previous, first := r.previous.value, r.first.value;
        var limit := Min(w.policy.reconnectMaxGapMs, w.policy.maxCarryMs) * NS_PER_MS;
        && 0 < (first.sourceMs - previous.sourceMs) * NS_PER_MS <= limit
        && 0 <= first.wallNs - previous.wallNs <= limit
        && 0 <= first.monoNs - previous.monoNs <= limit
        && first.wallNs >= r.gapWallNs.value && first.monoNs >= r.gapMonoNs.value
        && first.sequence > previous.sequence && w.spot.value.sequence >= first.sequence
        && FreshAt(first, Stamp(first.wallNs, first.monoNs), w.policy))
  }

  predicate RetentionOk(w: Wire, r: SpotReconnect) {
    && w.policy.reconnectMaxGapMs > 0 && r.previous.Some? && r.gapWallNs.Some? && r.gapMonoNs.Some?
    && (exists i :: 0 <= i < |w.lastGaps| && w.lastGaps[i].feed == Spot && w.lastGaps[i].reason == CONNECTION_END
                    && w.lastGaps[i].ordinal == r.gapOrdinal)
    && FreshAt(r.previous.value, Stamp(r.gapWallNs.value, r.gapMonoNs.value), w.policy)
    && (r.status == Waiting ==> r.first.None? && w.spot.None? && w.eligible == [])
    && (r.status == Retained ==> ResumptionOk(w, r))
  }

  predicate ReconnectOk(w: Wire) {
    w.reconnect.Some? ==>
      (var r := w.reconnect.value;
       && 1 <= r.gapOrdinal <= w.gapCount
       && (r.gapWallNs.Some? ==> 0 <= r.gapWallNs.value <= w.decided.wall)
       && (r.gapMonoNs.Some? ==> 0 <= r.gapMonoNs.value <= w.decided.mono)
       && InputOk(r.previous, Spot, w.decided, r.status == Cleared)
       && InputOk(r.first, Spot, w.decided, r.status == Cleared)
       && (r.status != Cleared ==> RetentionOk(w, r)))
  }

  function InputDeadline(w: Wire, e: PriceEvent): int {
    Earliest(InputDeadlines(w.policy, e, w.decided.wall, w.decided.mono), 0)
  }

  /** The declared expiry is no later than any verified input allows. */
  predicate DeadlineOk(w: Wire) {
    && w.validUntilNs >= 0
    && (w.reasons != [] || (w.spot.None? && w.twap.None?) ==> w.validUntilNs <= w.decided.wall)
    && (w.spot.Some? ==> w.validUntilNs <= InputDeadline(w, w.spot.value))
    && (w.twap.Some? ==> w.validUntilNs <= InputDeadline(w, w.twap.value))
  }

  predicate EligibleOk(w: Wire)
    requires w.attempted.Some?
  {
    w.eligible != [] ==>
      && w.spot.Some? && w.twap.Some? && w.reasons == []
      && FreshAt(w.spot.value, w.decided, w.policy) && FreshAt(w.twap.value, w.decided, w.policy)
      && w.attempted.value.wall < w.validUntilNs
      && w.attempted.value.mono - w.decided.mono < w.validUntilNs - w.decided.wall
  }

  /** The parser accepts the payload. */
  predicate Accepts(w: Wire) {
    && ClocksOk(w) && PolicyOk(w.policy) && InputsOk(w) && MarkersOk(w.lastGaps, w.gapCount) && SelectionOk(w)
    && |w.forecasts| == 6 && (forall i | 0 <= i < 6 :: ForecastOk(w, i))
    && ReconnectOk(w) && DeadlineOk(w) && EligibleOk(w)
  }

  // ---------------------------------------------------------------- bound reads

  /** A payload anchored to the reading process's own clocks. */
  datatype Read = Read(wire: Wire, at: Stamp, deadlineMonoNs: int)

  /** What the producer's monotonic budget still left at the attempt. */
  function ProducerRemaining(w: Wire): int
    requires w.attempted.Some?
  {
    w.validUntilNs - w.decided.wall - (w.attempted.value.mono - w.decided.mono)
  }

  /** None when the publication lies in the reader's future. */
  function Bind(w: Wire, at: Stamp): Option<Read>
    requires w.attempted.Some?
  {
    if at.wall < w.attempted.value.wall then None
    else
      var remaining := Max(0, Min(w.validUntilNs - at.wall,
                                  Min(w.attempted.value.wall + ProducerRemaining(w) - at.wall,
                                      w.policy.receiptMaxAgeMs * NS_PER_MS)));
      Some(Read(w, at, at.mono + remaining))
  }

  function Remaining(r: Read, now: Stamp): int {
    if now.wall < r.at.wall || now.mono < r.at.mono then 0
    else Max(0, Min(r.wire.validUntilNs - now.wall, r.deadlineMonoNs - now.mono))
  }

  // ---------------------------------------------------------------- freshness

  lemma DeadlineCovers(w: Wire, e: PriceEvent)
    requires w.validUntilNs <= InputDeadline(w, e)
    ensures w.validUntilNs <= e.wallNs + w.policy.receiptMaxAgeMs * NS_PER_MS
    ensures w.validUntilNs <= (e.sourceMs + w.policy.sourceMaxAgeMs) * NS_PER_MS
    ensures w.validUntilNs <= w.decided.wall + w.policy.receiptMaxAgeMs * NS_PER_MS - (w.decided.mono - e.monoNs)
  {
    var all := InputDeadlines(w.policy, e, w.decided.wall, w.decided.mono);
    assert all[0] in all && all[1] in all && all[2] in all;
  }

  /** One input's age on every clock that the reader and the producer can compare. */
  predicate AgeWithinCaps(w: Wire, e: PriceEvent, r: Read, now: Stamp)
    requires w.attempted.Some?
  {
    var receiptCap := w.policy.receiptMaxAgeMs * NS_PER_MS;
    && 0 <= now.wall - e.sourceMs * NS_PER_MS < w.policy.sourceMaxAgeMs * NS_PER_MS
    && 0 <= now.wall - e.wallNs < receiptCap
    // Producer monotonic age at the attempt, wall transit to the read, local monotonic age since.
    && 0 <= w.attempted.value.mono - e.monoNs < receiptCap
    && (w.attempted.value.mono - e.monoNs) + (r.at.wall - w.attempted.value.wall) + (now.mono - r.at.mono) < receiptCap
  }

  /**
   End-to-end freshness: while a bound read of an accepted payload with eligible
   prices has time left, both inputs are within their caps on every clock, the read
   itself is younger than the receipt cap, and the producer's own monotonic budget
   was not exhausted when it published.
   */
  lemma FreshEndToEnd(w: Wire, at: Stamp, now: Stamp)
    requires Accepts(w) && w.eligible != []
    requires Bind(w, at).Some? && Remaining(Bind(w, at).value, now) > 0
    ensures w.spot.Some? && w.twap.Some?
    ensures AgeWithinCaps(w, w.spot.value, Bind(w, at).value, now)
    ensures AgeWithinCaps(w, w.twap.value, Bind(w, at).value, now)
    ensures 0 <= now.mono - at.mono < w.policy.receiptMaxAgeMs * NS_PER_MS
    ensures ProducerRemaining(w) > 0
  {
    hide ForecastOk, ReconnectOk, SelectionOk, MarkersOk, InputDeadline;
    DeadlineCovers(w, w.spot.value);
    DeadlineCovers(w, w.twap.value);
  }

  /** A read is fresh exactly until the first of its four limits. */
  lemma FreshExactly(w: Wire, at: Stamp, now: Stamp)
    requires w.attempted.Some? && Bind(w, at).Some?
    ensures Remaining(Bind(w, at).value, now) > 0 <==>
            && at.NotAfter(now) && now.wall < w.validUntilNs
            && now.mono - at.mono < w.validUntilNs - at.wall
            && now.mono - at.mono < w.attempted.value.wall + ProducerRemaining(w) - at.wall
            && now.mono - at.mono < w.policy.receiptMaxAgeMs * NS_PER_MS
  {
  }
}
