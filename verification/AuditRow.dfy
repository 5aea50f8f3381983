/**
 One decision's audit row (price_collector/ghost_twap_runtime.py): target matching, the
 publication stages and their masks, timeout, shutdown and restart, as functions of the
 row; and the checks by which the compactor (price_collector/ghost_twap_accuracy.py)
 reads the finished row again.
 */
module AuditRow {
  import opened Core
  import opened GhostTwap
  import opened GhostPayload
  import opened DecisionFacts

  const MATCH_NS: int := 120 * NS_PER_SECOND

  datatype TargetStatus = AwaitingTarget | Matched | Missed | NotForecast | RestartUnmatched

  datatype Target = Target(stamp: Option<int>, status: TargetStatus, first: Option<PriceEvent>, anomaly: bool,
                           error: Option<int>, persistenceError: Option<int>, etaErrorNs: Option<int>,
                           conflicted: bool, conflicting: Option<PriceEvent>, late: Option<PriceEvent>,
                           leadNs: Option<int>, lateMissing: bool)

  datatype PublicationStatus =
    | Reserved | Intent | Attempting | Acknowledged | Uncertain | Coalesced | ExpiredOrReceived
    | NoEligible | PreemptedAfterSpool | ExpiredBeforeAttempt | SpoolUnavailable

  datatype Publication = Publication(status: PublicationStatus, intent: Option<Stamp>, payload: Option<Wire>,
                                     attempt: Option<Stamp>, ack: Option<Stamp>, failure: Option<Stamp>,
                                     unconfirmedAfterRestart: bool)

  datatype Row = Row(decision: Decision, completed: Stamp, epoch: int, publication: Publication,
                     targets: seq<Target>, causalityInvalid: bool, restartReconciled: bool, shutdown: bool,
                     terminal: bool, version: int)

  predicate Shaped(r: Row) { |r.targets| == 6 && |r.decision.forecasts| == 6 }

  function Changed(r: Row): Row { r.(version := r.version + 1) }

  function WithStatus(r: Row, status: PublicationStatus): Row {
    r.(publication := r.publication.(status := status))
  }

  function WithTarget(r: Row, i: int, t: Target): Row
    requires 0 <= i < |r.targets|
  {
    r.(targets := r.targets[i := t])
  }

  function NewTarget(f: Forecast): Target {
    Target(f.target, if f.price.Some? then AwaitingTarget else NotForecast, None, false, None, None, None,
           false, None, None, None, false)
  }

  function NewRow(d: Decision, completed: Stamp, epoch: int): Row {
    Row(d, completed, epoch, Publication(Reserved, None, None, None, None, None, false),
        seq(|d.forecasts|, i requires 0 <= i < |d.forecasts| => NewTarget(d.forecasts[i])),
        false, false, false, false, 1)
  }

  // ---------------------------------------------------------------- masks

  /** Why a horizon is kept off the wire; None makes it eligible. */
  function Masking(original: Forecast, t: Target): Option<seq<Reason>> {
    if original.price.None? then Some(original.reasons)
    else if t.first.Some? then Some(original.reasons + [TargetReceivedBeforePublication])
    else if t.status != AwaitingTarget || t.conflicted then
      Some(original.reasons + [TargetNotPendingBeforePublication])
    else None
  }

  function Exclusion(r: Row, i: int): Option<seq<Reason>>
    requires Shaped(r) && 0 <= i < 6
  {
    Masking(r.decision.forecasts[i], r.targets[i])
  }

  function EligibleUpTo(r: Row, n: nat): seq<int>
    requires Shaped(r) && n <= 6
  {
    if n == 0 then []
    else EligibleUpTo(r, n - 1) + (if Exclusion(r, n - 1).None? then [HORIZONS[n - 1]] else [])
  }

  function ExcludedUpTo(r: Row, n: nat): map<int, seq<Reason>>
    requires Shaped(r) && n <= 6
  {
    if n == 0 then map[]
    else
      var before := ExcludedUpTo(r, n - 1);
      if Exclusion(r, n - 1).Some? then before[HORIZONS[n - 1] := Exclusion(r, n - 1).value] else before
  }

  function MaskForecast(r: Row, i: int, live: WireForecast): WireForecast
    requires Shaped(r) && 0 <= i < 6
  {
    if Exclusion(r, i).None? || r.decision.forecasts[i].price.None? then live
    else live.(forecast := live.forecast.(price := None, quality := Unavailable, reasons := Exclusion(r, i).value))
  }

  /** Mask a live copy as of one clock reading. */
  function Mask(r: Row, live: Wire, at: Stamp): Wire
    requires Shaped(r) && |live.forecasts| == 6
  {
    live.(checked := at, eligible := EligibleUpTo(r, 6), excluded := ExcludedUpTo(r, 6),
          forecasts := seq(6, i requires 0 <= i < 6 => MaskForecast(r, i, live.forecasts[i])))
  }

  /** Something is left to say: an eligible horizon, or a decision that never had a price. */
  predicate WorthPublishing(r: Row)
    requires Shaped(r)
  {
    EligibleUpTo(r, 6) != [] || forall i | 0 <= i < 6 :: r.decision.forecasts[i].price.None?
  }

  function GapList(gaps: map<Feed, GapMarker>): seq<GapMarker> {
    (if Spot in gaps then [gaps[Spot]] else []) + (if Twap in gaps then [gaps[Twap]] else [])
  }

  function LiveWire(r: Row, intended: Stamp): Wire
    requires Shaped(r)
  {
    var d := r.decision;
    Wire(d.id, d.id, Stamp(d.wallNs, d.monoNs), r.completed, intended, None, d.policy, d.spot, d.twap,
         d.includedSequence, d.reasons, d.gapCount, GapList(d.lastGaps), intended, [], map[],
         seq(6, i requires 0 <= i < 6 => WireForecast(d.forecasts[i], MaxCarryAt(d, i))), d.reconnect, d.validUntilNs)
  }

  // ---------------------------------------------------------------- publication stages

  function BeginPublish(r: Row, publishable: bool, now: Stamp): (Row, Option<Wire>)
    requires Shaped(r)
  {
    if !publishable then (Changed(WithStatus(r, ExpiredOrReceived)), None)
    else
      var live := Mask(r, LiveWire(r, now), now);
      var intended := Changed(r.(publication := Publication(Intent, Some(now), Some(live), None, None, None, false)));
      if WorthPublishing(r) then (intended, Some(live)) else (Changed(WithStatus(intended, NoEligible)), None)
  }

  /** The Redis expiry in whole milliseconds, on whichever clock runs out first. */
  function TtlMs(d: Decision, now: Stamp): int {
    Min((d.validUntilNs - now.wall) / NS_PER_MS,
        (d.validUntilNs - d.wallNs - (now.mono - d.monoNs)) / NS_PER_MS)
  }

  function Stamped(w: Wire, attempted: Stamp): Wire { w.(attempted := Some(attempted)) }

  /** The final mask after the outbox write; the payload that goes to Redis, if any. */
  function AttemptPublish(r: Row, live: Wire, publishable: bool, now: Stamp): (Row, Option<Wire>)
    requires Shaped(r) && |live.forecasts| == 6
  {
    if !publishable then (Changed(WithStatus(r, PreemptedAfterSpool)), None)
    else
      var masked := Mask(r, live, now);
      if !WorthPublishing(r) then
        (Changed(r.(publication := r.publication.(status := NoEligible, payload := Some(masked)))), None)
      else
        var sent := Stamped(masked, now);
        var attempting := Changed(r.(publication := r.publication.(status := Attempting, attempt := Some(now),
                                                                   payload := Some(sent))));
        if TtlMs(r.decision, now) <= 0 then (Changed(WithStatus(attempting, ExpiredBeforeAttempt)), None)
        else (attempting, Some(sent))
  }

  datatype RedisOutcome = Applied | Failed | Cancelled

  function FinishPublish(r: Row, outcome: RedisOutcome, now: Stamp): Row
    requires Shaped(r)
  {
    match outcome
    case Applied =>
      Changed(ScoreAll(r.(publication := r.publication.(status := Acknowledged, ack := Some(now)))))
    case Failed =>
      Changed(ScoreAll(r.(publication := r.publication.(status := Uncertain, failure := Some(now)))))
    case Cancelled =>
      Changed(r.(publication := r.publication.(status := Uncertain, failure := Some(now))))
  }

  // ---------------------------------------------------------------- targets

  predicate SoleMatch(forecasts: seq<WireForecast>, horizon: int, j: int) {
    && 0 <= j < |forecasts| && forecasts[j].forecast.horizon == horizon
    && forall k | 0 <= k < |forecasts| && k != j :: forecasts[k].forecast.horizon != horizon
  }

  predicate SameOffer(sent: Forecast, original: Forecast, stamp: Option<int>) {
    && sent.target == stamp == original.target && sent.quality != Unavailable
    && sent.price.Some? && sent.price == original.price
  }

  /** The horizon's price really was in the attempted bytes. */
  predicate AttemptedForecast(d: Decision, p: Publication, t: Target, i: int)
    requires 0 <= i < |d.forecasts|
  {
    var original := d.forecasts[i];
    && p.attempt.Some? && p.payload.Some? && p.payload.value.attempted.Some? && original.price.Some?
    && original.horizon in p.payload.value.eligible && original.horizon !in p.payload.value.excluded
    && exists j | 0 <= j < |p.payload.value.forecasts| ::
         && SoleMatch(p.payload.value.forecasts, original.horizon, j)
         && SameOffer(p.payload.value.forecasts[j].forecast, original, t.stamp)
  }

  function Lead(d: Decision, p: Publication, invalid: bool, t: Target, i: int): Option<int>
    requires 0 <= i < |d.forecasts|
  {
    if t.first.Some? && p.ack.Some? && p.status == Acknowledged && !t.conflicted && !t.anomaly
       && !invalid && AttemptedForecast(d, p, t, i) && p.ack.value.mono < t.first.value.monoNs
    then Some(t.first.value.monoNs - p.ack.value.mono) else None
  }

  function ScoreAll(r: Row): Row
    requires Shaped(r)
  {
    r.(targets := seq(6, i requires 0 <= i < 6 =>
         r.targets[i].(leadNs := Lead(r.decision, r.publication, r.causalityInvalid, r.targets[i], i))))
  }

  function FirstMatch(d: Decision, p: Publication, invalid: bool, t: Target, i: int, e: PriceEvent): Target
    requires 0 <= i < |d.forecasts|
  {
    var f := d.forecasts[i];
    var matched := t.(
      first := Some(e), status := Matched, anomaly := !e.Causal(),
      error := if f.price.Some? then Some(f.price.value - e.value) else None,
      persistenceError := if d.twap.Some? then Some(d.twap.value.value - e.value) else None,
      etaErrorNs := if f.eta.Some? then Some(e.wallNs - f.eta.value) else None);
    matched.(leadNs := Lead(d, p, invalid, matched, i))
  }

  /** One target meets one admitted TWAP event; the flag says whether the row must be saved again. */
  function ObserveTarget(d: Decision, p: Publication, invalid: bool, t: Target, i: int, e: PriceEvent): (Target, bool)
    requires 0 <= i < |d.forecasts|
  {
    if t.stamp != Some(e.sourceMs) || e.monoNs < d.monoNs then (t, false)
    else if t.first.Some? then
      if t.first.value.value != e.value && !t.conflicted
      then (t.(conflicted := true, conflicting := Some(e), leadNs := None), true) else (t, false)
    else
      var due := if t.status == AwaitingTarget && e.monoNs >= d.monoNs + MATCH_NS then t.(status := Missed) else t;
      if due.status == AwaitingTarget then (FirstMatch(d, p, invalid, due, i, e), true)
      else if due.status == Missed && due.late.None? then (due.(late := Some(e)), true)
      else (due, false)
  }

  function ObserveOne(r: Row, i: int, e: PriceEvent): Row
    requires Shaped(r) && 0 <= i < 6
  {
    var (t, changed) := ObserveTarget(r.decision, r.publication, r.causalityInvalid, r.targets[i], i, e);
    if changed then Changed(WithTarget(r, i, t)) else WithTarget(r, i, t)
  }

  function ObserveUpTo(r: Row, n: nat, e: PriceEvent): (after: Row)
    requires Shaped(r) && n <= 6
    ensures Shaped(after)
  {
    if n == 0 then r else ObserveOne(ObserveUpTo(r, n - 1, e), n - 1, e)
  }

  function Observe(r: Row, e: PriceEvent): Row
    requires Shaped(r)
  {
    ObserveUpTo(r, 6, e)
  }

  // ---------------------------------------------------------------- ends of a row

  function Resolved(t: Target, status: TargetStatus): Target {
    if t.status == AwaitingTarget then t.(status := status) else t
  }

  function ResolveAll(r: Row, status: TargetStatus): Row {
    r.(targets := seq(|r.targets|, i requires 0 <= i < |r.targets| => Resolved(r.targets[i], status)))
  }

  /** The matching window closed. */
  function Finalize(r: Row, mono: int): Row {
    if r.terminal || mono < r.decision.monoNs + MATCH_NS then r
    else Changed(ResolveAll(r, Missed).(terminal := true))
  }

  /** Shutdown freezes the row whatever it was waiting for. */
  function Shut(r: Row): Row {
    Changed(ResolveAll(r, RestartUnmatched).(terminal := true, shutdown := true))
  }

  /** A clock-order stop voids every lead of every row. */
  function Invalidate(r: Row): Row {
    if r.causalityInvalid then r
    else
      Changed(r.(causalityInvalid := true,
                 targets := seq(|r.targets|, i requires 0 <= i < |r.targets| => r.targets[i].(leadNs := None))))
  }

  /** A restarted process ends a row it finds unfinished. */
  function Recovered(r: Row): Row {
    if r.terminal then r
    else
      var resolved := ResolveAll(r, RestartUnmatched);
      var p := r.publication;
      Changed(resolved.(restartReconciled := true, terminal := true,
                        publication := if p.status in {Reserved, Intent, Attempting}
                                       then p.(unconfirmedAfterRestart := true) else p))
  }

  // ---------------------------------------------------------------- the compactor's checks

  /** Eligible in bytes that were attempted. */
  predicate AttemptedEligible(p: Publication, i: int)
    requires 0 <= i < 6
  {
    p.attempt.Some? && p.payload.Some? && HORIZONS[i] in p.payload.value.eligible
  }

  predicate MaskShapeOk(w: Wire) {
    && (forall i | 0 <= i < |w.eligible| :: w.eligible[i] in HORIZONS)
    && (forall i, j | 0 <= i < j < |w.eligible| :: w.eligible[i] < w.eligible[j])
    && (forall h | h in w.excluded :: h in HORIZONS && h !in w.eligible)
    && (forall i | 0 <= i < 6 :: HORIZONS[i] in w.eligible || HORIZONS[i] in w.excluded)
  }

  predicate WireMatches(d: Decision, w: Wire) {
    && w.id == d.id && w.decided == Stamp(d.wallNs, d.monoNs) && w.spot == d.spot && w.twap == d.twap
    && w.policy == d.policy && w.validUntilNs == d.validUntilNs && MaskShapeOk(w)
    && |w.forecasts| == 6 && forall i | 0 <= i < 6 :: w.forecasts[i].forecast.horizon == HORIZONS[i]
  }

  predicate PublicationCompacts(r: Row) {
    var p, d := r.publication, r.decision;
    && (p.attempt.Some? ==> p.payload.Some? && p.payload.value.attempted.Some?)
    && (p.status in {Acknowledged, Uncertain} ==> p.attempt.Some?)
    && (p.payload.Some? ==> WireMatches(d, p.payload.value))
    && (p.attempt.Some? ==>
          && p.payload.value.checked == p.attempt.value && p.intent.Some?
          && d.monoNs <= r.completed.mono <= p.intent.value.mono <= p.attempt.value.mono)
    && (p.status in {Acknowledged, Uncertain} ==>
          Min(d.validUntilNs - p.attempt.value.wall,
              d.validUntilNs - d.wallNs - (p.attempt.value.mono - d.monoNs)) >= NS_PER_MS)
    && (p.status == Acknowledged ==> p.ack.Some? && p.ack.value.mono >= p.attempt.value.mono)
  }

  predicate EvidenceOk(e: Option<PriceEvent>, stamp: Option<int>) {
    e.Some? ==> e.value.feed == Twap && e.value.Valid() && e.value.sequence > 0 && Some(e.value.sourceMs) == stamp
  }

  function ExpectedLead(p: Publication, invalid: bool, t: Target, i: int): Option<int>
    requires 0 <= i < 6
  {
    if p.status == Acknowledged && AttemptedEligible(p, i) && t.first.Some? && p.ack.Some?
       && !t.conflicted && !t.anomaly && !invalid && p.ack.value.mono < t.first.value.monoNs
    then Some(t.first.value.monoNs - p.ack.value.mono) else None
  }

  predicate FirstCompacts(d: Decision, p: Publication, t: Target, i: int)
    requires 0 <= i < 6 && |d.forecasts| == 6
  {
    var f := d.forecasts[i];
    match t.first
    case None => t.status != Matched && t.error.None? && t.persistenceError.None?
    case Some(first) =>
      && t.status == Matched && f.price.Some? && d.twap.Some?
      && d.monoNs <= first.monoNs < d.monoNs + MATCH_NS && first.wallNs >= d.wallNs
      && (t.anomaly <==> !first.Causal())
      && t.error == Some(f.price.value - first.value) && t.persistenceError == Some(d.twap.value.value - first.value)
      && (AttemptedEligible(p, i) ==> first.monoNs >= p.attempt.value.mono)
  }

  predicate TargetCompacts(r: Row, i: int)
    requires Shaped(r) && 0 <= i < 6
  {
    var d, p, t, f := r.decision, r.publication, r.targets[i], r.decision.forecasts[i];
    && t.stamp == f.target && t.status != AwaitingTarget && CountsOk(f.counts) && f.horizon == HORIZONS[i]
    && (AttemptedEligible(p, i) ==>
          && |p.payload.value.forecasts| == 6
          && p.payload.value.forecasts[i] == WireForecast(f, MaxCarryAt(d, i)) && f.price.Some?)
    && EvidenceOk(t.first, t.stamp) && EvidenceOk(t.late, t.stamp) && EvidenceOk(t.conflicting, t.stamp)
    && FirstCompacts(d, p, t, i)
    && (t.conflicting.Some? ==> t.first.Some? && t.conflicted && t.conflicting.value.value != t.first.value.value)
    && t.leadNs == ExpectedLead(p, r.causalityInvalid, t, i)
  }

  predicate RecordedInput(e: Option<PriceEvent>, feed: Feed) {
    e.Some? ==> e.value.feed == feed && e.value.Valid() && e.value.sequence > 0
  }

  /** The compactor accepts the row at this wall time. */
  predicate Compactable(r: Row, asOfWallNs: int) {
    && r.terminal && asOfWallNs >= r.decision.wallNs + 120 * NS_PER_SECOND
    && PublicationCompacts(r)
    && r.decision.includedSequence.Some?
    && RecordedInput(r.decision.spot, Spot) && RecordedInput(r.decision.twap, Twap)
    && r.completed.mono >= r.decision.monoNs
    && Shaped(r) && forall i | 0 <= i < 6 :: TargetCompacts(r, i)
  }
}
