/**
 Producer/parser agreement: whatever the engine and the publication stages send, the
 independent wire parser accepts.
 */
module PayloadAgreement {
  import opened Core
  import opened GhostTwap
  import opened GhostPayload
  import opened EngineRuns
  import opened EngineInvariants
  import opened DecisionFacts
  import opened AuditRow
  import opened CompactAgreement
  import PrunedDecisions

  /** The policy the runtime builds its engine with: settings within their bounds, the rest defaults. */
  predicate RuntimePolicy(p: Policy) {
    && p == Policy(true, p.sourceMaxAgeMs, p.receiptMaxAgeMs, 10_000, 120_000, 1_024, 10_000)
    && 1 <= p.sourceMaxAgeMs <= 5000 && 1 <= p.receiptMaxAgeMs <= 3000
  }

  const DEFAULT_POLICY: Policy := Policy(true, 5000, 3000, 10_000, 120_000, 1_024, 10_000)

  // ---------------------------------------------------------------- gap clocks

  predicate OpensReconnect(op: Op, r: SpotReconnect) {
    op == GapOp(Spot, CONNECTION_END, r.gapWallNs, r.gapMonoNs)
  }

  /** The reconnect evidence carries the clocks of some transport gap of the run. */
  ghost predicate GapClocked(s: State, ops: seq<Op>) {
    s.reconnect.Some? ==> exists j :: 0 <= j < |ops| && OpensReconnect(ops[j], s.reconnect.value)
  }

  /** The evidence is gone, or still carries the clocks it had. */
  predicate SameGap(before: Option<SpotReconnect>, after: Option<SpotReconnect>) {
    after.Some? ==> before.Some? && after.value.gapWallNs == before.value.gapWallNs
                    && after.value.gapMonoNs == before.value.gapMonoNs
  }

  lemma GapSource(s: State, feed: Feed, reason: string, wall: Option<int>, mono: Option<int>)
    ensures var after := RecordGap(s, feed, reason, wall, mono).state.reconnect;
            SameGap(s.reconnect, after) || (after.Some? && OpensReconnect(GapOp(feed, reason, wall, mono), after.value))
    ensures reason != CONNECTION_END ==> SameGap(s.reconnect, RecordGap(s, feed, reason, wall, mono).state.reconnect)
  {
    hide TransportGap, GapOutOfOrder, Forget;
    ForgetKeepsReconnect(s, feed, true);
    ForgetKeepsReconnect(s, feed, false);
  }

  lemma ForgetKeepsReconnect(s: State, feed: Feed, retain: bool)
    ensures forall t: State :: Forget(t, feed, retain).reconnect == t.reconnect
  {
  }

  lemma HardLossSource(s: State, reason: string)
    requires reason != CONNECTION_END
    ensures SameGap(s.reconnect, HardLoss(s, reason).reconnect)
  {
    GapSource(s, Spot, reason, None, None);
    GapSource(RecordGap(s, Spot, reason, None, None).state, Twap, reason, None, None);
    hide RecordGap;
  }

  lemma AdmitSource(s: State, e: PriceEvent)
    ensures SameGap(s.reconnect, Admit(s, e, Bounded).reconnect)
  {
    hide Entered, PrunedHistory, HardLoss;
    EnteredShape(s, e);
    HardLossSource(Prune(Entered(s, e), e.ReceivedMs()), "capacity");
  }

  lemma ResolveSource(s: State, e: PriceEvent)
    ensures SameGap(s.reconnect, ResolveReconnect(s, e).state.reconnect)
  {
    hide CurrentReasons, Without;
  }

  lemma AcceptSource(s: State, e: PriceEvent)
    ensures SameGap(s.reconnect, AcceptOutcome(s, e, Bounded).0.reconnect)
  {
    HardLossSource(s, "sequence_gap");
    hide Admit, HardLoss, ResolveReconnect;
    var bridged, resolved := AcceptCases(s, e, Bounded);
    ResolveSource(bridged, e);
    AdmitSource(resolved.state, e);
  }

  lemma {:induction false} RunIsGapClocked(policy: Policy, ops: seq<Op>)
    ensures GapClocked(Run(policy, ops, Bounded), ops)
  {
    if ops != [] {
      hide Decide, RecordGap, AcceptOutcome, PrunedHistory;
      var front, last := ops[..|ops| - 1], ops[|ops| - 1];
      RunIsGapClocked(policy, front);
      var s := Run(policy, front, Bounded);
      var after := Run(policy, ops, Bounded);
      match last
      case AcceptOp(e) => AcceptSource(s, e);
      case GapOp(feed, reason, wall, mono) => GapSource(s, feed, reason, wall, mono);
      case SnapshotOp(_, wall, mono) =>
      ExtendGapClocked(s, front, last, after);
      assert front + [last] == ops;
    }
  }

  lemma ExtendGapClocked(s: State, front: seq<Op>, last: Op, after: State)
    requires GapClocked(s, front)
    requires SameGap(s.reconnect, after.reconnect)
             || (after.reconnect.Some? && OpensReconnect(last, after.reconnect.value))
    ensures GapClocked(after, front + [last])
  {
    var ops := front + [last];
    if SameGap(s.reconnect, after.reconnect) {
      if after.reconnect.Some? {
        var j :| 0 <= j < |front| && OpensReconnect(front[j], s.reconnect.value);
        assert OpensReconnect(ops[j], after.reconnect.value);
      }
    } else {
      assert OpensReconnect(ops[|front|], after.reconnect.value);
    }
  }

  /** Every transport gap offered so far was clocked no later than this instant. */
  ghost predicate GapsBefore(ops: seq<Op>, now: Stamp) {
    forall j :: 0 <= j < |ops| && ops[j].GapOp? && ops[j].reason == CONNECTION_END ==>
      (ops[j].wall.Some? ==> 0 <= ops[j].wall.value <= now.wall)
      && (ops[j].mono.Some? ==> 0 <= ops[j].mono.value <= now.mono)
  }

  predicate ReconnectBefore(r: Option<SpotReconnect>, now: Stamp) {
    r.Some? ==> (r.value.gapWallNs.Some? ==> 0 <= r.value.gapWallNs.value <= now.wall)
                && (r.value.gapMonoNs.Some? ==> 0 <= r.value.gapMonoNs.value <= now.mono)
  }

  // ---------------------------------------------------------------- readable decisions

  predicate IncludedInput(e: Option<PriceEvent>, feed: Feed, d: Decision) {
    e.Some? ==> && e.value.feed == feed && e.value.Valid() && e.value.sequence >= 1
                && e.value.wallNs <= d.wallNs && e.value.monoNs <= d.monoNs
                && d.includedSequence.Some? && e.value.sequence <= d.includedSequence.value
  }

  /** A live decision's inputs are causal and fresh and bound its expiry. */
  predicate LiveInput(e: Option<PriceEvent>, d: Decision) {
    && e.Some? && e.value.Causal() && FreshAt(e.value, Stamp(d.wallNs, d.monoNs), d.policy)
    && d.validUntilNs <= Earliest(InputDeadlines(d.policy, e.value, d.wallNs, d.monoNs), 0)
  }

  /** Reconnect evidence of a live decision, as RecoveryOk kept it, within the decision's clocks. */
  predicate LiveRecovery(d: Decision) {
    d.reconnect.Some? ==>
      (var r := d.reconnect.value;
       && 1 <= r.gapOrdinal <= d.gapCount && ReconnectBefore(d.reconnect, Stamp(d.wallNs, d.monoNs))
       && IncludedInput(r.previous, Spot, d) && IncludedInput(r.first, Spot, d)
       && (r.status != Cleared ==> Held(r, d.policy, d.lastGaps))
       && r.status != Waiting
       && (r.status == Retained ==> Resumed(r, d.policy) && d.spot.Some? && r.first.Some?
                                    && d.spot.value.sequence >= r.first.value.sequence))
  }

  /** What the parser needs of a decision: either it is live, or it was born expired. */
  ghost predicate Readable(d: Decision) {
    && RuntimePolicy(d.policy) && d.id >= 1 && d.wallNs >= 0 && d.monoNs >= 0
    && |d.forecasts| == 6 && (forall i :: 0 <= i < 6 ==> ForecastSound(d, i) && CarrySound(d, i))
    && IncludedInput(d.spot, Spot, d) && IncludedInput(d.twap, Twap, d)
    && (d.spot.Some? && d.twap.Some? ==> d.spot.value.sequence != d.twap.value.sequence)
    && (d.includedSequence.Some? ==> d.includedSequence.value >= 1)
    && GapsOk(d.lastGaps, d.gapCount)
    && (d.reasons != [] ==> d.validUntilNs <= d.wallNs)
    && (d.reasons == [] ==> LiveInput(d.spot, d) && LiveInput(d.twap, d) && LiveRecovery(d))
  }

  lemma EarliestCovers(all: seq<int>, some: seq<int>, fallback: int)
    requires some != [] && forall k :: 0 <= k < |some| ==> some[k] in all
    ensures all != [] && Earliest(all, fallback) <= Earliest(some, 0)
  {
    assert some[0] in all;
  }

  lemma DeadlinesCoverInputs(s: State, reasons: seq<Reason>, wall: int, mono: int)
    ensures var all := Deadlines(s, reasons, wall, mono);
            && (reasons != [] ==> Earliest(all, wall) <= wall)
            && (s.Current(Spot).Some? ==>
                  Earliest(all, wall) <= Earliest(InputDeadlines(s.policy, s.Current(Spot).value, wall, mono), 0))
            && (s.Current(Twap).Some? ==>
                  Earliest(all, wall) <= Earliest(InputDeadlines(s.policy, s.Current(Twap).value, wall, mono), 0))
  {
    hide InputDeadlines, Earliest;
    var all := Deadlines(s, reasons, wall, mono);
    var own := if reasons != [] then [wall] else [];
    if reasons != [] { assert wall in all by { assert all[0] == wall; } }
    if s.Current(Spot).Some? {
      var some := InputDeadlines(s.policy, s.Current(Spot).value, wall, mono);
      InputDeadlinesExist(s.policy, s.Current(Spot).value, wall, mono);
      forall k | 0 <= k < |some| ensures some[k] in all { assert all[|own| + k] == some[k]; }
      EarliestCovers(all, some, wall);
    }
    if s.Current(Twap).Some? {
      var some := InputDeadlines(s.policy, s.Current(Twap).value, wall, mono);
      InputDeadlinesExist(s.policy, s.Current(Twap).value, wall, mono);
      EarliestCovers(all, some, wall);
    }
  }

  lemma InputDeadlinesExist(p: Policy, e: PriceEvent, wall: int, mono: int)
    ensures InputDeadlines(p, e, wall, mono) != []
  {
  }

  lemma LiveDecision(s: State, id: int, wall: int, mono: int)
    requires GlobalReasons(s, wall, mono) == []
    ensures LiveInput(s.Current(Spot), Decide(s, id, wall, mono))
            && LiveInput(s.Current(Twap), Decide(s, id, wall, mono))
  {
    hide Slots, ForecastFor, Deadlines, InputDeadlines, GlobalReasons;
    DeadlinesCoverInputs(s, [], wall, mono);
    NoReasonsMeansClean(s, wall, mono);
  }

  lemma LiveRecoveryHolds(s: State, id: int, wall: int, mono: int)
    requires Inv(s) && GlobalReasons(s, wall, mono) == []
    requires s.lastEvent.Some? ==> s.lastEvent.value.wallNs <= wall && s.lastEvent.value.monoNs <= mono
    requires ReconnectBefore(s.reconnect, Stamp(wall, mono))
    ensures LiveRecovery(Decide(s, id, wall, mono))
  {
    hide Slots, ForecastFor, Deadlines, GlobalReasons, HistoryOk, GapsOk, Held, Resumed, CurrentReasons;
    NoReasonsMeansClean(s, wall, mono);
  }

  /** The state's inputs, counts and gap markers are the decision's. */
  lemma DecisionInputs(s: State, id: int, wall: int, mono: int)
    requires Inv(s)
    requires s.lastEvent.Some? ==> s.lastEvent.value.wallNs <= wall && s.lastEvent.value.monoNs <= mono
    ensures var d := Decide(s, id, wall, mono);
            && IncludedInput(d.spot, Spot, d) && IncludedInput(d.twap, Twap, d)
            && (d.spot.Some? && d.twap.Some? ==> d.spot.value.sequence != d.twap.value.sequence)
            && (d.includedSequence.Some? ==> d.includedSequence.value >= 1)
            && GapsOk(d.lastGaps, d.gapCount)
  {
    hide Slots, ForecastFor, GlobalReasons, Deadlines, Earliest, HistoryOk, RecoveryOk, GapsOk;
  }

  lemma DecisionForecasts(s: State, id: int, wall: int, mono: int)
    requires Inv(s) && RuntimePolicy(s.policy)
    ensures var d := Decide(s, id, wall, mono);
            |d.forecasts| == 6 && forall i :: 0 <= i < 6 ==> ForecastSound(d, i) && CarrySound(d, i)
  {
    hide Decide, ForecastSound, CarrySound, HistoryOk, CurrentOk, RecoveryOk, GapsOk;
    var d := Decide(s, id, wall, mono);
    forall i | 0 <= i < 6 ensures ForecastSound(d, i) && CarrySound(d, i) { ForecastIsSound(s, id, wall, mono, i); }
  }

  lemma DecideIsReadable(s: State, id: int, wall: int, mono: int)
    requires Inv(s) && RuntimePolicy(s.policy) && id >= 1 && wall >= 0 && mono >= 0
    requires s.lastEvent.Some? ==> s.lastEvent.value.wallNs <= wall && s.lastEvent.value.monoNs <= mono
    requires ReconnectBefore(s.reconnect, Stamp(wall, mono))
    ensures Readable(Decide(s, id, wall, mono))
  {
    hide Slots, ForecastFor, GlobalReasons, ForecastSound, CarrySound, LiveInput, LiveRecovery, Deadlines, Inv, GapsOk,
         IncludedInput, InputDeadlines;
    var d := Decide(s, id, wall, mono);
    DecisionForecasts(s, id, wall, mono);
    DecisionInputs(s, id, wall, mono);
    DeadlinesCoverInputs(s, d.reasons, wall, mono);
    if d.reasons == [] {
      LiveDecision(s, id, wall, mono);
      LiveRecoveryHolds(s, id, wall, mono);
    }
  }

  // ---------------------------------------------------------------- the sent payload

  lemma GapListIsLegal(gaps: map<Feed, GapMarker>, gapCount: int)
    requires GapsOk(gaps, gapCount)
    ensures MarkersOk(GapList(gaps), gapCount)
    ensures forall f :: f in gaps ==> exists k :: 0 <= k < |GapList(gaps)| && GapList(gaps)[k] == gaps[f]
  {
    var list := GapList(gaps);
    if Spot in gaps { assert list[0] == gaps[Spot]; }
    if Twap in gaps { assert list[|list| - 1] == gaps[Twap]; }
  }

  lemma MaskedForecastIsOk(r: Row, w: Wire, i: int)
    requires 0 <= i < 6 && Shaped(r) && Readable(r.decision) && r.decision.reasons == []
    requires |w.forecasts| == 6 && Derived(r.decision.forecasts[i], MaxCarryAt(r.decision, i), w.forecasts[i])
    requires Exclusion(r, i).None? || r.decision.forecasts[i].price.None? ==>
               w.forecasts[i].forecast == r.decision.forecasts[i]
    requires Exclusion(r, i).Some? && r.decision.forecasts[i].price.Some? ==>
               w.forecasts[i].forecast.price.None? && w.forecasts[i].forecast.quality == Unavailable
               && w.forecasts[i].forecast.reasons == Exclusion(r, i).value
    requires w.policy == r.decision.policy && w.twap == r.decision.twap && w.decided.wall == r.decision.wallNs
    requires w.reasons == []
    requires HORIZONS[i] in w.eligible <==> Exclusion(r, i).None?
    requires Exclusion(r, i).Some? ==> HORIZONS[i] in w.excluded && w.excluded[HORIZONS[i]] == Exclusion(r, i).value
    ensures ForecastOk(w, i)
  {
    hide GeometryOk, MaxCarryAt, CountsOk, LiveInput, LiveRecovery, IncludedInput, GapsOk, LegalPrice;
    var d := r.decision;
    assert ForecastSound(d, i) && CarrySound(d, i);
    GeometryIgnoresMask(d.twap, d.wallNs, d.forecasts[i], w.forecasts[i].forecast);
  }

  lemma GeometryIgnoresMask(twap: Option<PriceEvent>, wall: int, f: Forecast, g: Forecast)
    requires GeometryOk(twap, wall, f)
    requires g == f.(price := g.price, quality := g.quality, reasons := g.reasons)
    ensures GeometryOk(twap, wall, g)
  {
  }

  lemma SentReconnectIsOk(d: Decision, w: Wire)
    requires Readable(d) && d.reasons == []
    requires w.reconnect == d.reconnect && w.gapCount == d.gapCount && w.lastGaps == GapList(d.lastGaps)
    requires w.decided == Stamp(d.wallNs, d.monoNs) && w.policy == d.policy && w.spot == d.spot
    ensures ReconnectOk(w)
  {
    hide ForecastSound, CarrySound, LiveInput, PriceEvent.Valid, GapList;
    GapListIsLegal(d.lastGaps, d.gapCount);
  }

  lemma LiveWhilePublishing(d: Decision, now: Stamp)
    requires Readable(d) && TtlMs(d, now) >= 1 && d.wallNs <= now.wall
    ensures d.reasons == [] && now.wall < d.validUntilNs && now.mono - d.monoNs < d.validUntilNs - d.wallNs
  {
    hide ForecastSound, CarrySound, LiveInput, LiveRecovery, IncludedInput, GapsOk, RuntimePolicy;
  }

  /** Clock readings of one publication, in the order they are taken. */
  predicate ClocksAdvance(r: Row, intended: Stamp, now: Stamp) {
    && Stamp(r.decision.wallNs, r.decision.monoNs).NotAfter(r.completed)
    && r.completed.NotAfter(intended) && intended.NotAfter(now)
  }

  /**
   Producer/parser agreement: with advancing clocks, every payload that reaches the
   Redis attempt passes every check of the parser.
   */
  lemma SentPayloadIsAccepted(r: Row, live: Wire, now: Stamp)
    requires Shaped(r) && Readable(r.decision) && Staged(r, live)
    requires ClocksAdvance(r, live.intended, now)
    ensures var sent := AttemptPublish(r, live, true, now).1; sent.Some? ==> Accepts(sent.value)
  {
    hide Exclusion, EligibleUpTo, ExcludedUpTo, WorthPublishing, TtlMs, ForecastOk, ReconnectOk, ForecastSound,
         CarrySound, MaxCarryAt, GapsOk, GapList, LiveRecovery, MarkersOk, PriceEvent.Valid;
    var sent := AttemptPublish(r, live, true, now).1;
    if sent.Some? {
      var w, d := sent.value, r.decision;
      LiveWhilePublishing(d, now);
      MaskShape(r, live, now);
      GapListIsLegal(d.lastGaps, d.gapCount);
      SentReconnectIsOk(d, w);
      forall i | 0 <= i < 6 ensures ForecastOk(w, i) {
        UnmaskedIsPriced(r, i);
        assert w.forecasts[i] == MaskForecast(r, i, live.forecasts[i]);
        MaskedForecastIsOk(r, w, i);
      }
    }
  }

  /** The same for a decision taken from any run of the engine with ordered clocks. */
  lemma DecisionsAreReadable(policy: Policy, ops: seq<Op>, id: int, now: Stamp)
    requires RuntimePolicy(policy) && id >= 1 && now.wall >= 0 && now.mono >= 0
    requires forall i :: 0 <= i < |ops| ==> ValidOp(ops[i]) && (ops[i].AcceptOp? ==> ops[i].event.sequence >= 1)
    requires GapsBefore(ops, now)
    ensures var d := Snapshot(Run(policy, ops, Bounded), id, now.wall, now.mono, Bounded).1;
            d.Some? ==> Readable(d.value)
  {
    hide Inv, PrunedHistory, Decide, RecordGap, AcceptOutcome, GapClocked, Run;
    var s := Run(policy, ops, Bounded);
    RunKeepsInv(policy, ops);
    RunIsGapClocked(policy, ops);
    RunGapsBefore(s, ops, now);
    PrunedDecisions.PolicyIsFixed(policy, ops, Bounded);
    SnapshotKeepsInv(s, now.wall, now.mono);
    if Snapshot(s, id, now.wall, now.mono, Bounded).1.Some? {
      DecideIsReadable(SnapshotState(s, now.wall, now.mono, Bounded), id, now.wall, now.mono);
    }
  }

  lemma RunGapsBefore(s: State, ops: seq<Op>, now: Stamp)
    requires GapClocked(s, ops) && GapsBefore(ops, now)
    ensures ReconnectBefore(s.reconnect, now)
  {
    if s.reconnect.Some? {
      var j :| 0 <= j < |ops| && OpensReconnect(ops[j], s.reconnect.value);
    }
  }
}
