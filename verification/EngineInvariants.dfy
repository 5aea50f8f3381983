/**
 What every run of the engine keeps about its current inputs, its gap markers and
 its reconnect evidence. These are the facts an independent reader of a decision
 relies on.
 */
module EngineInvariants {
  import opened Core
  import opened GhostTwap
  import opened EngineRuns

  predicate NotAfter(x: PriceEvent, last: PriceEvent) {
    x.sequence <= last.sequence && x.wallNs <= last.wallNs && x.monoNs <= last.monoNs
  }

  /** A well-formed event of this feed, accepted no later than `last`. */
  predicate Known(x: PriceEvent, feed: Feed, last: Option<PriceEvent>) {
    x.feed == feed && x.Valid() && x.sequence >= 1 && last.Some? && NotAfter(x, last.value)
  }

  ghost predicate HistoryOk(h: History) {
    forall k :: k in h ==> h[k].Valid() && h[k].feed == k.feed && h[k].sourceMs == k.stamp
  }

  ghost predicate CurrentOk(current: map<Feed, PriceEvent>, last: Option<PriceEvent>) {
    && (forall f :: f in current ==> Known(current[f], f, last))
    && (Spot in current && Twap in current ==> current[Spot].sequence != current[Twap].sequence)
  }

  ghost predicate GapsOk(lastGaps: map<Feed, GapMarker>, gapCount: int) {
    && gapCount >= 0
    && forall f :: f in lastGaps ==>
         && lastGaps[f].feed == f && 1 <= lastGaps[f].ordinal <= gapCount
         && (lastGaps[f].afterSequence.Some? ==> lastGaps[f].afterSequence.value >= 0)
  }

  /** Retention still stands on the transport gap that opened it. */
  predicate Held(r: SpotReconnect, p: Policy, lastGaps: map<Feed, GapMarker>) {
    && p.reconnectMaxGapMs > 0 && r.previous.Some? && r.gapWallNs.Some? && r.gapMonoNs.Some?
    && Spot in lastGaps && lastGaps[Spot].reason == CONNECTION_END && lastGaps[Spot].ordinal == r.gapOrdinal
    && CurrentReasons(p, r.previous, Spot, r.gapWallNs.value, r.gapMonoNs.value) == []
  }

  /** The first spot after the gap advanced the source within the reconnect limit. */
  predicate Resumed(r: SpotReconnect, p: Policy) {
    && r.previous.Some? && r.first.Some? && r.gapWallNs.Some? && r.gapMonoNs.Some?
    && var previous, first := r.previous.value, r.first.value;
       && 0 < (first.sourceMs - previous.sourceMs) * NS_PER_MS <= p.ReconnectLimitNs()
       && 0 <= first.wallNs - previous.wallNs <= p.ReconnectLimitNs()
       && 0 <= first.monoNs - previous.monoNs <= p.ReconnectLimitNs()
       && first.wallNs >= r.gapWallNs.value && first.monoNs >= r.gapMonoNs.value
       && first.sequence > previous.sequence
       && CurrentReasons(p, r.first, Spot, first.wallNs, first.monoNs) == []
  }

  ghost predicate RecoveryOk(r: SpotReconnect, p: Policy, lastGaps: map<Feed, GapMarker>, gapCount: int,
                             current: map<Feed, PriceEvent>, last: Option<PriceEvent>) {
    && 1 <= r.gapOrdinal <= gapCount
    && (r.previous.Some? ==> Known(r.previous.value, Spot, last))
    && (r.first.Some? ==> Known(r.first.value, Spot, last))
    && (r.status != Cleared ==> Held(r, p, lastGaps))
    && (r.status == Waiting ==> r.first.None? && Spot !in current)
    && (r.status == Retained ==> Resumed(r, p))
  }

  /**
   Everything but the resumed spot being current, with `last` as the newest event. A
   latched fault voids the reconnect evidence: such an engine never prices again.
   */
  ghost predicate InvAt(s: State, last: Option<PriceEvent>) {
    && HistoryOk(s.history) && CurrentOk(s.current, last) && GapsOk(s.lastGaps, s.gapCount)
    && s.policy.Valid()
    && (s.fault.None? && s.reconnect.Some? ==>
          RecoveryOk(s.reconnect.value, s.policy, s.lastGaps, s.gapCount, s.current, last))
    && (s.lastEvent.Some? ==> s.lastEvent.value.sequence >= 1)
  }

  predicate Settled(s: State) {
    s.fault.None? && s.reconnect.Some? && s.reconnect.value.status == Retained ==>
      Spot in s.current && s.reconnect.value.first.Some?
      && s.current[Spot].sequence >= s.reconnect.value.first.value.sequence
  }

  ghost predicate Inv(s: State) {
    InvAt(s, s.lastEvent) && Settled(s)
  }

  // ---------------------------------------------------------------- gaps

  lemma GapKeepsInv(s: State, feed: Feed, reason: string, wall: Option<int>, mono: Option<int>)
    requires Inv(s)
    ensures Inv(RecordGap(s, feed, reason, wall, mono).state)
  {
    hide GapOutOfOrder, TransportGap, CurrentReasons, Resumed, HistoryOk, Known;
    var after := RecordGap(s, feed, reason, wall, mono).state;
    GapMarkersStay(s, feed, reason);
    WithoutKeepsHistory(s.history, feed);
    assert CurrentOk(after.current, after.lastEvent);
    NewRecoveryOk(s, wall, mono);
  }

  lemma WithoutKeepsHistory(h: History, feed: Feed)
    requires HistoryOk(h)
    ensures HistoryOk(Without(h, feed))
  {
  }

  lemma GapMarkersStay(s: State, feed: Feed, reason: string)
    requires GapsOk(s.lastGaps, s.gapCount) && (s.lastEvent.Some? ==> s.lastEvent.value.sequence >= 1)
    ensures var counted := CountGap(s, feed, reason); GapsOk(counted.lastGaps, counted.gapCount)
  {
  }

  /** The evidence a transport gap opens: waiting only on a fresh current spot. */
  lemma NewRecoveryOk(s: State, wall: Option<int>, mono: Option<int>)
    requires CurrentOk(s.current, s.lastEvent) && s.gapCount >= 0 && s.policy.Valid()
    ensures var counted := CountGap(s, Spot, CONNECTION_END);
            var verdict := TransportGap(s, wall, mono);
            RecoveryOk(SpotReconnect(counted.gapCount, wall, mono, s.Current(Spot), None, verdict.0, verdict.1),
                       s.policy, counted.lastGaps, counted.gapCount, s.current - {Spot}, s.lastEvent)
    ensures TransportGap(s, wall, mono).0 != Retained
  {
    hide IsFrontier;
  }

  lemma HardLossKeepsInv(s: State, reason: string)
    requires Inv(s) && reason != CONNECTION_END
    ensures Inv(HardLoss(s, reason))
  {
    hide Inv;
    GapKeepsInv(s, Spot, reason, None, None);
    GapKeepsInv(RecordGap(s, Spot, reason, None, None).state, Twap, reason, None, None);
  }

  // ---------------------------------------------------------------- acceptance

  lemma LaterLast(s: State, e: PriceEvent)
    requires InvAt(s, s.lastEvent) && (s.lastEvent.Some? ==> NotAfter(s.lastEvent.value, e))
    ensures InvAt(s, Some(e))
  {
  }

  predicate Newer(s: State, e: PriceEvent) {
    s.lastEvent.Some? ==> NotAfter(s.lastEvent.value, e) && s.lastEvent.value.sequence < e.sequence
  }

  /** A rejected first spot leaves cleared evidence. */
  lemma ClearKeepsInv(s: State, reason: RecoveryReason, event: Option<PriceEvent>, last: Option<PriceEvent>)
    requires InvAt(s, last) && s.reconnect.Some? && (event.Some? ==> Known(event.value, Spot, last))
    ensures InvAt(ClearReconnect(s, reason, event), last) && Settled(ClearReconnect(s, reason, event))
  {
    hide CurrentReasons;
    WithoutKeepsHistory(s.history, Spot);
  }

  datatype Resolution = Untouched | Misordered | Rejected(reason: RecoveryReason) | Resumption

  /** A fresh spot that advanced the source within the reconnect limit of the spot before the gap. */
  predicate Resumes(s: State, e: PriceEvent) {
    && e.feed == Spot && WaitingForSpot(s)
    && e.wallNs >= s.reconnect.value.gapWallNs.value && e.monoNs >= s.reconnect.value.gapMonoNs.value
    && CurrentReasons(s.policy, Some(e), Spot, e.wallNs, e.monoNs) == []
    && var previous := s.reconnect.value.previous.value;
       && 0 < (e.sourceMs - previous.sourceMs) * NS_PER_MS <= s.policy.ReconnectLimitNs()
       && e.wallNs - previous.wallNs <= s.policy.ReconnectLimitNs()
       && e.monoNs - previous.monoNs <= s.policy.ReconnectLimitNs()
  }

  /** The four ways an event meets a pending reconnect. */
  lemma ResolveCases(s: State, e: PriceEvent) returns (r: Resolution)
    ensures match r
            case Untouched => ResolveReconnect(s, e) == Outcome(s, false) && (e.feed != Spot || !WaitingForSpot(s))
            case Misordered => ResolveReconnect(s, e) == Outcome(s.(fault := Some(GapOrder)), true)
            case Rejected(reason) =>
              && e.feed == Spot && WaitingForSpot(s)
              && ResolveReconnect(s, e) == Outcome(ClearReconnect(s, reason, Some(e)), false)
            case Resumption =>
              && Resumes(s, e)
              && ResolveReconnect(s, e)
                 == Outcome(s.(reconnect := Some(s.reconnect.value.(first := Some(e), status := Retained,
                                                                    reason := BoundedCarryEstimates))), false)
  {
    hide CurrentReasons, ClearReconnect;
    if e.feed != Spot || !WaitingForSpot(s) { return Untouched; }
    if e.wallNs < s.reconnect.value.gapWallNs.value || e.monoNs < s.reconnect.value.gapMonoNs.value {
      return Misordered;
    }
    var previous := s.reconnect.value.previous.value;
    var invalid := CurrentReasons(s.policy, Some(e), Spot, e.wallNs, e.monoNs);
    var delta := Max((e.sourceMs - previous.sourceMs) * NS_PER_MS,
                     Max(e.wallNs - previous.wallNs, e.monoNs - previous.monoNs));
    r := if invalid != [] then Rejected(PostGapInvalid(invalid[0]))
         else if e.sourceMs <= previous.sourceMs then Rejected(SourceNotAdvanced)
         else if delta > s.policy.ReconnectLimitNs() then Rejected(ReconnectLimitExceeded)
         else Resumption;
  }

  lemma ResumptionKeepsInv(s: State, e: PriceEvent, after: State)
    requires Inv(s) && e.feed == Spot && e.Valid() && e.sequence >= 1 && Newer(s, e) && InvAt(s, Some(e))
    requires Resumes(s, e)
    requires after == s.(reconnect := Some(s.reconnect.value.(first := Some(e), status := Retained,
                                                              reason := BoundedCarryEstimates)))
    ensures InvAt(after, Some(e))
  {
    hide CurrentReasons, HistoryOk, GapsOk;
  }

  lemma CurrentIsOlder(s: State, e: PriceEvent)
    requires Inv(s) && Newer(s, e)
    ensures forall f :: f in s.current ==> s.current[f].sequence < e.sequence
  {
    hide RecoveryOk, HistoryOk, GapsOk;
  }

  lemma ResolveKeepsInv(s: State, e: PriceEvent)
    requires Inv(s) && e.Valid() && e.sequence >= 1 && Newer(s, e)
    ensures var resolved := ResolveReconnect(s, e);
            && InvAt(resolved.state, Some(e))
            && (e.feed == Twap ==> Settled(resolved.state))
            && (resolved.raised ==> Inv(resolved.state))
            && (forall f :: f in resolved.state.current ==> resolved.state.current[f].sequence < e.sequence)
  {
    LaterLast(s, e);
    CurrentIsOlder(s, e);
    FaultKeepsInv(s, GapOrder);
    hide InvAt, ResolveReconnect;
    var r := ResolveCases(s, e);
    match r
    case Untouched =>
    case Misordered =>
      LaterLast(s.(fault := Some(GapOrder)), e);
    case Rejected(reason) =>
      ClearKeepsInv(s, reason, Some(e), Some(e));
    case Resumption =>
      ResumptionKeepsInv(s, e, ResolveReconnect(s, e).state);
  }

  lemma NoteTwapShape(s: State, e: PriceEvent)
    ensures var noted := NoteTwap(s, e);
            noted == s.(conflicts := noted.conflicts, highWater := noted.highWater, regressed := noted.regressed)
  {
    hide ConflictsAfter;
  }

  lemma EnteredShape(s: State, e: PriceEvent)
    ensures var entered := Entered(s, e);
            && entered.current == s.current[e.feed := e] && entered.history == s.history[Key(e.feed, e.sourceMs) := e]
            && entered.reconnect == s.reconnect && entered.lastEvent == Some(e) && entered.policy == s.policy
            && entered.fault == s.fault && entered.lastGaps == s.lastGaps && entered.gapCount == s.gapCount
  {
    hide NoteTwap;
    NoteTwapShape(s, e);
  }

  lemma EnteredKeepsInv(s: State, e: PriceEvent)
    requires InvAt(s, Some(e)) && e.Valid() && e.sequence >= 1
    requires forall f :: f in s.current ==> s.current[f].sequence < e.sequence
    requires e.feed == Twap ==> Settled(s)
    requires s.fault.None? && s.reconnect.Some? && s.reconnect.value.status == Waiting ==> e.feed == Twap
    ensures Inv(Entered(s, e))
  {
    hide CurrentReasons, Held, GapsOk, Entered;
    EnteredShape(s, e);
  }

  lemma PruneKeepsInv(s: State, wallMs: int)
    requires Inv(s)
    ensures Inv(Prune(s, wallMs))
  {
    hide RecoveryOk, CurrentOk, GapsOk;
  }

  lemma ReinsertKeepsInv(s: State, e: PriceEvent)
    requires Inv(s) && e.Valid() && e.sequence >= 1 && s.lastEvent == Some(e) && Spot !in s.current
             && Twap !in s.current
    requires s.reconnect.Some? ==> s.reconnect.value.status == Cleared
    ensures Inv(Insert(s, e))
  {
    hide GapsOk;
  }

  lemma HardLossShape(s: State, reason: string)
    requires reason != CONNECTION_END
    ensures var after := HardLoss(s, reason);
            && after.lastEvent == s.lastEvent && Spot !in after.current && Twap !in after.current
            && (after.reconnect.Some? ==> after.reconnect.value.status == Cleared)
  {
    hide Without;
  }

  lemma ResolvedIsNotWaiting(s: State, e: PriceEvent)
    requires Inv(s) && s.fault.None? && !ResolveReconnect(s, e).raised && e.feed == Spot
    ensures var r := ResolveReconnect(s, e).state.reconnect; r.Some? ==> r.value.status != Waiting
  {
    hide ResolveReconnect, CurrentReasons;
    var r := ResolveCases(s, e);
  }

  lemma ResolveKeepsFault(s: State, e: PriceEvent)
    ensures s.fault.Some? ==> ResolveReconnect(s, e).state.fault.Some?
  {
    hide CurrentReasons;
  }

  lemma AdmitKeepsInv(s: State, e: PriceEvent)
    requires InvAt(s, Some(e)) && e.Valid() && e.sequence >= 1
    requires forall f :: f in s.current ==> s.current[f].sequence < e.sequence
    requires e.feed == Twap ==> Settled(s)
    requires s.fault.None? && s.reconnect.Some? && s.reconnect.value.status == Waiting ==> e.feed == Twap
    ensures Inv(Admit(s, e, Bounded))
  {
    hide InvAt, Settled, Prune, Entered, HardLoss;
    EnteredKeepsInv(s, e);
    var kept := Prune(Entered(s, e), e.ReceivedMs());
    PruneKeepsInv(Entered(s, e), e.ReceivedMs());
    KeptLastEvent(s, e);
    HardLossKeepsInv(kept, "capacity");
    HardLossShape(kept, "capacity");
    ReinsertKeepsInv(HardLoss(kept, "capacity"), e);
  }

  lemma KeptLastEvent(s: State, e: PriceEvent)
    ensures Prune(Entered(s, e), e.ReceivedMs()).lastEvent == Some(e)
  {
    hide PrunedHistory, ConflictsAfter;
  }

  lemma BridgeKeepsInv(s: State, e: PriceEvent)
    requires Inv(s)
    ensures Inv(BridgeSequence(s, e)) && BridgeSequence(s, e).lastEvent == s.lastEvent
  {
    hide Inv;
    HardLossKeepsInv(s, "sequence_gap");
    HardLossShape(s, "sequence_gap");
  }

  lemma AcceptKeepsInv(s: State, e: PriceEvent)
    requires Inv(s) && e.Valid() && e.sequence >= 1
    ensures Inv(AcceptOutcome(s, e, Bounded).0)
  {
    hide InvAt, Settled, Admit, BridgeSequence, ResolveReconnect;
    var bridged, resolved := AcceptCases(s, e, Bounded);
    if AcceptOutcome(s, e, Bounded).1 == Ignored {
      return;
    }
    FaultKeepsInv(s, AcceptanceOrder);
    FaultKeepsInv(s, BackloggedEvent);
    if !AcceptanceRegressed(s, e) && !Backlogged(s, e) {
      BridgeKeepsInv(s, e);
      ResolveKeepsInv(bridged, e);
      if !resolved.raised {
        if e.feed == Spot && bridged.fault.None? { ResolvedIsNotWaiting(bridged, e); }
        ResolveKeepsFault(bridged, e);
        AdmitKeepsInv(resolved.state, e);
      }
    }
  }

  lemma FaultKeepsInv(s: State, fault: Reason)
    requires Inv(s)
    ensures Inv(s.(fault := Some(fault)))
  {
    hide RecoveryOk, CurrentOk, GapsOk, HistoryOk;
  }

  // ---------------------------------------------------------------- snapshots and runs

  lemma SnapshotKeepsInv(s: State, wall: int, mono: int)
    requires Inv(s)
    ensures Inv(s.(lastDecision := Some((wall, mono)))) && Inv(SnapshotState(s, wall, mono, Bounded))
  {
    hide RecoveryOk, CurrentOk, GapsOk, HistoryOk, PrunedHistory;
    var stamped := s.(lastDecision := Some((wall, mono)));
    if WaitingForSpot(stamped) { ClearKeepsInv(stamped, ReconnectTimeout, None, stamped.lastEvent); }
    PruneKeepsInv(ExpireReconnect(stamped, wall, mono), wall / NS_PER_MS);
  }

  lemma ApplyKeepsInv(s: State, op: Op)
    requires Inv(s) && ValidOp(op) && (op.AcceptOp? ==> op.event.sequence >= 1)
    ensures Inv(Apply(s, op, Bounded))
  {
    hide Inv, SnapshotState, Decide;
    match op
    case AcceptOp(e) => AcceptKeepsInv(s, e);
    case GapOp(feed, reason, wall, mono) => GapKeepsInv(s, feed, reason, wall, mono);
    case SnapshotOp(_, wall, mono) => SnapshotKeepsInv(s, wall, mono);
  }

  /** In every run with positive sequences, inputs, gap markers and reconnect evidence stay well formed. */
  lemma {:induction false} RunKeepsInv(policy: Policy, ops: seq<Op>)
    requires policy.Valid()
    requires forall i :: 0 <= i < |ops| ==> ValidOp(ops[i]) && (ops[i].AcceptOp? ==> ops[i].event.sequence >= 1)
    ensures Inv(Run(policy, ops, Bounded))
  {
    if ops != [] {
      hide Inv, Apply;
      RunKeepsInv(policy, ops[..|ops| - 1]);
      ApplyKeepsInv(Run(policy, ops[..|ops| - 1], Bounded), ops[|ops| - 1]);
    }
    assert ops == [] ==> Inv(Run(policy, ops, Bounded));
  }
}
