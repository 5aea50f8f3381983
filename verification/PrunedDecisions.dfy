/**
 Prune transparency for whole runs: the decisions of the pruning engine agree with
 those of the engine that never forgets, and for exactly which policies that holds
 whatever the feeds deliver.
 */
module PrunedDecisions {
  import opened Core
  import opened GhostTwap
  import opened EngineRuns
  import opened PruneTransparency

  // ---------------------------------------------------------------- agreement of snapshots

  /** Equal value, input and category; the age of a missing slot's too-old predecessor is not compared. */
  predicate SlotAgrees(x: Slot, y: Slot) {
    && x.stamp == y.stamp && x.value == y.value && x.input == y.input && x.category == y.category
    && (x.category != MissingSlot ==> x.carryAgeMs == y.carryAgeMs)
  }

  predicate Agree(x: Decision, y: Decision) {
    && |x.slots| == |y.slots| && (forall i | 0 <= i < |x.slots| :: SlotAgrees(x.slots[i], y.slots[i]))
    && x.forecasts == y.forecasts && x.reasons == y.reasons
    && x.validUntilNs == y.validUntilNs && x.spot == y.spot && x.twap == y.twap
  }

  ghost predicate AllSpotsCausal(h: History) {
    forall k :: k in h && k.feed == Spot ==> h[k].Causal()
  }

  /** The shortest history that reaches past every seed a future-dated spot could displace. */
  predicate LongHistory(p: Policy) {
    p.historyMs >= 60_000 + p.sourceMaxAgeMs + p.maxCarryMs / 1000 * 1000
  }

  /** No spot lies in the carry window just below the cut. */
  ghost predicate NoneCarried(h: History, cut: int, carry: int) {
    forall k :: k in h && k.feed == Spot && cut - carry <= k.stamp ==> k.stamp >= cut
  }

  /** At the decision, pruning may not have cost anything a slot of a fresh anchor asks for. */
  ghost predicate Safe(s: State, cut: int) {
    LongHistory(s.policy) || AllSpotsCausal(s.history) || NoneCarried(s.history, cut, s.policy.maxCarryMs)
  }

  /** A spot below the cut is no newer than the newest causal one that a slot still carries. */
  lemma NoneBetween(u: State, cut: int, stamp: int, m: int, other: Key)
    requires Safe(u, cut) && u.policy.Valid() && cut <= stamp && m % 1000 == 0 && stamp % 1000 == 0
    requires Key(Spot, m) in u.history && m < cut && m <= stamp && stamp - m <= u.policy.maxCarryMs
    requires forall t :: t in CausalStamps(u.history) && t <= stamp ==> t <= m
    requires cut + u.policy.historyMs - u.policy.sourceMaxAgeMs - 61_000 <= stamp
    requires other in u.history && other.feed == Spot && other.stamp < cut && other.stamp % 1000 == 0
    ensures other.stamp <= m
  {
    assert cut - u.policy.maxCarryMs <= Key(Spot, m).stamp < cut;
    if AllSpotsCausal(u.history) { assert other.stamp in CausalStamps(u.history); }
  }

  /** A causal stamp below the cut that a slot still carries is the seed itself. */
  lemma CarriedIsSeed(u: State, cut: int, stamp: int, m: int)
    requires WellKeyed(u.history) && Safe(u, cut) && u.policy.Valid()
    requires m in CausalStamps(u.history) && m < cut && m <= stamp && stamp - m <= u.policy.maxCarryMs
    requires forall t :: t in CausalStamps(u.history) && t <= stamp ==> t <= m
    requires cut + u.policy.historyMs - u.policy.sourceMaxAgeMs - 61_000 <= stamp && stamp % 1000 == 0
    requires cut <= stamp
    ensures IsSeed(u.history, Key(Spot, m), cut, u.policy.maxCarryMs)
  {
    hide Safe;
    assert Key(Spot, m) in u.history && m % 1000 == 0;
    forall other | other in u.history && other.feed == Spot && other.stamp < cut ensures other.stamp <= m {
      NoneBetween(u, cut, stamp, m, other);
    }
  }

  /** Whether a slot at `stamp` can use what the full history would give it, and `m` is its newest candidate. */
  ghost predicate NewestBelow(h: History, stamp: int, m: int) {
    m in CausalStamps(h) && m <= stamp && forall t :: t in CausalStamps(h) && t <= stamp ==> t <= m
  }

  lemma PredecessorIs(h: History, stamp: int, m: int)
    requires NewestBelow(h, stamp, m)
    ensures Key(Spot, m) in h && Predecessor(h, stamp) == Some(h[Key(Spot, m)])
  {
    var below := set t | t in CausalStamps(h) && t <= stamp;
    assert m in below && MaxOf(below) == m;
  }

  lemma PredecessorCases(h: History, stamp: int) returns (m: Option<int>)
    ensures m.None? ==> Predecessor(h, stamp).None? && forall t :: t in CausalStamps(h) ==> t > stamp
    ensures m.Some? ==> NewestBelow(h, stamp, m.value)
  {
    var below := set t | t in CausalStamps(h) && t <= stamp;
    if below == {} {
      forall t | t in CausalStamps(h)
        ensures t > stamp
      {
        assert t !in below;
      }
      m := None;
    } else {
      assert MaxOf(below) in below;
      forall t | t in CausalStamps(h) && t <= stamp
        ensures t <= MaxOf(below)
      {
        assert t in below;
      }
      m := Some(MaxOf(below));
    }
  }

  /** The two histories offer a slot the same event, or each offers none young enough. */
  ghost predicate SameOffer(x: Option<PriceEvent>, y: Option<PriceEvent>, stamp: int, carry: int) {
    || x == y
    || ((x.None? || stamp - x.value.sourceMs > carry) && y.Some? && stamp - y.value.sourceMs > carry)
  }

  lemma KeptIsOffered(hb: History, hu: History, stamp: int, m: int, cut: int, carry: int)
    requires Covers(hb, hu, cut, carry) && cut <= stamp
    requires NewestBelow(hu, stamp, m) && Key(Spot, m) in hb
    ensures Predecessor(hb, stamp) == Predecessor(hu, stamp)
    ensures CausalStamps(hb) != {} && CausalStamps(hu) != {}
    ensures MaxOf(CausalStamps(hb)) == MaxOf(CausalStamps(hu))
  {
    SameCausalStamps(hb, hu, cut, carry);
    hide Predecessor;
    assert hb[Key(Spot, m)] == hu[Key(Spot, m)];
    assert Key(Spot, m) in hu && hu[Key(Spot, m)].Causal();
    assert m in CausalStamps(hb);
    PredecessorIs(hu, stamp, m);
    PredecessorIs(hb, stamp, m);
    SameNewest(hb, hu, cut, stamp, m);
  }

  lemma DroppedIsTooOld(hb: History, hu: History, stamp: int, m: int, cut: int, carry: int)
    requires WellKeyed(hu) && Covers(hb, hu, cut, carry)
    requires NewestBelow(hu, stamp, m) && stamp - m > carry
    ensures SameOffer(Predecessor(hb, stamp), Predecessor(hu, stamp), stamp, carry)
    ensures Predecessor(hb, stamp).Some? ==> stamp - Predecessor(hb, stamp).value.sourceMs > carry
  {
    SameCausalStamps(hb, hu, cut, carry);
    hide Predecessor;
    PredecessorIs(hu, stamp, m);
    var n := PredecessorCases(hb, stamp);
    if n.Some? {
      PredecessorIs(hb, stamp, n.value);
      assert hb[Key(Spot, n.value)] == hu[Key(Spot, n.value)];
    }
  }

  lemma SamePredecessor(hb: History, u: State, cut: int, stamp: int)
    requires WellKeyed(u.history) && Covers(hb, u.history, cut, u.policy.maxCarryMs) && Safe(u, cut)
             && u.policy.Valid()
    requires cut + u.policy.historyMs - u.policy.sourceMaxAgeMs - 61_000 <= stamp && stamp % 1000 == 0
    requires cut <= stamp
    ensures var x, y := Predecessor(hb, stamp), Predecessor(u.history, stamp);
            && SameOffer(x, y, stamp, u.policy.maxCarryMs)
            && (x.Some? && stamp - x.value.sourceMs <= u.policy.maxCarryMs
                ==> CausalStamps(hb) != {} && CausalStamps(u.history) != {}
                    && MaxOf(CausalStamps(hb)) == MaxOf(CausalStamps(u.history)))
  {
    var carry := u.policy.maxCarryMs;
    var m := PredecessorCases(u.history, stamp);
    if m.None? {
      SameCausalStamps(hb, u.history, cut, carry);
      var n := PredecessorCases(hb, stamp);
      return;
    }
    if m.value < cut && stamp - m.value <= carry {
      CarriedIsSeed(u, cut, stamp, m.value);
    }
    hide Predecessor, Safe;
    if m.value >= cut || stamp - m.value <= carry {
      PredecessorIs(u.history, stamp, m.value);
      KeptIsOffered(hb, u.history, stamp, m.value, cut, carry);
      PredecessorStamps(hb, stamp);
    } else {
      DroppedIsTooOld(hb, u.history, stamp, m.value, cut, carry);
    }
  }

  lemma PredecessorStamps(h: History, stamp: int)
    ensures Predecessor(h, stamp).Some? ==> CausalStamps(h) != {}
  {
  }

  lemma SameNewest(hb: History, hu: History, cut: int, stamp: int, m: int)
    requires CausalStamps(hb) <= CausalStamps(hu) && cut <= stamp
    requires forall t :: t >= cut ==> (t in CausalStamps(hb) <==> t in CausalStamps(hu))
    requires m in CausalStamps(hb) && m <= stamp
    requires forall t :: t in CausalStamps(hu) && t <= stamp ==> t <= m
    ensures CausalStamps(hb) != {} && CausalStamps(hu) != {}
    ensures MaxOf(CausalStamps(hb)) == MaxOf(CausalStamps(hu))
  {
    var top := MaxOf(CausalStamps(hu));
    if top < cut { assert top == m; }
  }

  lemma SlotsAgree(b: State, u: State, cut: int, stamp: int, wall: int, mono: int)
    requires Related(b, u, cut) && Safe(u, cut) && u.policy.Valid()
    requires cut + u.policy.historyMs - u.policy.sourceMaxAgeMs - 61_000 <= stamp && stamp % 1000 == 0
    requires cut <= stamp
    ensures SlotAgrees(SlotAt(b, stamp, wall, mono), SlotAt(u, stamp, wall, mono))
  {
    assert WellKeyed(u.history) && Covers(b.history, u.history, cut, u.policy.maxCarryMs);
    hide Kept, WellKeyed, Covers, Predecessor, CausalStamps, CurrentReasons, Safe;
    SamePredecessor(b.history, u, cut, stamp);
    PredecessorStamps(u.history, stamp);
  }

  lemma {:induction false} SameCounts(xs: seq<Slot>, ys: seq<Slot>)
    requires |xs| == |ys| && forall i | 0 <= i < |xs| :: SlotAgrees(xs[i], ys[i])
    ensures SumOf(xs) == SumOf(ys)
    ensures forall c :: CountOf(xs, c) == CountOf(ys, c)
  {
    if xs != [] { SameCounts(xs[..|xs| - 1], ys[..|ys| - 1]); }
  }

  /** A fresh anchor's stamp is no older than the source age cap, in whole milliseconds. */
  lemma FreshAnchorIsRecent(p: Policy, e: PriceEvent, wall: int, mono: int)
    requires CurrentReasons(p, Some(e), Twap, wall, mono) == [] && wall >= 0
    ensures e.sourceMs >= wall / NS_PER_MS - p.sourceMaxAgeMs
  {
  }

  lemma SameReasons(b: State, u: State, cut: int, wall: int, mono: int)
    requires Related(b, u, cut) && u.policy.Valid() && wall >= 0
    requires cut == wall / NS_PER_MS - u.policy.historyMs
    requires GlobalReasons(b, wall, mono) == [] || GlobalReasons(u, wall, mono) == []
    ensures GlobalReasons(b, wall, mono) == GlobalReasons(u, wall, mono) == []
    ensures u.Current(Twap).Some? && u.Current(Twap).value.sourceMs >= wall / NS_PER_MS - u.policy.sourceMaxAgeMs
  {
    if GlobalReasons(b, wall, mono) == [] {
      NoReasonsMeansClean(b, wall, mono);
    } else {
      NoReasonsMeansClean(u, wall, mono);
    }
    hide CurrentReasons, Covers, WellKeyed, ConflictsKeyed;
    FreshAnchorIsRecent(u.policy, u.Current(Twap).value, wall, mono);
    assert u.Current(Twap).value.sourceMs >= cut;
  }

  lemma ForecastAgrees(b: State, u: State, cut: int, xs: seq<Slot>, ys: seq<Slot>, horizon: int, wall: int)
    requires Related(b, u, cut) && 1 <= horizon <= 30 && |xs| == |ys| == 89
    requires u.Current(Twap).Some? && u.Current(Twap).value.sourceMs >= cut
    requires forall i | 0 <= i < 89 :: SlotAgrees(xs[i], ys[i])
    ensures ForecastFor(b, xs, [], horizon, wall) == ForecastFor(u, ys, [], horizon, wall)
  {
    SameCounts(Selected(xs, horizon), Selected(ys, horizon));
    var target := Key(Twap, u.Current(Twap).value.sourceMs + horizon * 1000);
    assert target in b.history <==> target in u.history;
  }

  lemma DecisionsAgree(b: State, u: State, id: int, wall: int, mono: int)
    requires u.policy.Valid() && wall >= 0 && Related(b, u, wall / NS_PER_MS - u.policy.historyMs)
    requires GlobalReasons(b, wall, mono) == [] || GlobalReasons(u, wall, mono) == []
             ==> Safe(u, wall / NS_PER_MS - u.policy.historyMs)
    requires Twap in u.current ==> u.current[Twap].sourceMs % 1000 == 0
    ensures Decide(b, id, wall, mono).reasons == [] <==> Decide(u, id, wall, mono).reasons == []
    ensures Decide(b, id, wall, mono).reasons == [] ==> Agree(Decide(b, id, wall, mono), Decide(u, id, wall, mono))
  {
    hide ForecastFor, GlobalReasons, SlotAt, Kept, CurrentReasons, Safe;
    var cut := wall / NS_PER_MS - u.policy.historyMs;
    var x, y := Decide(b, id, wall, mono), Decide(u, id, wall, mono);
    if x.reasons == [] || y.reasons == [] {
      SameReasons(b, u, cut, wall, mono);
      var anchor := u.Current(Twap).value;
      forall i | 0 <= i < 89
        ensures SlotAgrees(x.slots[i], y.slots[i])
      {
        SlotsAgree(b, u, cut, anchor.sourceMs + (i - 61) * 1000, wall, mono);
      }
      forall i | 0 <= i < 6
        ensures x.forecasts[i] == y.forecasts[i]
      {
        ForecastAgrees(b, u, cut, x.slots, y.slots, HORIZONS[i], wall);
      }
    }
  }

  // ---------------------------------------------------------------- whole runs

  predicate ValidRun(policy: Policy, ops: seq<Op>) {
    if ops == [] then true
    else
      var front, last := ops[..|ops| - 1], ops[|ops| - 1];
      && ValidRun(policy, front) && ValidOp(last)
      && (last.AcceptOp? ==> !LosesCapacity(Run(policy, front, Bounded), last.event))
  }

  predicate NoFutureSpots(ops: seq<Op>) {
    forall i | 0 <= i < |ops| :: ops[i].AcceptOp? && ops[i].event.feed == Spot ==> ops[i].event.Causal()
  }

  lemma SnapshotKeepsRelation(b: State, u: State, cut: int, wall: int, mono: int)
    requires Related(b, u, cut) && u.policy.Valid() && wall >= 0 && !BehindBoundary(u, wall, mono)
    ensures Related(SnapshotState(b, wall, mono, Bounded), SnapshotState(u, wall, mono, Unbounded),
                    wall / NS_PER_MS - u.policy.historyMs)
    ensures SnapshotState(u, wall, mono, Unbounded).policy == u.policy
  {
    hide Kept, ClearReconnect, PrunedHistory;
    CutIsReached(u, cut, wall);
    var b1, u1 := b.(lastDecision := Some((wall, mono))), u.(lastDecision := Some((wall, mono)));
    StampKeepsRelation(b, u, cut, wall, mono);
    if WaitingForSpot(u1) { ClearKeepsRelation(b1, u1, cut, ReconnectTimeout, None); }
    var b2, u2 := ExpireReconnect(b1, wall, mono), ExpireReconnect(u1, wall, mono);
    assert Related(b2, u2, cut);
    ExpireFrame(u1, wall, mono);
    PruneKeepsRelation(b2, u2, cut, wall / NS_PER_MS);
  }

  lemma StampKeepsRelation(b: State, u: State, cut: int, wall: int, mono: int)
    requires Related(b, u, cut) && u.policy.Valid() && wall >= 0 && !BehindBoundary(u, wall, mono)
    ensures Related(b.(lastDecision := Some((wall, mono))), u.(lastDecision := Some((wall, mono))), cut)
  {
    hide Kept;
  }

  lemma ExpireFrame(s: State, wall: int, mono: int)
    ensures ExpireReconnect(s, wall, mono).policy == s.policy
    ensures ExpireReconnect(s, wall, mono).lastDecision == s.lastDecision
  {
  }

  lemma ApplyKeepsRelation(b: State, u: State, cut: int, op: Op) returns (later: int)
    requires Related(b, u, cut) && u.policy.Valid() && ValidOp(op)
    requires op.AcceptOp? ==> !LosesCapacity(b, op.event)
    ensures Related(Apply(b, op, Bounded), Apply(u, op, Unbounded), later)
  {
    hide Kept, LosesCapacity, SnapshotState, Decide;
    match op
    case AcceptOp(e) =>
      later := AcceptKeepsRelation(b, u, cut, e);
    case GapOp(feed, reason, wall, mono) =>
      GapKeepsRelation(b, u, cut, feed, reason, wall, mono);
      later := cut;
    case SnapshotOp(id, wall, mono) =>
      if BehindBoundary(u, wall, mono) {
        later := cut;
      } else if BeforeWaitingGap(u, wall, mono) {
        StampKeepsRelation(b, u, cut, wall, mono);
        later := cut;
      } else {
        SnapshotKeepsRelation(b, u, cut, wall, mono);
        later := wall / NS_PER_MS - u.policy.historyMs;
      }
  }

  lemma {:induction false} RunsStayRelated(policy: Policy, ops: seq<Op>) returns (cut: int)
    requires policy.Valid() && ValidRun(policy, ops)
    ensures Related(Run(policy, ops, Bounded), Run(policy, ops, Unbounded), cut)
    ensures Run(policy, ops, Unbounded).policy == policy
  {
    PolicyIsFixed(policy, ops, Unbounded);
    if ops == [] {
      cut := -policy.historyMs;
    } else {
      hide Related, Apply;
      var front := ops[..|ops| - 1];
      PolicyIsFixed(policy, front, Unbounded);
      cut := RunsStayRelated(policy, front);
      cut := ApplyKeepsRelation(Run(policy, front, Bounded), Run(policy, front, Unbounded), cut, ops[|ops| - 1]);
    }
  }

  lemma HardLossFrame(s: State, reason: string)
    requires reason != CONNECTION_END
    ensures HardLoss(s, reason).policy == s.policy
  {
    hide Without;
  }

  lemma EnteredFrame(s: State, e: PriceEvent, mode: Mode)
    ensures PruneIn(Entered(s, e), e.ReceivedMs(), mode).policy == s.policy
  {
    hide PrunedHistory, ConflictsAfter;
  }

  lemma AdmitFrame(s: State, e: PriceEvent, mode: Mode)
    ensures Admit(s, e, mode).policy == s.policy
  {
    hide PruneIn, Entered, HardLoss;
    EnteredFrame(s, e, mode);
    HardLossFrame(PruneIn(Entered(s, e), e.ReceivedMs(), mode), "capacity");
  }

  lemma BridgeFrame(s: State, e: PriceEvent)
    ensures BridgeSequence(s, e).policy == s.policy
  {
    hide Without;
  }

  lemma SnapshotFrame(s: State, wall: int, mono: int, mode: Mode)
    ensures SnapshotState(s, wall, mono, mode).policy == s.policy
  {
    hide PrunedHistory;
  }

  lemma ApplyKeepsPolicy(s: State, op: Op, mode: Mode)
    ensures Apply(s, op, mode).policy == s.policy
  {
    hide SnapshotState, Decide, Admit, BridgeSequence, ResolveReconnect;
    match op
    case AcceptOp(e) =>
      var bridged, resolved := AcceptCases(s, e, mode);
      BridgeFrame(s, e);
      ResolveFrame(bridged, e);
      AdmitFrame(resolved.state, e, mode);
    case GapOp(_, _, _, _) =>
    case SnapshotOp(_, wall, mono) =>
      SnapshotFrame(s, wall, mono, mode);
  }

  lemma {:induction false} PolicyIsFixed(policy: Policy, ops: seq<Op>, mode: Mode)
    ensures Run(policy, ops, mode).policy == policy
  {
    if ops != [] {
      PolicyIsFixed(policy, ops[..|ops| - 1], mode);
      ApplyKeepsPolicy(Run(policy, ops[..|ops| - 1], mode), ops[|ops| - 1], mode);
    }
  }

  // ---------------------------------------------------------------- no spot was future-dated

  lemma EnteredSpotsCausal(s: State, e: PriceEvent)
    requires AllSpotsCausal(s.history) && (e.feed == Spot ==> e.Causal())
    ensures AllSpotsCausal(Entered(s, e).history)
  {
    hide ConflictsAfter;
  }

  lemma GapSpotsCausal(s: State, feed: Feed, reason: string, wall: Option<int>, mono: Option<int>)
    requires AllSpotsCausal(s.history)
    ensures AllSpotsCausal(RecordGap(s, feed, reason, wall, mono).state.history)
  {
    hide TransportGap, BehindBoundary;
  }

  lemma SnapshotSpotsCausal(s: State, wall: int, mono: int)
    requires AllSpotsCausal(s.history)
    ensures AllSpotsCausal(SnapshotState(s, wall, mono, Unbounded).history)
  {
  }

  lemma ApplyKeepsSpotsCausal(s: State, op: Op)
    requires AllSpotsCausal(s.history)
    requires op.AcceptOp? && op.event.feed == Spot ==> op.event.Causal()
    ensures AllSpotsCausal(Apply(s, op, Unbounded).history)
  {
    hide AllSpotsCausal, SnapshotState, Decide, Entered, Admit, BridgeSequence, ResolveReconnect;
    match op
    case AcceptOp(e) =>
      var bridged, resolved := AcceptCases(s, e, Unbounded);
      BridgeSpotsCausal(s, e);
      ResolveSpotsCausal(bridged, e);
      if AcceptOutcome(s, e, Unbounded).1 == Accepted {
        AdmitUnbounded(resolved.state, e);
        EnteredSpotsCausal(resolved.state, e);
      }
    case GapOp(feed, reason, wall, mono) =>
      GapSpotsCausal(s, feed, reason, wall, mono);
    case SnapshotOp(_, wall, mono) =>
      SnapshotSpotsCausal(s, wall, mono);
  }

  lemma BridgeSpotsCausal(s: State, e: PriceEvent)
    requires AllSpotsCausal(s.history)
    ensures AllSpotsCausal(BridgeSequence(s, e).history)
  {
  }

  lemma ResolveSpotsCausal(s: State, e: PriceEvent)
    requires AllSpotsCausal(s.history)
    ensures AllSpotsCausal(ResolveReconnect(s, e).state.history)
  {
    hide CurrentReasons;
  }

  lemma {:induction false} RunKeepsSpotsCausal(policy: Policy, ops: seq<Op>)
    requires NoFutureSpots(ops)
    ensures AllSpotsCausal(Run(policy, ops, Unbounded).history)
  {
    if ops != [] {
      hide AllSpotsCausal, Apply;
      RunKeepsSpotsCausal(policy, ops[..|ops| - 1]);
      ApplyKeepsSpotsCausal(Run(policy, ops[..|ops| - 1], Unbounded), ops[|ops| - 1]);
    }
    assert ops == [] ==> AllSpotsCausal(Run(policy, ops, Unbounded).history);
  }

  // ---------------------------------------------------------------- histories with no room for a seed

  /** Every current input is still in the history. */
  ghost predicate HoldsCurrent(s: State) {
    forall f :: f in s.current ==> s.current[f].feed == f && Key(f, s.current[f].sourceMs) in s.history
  }

  lemma ForgetHoldsCurrent(s: State, feed: Feed, retain: bool)
    requires HoldsCurrent(s)
    ensures HoldsCurrent(Forget(s, feed, retain))
  {
  }

  lemma GapHoldsCurrent(s: State, feed: Feed, reason: string, wall: Option<int>, mono: Option<int>)
    requires HoldsCurrent(s)
    ensures HoldsCurrent(RecordGap(s, feed, reason, wall, mono).state)
  {
    hide TransportGap, Forget, GapOutOfOrder, Recovery, Retains;
    if !GapOutOfOrder(s, feed, reason, wall, mono) {
      RecordGapIs(s, feed, reason, wall, mono);
      var counted := CountGap(s, feed, reason).(reconnect := Recovery(s, feed, reason, wall, mono));
      ForgetHoldsCurrent(counted, feed, Retains(s, feed, reason, wall, mono));
    }
  }

  lemma BridgeHoldsCurrent(s: State, e: PriceEvent)
    requires HoldsCurrent(s)
    ensures HoldsCurrent(BridgeSequence(s, e))
  {
    hide RecordGap, HoldsCurrent;
    GapHoldsCurrent(s, Spot, "sequence_gap", None, None);
    GapHoldsCurrent(RecordGap(s, Spot, "sequence_gap", None, None).state, Twap, "sequence_gap", None, None);
  }

  lemma ClearHoldsCurrent(s: State, reason: RecoveryReason, event: Option<PriceEvent>)
    requires HoldsCurrent(s) && s.reconnect.Some?
    ensures HoldsCurrent(ClearReconnect(s, reason, event))
  {
  }

  lemma ResolveHoldsCurrent(s: State, e: PriceEvent)
    requires HoldsCurrent(s)
    ensures HoldsCurrent(ResolveReconnect(s, e).state)
  {
    hide CurrentReasons, ClearReconnect;
    if WaitingForSpot(s) {
      var invalid := CurrentReasons(s.policy, Some(e), Spot, e.wallNs, e.monoNs);
      if invalid != [] { ClearHoldsCurrent(s, PostGapInvalid(invalid[0]), Some(e)); }
      ClearHoldsCurrent(s, SourceNotAdvanced, Some(e));
      ClearHoldsCurrent(s, ReconnectLimitExceeded, Some(e));
    }
  }

  lemma NoteKeepsEntries(s: State, e: PriceEvent)
    ensures NoteTwap(s, e).history == s.history && NoteTwap(s, e).current == s.current
  {
    hide ConflictsAfter;
  }

  lemma EnteredHoldsCurrent(s: State, e: PriceEvent)
    requires HoldsCurrent(s)
    ensures HoldsCurrent(Entered(s, e))
  {
    hide NoteTwap;
    NoteKeepsEntries(s, e);
  }

  lemma ExpireHoldsCurrent(s: State, wall: int, mono: int)
    requires HoldsCurrent(s)
    ensures HoldsCurrent(ExpireReconnect(s.(lastDecision := Some((wall, mono))), wall, mono))
  {
    hide ClearReconnect;
    var stamped := s.(lastDecision := Some((wall, mono)));
    if WaitingForSpot(stamped) { ClearHoldsCurrent(stamped, ReconnectTimeout, None); }
  }

  lemma ApplyHoldsCurrent(s: State, op: Op)
    requires HoldsCurrent(s)
    ensures HoldsCurrent(Apply(s, op, Unbounded))
  {
    hide HoldsCurrent, RecordGap, Entered, Admit, BridgeSequence, ResolveReconnect, Decide, ExpireReconnect;
    match op
    case AcceptOp(e) =>
      var bridged, resolved := AcceptCases(s, e, Unbounded);
      BridgeHoldsCurrent(s, e);
      ResolveHoldsCurrent(bridged, e);
      EnteredHoldsCurrent(resolved.state, e);
      AdmitUnbounded(resolved.state, e);
      SameHoldings(s, AcceptOutcome(s, e, Unbounded).0.fault);
    case GapOp(feed, reason, wall, mono) => GapHoldsCurrent(s, feed, reason, wall, mono);
    case SnapshotOp(_, wall, mono) => SnapshotHoldsCurrent(s, wall, mono);
  }

  lemma SameHoldings(s: State, fault: Option<Reason>)
    requires HoldsCurrent(s)
    ensures HoldsCurrent(s.(fault := fault))
  {
  }

  lemma SnapshotHoldsCurrent(s: State, wall: int, mono: int)
    requires HoldsCurrent(s)
    ensures HoldsCurrent(SnapshotState(s, wall, mono, Unbounded))
            && HoldsCurrent(s.(lastDecision := Some((wall, mono))))
  {
    hide ExpireReconnect;
    ExpireHoldsCurrent(s, wall, mono);
  }

  lemma {:induction false} RunHoldsCurrent(policy: Policy, ops: seq<Op>)
    ensures HoldsCurrent(Run(policy, ops, Unbounded))
  {
    if ops != [] {
      hide HoldsCurrent, Apply;
      RunHoldsCurrent(policy, ops[..|ops| - 1]);
      ApplyHoldsCurrent(Run(policy, ops[..|ops| - 1], Unbounded), ops[|ops| - 1]);
    }
    assert ops == [] ==> HoldsCurrent(Run(policy, ops, Unbounded));
  }

  // The history never outgrows the capacity in a run that sheds nothing on it.

  lemma FewerKeys(small: History, large: History)
    requires small.Keys <= large.Keys
    ensures |small| <= |large|
  {
    SubsetSize(small.Keys, large.Keys);
  }

  lemma GapShrinks(s: State, feed: Feed, reason: string, wall: Option<int>, mono: Option<int>)
    ensures RecordGap(s, feed, reason, wall, mono).state.history.Keys <= s.history.Keys
  {
    hide TransportGap, GapOutOfOrder;
  }

  lemma BridgeShrinks(s: State, e: PriceEvent)
    ensures BridgeSequence(s, e).history.Keys <= s.history.Keys
  {
    hide RecordGap;
    GapShrinks(s, Spot, "sequence_gap", None, None);
    GapShrinks(RecordGap(s, Spot, "sequence_gap", None, None).state, Twap, "sequence_gap", None, None);
  }

  lemma ResolveShrinks(s: State, e: PriceEvent)
    ensures ResolveReconnect(s, e).state.history.Keys <= s.history.Keys
  {
    hide CurrentReasons;
  }

  lemma SnapshotShrinks(s: State, wall: int, mono: int)
    ensures SnapshotState(s, wall, mono, Bounded).history.Keys <= s.history.Keys
  {
  }

  lemma AcceptFits(s: State, e: PriceEvent)
    requires |s.history| <= s.policy.maxEvents && !LosesCapacity(s, e)
    ensures |AcceptOutcome(s, e, Bounded).0.history| <= s.policy.maxEvents
  {
    hide AcceptOutcome, BridgeSequence, ResolveReconnect, Prune, Entered, Admit;
    var bridged, resolved := AcceptCases(s, e, Bounded);
    if AcceptOutcome(s, e, Bounded).1 == Accepted {
      BridgeFrame(s, e);
      ResolveFrame(bridged, e);
      AdmitWithinCapacity(resolved.state, e);
    } else {
      BridgeShrinks(s, e);
      ResolveShrinks(bridged, e);
      FewerKeys(resolved.state.history, s.history);
    }
  }

  lemma ApplyFits(s: State, op: Op)
    requires |s.history| <= s.policy.maxEvents && (op.AcceptOp? ==> !LosesCapacity(s, op.event))
    ensures |Apply(s, op, Bounded).history| <= s.policy.maxEvents
  {
    hide AcceptOutcome, LosesCapacity, RecordGap, SnapshotState, Decide;
    match op
    case AcceptOp(e) => AcceptFits(s, e);
    case GapOp(feed, reason, wall, mono) =>
      GapShrinks(s, feed, reason, wall, mono);
      FewerKeys(RecordGap(s, feed, reason, wall, mono).state.history, s.history);
    case SnapshotOp(_, wall, mono) =>
      SnapshotShrinks(s, wall, mono);
      FewerKeys(SnapshotState(s, wall, mono, Bounded).history, s.history);
  }

  lemma {:induction false} RunFits(policy: Policy, ops: seq<Op>)
    requires policy.Valid() && ValidRun(policy, ops)
    ensures |Run(policy, ops, Bounded).history| <= policy.maxEvents
  {
    if ops != [] {
      hide Apply, LosesCapacity;
      var front := ops[..|ops| - 1];
      RunFits(policy, front);
      PolicyIsFixed(policy, front, Bounded);
      ApplyFits(Run(policy, front, Bounded), ops[|ops| - 1]);
    }
  }

  /** A seed would be a third entry beside the two fresh inputs of a decision without reasons. */
  lemma SeedNeedsRoom(b: State, u: State, wall: int, mono: int)
    requires u.policy.Valid() && wall >= 0 && Related(b, u, wall / NS_PER_MS - u.policy.historyMs)
    requires HoldsCurrent(u) && |b.history| <= u.policy.maxEvents < 3
    requires GlobalReasons(b, wall, mono) == [] || GlobalReasons(u, wall, mono) == []
    ensures NoneCarried(u.history, wall / NS_PER_MS - u.policy.historyMs, u.policy.maxCarryMs)
  {
    hide GlobalReasons, CurrentReasons, NoneCarried;
    var cut := wall / NS_PER_MS - u.policy.historyMs;
    SameReasons(b, u, cut, wall, mono);
    NoReasonsMeansClean(u, wall, mono);
    var spot, twap := u.Current(Spot).value, u.Current(Twap).value;
    FreshSpotIsRecent(u.policy, spot, wall, mono);
    var seed := NewestCarried(u.history, cut, u.policy.maxCarryMs);
    if seed.Some? {
      ThreeEntries(b.history, seed.value, Key(Spot, spot.sourceMs), Key(Twap, twap.sourceMs));
    }
  }

  lemma ThreeEntries(h: History, x: Key, y: Key, z: Key)
    requires x in h && y in h && z in h && x != y && y != z && z != x
    ensures |h| >= 3
  {
    assert |{x, y, z}| == 3;
    SubsetSize({x, y, z}, h.Keys);
  }

  lemma FreshSpotIsRecent(p: Policy, e: PriceEvent, wall: int, mono: int)
    requires CurrentReasons(p, Some(e), Spot, wall, mono) == [] && wall >= 0
    ensures e.sourceMs >= wall / NS_PER_MS - p.sourceMaxAgeMs
  {
  }

  /** The newest spot below the cut, when any lies in the carry window. */
  lemma NewestCarried(h: History, cut: int, carry: int) returns (seed: Option<Key>)
    ensures seed.Some? ==> seed.value.feed == Spot && seed.value.stamp < cut && IsSeed(h, seed.value, cut, carry)
    ensures seed.None? ==> NoneCarried(h, cut, carry)
  {
    var below := set k | k in h && k.feed == Spot && k.stamp < cut :: k.stamp;
    if below == {} {
      forall k | k in h && k.feed == Spot && cut - carry <= k.stamp
        ensures k.stamp >= cut
      {
        assert k.stamp !in below;
      }
      seed := None;
    } else {
      var newest := Key(Spot, MaxOf(below));
      forall other | other in h && other.feed == Spot && other.stamp < cut
        ensures other.stamp <= newest.stamp
      {
        assert other.stamp in below;
      }
      seed := if cut - carry <= newest.stamp then Some(newest) else None;
    }
  }

  lemma NoRoomForSeeds(policy: Policy, ops: seq<Op>, wall: int, mono: int)
    requires policy.Valid() && ValidRun(policy, ops) && wall >= 0 && policy.maxEvents < 3
    ensures var b := SnapshotState(Run(policy, ops, Bounded), wall, mono, Bounded);
            var u := SnapshotState(Run(policy, ops, Unbounded), wall, mono, Unbounded);
            var cut := wall / NS_PER_MS - policy.historyMs;
            Related(b, u, cut) && (GlobalReasons(b, wall, mono) == [] || GlobalReasons(u, wall, mono) == [])
            ==> NoneCarried(u.history, cut, policy.maxCarryMs)
  {
    hide Related, GlobalReasons, NoneCarried, SnapshotState, HoldsCurrent, Apply;
    var b, u := Run(policy, ops, Bounded), Run(policy, ops, Unbounded);
    var ready, full := SnapshotState(b, wall, mono, Bounded), SnapshotState(u, wall, mono, Unbounded);
    PolicyIsFixed(policy, ops, Unbounded);
    SnapshotFrame(u, wall, mono, Unbounded);
    RunFits(policy, ops);
    SnapshotShrinks(b, wall, mono);
    FewerKeys(ready.history, b.history);
    RunHoldsCurrent(policy, ops);
    SnapshotHoldsCurrent(u, wall, mono);
    if && Related(ready, full, wall / NS_PER_MS - policy.historyMs)
       && (GlobalReasons(ready, wall, mono) == [] || GlobalReasons(full, wall, mono) == []) {
      SeedNeedsRoom(ready, full, wall, mono);
    }
  }

  // ---------------------------------------------------------------- the theorem

  /** After this run, the two engines issue the same decision, unless it carries a global reason in both. */
  ghost predicate TransparentAt(policy: Policy, ops: seq<Op>, id: int, wall: int, mono: int) {
    var x := Snapshot(Run(policy, ops, Bounded), id, wall, mono, Bounded).1;
    var y := Snapshot(Run(policy, ops, Unbounded), id, wall, mono, Unbounded).1;
    && x.Some? == y.Some?
    && (x.Some? ==> (x.value.reasons == [] <==> y.value.reasons == []))
    && (x.Some? && x.value.reasons == [] ==> Agree(x.value, y.value))
  }

  /**
   Prune transparency: over any run without capacity loss, pruning changes no slot,
   forecast or deadline of a decision without global reasons, when the policy's history
   is long, or has no room for a seed beside the current inputs, or no spot of the run
   was future-dated at receipt.
   */
  lemma PruningIsTransparent(policy: Policy, ops: seq<Op>, id: int, wall: int, mono: int)
    requires policy.Valid() && ValidRun(policy, ops) && wall >= 0
    requires LongHistory(policy) || policy.maxEvents < 3 || NoFutureSpots(ops)
    ensures TransparentAt(policy, ops, id, wall, mono)
  {
    hide Related, Apply, Decide, SnapshotState, AllSpotsCausal, BehindBoundary, Agree, GlobalReasons, NoneCarried,
         LongHistory;
    var b, u := Run(policy, ops, Bounded), Run(policy, ops, Unbounded);
    var cut := RunsStayRelated(policy, ops);
    SameGuards(b, u, cut, wall, mono);
    if NoFutureSpots(ops) { RunKeepsSpotsCausal(policy, ops); }
    if !BehindBoundary(u, wall, mono) && !BeforeWaitingGap(u, wall, mono) {
      SnapshotKeepsRelation(b, u, cut, wall, mono);
      if AllSpotsCausal(u.history) { SnapshotSpotsCausal(u, wall, mono); }
      AnchorAligned(policy, ops, wall, mono);
      if policy.maxEvents < 3 { NoRoomForSeeds(policy, ops, wall, mono); }
      DecisionsAgree(SnapshotState(b, wall, mono, Bounded), SnapshotState(u, wall, mono, Unbounded), id, wall, mono);
    }
  }

  lemma SameGuards(b: State, u: State, cut: int, wall: int, mono: int)
    requires Related(b, u, cut)
    ensures BehindBoundary(b, wall, mono) == BehindBoundary(u, wall, mono)
    ensures BeforeWaitingGap(b, wall, mono) == BeforeWaitingGap(u, wall, mono)
  {
    hide Kept;
  }

  ghost predicate CurrentAligned(s: State) {
    Twap in s.current ==> s.current[Twap].sourceMs % 1000 == 0
  }

  lemma ApplyKeepsAligned(s: State, op: Op)
    requires CurrentAligned(s) && ValidOp(op)
    ensures CurrentAligned(Apply(s, op, Unbounded))
  {
    hide Decide, CurrentReasons, TransportGap, Without;
    if op.AcceptOp? {
      var bridged, resolved := AcceptCases(s, op.event, Unbounded);
      BridgeKeepsAligned(s, op.event);
      AdmitUnbounded(resolved.state, op.event);
    }
  }

  lemma BridgeKeepsAligned(s: State, e: PriceEvent)
    requires CurrentAligned(s)
    ensures CurrentAligned(BridgeSequence(s, e)) && CurrentAligned(ResolveReconnect(BridgeSequence(s, e), e).state)
  {
    hide Without, CurrentReasons, TransportGap;
  }

  lemma {:induction false} RunKeepsAligned(policy: Policy, ops: seq<Op>)
    requires ValidRun(policy, ops)
    ensures CurrentAligned(Run(policy, ops, Unbounded))
  {
    if ops != [] {
      hide CurrentAligned, Apply;
      RunKeepsAligned(policy, ops[..|ops| - 1]);
      ApplyKeepsAligned(Run(policy, ops[..|ops| - 1], Unbounded), ops[|ops| - 1]);
    }
    assert ops == [] ==> CurrentAligned(Run(policy, ops, Unbounded));
  }

  lemma AnchorAligned(policy: Policy, ops: seq<Op>, wall: int, mono: int)
    requires ValidRun(policy, ops)
    ensures CurrentAligned(SnapshotState(Run(policy, ops, Unbounded), wall, mono, Unbounded))
  {
    hide Apply;
    RunKeepsAligned(policy, ops);
  }
}
