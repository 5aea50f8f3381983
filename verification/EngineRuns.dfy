/**
 Whole runs of the engine: arbitrary interleavings of accepted events, gaps and
 snapshots, and what holds of every decision such a run can issue.
 */
module EngineRuns {
  import opened Core
  import opened GhostTwap
  import Rounding

  datatype Op =
    | AcceptOp(event: PriceEvent)
    | GapOp(feed: Feed, reason: string, wall: Option<int>, mono: Option<int>)
    | SnapshotOp(id: int, wallNs: int, monoNs: int)

  predicate ValidOp(op: Op) {
    match op
    case AcceptOp(e) => e.Valid()
    case GapOp(_, _, wall, mono) => (wall.Some? ==> wall.value >= 0) && (mono.Some? ==> mono.value >= 0)
    case SnapshotOp(_, wall, mono) => wall >= 0 && mono >= 0
  }

  function Apply(s: State, op: Op, mode: Mode): State {
    match op
    case AcceptOp(e) => AcceptOutcome(s, e, mode).0
    case GapOp(feed, reason, wall, mono) => RecordGap(s, feed, reason, wall, mono).state
    case SnapshotOp(id, wall, mono) => Snapshot(s, id, wall, mono, mode).0
  }

  function Run(policy: Policy, ops: seq<Op>, mode: Mode): State {
    if ops == [] then Init(policy)
    else Apply(Run(policy, ops[..|ops| - 1], mode), ops[|ops| - 1], mode)
  }

  // ---------------------------------------------------------------- no stale target

  /** The op accepts a TWAP event that was not future-dated at receipt. */
  predicate AcceptsCausalTwap(s: State, op: Op, mode: Mode) {
    && op.AcceptOp? && op.event.feed == Twap && op.event.Causal()
    && AcceptOutcome(s, op.event, mode).1 == Accepted
  }

  /** Every TWAP stamp a run ever accepted that was not future-dated at receipt. */
  function AcceptedStamps(policy: Policy, ops: seq<Op>, mode: Mode): set<int> {
    if ops == [] then {}
    else
      var front, last := ops[..|ops| - 1], ops[|ops| - 1];
      AcceptedStamps(policy, front, mode)
      + (if AcceptsCausalTwap(Run(policy, front, mode), last, mode) then {last.event.sourceMs} else {})
  }

  ghost predicate HighWaterInv(s: State, stamps: set<int>) {
    && (s.highWater.None? ==> stamps == {})
    && (s.highWater.Some? ==> s.highWater.value in stamps && forall t :: t in stamps ==> t <= s.highWater.value)
    && (Twap in s.current && s.current[Twap].Causal() && !s.regressed
        ==> s.highWater == Some(s.current[Twap].sourceMs))
  }

  lemma GapKeepsHighWater(s: State, feed: Feed, reason: string, wall: Option<int>, mono: Option<int>, stamps: set<int>)
    requires HighWaterInv(s, stamps)
    ensures HighWaterInv(RecordGap(s, feed, reason, wall, mono).state, stamps)
  {
  }

  lemma HardLossKeepsHighWater(s: State, reason: string, stamps: set<int>)
    requires HighWaterInv(s, stamps) && reason != CONNECTION_END
    ensures HighWaterInv(HardLoss(s, reason), stamps)
    ensures HardLoss(s, reason).highWater == s.highWater
    ensures HardLoss(s, reason).regressed == s.highWater.Some?
    ensures Twap !in HardLoss(s, reason).current
  {
    var spotLost := RecordGap(s, Spot, reason, None, None).state;
    GapKeepsHighWater(s, Spot, reason, None, None, stamps);
    GapKeepsHighWater(spotLost, Twap, reason, None, None, stamps);
  }

  lemma ResolveKeepsHighWater(s: State, e: PriceEvent, stamps: set<int>)
    requires HighWaterInv(s, stamps)
    ensures HighWaterInv(ResolveReconnect(s, e).state, stamps)
  {
  }

  lemma NoteKeepsHighWater(s: State, e: PriceEvent, stamps: set<int>)
    requires HighWaterInv(s, stamps)
    ensures HighWaterInv(Insert(NoteTwap(s, e), e),
                         stamps + (if e.feed == Twap && e.Causal() then {e.sourceMs} else {}))
  {
    var noted := NoteTwap(s, e);
    if e.feed == Twap && e.Causal() {
      assert noted.highWater.Some? && noted.highWater.value in stamps + {e.sourceMs};
    }
  }

  lemma AdmitKeepsHighWater(s: State, e: PriceEvent, mode: Mode, stamps: set<int>)
    requires HighWaterInv(s, stamps)
    ensures HighWaterInv(Admit(s, e, mode), stamps + (if e.feed == Twap && e.Causal() then {e.sourceMs} else {}))
  {
    var all := stamps + (if e.feed == Twap && e.Causal() then {e.sourceMs} else {});
    NoteKeepsHighWater(s, e, stamps);
    var kept := PruneIn(Entered(s, e), e.ReceivedMs(), mode);
    assert HighWaterInv(kept, all);
    HardLossKeepsHighWater(kept, "capacity", all);
  }

  /** The three ways an event ends: refused before any change, refused by its gap, or admitted. */
  lemma AcceptCases(s: State, e: PriceEvent, mode: Mode) returns (bridged: State, resolved: Outcome)
    ensures bridged == BridgeSequence(s, e) && resolved == ResolveReconnect(bridged, e)
    ensures var (after, outcome) := AcceptOutcome(s, e, mode);
            || (outcome == Accepted && after == Admit(resolved.state, e, mode) && !resolved.raised
                && !AcceptanceRegressed(s, e) && !Backlogged(s, e) && s.policy.enabled)
            || (outcome != Accepted && after == resolved.state && resolved.raised)
            || (outcome != Accepted && after == s.(fault := after.fault) && (outcome == Ignored ==> after == s))
  {
    bridged := BridgeSequence(s, e);
    resolved := ResolveReconnect(bridged, e);
  }

  lemma BridgeKeepsHighWater(s: State, e: PriceEvent, stamps: set<int>)
    requires HighWaterInv(s, stamps)
    ensures HighWaterInv(BridgeSequence(s, e), stamps)
  {
    HardLossKeepsHighWater(s, "sequence_gap", stamps);
  }

  lemma AcceptKeepsHighWater(s: State, e: PriceEvent, mode: Mode, stamps: set<int>, all: set<int>)
    requires HighWaterInv(s, stamps)
    requires all == stamps + (if AcceptsCausalTwap(s, AcceptOp(e), mode) then {e.sourceMs} else {})
    ensures HighWaterInv(AcceptOutcome(s, e, mode).0, all)
  {
    BridgeKeepsHighWater(s, e, stamps);
    var bridged, resolved := AcceptCases(s, e, mode);
    ResolveKeepsHighWater(bridged, e, stamps);
    if AcceptOutcome(s, e, mode).1 == Accepted {
      AdmitKeepsHighWater(resolved.state, e, mode, stamps);
    } else {
      assert all == stamps;
    }
  }

  lemma SnapshotKeepsHighWater(s: State, wall: int, mono: int, mode: Mode, stamps: set<int>)
    requires HighWaterInv(s, stamps)
    ensures HighWaterInv(SnapshotState(s, wall, mono, mode), stamps)
  {
  }

  lemma ApplyKeepsHighWater(s: State, op: Op, mode: Mode, stamps: set<int>, all: set<int>)
    requires HighWaterInv(s, stamps)
    requires all == stamps + (if AcceptsCausalTwap(s, op, mode) then {op.event.sourceMs} else {})
    ensures HighWaterInv(Apply(s, op, mode), all)
  {
    match op
    case AcceptOp(e) =>
      AcceptKeepsHighWater(s, e, mode, stamps, all);
    case GapOp(feed, reason, wall, mono) =>
      assert all == stamps;
      GapKeepsHighWater(s, feed, reason, wall, mono, stamps);
    case SnapshotOp(id, wall, mono) =>
      assert all == stamps;
      SnapshotKeepsHighWater(s, wall, mono, mode, stamps);
  }

  lemma {:induction false} RunKeepsHighWater(policy: Policy, ops: seq<Op>, mode: Mode)
    ensures HighWaterInv(Run(policy, ops, mode), AcceptedStamps(policy, ops, mode))
  {
    if ops != [] {
      var front, last := ops[..|ops| - 1], ops[|ops| - 1];
      RunKeepsHighWater(policy, front, mode);
      ApplyKeepsHighWater(Run(policy, front, mode), last, mode, AcceptedStamps(policy, front, mode),
                          AcceptedStamps(policy, ops, mode));
    }
  }

  lemma NoReasonsMeansClean(s: State, wall: int, mono: int)
    requires GlobalReasons(s, wall, mono) == []
    ensures s.policy.enabled && s.fault.None? && !s.regressed
    ensures CurrentReasons(s.policy, s.Current(Spot), Spot, wall, mono) == []
    ensures CurrentReasons(s.policy, s.Current(Twap), Twap, wall, mono) == []
    ensures s.Current(Twap).Some? && s.Current(Twap).value.Causal()
    ensures s.Current(Spot).Some? && s.Current(Spot).value.Causal()
    ensures s.Current(Twap).value.sourceMs !in s.conflicts
  {
    var a := if s.policy.enabled then [] else [Disabled];
    var b := if s.fault.Some? then [s.fault.value] else [];
    var c := CurrentReasons(s.policy, s.Current(Spot), Spot, wall, mono);
    var d := CurrentReasons(s.policy, s.Current(Twap), Twap, wall, mono);
    assert |GlobalReasons(s, wall, mono)| >= |a| + |b| + |c| + |d|;
    assert a == [] && b == [] && c == [] && d == [];
  }

  lemma PricedMeansClean(s: State, slots: seq<Slot>, reasons: seq<Reason>, horizon: int, wall: int)
    requires 1 <= horizon <= 30 && (|slots| == 89 || s.Current(Twap).None?)
    requires ForecastFor(s, slots, reasons, horizon, wall).price.Some?
    ensures reasons == [] && s.Current(Twap).Some?
    ensures ForecastFor(s, slots, reasons, horizon, wall).target
              == Some(s.Current(Twap).value.sourceMs + horizon * 1000)
    ensures Key(Twap, s.Current(Twap).value.sourceMs + horizon * 1000) !in s.history
  {
    var anchor := s.Current(Twap).value;
    var selected := Selected(slots, horizon);
    var target := anchor.sourceMs + horizon * 1000;
    var missing := if CountsOf(selected).missing != 0 then [MissingSlots] else [];
    var received := if Key(Twap, target) in s.history then [TargetAlreadyReceived] else [];
    assert ForecastFor(s, slots, reasons, horizon, wall).reasons == reasons + missing + received;
    assert |reasons + missing + received| == |reasons| + |missing| + |received|;
  }

  /**
   No stale target: whatever gaps, regressions and conflicts came before, every
   priced forecast aims strictly above every causal TWAP stamp the run accepted,
   its anchor is the newest of them, and the target itself was not received.
   */
  lemma NoStaleTarget(policy: Policy, ops: seq<Op>, id: int, wall: int, mono: int, i: int)
    requires 0 <= i < 6
    ensures var s := Run(policy, ops, Bounded);
            var decision := Snapshot(s, id, wall, mono, Bounded).1;
            decision.Some? && decision.value.forecasts[i].price.Some? ==>
              var f := decision.value.forecasts[i];
              && f.target.Some?
              && (forall t :: t in AcceptedStamps(policy, ops, Bounded) ==> t < f.target.value)
              && decision.value.twap.Some?
              && decision.value.twap.value.sourceMs in AcceptedStamps(policy, ops, Bounded)
              && (forall t :: t in AcceptedStamps(policy, ops, Bounded) ==> t <= decision.value.twap.value.sourceMs)
              && Key(Twap, f.target.value) !in Snapshot(s, id, wall, mono, Bounded).0.history
  {
    var s := Run(policy, ops, Bounded);
    var stamps := AcceptedStamps(policy, ops, Bounded);
    RunKeepsHighWater(policy, ops, Bounded);
    var (after, decision) := Snapshot(s, id, wall, mono, Bounded);
    if decision.Some? && decision.value.forecasts[i].price.Some? {
      SnapshotKeepsHighWater(s, wall, mono, Bounded, stamps);
      PricedIsAboveHighWater(after, id, wall, mono, i, stamps);
    }
  }

  lemma PricedIsAboveHighWater(s: State, id: int, wall: int, mono: int, i: int, stamps: set<int>)
    requires HighWaterInv(s, stamps) && 0 <= i < 6
    requires Decide(s, id, wall, mono).forecasts[i].price.Some?
    ensures var d := Decide(s, id, wall, mono);
            && d.twap.Some? && d.twap.value.sourceMs in stamps
            && (forall t :: t in stamps ==> t <= d.twap.value.sourceMs)
            && d.forecasts[i].target.Some?
            && d.forecasts[i].target.value > d.twap.value.sourceMs
            && Key(Twap, d.forecasts[i].target.value) !in s.history
  {
    hide ForecastFor, GlobalReasons, CurrentReasons, SlotAt, Deadlines;
    var d := Decide(s, id, wall, mono);
    PricedMeansClean(s, d.slots, d.reasons, HORIZONS[i], wall);
    NoReasonsMeansClean(s, wall, mono);
  }
}
