/**
 The history length at which pruning becomes invisible is exact: one millisecond
 short of it, four events suffice to make the engine lose a slot it could carry.
 */
module PruneThreshold {
  import opened Core
  import opened GhostTwap
  import opened EngineRuns
  import opened PruneTransparency
  import opened PrunedDecisions

  /** A state reached by plain acceptances only: no gap, fault, conflict or decision so far. */
  function Plain(p: Policy, h: History, current: map<Feed, PriceEvent>, highWater: Option<int>,
                 last: Option<PriceEvent>): State {
    State(p, h, current, {}, highWater, false, None, last, None, 0, map[], None)
  }

  /** In a plain state an event in sequence is simply inserted and the history pruned. */
  lemma PlainAccept(p: Policy, h: History, current: map<Feed, PriceEvent>, highWater: Option<int>,
                    last: Option<PriceEvent>, e: PriceEvent, kept: History, mode: Mode)
    requires p.enabled && e.Valid()
    requires last.Some? ==> e.sequence == last.value.sequence + 1
                            && last.value.wallNs <= e.wallNs && last.value.monoNs <= e.monoNs
    requires e.feed == Twap ==> e.Causal() && highWater.None? && Key(Twap, e.sourceMs) !in h
    requires var all := h[Key(e.feed, e.sourceMs) := e];
             kept == if mode == Bounded then PrunedHistory(all, e.ReceivedMs() - p.historyMs, p.maxCarryMs) else all
    requires mode == Bounded ==> |kept| <= p.maxEvents
    ensures var s := Plain(p, h, current, highWater, last);
            && AcceptOutcome(s, e, mode) == (Plain(p, kept, current[e.feed := e],
                                                   if e.feed == Twap then Some(e.sourceMs) else highWater, Some(e)),
                                             Accepted)
            && (mode == Bounded ==> !LosesCapacity(s, e))
  {
    hide PrunedHistory, HardLoss;
    var s := Plain(p, h, current, highWater, last);
    assert BridgeSequence(s, e) == s;
    assert ResolveReconnect(s, e) == Outcome(s, false);
    var entered := Entered(s, e);
    assert entered == Plain(p, h[Key(e.feed, e.sourceMs) := e], current[e.feed := e],
                            if e.feed == Twap then Some(e.sourceMs) else highWater, Some(e));
    assert PruneIn(entered, e.ReceivedMs(), mode).history == kept;
    assert PruneIn(entered, e.ReceivedMs(), mode).conflicts == {};
  }

  datatype Scene = Scene(carried: PriceEvent, displacing: PriceEvent, anchor: PriceEvent, spot: PriceEvent)

  /**
   A causal spot, then a newer spot stamped one second ahead of its receipt, then a long
   silence after which the anchor and a fresh spot arrive together.
   */
  function TheScene(p: Policy): Scene {
    var anchorMs := 62_000 + p.maxCarryMs / 1000 * 1000;
    var early, now := 1000 * NS_PER_MS, (anchorMs + p.sourceMaxAgeMs) * NS_PER_MS;
    Scene(PriceEvent(Spot, 1, 1000, early, early, 1, "carried"),
          PriceEvent(Spot, 1, 2000, early, early, 2, "displacing"),
          PriceEvent(Twap, 1, anchorMs, now, now, 3, "anchor"),
          PriceEvent(Spot, 1, anchorMs, now, now, 4, "spot"))
  }

  function Operations(c: Scene): seq<Op> {
    [AcceptOp(c.carried), AcceptOp(c.displacing), AcceptOp(c.anchor), AcceptOp(c.spot)]
  }

  ghost predicate ShortPolicy(p: Policy) {
    p.Valid() && p.enabled && p.maxEvents >= 3 && !LongHistory(p)
  }

  /** What the argument needs of the scene; the arithmetic of the policy stays behind it. */
  ghost predicate GoodScene(p: Policy, c: Scene) {
    && p.enabled && p.maxEvents >= 3 && p.historyMs > 1000
    && c.carried.Valid() && c.displacing.Valid() && c.anchor.Valid() && c.spot.Valid()
    && c.carried.feed == Spot && c.displacing.feed == Spot && c.anchor.feed == Twap && c.spot.feed == Spot
    && c.carried.sequence == 1 && c.displacing.sequence == 2 && c.anchor.sequence == 3 && c.spot.sequence == 4
    && c.carried.wallNs == c.displacing.wallNs <= c.anchor.wallNs == c.spot.wallNs
    && c.carried.monoNs == c.displacing.monoNs <= c.anchor.monoNs == c.spot.monoNs
    && c.carried.sourceMs == 1000 && c.displacing.sourceMs == 2000 && c.spot.sourceMs == c.anchor.sourceMs
    && c.carried.ReceivedMs() == c.displacing.ReceivedMs() == 1000
    && c.carried.Causal() && !c.displacing.Causal() && c.anchor.Causal() && c.spot.Causal()
    && var cut := c.anchor.ReceivedMs() - p.historyMs;
       2000 < cut <= p.maxCarryMs && cut < c.anchor.sourceMs
  }

  lemma SceneIsGood(p: Policy)
    requires ShortPolicy(p)
    ensures GoodScene(p, TheScene(p))
  {
  }

  function First(c: Scene): History { map[Key(Spot, 1000) := c.carried] }

  function Second(c: Scene): History { First(c)[Key(Spot, 2000) := c.displacing] }

  /** The reference engine keeps the carried spot when the anchor arrives. */
  function ThirdAll(c: Scene): History { Second(c)[Key(Twap, c.anchor.sourceMs) := c.anchor] }

  /** The pruning engine does not. */
  function ThirdKept(c: Scene): History {
    map[Key(Spot, 2000) := c.displacing, Key(Twap, c.anchor.sourceMs) := c.anchor]
  }

  function Third(c: Scene, mode: Mode): History { if mode == Bounded then ThirdKept(c) else ThirdAll(c) }

  function Fourth(c: Scene, mode: Mode): History { Third(c, mode)[Key(Spot, c.spot.sourceMs) := c.spot] }

  lemma Unroll(p: Policy, c: Scene, mode: Mode)
    ensures var ops := Operations(c);
            && Run(p, ops[..1], mode) == AcceptOutcome(Init(p), c.carried, mode).0
            && Run(p, ops[..2], mode) == AcceptOutcome(Run(p, ops[..1], mode), c.displacing, mode).0
            && Run(p, ops[..3], mode) == AcceptOutcome(Run(p, ops[..2], mode), c.anchor, mode).0
            && Run(p, ops, mode) == AcceptOutcome(Run(p, ops[..3], mode), c.spot, mode).0
  {
    hide AcceptOutcome, Init;
    var ops := Operations(c);
    assert ops[..1][..0] == [] && ops[..2][..1] == ops[..1] && ops[..3][..2] == ops[..2] && ops[..4] == ops;
    assert ops[..4][..3] == ops[..3];
    assert Run(p, [], mode) == Init(p);
  }

  lemma NothingToPrune(p: Policy, c: Scene)
    requires GoodScene(p, c)
    ensures PrunedHistory(First(c), 1000 - p.historyMs, p.maxCarryMs) == First(c) && |First(c)| == 1
    ensures PrunedHistory(Second(c), 1000 - p.historyMs, p.maxCarryMs) == Second(c) && |Second(c)| == 2
  {
  }

  /** Pruning at the silence keeps the future-dated spot as the seed and drops the carried one. */
  lemma SeedIsDisplaced(p: Policy, c: Scene)
    requires GoodScene(p, c)
    ensures var cut := c.anchor.ReceivedMs() - p.historyMs;
            && PrunedHistory(ThirdAll(c), cut, p.maxCarryMs) == ThirdKept(c) && |ThirdKept(c)| == 2
            && PrunedHistory(Fourth(c, Bounded), cut, p.maxCarryMs) == Fourth(c, Bounded) && |Fourth(c, Bounded)| == 3
  {
    var cut := c.anchor.ReceivedMs() - p.historyMs;
    var seed := Key(Spot, 2000);
    assert IsSeed(ThirdAll(c), seed, cut, p.maxCarryMs);
    assert seed in ThirdAll(c) && !IsSeed(ThirdAll(c), Key(Spot, 1000), cut, p.maxCarryMs);
    assert IsSeed(Fourth(c, Bounded), seed, cut, p.maxCarryMs);
  }

  lemma OpeningSteps(p: Policy, c: Scene, mode: Mode)
    requires GoodScene(p, c)
    ensures Run(p, Operations(c)[..1], mode) == Plain(p, First(c), map[Spot := c.carried], None, Some(c.carried))
    ensures Run(p, Operations(c)[..2], mode) == Plain(p, Second(c), map[Spot := c.displacing], None, Some(c.displacing))
    ensures mode == Bounded ==> !LosesCapacity(Init(p), c.carried)
                                && !LosesCapacity(Run(p, Operations(c)[..1], Bounded), c.displacing)
  {
    hide AcceptOutcome, LosesCapacity, PrunedHistory;
    Unroll(p, c, mode);
    FirstStep(p, c, mode);
    NothingToPrune(p, c);
    PlainAccept(p, First(c), map[Spot := c.carried], None, Some(c.carried), c.displacing, Second(c), mode);
  }

  lemma FirstStep(p: Policy, c: Scene, mode: Mode)
    requires GoodScene(p, c)
    ensures AcceptOutcome(Init(p), c.carried, mode).0
              == Plain(p, First(c), map[Spot := c.carried], None, Some(c.carried))
    ensures mode == Bounded ==> !LosesCapacity(Init(p), c.carried)
  {
    hide AcceptOutcome, LosesCapacity, PrunedHistory;
    NothingToPrune(p, c);
    assert map[][Key(Spot, 1000) := c.carried] == First(c);
    PlainAccept(p, map[], map[], None, None, c.carried, First(c), mode);
  }

  lemma AnchorStep(p: Policy, c: Scene, mode: Mode)
    requires GoodScene(p, c)
    ensures Run(p, Operations(c)[..3], mode)
            == Plain(p, Third(c, mode), map[Spot := c.displacing, Twap := c.anchor], Some(c.anchor.sourceMs),
                     Some(c.anchor))
    ensures mode == Bounded ==> !LosesCapacity(Run(p, Operations(c)[..2], Bounded), c.anchor)
  {
    hide AcceptOutcome, LosesCapacity, PrunedHistory;
    Unroll(p, c, mode);
    OpeningSteps(p, c, mode);
    SeedIsDisplaced(p, c);
    PlainAccept(p, Second(c), map[Spot := c.displacing], None, Some(c.displacing), c.anchor, Third(c, mode), mode);
  }

  lemma SpotStep(p: Policy, c: Scene, mode: Mode)
    requires GoodScene(p, c)
    ensures Run(p, Operations(c), mode)
            == Plain(p, Fourth(c, mode), map[Spot := c.spot, Twap := c.anchor], Some(c.anchor.sourceMs), Some(c.spot))
    ensures mode == Bounded ==> !LosesCapacity(Run(p, Operations(c)[..3], Bounded), c.spot)
  {
    hide AcceptOutcome, LosesCapacity, PrunedHistory, ThirdKept, ThirdAll;
    Unroll(p, c, mode);
    AnchorStep(p, c, mode);
    SeedIsDisplaced(p, c);
    assert map[Spot := c.displacing, Twap := c.anchor][Spot := c.spot] == map[Spot := c.spot, Twap := c.anchor];
    PlainAccept(p, Third(c, mode), map[Spot := c.displacing, Twap := c.anchor], Some(c.anchor.sourceMs), Some(c.anchor),
                c.spot, Fourth(c, mode), mode);
  }

  lemma RunIsValid(p: Policy, c: Scene)
    requires GoodScene(p, c)
    ensures ValidRun(p, Operations(c))
  {
    hide LosesCapacity, Apply;
    OpeningSteps(p, c, Bounded);
    AnchorStep(p, c, Bounded);
    SpotStep(p, c, Bounded);
    var ops := Operations(c);
    assert ops[..1][..0] == [] && ops[..2][..1] == ops[..1] && ops[..3][..2] == ops[..2] && ops[..4] == ops;
    assert ops[..4][..3] == ops[..3];
    assert Run(p, [], Bounded) == Init(p);
    assert ValidRun(p, ops[..1]);
    assert ValidRun(p, ops[..2]);
    assert ValidRun(p, ops[..3]);
  }

  // ---------------------------------------------------------------- the two decisions differ

  /** A plain engine decides at its last receipt, on its whole kept history. */
  lemma PlainDecides(p: Policy, h: History, spot: PriceEvent, anchor: PriceEvent, kept: History, mode: Mode)
    requires p.enabled
    requires kept == if mode == Bounded then PrunedHistory(h, spot.ReceivedMs() - p.historyMs, p.maxCarryMs) else h
    requires CurrentReasons(p, Some(spot), Spot, spot.wallNs, spot.monoNs) == []
    requires CurrentReasons(p, Some(anchor), Twap, spot.wallNs, spot.monoNs) == []
    ensures var before := Plain(p, h, map[Spot := spot, Twap := anchor], Some(anchor.sourceMs), Some(spot));
            var s := SnapshotState(before, spot.wallNs, spot.monoNs, mode);
            && Snapshot(before, 1, spot.wallNs, spot.monoNs, mode).1 == Some(Decide(s, 1, spot.wallNs, spot.monoNs))
            && s.history == kept && s.policy == p && s.Current(Twap) == Some(anchor)
            && GlobalReasons(s, spot.wallNs, spot.monoNs) == []
  {
    hide PrunedHistory, CurrentReasons, Decide;
  }

  /** Both engines decide on fresh inputs at the anchor's receipt. */
  lemma BothAreClean(p: Policy, mode: Mode)
    requires ShortPolicy(p)
    ensures var c := TheScene(p);
            var s := SnapshotState(Run(p, Operations(c), mode), c.spot.wallNs, c.spot.monoNs, mode);
            && Snapshot(Run(p, Operations(c), mode), 1, c.spot.wallNs, c.spot.monoNs, mode).1
               == Some(Decide(s, 1, c.spot.wallNs, c.spot.monoNs))
            && s.history == Fourth(c, mode) && s.policy == p && s.Current(Twap) == Some(c.anchor)
            && GlobalReasons(s, c.spot.wallNs, c.spot.monoNs) == []
  {
    hide PrunedHistory, CurrentReasons, TheScene, Run, Plain, Fourth, SnapshotState, Snapshot, GlobalReasons, Decide;
    SceneIsGood(p);
    var c := TheScene(p);
    SpotStep(p, c, mode);
    SeedIsDisplaced(p, c);
    FreshNow(p);
    PlainDecides(p, Fourth(c, mode), c.spot, c.anchor, Fourth(c, mode), mode);
  }

  lemma FreshNow(p: Policy)
    requires ShortPolicy(p)
    ensures var c := TheScene(p);
            && CurrentReasons(p, Some(c.spot), Spot, c.spot.wallNs, c.spot.monoNs) == []
            && CurrentReasons(p, Some(c.anchor), Twap, c.spot.wallNs, c.spot.monoNs) == []
  {
  }

  /** The oldest slot: the pruning engine finds nothing, the reference carries the first spot. */
  lemma OldestSlotDiffers(p: Policy, c: Scene, b: State, u: State, wall: int, mono: int)
    requires GoodScene(p, c) && c.anchor.sourceMs == 62_000 + p.maxCarryMs / 1000 * 1000
    requires b.history == Fourth(c, Bounded) && u.history == Fourth(c, Unbounded) && b.policy == u.policy == p
    requires c.anchor.sourceMs * NS_PER_MS <= wall
    ensures SlotAt(b, c.anchor.sourceMs - 61_000, wall, mono).value.None?
    ensures SlotAt(u, c.anchor.sourceMs - 61_000, wall, mono).value.Some?
  {
    hide Fourth, SlotAt, GoodScene;
    PrunedSlot(p, c, b, wall, mono);
    KeptSlot(p, c, u, wall, mono);
  }

  lemma PrunedSlot(p: Policy, c: Scene, b: State, wall: int, mono: int)
    requires GoodScene(p, c) && c.anchor.sourceMs == 62_000 + p.maxCarryMs / 1000 * 1000
    requires b.history == Fourth(c, Bounded) && b.policy == p && c.anchor.sourceMs * NS_PER_MS <= wall
    ensures SlotAt(b, c.anchor.sourceMs - 61_000, wall, mono).value.None?
  {
    var stamp := c.anchor.sourceMs - 61_000;
    assert stamp * NS_PER_MS <= wall;
    var m := PredecessorCases(b.history, stamp);
  }

  lemma KeptSlot(p: Policy, c: Scene, u: State, wall: int, mono: int)
    requires GoodScene(p, c) && c.anchor.sourceMs == 62_000 + p.maxCarryMs / 1000 * 1000
    requires u.history == Fourth(c, Unbounded) && u.policy == p && c.anchor.sourceMs * NS_PER_MS <= wall
    ensures SlotAt(u, c.anchor.sourceMs - 61_000, wall, mono).value.Some?
  {
    var stamp := c.anchor.sourceMs - 61_000;
    assert stamp * NS_PER_MS <= wall;
    assert Key(Spot, 1000) in u.history && u.history[Key(Spot, 1000)] == c.carried;
    assert 1000 in CausalStamps(u.history);
    var n := PredecessorCases(u.history, stamp);
    PredecessorIs(u.history, stamp, n.value);
    assert n.value == 1000;
  }

  lemma DecisionsDiffer(c: Scene, b: State, u: State, wall: int, mono: int)
    requires b.Current(Twap) == u.Current(Twap) == Some(c.anchor)
    requires SlotAt(b, c.anchor.sourceMs - 61_000, wall, mono).value.None?
    requires SlotAt(u, c.anchor.sourceMs - 61_000, wall, mono).value.Some?
    ensures !Agree(Decide(b, 1, wall, mono), Decide(u, 1, wall, mono))
  {
    hide SlotAt, GlobalReasons, ForecastFor, Deadlines, Earliest;
    var x, y := Decide(b, 1, wall, mono), Decide(u, 1, wall, mono);
    assert x.slots[0] == SlotAt(b, c.anchor.sourceMs - 61_000, wall, mono);
    assert y.slots[0] == SlotAt(u, c.anchor.sourceMs - 61_000, wall, mono);
    assert !SlotAgrees(x.slots[0], y.slots[0]);
  }

  lemma AnchorPrecedesDecision(p: Policy)
    requires ShortPolicy(p)
    ensures var c := TheScene(p);
            c.anchor.sourceMs == 62_000 + p.maxCarryMs / 1000 * 1000 && c.anchor.sourceMs * NS_PER_MS <= c.spot.wallNs
            && c.spot.wallNs >= 0
  {
  }

  lemma ShortHistoryDiverges(p: Policy)
    requires ShortPolicy(p)
    ensures var c := TheScene(p);
            ValidRun(p, Operations(c)) && !TransparentAt(p, Operations(c), 1, c.spot.wallNs, c.spot.monoNs)
            && c.spot.wallNs >= 0
  {
    hide SnapshotState, SlotAt, GlobalReasons, TheScene, Fourth, GoodScene, LongHistory, Agree, Run, Snapshot, ValidRun;
    SceneIsGood(p);
    AnchorPrecedesDecision(p);
    var c := TheScene(p);
    RunIsValid(p, c);
    BothAreClean(p, Bounded);
    BothAreClean(p, Unbounded);
    var wall, mono := c.spot.wallNs, c.spot.monoNs;
    var b := SnapshotState(Run(p, Operations(c), Bounded), wall, mono, Bounded);
    var u := SnapshotState(Run(p, Operations(c), Unbounded), wall, mono, Unbounded);
    OldestSlotDiffers(p, c, b, u, wall, mono);
    DecisionsDiffer(c, b, u, wall, mono);
    ReasonsOf(b, wall, mono);
  }

  lemma ReasonsOf(s: State, wall: int, mono: int)
    ensures Decide(s, 1, wall, mono).reasons == GlobalReasons(s, wall, mono)
  {
    hide SlotAt, GlobalReasons, ForecastFor, Deadlines, Earliest;
  }

  /** Every valid run of the policy, and every decision after it, is unaffected by pruning. */
  ghost predicate AlwaysTransparent(p: Policy) {
    forall ops: seq<Op>, id: int, wall: int, mono: int ::
      ValidRun(p, ops) && wall >= 0 ==> TransparentAt(p, ops, id, wall, mono)
  }

  /** A disabled engine gives every decision a reason. */
  lemma DisabledIsTransparent(p: Policy, ops: seq<Op>, id: int, wall: int, mono: int)
    requires p.Valid() && !p.enabled && ValidRun(p, ops) && wall >= 0
    ensures TransparentAt(p, ops, id, wall, mono)
  {
    hide Related, Apply, Decide, SnapshotState, BehindBoundary, Agree, GlobalReasons;
    var b, u := Run(p, ops, Bounded), Run(p, ops, Unbounded);
    var cut := RunsStayRelated(p, ops);
    SameGuards(b, u, cut, wall, mono);
    PolicyIsFixed(p, ops, Bounded);
    SnapshotFrame(b, wall, mono, Bounded);
    SnapshotFrame(u, wall, mono, Unbounded);
    DisabledIsReason(SnapshotState(b, wall, mono, Bounded), id, wall, mono);
    DisabledIsReason(SnapshotState(u, wall, mono, Unbounded), id, wall, mono);
  }

  lemma DisabledIsReason(s: State, id: int, wall: int, mono: int)
    requires !s.policy.enabled
    ensures Decide(s, id, wall, mono).reasons != []
  {
    hide SlotAt, ForecastFor, Deadlines, Earliest, CurrentReasons;
    assert GlobalReasons(s, wall, mono)[0] == Disabled;
  }

  /**
   The threshold is exact: a policy is transparent for all runs if and only if its history
   reaches it, or it leaves no room for a seed, or it is disabled.
   */
  lemma ThresholdIsExact(p: Policy)
    requires p.Valid()
    ensures AlwaysTransparent(p)
       <==> !p.enabled || p.maxEvents < 3 || p.historyMs >= 60_000 + p.sourceMaxAgeMs + p.maxCarryMs / 1000 * 1000
  {
    hide ValidRun, TransparentAt;
    if !p.enabled || p.maxEvents < 3 || LongHistory(p) {
      forall ops: seq<Op>, id: int, wall: int, mono: int | ValidRun(p, ops) && wall >= 0
        ensures TransparentAt(p, ops, id, wall, mono)
      {
        if p.enabled {
          PruningIsTransparent(p, ops, id, wall, mono);
        } else {
          DisabledIsTransparent(p, ops, id, wall, mono);
        }
      }
    } else {
      ShortHistoryDiverges(p);
      var c := TheScene(p);
      assert !TransparentAt(p, Operations(c), 1, c.spot.wallNs, c.spot.monoNs);
    }
  }
}
