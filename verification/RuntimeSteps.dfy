/**
 Every step of a run keeps the runtime's invariants, and rows only ever evolve.
 */
module RuntimeSteps {
  import opened Core
  import opened GhostTwap
  import opened GhostPayload
  import opened EngineRuns
  import opened EngineInvariants
  import opened DecisionFacts
  import opened AuditRow
  import opened CompactAgreement
  import opened AuditHistory
  import opened PayloadAgreement
  import opened RuntimeModel
  import opened GhostSpool
  import opened RuntimeRuns
  import PrunedDecisions

  // ---------------------------------------------------------------- the engine's side

  lemma GapKeepsEngine(s: State, feed: Feed, reason: string, clock: Stamp, now: Stamp)
    requires EngineOk(s, now) && 0 <= clock.wall <= now.wall && 0 <= clock.mono <= now.mono
    ensures EngineOk(RecordGap(s, feed, reason, Some(clock.wall), Some(clock.mono)).state, now)
  {
    GapKeepsInv(s, feed, reason, Some(clock.wall), Some(clock.mono));
    GapSource(s, feed, reason, Some(clock.wall), Some(clock.mono));
    GapFrame(s, feed, reason, Some(clock.wall), Some(clock.mono));
    hide Inv, RecordGap, RuntimePolicy;
  }

  lemma GapFrame(s: State, feed: Feed, reason: string, wall: Option<int>, mono: Option<int>)
    ensures var after := RecordGap(s, feed, reason, wall, mono).state;
            after.policy == s.policy && after.lastEvent == s.lastEvent
  {
    hide TransportGap, GapOutOfOrder, Without;
  }

  lemma HardLossLast(s: State, reason: string)
    requires reason != CONNECTION_END
    ensures HardLoss(s, reason).lastEvent == s.lastEvent
  {
    HardLossShape(s, reason);
    hide HardLoss;
  }

  lemma AcceptLast(s: State, e: PriceEvent)
    ensures var after := AcceptOutcome(s, e, Bounded).0; after.lastEvent == s.lastEvent || after.lastEvent == Some(e)
  {
    HardLossLast(s, "sequence_gap");
    hide Admit, HardLoss, ResolveReconnect;
    var bridged, resolved := AcceptCases(s, e, Bounded);
    ResolveLast(bridged, e);
    AdmitLast(resolved.state, e);
  }

  lemma ResolveLast(s: State, e: PriceEvent)
    ensures ResolveReconnect(s, e).state.lastEvent == s.lastEvent
  {
    hide CurrentReasons, Without;
  }

  lemma AdmitLast(s: State, e: PriceEvent)
    ensures Admit(s, e, Bounded).lastEvent == Some(e)
  {
    hide HardLoss, Prune, Entered;
    KeptLastEvent(s, e);
    HardLossLast(Prune(Entered(s, e), e.ReceivedMs()), "capacity");
  }

  lemma AcceptKeepsEngine(s: State, e: PriceEvent, now: Stamp)
    requires EngineOk(s, now) && e.Valid() && e.sequence >= 1 && ReceivedBy(e, now)
    ensures EngineOk(AcceptOutcome(s, e, Bounded).0, now)
  {
    AcceptKeepsInv(s, e);
    AcceptSource(s, e);
    AcceptLast(s, e);
    PrunedDecisions.ApplyKeepsPolicy(s, AcceptOp(e), Bounded);
    hide Inv, AcceptOutcome, RuntimePolicy;
    SameGapStaysBefore(s.reconnect, AcceptOutcome(s, e, Bounded).0.reconnect, now);
  }

  lemma SameGapStaysBefore(before: Option<SpotReconnect>, after: Option<SpotReconnect>, now: Stamp)
    requires SameGap(before, after) && ReconnectBefore(before, now)
    ensures ReconnectBefore(after, now)
  {
  }

  lemma SnapshotLast(s: State, at: Stamp)
    ensures var ready := SnapshotState(s, at.wall, at.mono, Bounded);
            && ready.lastEvent == s.lastEvent && SameGap(s.reconnect, ready.reconnect) && ready.policy == s.policy
  {
    hide PrunedHistory;
  }

  lemma StampKeepsEngine(s: State, at: Stamp)
    requires EngineOk(s, at)
    ensures EngineOk(s.(lastDecision := Some((at.wall, at.mono))), at)
  {
    SnapshotKeepsInv(s, at.wall, at.mono);
    hide Inv, RuntimePolicy, SnapshotState;
  }

  lemma SnapshotStateKeepsEngine(s: State, at: Stamp)
    requires EngineOk(s, at)
    ensures EngineOk(SnapshotState(s, at.wall, at.mono, Bounded), at)
  {
    SnapshotKeepsInv(s, at.wall, at.mono);
    SnapshotLast(s, at);
    SameGapStaysBefore(s.reconnect, SnapshotState(s, at.wall, at.mono, Bounded).reconnect, at);
    hide Inv, RuntimePolicy, SnapshotState;
  }

  lemma SnapshotKeepsEngine(s: State, id: int, at: Stamp)
    requires EngineOk(s, at) && id >= 1
    ensures var (after, d) := Snapshot(s, id, at.wall, at.mono, Bounded);
            && EngineOk(after, at)
            && (d.Some? ==>
                  Readable(d.value) && d.value.id == id && d.value.wallNs == at.wall && d.value.monoNs == at.mono)
  {
    hide EngineOk, SnapshotState, Decide, BehindBoundary;
    StampKeepsEngine(s, at);
    SnapshotStateKeepsEngine(s, at);
    var ready := SnapshotState(s, at.wall, at.mono, Bounded);
    ReadyIsReadable(ready, id, at);
  }

  lemma ReadyIsReadable(s: State, id: int, at: Stamp)
    requires EngineOk(s, at) && id >= 1
    ensures var d := Decide(s, id, at.wall, at.mono);
            Readable(d) && d.id == id && d.wallNs == at.wall && d.monoNs == at.mono
  {
    hide Inv, RuntimePolicy, Readable, GlobalReasons, Deadlines;
    DecideIsReadable(s, id, at.wall, at.mono);
  }

  // ---------------------------------------------------------------- reader offers

  lemma OfferGapKeeps(rt: Runtime, feed: Feed, reason: string, now: Stamp, at: Stamp)
    requires RtOk(rt, now) && now.NotAfter(at)
    ensures RtOk(OfferGap(rt, feed, reason, at), at) && Quiet(rt, OfferGap(rt, feed, reason, at))
  {
    hide EngineOk, RowsOk, StageOk, Quiet, Formed;
    LaterOk(rt, now, at);
    var after := OfferGap(rt, feed, reason, at);
    assert at.wall >= 0 && at.mono >= 0 by { EngineClock(rt.engine, at); }
    QuietSelf(rt, after);
    QuietKeepsOk(rt, after, now, at);
  }

  lemma EngineClock(s: State, now: Stamp)
    requires EngineOk(s, now)
    ensures now.wall >= 0 && now.mono >= 0
  {
  }

  lemma EnqueueKeeps(rt: Runtime, e: PriceEvent, now: Stamp)
    requires RtOk(rt, now) && e.Valid() && e.sequence >= 1 && ReceivedBy(e, now)
    ensures RtOk(Enqueue(rt, e), now) && Quiet(rt, Enqueue(rt, e))
  {
    hide EngineOk, RowsOk, StageOk, Quiet, Formed, PriceEvent.Valid;
    QuietSelf(rt, Enqueue(rt, e));
    QuietKeepsOk(rt, Enqueue(rt, e), now, now);
  }

  lemma AdmittedKeeps(rt: Runtime, e: PriceEvent, lateFull: bool, now: Stamp, at: Stamp)
    requires RtOk(rt, now) && now.NotAfter(at) && e.Valid() && e.sequence >= 1 && Stamp(e.wallNs, e.monoNs) == at
    ensures RtOk(Admitted(rt, e, lateFull), at) && Quiet(rt, Admitted(rt, e, lateFull))
  {
    hide RtOk, Quiet, SweepAll, Stop, Enqueue, PriceEvent.Valid;
    OkIsFormed(rt, now);
    var noted := rt.(lastAdmitted := Some(Stamp(e.wallNs, e.monoNs)));
    LaterOk(rt, now, at);
    BookkeepingOk(rt, noted, now);
    BookkeepingOk(rt, noted, at);
    var observed := if e.feed == Twap then SweepAll(noted, See(e)) else noted;
    if e.feed == Twap {
      SweepKeepsOk(noted, See(e), now, at);
      QuietThrough(rt, noted, observed);
    }
    OkIsFormed(observed, at);
    var checked := if e.feed == Twap && e.Causal() && lateFull then Stop(observed, false) else observed;
    StopKeepsOk(observed, false, at);
    QuietThrough(rt, observed, Stop(observed, false));
    OkIsFormed(checked, at);
    EnqueueKeeps(checked, e, at);
    QuietThrough(rt, checked, Enqueue(checked, e));
  }

  lemma OfferPriceKeeps(rt: Runtime, feed: Feed, value: int, sourceMs: int, eventId: string, lateFull: bool,
                        now: Stamp, at: Stamp)
    requires RtOk(rt, now) && now.NotAfter(at)
    ensures var after := OfferPrice(rt, feed, value, sourceMs, eventId, at, lateFull);
            RtOk(after, at) && Quiet(rt, after)
  {
    hide RtOk, Quiet, SweepAll, Stop, OfferGap, PriceEvent.Valid, Admitted, Backdated;
    OkIsFormed(rt, now);
    LaterOk(rt, now, at);
    QuietSelf(rt, rt);
    var counted := rt.(sequence := rt.sequence + 1);
    BookkeepingOk(rt, counted, now);
    BookkeepingOk(rt, counted, at);
    OkIsFormed(counted, now);
    var e := PriceEvent(feed, value, sourceMs, at.wall, at.mono, rt.sequence + 1, eventId);
    OfferGapKeeps(counted, feed, "invalid_ghost_input", now, at);
    QuietThrough(rt, counted, OfferGap(counted, feed, "invalid_ghost_input", at));
    StopKeepsOk(counted, true, at);
    QuietThrough(rt, counted, Stop(counted, true));
    if e.Valid() {
      AdmittedKeeps(counted, e, lateFull, now, at);
      QuietThrough(rt, counted, Admitted(counted, e, lateFull));
    }
  }

  // ---------------------------------------------------------------- calculation

  lemma EngineSwap(rt: Runtime, engine: State, queue: seq<Item>, now: Stamp)
    requires RtOk(rt, now) && EngineOk(engine, now) && QueueOk(queue, now)
    ensures RtOk(rt.(engine := engine, queue := queue), now) && Quiet(rt, rt.(engine := engine, queue := queue))
  {
    hide EngineOk, QueueOk, RowsOk, StageOk, Quiet;
    var after := rt.(engine := engine, queue := queue);
    QuietSelf(rt, after);
    QuietKeepsOk(rt, after, now, now);
  }

  lemma OkParts(rt: Runtime, now: Stamp)
    requires RtOk(rt, now)
    ensures Formed(rt) && EngineOk(rt.engine, now) && QueueOk(rt.queue, now) && RowsOk(rt.records, now)
  {
  }

  lemma DrainOneKeeps(rt: Runtime, item: Item, now: Stamp)
    requires RtOk(rt, now) && ItemOk(item, now)
    ensures RtOk(DrainOne(rt, item, now), now) && Quiet(rt, DrainOne(rt, item, now))
  {
    hide RtOk, Quiet, Stop, RecordGap, AcceptOutcome, EngineOk, QueueOk, PriceEvent.Valid;
    OkParts(rt, now);
    EngineClock(rt.engine, now);
    match item
    case GapItem(feed, reason, at) =>
      var clock := if at.Some? then at.value else now;
      GapKeepsEngine(rt.engine, feed, reason, clock, now);
      EngineThenStop(rt, RecordGap(rt.engine, feed, reason, Some(clock.wall), Some(clock.mono)).state, now);
    case PriceItem(e) =>
      AcceptKeepsEngine(rt.engine, e, now);
      EngineThenStop(rt, AcceptOutcome(rt.engine, e, Bounded).0, now);
  }

  lemma EngineThenStop(rt: Runtime, engine: State, now: Stamp)
    requires RtOk(rt, now) && EngineOk(engine, now)
    ensures var next := rt.(engine := engine);
            && Formed(next) && RtOk(next, now) && Quiet(rt, next)
            && RtOk(Stop(next, true), now) && Quiet(rt, Stop(next, true))
  {
    hide RtOk, Quiet, Stop, EngineOk, QueueOk;
    OkParts(rt, now);
    var next := rt.(engine := engine);
    EngineSwap(rt, engine, rt.queue, now);
    OkIsFormed(next, now);
    StopKeepsOk(next, true, now);
    QuietThrough(rt, next, Stop(next, true));
  }

  lemma {:induction false} DrainKeeps(rt: Runtime, now: Stamp)
    requires RtOk(rt, now)
    ensures RtOk(Drain(rt, now), now) && Quiet(rt, Drain(rt, now))
    decreases |rt.queue|
  {
    hide RtOk, Quiet, DrainOne, EngineOk, ItemOk;
    OkParts(rt, now);
    QuietSelf(rt, rt);
    if rt.queue != [] {
      var popped := rt.(queue := rt.queue[1..]);
      EngineSwap(rt, rt.engine, rt.queue[1..], now);
      OkIsFormed(popped, now);
      var next := DrainOne(popped, rt.queue[0], now);
      DrainOneKeeps(popped, rt.queue[0], now);
      DrainKeeps(next, now);
      QuietThrough(rt, popped, next);
      QuietThrough(rt, next, Drain(next, now));
    }
  }

  /** Rows already held keep evolving; at most the newest decision is new. */
  ghost predicate Advances(rt: Runtime, after: Runtime) {
    && (forall id :: id in rt.records ==> id in after.records && Evolves(rt.records[id], after.records[id]))
    && (forall id :: id in after.records ==> id in rt.records || (id == after.decisions && rt.decisions < id))
    && rt.decisions <= after.decisions && rt.epoch <= after.epoch
  }

  lemma QuietAdvances(rt: Runtime, after: Runtime)
    requires Quiet(rt, after)
    ensures Advances(rt, after)
  {
    hide Evolves;
  }

  lemma AdvancesAfterQuiet(rt: Runtime, mid: Runtime, after: Runtime)
    requires Quiet(rt, mid) && Advances(mid, after)
    ensures Advances(rt, after)
  {
    hide Evolves;
    forall id | id in rt.records ensures id in after.records && Evolves(rt.records[id], after.records[id]) {
      EvolvesThrough(rt.records[id], mid.records[id], after.records[id]);
    }
  }

  lemma QuietAfterAdvances(rt: Runtime, mid: Runtime, after: Runtime)
    requires Advances(rt, mid) && Quiet(mid, after)
    ensures Advances(rt, after)
  {
    hide Evolves;
    forall id | id in rt.records ensures id in after.records && Evolves(rt.records[id], after.records[id]) {
      EvolvesThrough(rt.records[id], mid.records[id], after.records[id]);
    }
  }

  lemma NewRowFacts(d: Decision, completed: Stamp, epoch: int)
    requires Readable(d) && Stamp(d.wallNs, d.monoNs).NotAfter(completed)
    ensures RowFacts(NewRow(d, completed, epoch), d.id, completed) && Unpublished(NewRow(d, completed, epoch))
  {
    hide ForecastSound, CarrySound, LiveInput, LiveRecovery;
    NewRowIsSound(d, completed, epoch, completed.mono);
  }

  lemma CoalescedRow(r: Row, id: int, now: Stamp)
    requires RowFacts(r, id, now) && Unpublished(r)
    ensures RowFacts(Changed(WithStatus(r, Coalesced)), id, now) && Evolves(r, Changed(WithStatus(r, Coalesced)))
    ensures Shaped(r)
  {
    hide RowInv, Readable, Evolves;
    StatusKeepsRow(r, Coalesced, now.mono);
    ChangedKeepsRow(WithStatus(r, Coalesced), now.mono);
    StatusEvolves(r, Coalesced);
    RowShape(r, now.mono);
  }

  lemma ReserveKeeps(rt: Runtime, d: Decision, completed: Stamp, now: Stamp)
    requires RtOk(rt, now) && Readable(d) && d.id == rt.decisions && d.id >= 1 && d.id !in rt.records
    requires Stamp(d.wallNs, d.monoNs).NotAfter(completed) && now.NotAfter(completed)
    ensures |d.forecasts| == 6 && RtOk(Reserve(rt, d, completed), completed)
    ensures var after := Reserve(rt, d, completed);
            && (forall id :: id in rt.records ==> id in after.records && Evolves(rt.records[id], after.records[id]))
            && after.records.Keys == rt.records.Keys + {d.id} && after.decisions == rt.decisions
            && after.auditing == rt.auditing && after.publishing == rt.publishing && after.closed == rt.closed
            && after.records[d.id].decision == d && after.pending == Some(d.id) && after.epoch == rt.epoch
            && after.records[d.id].epoch == rt.epoch
  {
    hide EngineOk, QueueOk, RowFacts, Evolves, Readable, Intending, NewRow;
    LaterOk(rt, now, completed);
    assert |d.forecasts| == 6 by { ReadableShape(d); }
    NewRowFacts(d, completed, rt.epoch);
    var after := Reserve(rt, d, completed);
    forall id | id in rt.records
      ensures RowFacts(after.records[id], id, completed) && Evolves(rt.records[id], after.records[id])
    {
      EvolvesFromSelf(rt.records[id]);
      if rt.pending == Some(id) { CoalescedRow(rt.records[id], id, completed); }
    }
    NewRowDecision(d, completed, rt.epoch);
  }

  lemma ReadableShape(d: Decision)
    requires Readable(d)
    ensures |d.forecasts| == 6
  {
  }

  lemma NewRowDecision(d: Decision, completed: Stamp, epoch: int)
    ensures NewRow(d, completed, epoch).decision == d && NewRow(d, completed, epoch).epoch == epoch
  {
  }

  /** What the calculation never touches. */
  predicate SameStages(rt: Runtime, after: Runtime) {
    after.publishing == rt.publishing && after.auditing == rt.auditing && after.closed == rt.closed
  }

  /** The pending decision is unchanged, taken away, or the newest one. */
  predicate PendingMoves(rt: Runtime, after: Runtime) {
    after.pending == rt.pending || after.pending.None?
    || (after.pending == Some(after.decisions) && rt.decisions < after.decisions)
  }

  /** A decision added by this step belongs to the epoch the step ends in. */
  predicate NewestEpoch(rt: Runtime, after: Runtime) {
    rt.decisions < after.decisions && after.decisions in after.records ==>
      after.records[after.decisions].epoch == after.epoch
  }

  lemma NoNewest(rt: Runtime, counted: Runtime, after: Runtime)
    requires Quiet(counted, after) && counted.decisions !in counted.records
    ensures NewestEpoch(rt, after)
  {
    hide QuietlyMoves;
  }

  /** Stopping in the middle of an issue. */
  lemma StopWhileIssuing(rt: Runtime, counted: Runtime, frozen: Runtime, now: Stamp, completed: Stamp)
    requires RtOk(frozen, now) && now.NotAfter(completed) && Advances(rt, counted) && Quiet(counted, frozen)
    requires SameStages(rt, counted) && PendingMoves(rt, counted) && counted.pending == rt.pending
    requires counted.decisions !in counted.records
    ensures Formed(frozen)
    ensures var after := Stop(frozen, false);
            RtOk(after, completed) && Advances(rt, after) && SameStages(rt, after) && PendingMoves(rt, after)
            && NewestEpoch(rt, after)
  {
    hide RtOk, Quiet, Advances, Stop;
    OkIsFormed(frozen, now);
    LaterOk(frozen, now, completed);
    StopKeepsOk(frozen, false, completed);
    QuietThrough(counted, frozen, Stop(frozen, false));
    QuietStages(counted, Stop(frozen, false));
    QuietAfterAdvances(rt, counted, Stop(frozen, false));
    NoNewest(rt, counted, Stop(frozen, false));
  }

  lemma FreezeKeeps(rt: Runtime, now: Stamp, completed: Stamp, oversized: bool)
    requires RtOk(rt, now) && now.NotAfter(completed)
    ensures var after := Freeze(rt, now, completed, oversized);
            RtOk(after, completed) && Advances(rt, after) && SameStages(rt, after) && PendingMoves(rt, after)
            && NewestEpoch(rt, after)
  {
    hide RtOk, Quiet, Stop, Snapshot, EngineOk, QueueOk, RowsOk, Readable, Reserve;
    OkParts(rt, now);
    var id := rt.decisions + 1;
    SnapshotKeepsEngine(rt.engine, id, now);
    var (engine, decision) := Snapshot(rt.engine, id, now.wall, now.mono, Bounded);
    var counted := rt.(decisions := id, engine := engine);
    CountedOk(rt, engine, now);
    AdvanceByCount(rt, counted);
    QuietSelf(counted, counted);
    StopWhileIssuing(rt, counted, counted, now, completed);
    if decision.Some? {
      var frozen := counted.(lastFrozen := Some(now));
      BookkeepingOk(counted, frozen, now);
      StopWhileIssuing(rt, counted, frozen, now, completed);
      ReserveAdvances(rt, frozen, decision.value, completed, now);
    }
  }

  /** The row an issue reserves holds exactly what the engine's snapshot decided. */
  lemma FreezeDecides(rt: Runtime, now: Stamp, completed: Stamp, oversized: bool)
    requires RtOk(rt, now)
    ensures Formed(rt)
    ensures var (after, d) := (Freeze(rt, now, completed, oversized),
                               Snapshot(rt.engine, rt.decisions + 1, now.wall, now.mono, Bounded).1);
            && after.decisions == rt.decisions + 1
            && (after.decisions in after.records ==>
                  d.Some? && after.records[after.decisions].decision == d.value && d.value.wallNs == now.wall)
  {
    hide RtOk, Quiet, Stop, Snapshot, EngineOk, QueueOk, RowsOk, Readable, NewRow;
    OkParts(rt, now);
    var id := rt.decisions + 1;
    SnapshotKeepsEngine(rt.engine, id, now);
    var (engine, decision) := Snapshot(rt.engine, id, now.wall, now.mono, Bounded);
    CountedOk(rt, engine, now);
    var counted := rt.(decisions := id, engine := engine);
    StopAddsNothing(counted, now);
    BookkeepingOk(counted, counted.(lastFrozen := Some(now)), now);
    StopAddsNothing(counted.(lastFrozen := Some(now)), now);
    if decision.Some? { NewRowHolds(decision.value, completed, rt.epoch); }
  }

  lemma NewRowHolds(d: Decision, completed: Stamp, epoch: int)
    ensures NewRow(d, completed, epoch).decision == d
  {
  }

  lemma StopAddsNothing(rt: Runtime, now: Stamp)
    requires RtOk(rt, now)
    ensures Formed(rt) && Stop(rt, false).records.Keys == rt.records.Keys && Stop(rt, false).decisions == rt.decisions
  {
    hide RtOk;
    OkIsFormed(rt, now);
    StopKeepsOk(rt, false, now);
  }

  lemma ReserveAdvances(rt: Runtime, frozen: Runtime, d: Decision, completed: Stamp, now: Stamp)
    requires RtOk(frozen, now) && Readable(d) && d.id == frozen.decisions && d.id >= 1
    requires Stamp(d.wallNs, d.monoNs).NotAfter(completed) && now.NotAfter(completed)
    requires frozen.records == rt.records && frozen.decisions == rt.decisions + 1 && rt.epoch == frozen.epoch
    requires d.id !in rt.records && SameStages(rt, frozen)
    ensures |d.forecasts| == 6 && Formed(frozen)
    ensures var after := Reserve(frozen, d, completed);
            RtOk(after, completed) && Advances(rt, after) && SameStages(rt, after) && PendingMoves(rt, after)
            && NewestEpoch(rt, after)
  {
    hide RtOk, Readable, Evolves, Reserve;
    OkIsFormed(frozen, now);
    ReadableShape(d);
    ReserveKeeps(frozen, d, completed, now);
  }

  lemma CountedOk(rt: Runtime, engine: State, now: Stamp)
    requires RtOk(rt, now) && EngineOk(engine, now)
    ensures RtOk(rt.(decisions := rt.decisions + 1, engine := engine), now)
    ensures rt.decisions + 1 !in rt.records
  {
    hide EngineOk, QueueOk, RowsOk, StageOk, Intending;
    var after := rt.(decisions := rt.decisions + 1, engine := engine);
    assert StageOk(after, now) by { StageIgnoresEngine(rt, after, now); }
  }

  lemma StageIgnoresEngine(rt: Runtime, after: Runtime, now: Stamp)
    requires Formed(rt) && Formed(after) && StageOk(rt, now)
    requires after.records == rt.records && after.pending == rt.pending && after.publishing == rt.publishing
    ensures StageOk(after, now)
  {
    hide Intending, OnItsWay, Unpublished;
  }

  lemma AdvanceByCount(rt: Runtime, counted: Runtime)
    requires counted.records == rt.records && rt.decisions <= counted.decisions && rt.epoch <= counted.epoch
    ensures Advances(rt, counted)
  {
    hide Evolves;
    forall id | id in rt.records
      ensures Evolves(rt.records[id], counted.records[id])
    {
      EvolvesFromSelf(rt.records[id]);
    }
  }

  lemma IssueKeeps(rt: Runtime, admission: Admission, oversized: bool, now: Stamp, at: Stamp, completed: Stamp)
    requires RtOk(rt, now) && now.NotAfter(at) && at.NotAfter(completed)
    ensures var after := Issue(rt, admission, oversized, at, completed);
            RtOk(after, completed) && Advances(rt, after) && SameStages(rt, after) && PendingMoves(rt, after)
            && NewestEpoch(rt, after)
  {
    hide RtOk, Quiet, Stop, Suspend, Freeze, Drain, Advances;
    OkIsFormed(rt, now);
    LaterOk(rt, now, at);
    DrainKeeps(rt, at);
    var drained := Drain(rt, at);
    OkIsFormed(drained, at);
    QuietAdvances(rt, drained);
    QuietStages(rt, drained);
    LaterOk(drained, at, completed);
    StopThenAdvances(rt, drained, completed);
    FreezeKeeps(drained, at, completed, oversized);
    AdvancesAfterQuiet(rt, drained, Freeze(drained, at, completed, oversized));
    if admission.SuspendFor? { SuspendThenAdvances(rt, drained, admission.scope, completed); }
  }

  lemma QuietStages(rt: Runtime, after: Runtime)
    requires Quiet(rt, after)
    ensures SameStages(rt, after) && PendingMoves(rt, after) && after.decisions == rt.decisions
    ensures after.pending == rt.pending
  {
    hide QuietlyMoves;
  }

  lemma StopThenAdvances(rt: Runtime, drained: Runtime, now: Stamp)
    requires RtOk(drained, now) && Quiet(rt, drained) && Formed(drained)
    ensures forall causal :: var after := Stop(drained, causal);
              RtOk(after, now) && Advances(rt, after) && SameStages(rt, after) && PendingMoves(rt, after)
              && after.decisions == rt.decisions
  {
    hide RtOk, Quiet, Stop, Advances;
    forall causal
      ensures var after := Stop(drained, causal);
              RtOk(after, now) && Advances(rt, after) && SameStages(rt, after) && PendingMoves(rt, after)
              && after.decisions == rt.decisions
    {
      StopKeepsOk(drained, causal, now);
      QuietThrough(rt, drained, Stop(drained, causal));
      QuietAdvances(rt, Stop(drained, causal));
      QuietStages(rt, Stop(drained, causal));
    }
  }

  lemma SuspendThenAdvances(rt: Runtime, drained: Runtime, scope: Scope, now: Stamp)
    requires RtOk(drained, now) && Quiet(rt, drained) && Formed(drained)
    ensures var after := Suspend(drained, scope);
            RtOk(after, now) && Advances(rt, after) && SameStages(rt, after) && PendingMoves(rt, after)
              && after.decisions == rt.decisions
  {
    hide RtOk, Quiet, Suspend, Advances;
    SuspendKeepsOk(drained, scope, now);
    QuietThrough(rt, drained, Suspend(drained, scope));
    QuietAdvances(rt, Suspend(drained, scope));
    QuietStages(rt, Suspend(drained, scope));
  }
}
