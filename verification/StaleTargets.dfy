/**
 No stale target over whole runs of the runtime: as long as the input queue does not
 overflow, no decision is handed to Redis with a horizon whose target stamp the runtime
 has ever admitted, and every target lies above all causal TWAP stamps admitted before
 its decision was issued.
 */
module StaleTargets {
  import opened Core
  import opened GhostTwap
  import opened GhostPayload
  import opened AuditRow
  import opened CompactAgreement
  import opened AuditHistory
  import opened PayloadAgreement
  import opened RuntimeModel
  import opened GhostSpool
  import opened RuntimeRuns
  import opened RuntimeSteps
  import opened PublicationSteps
  import opened RuntimeSafety
  import opened PublicationSafety
  import opened EpochFence
  import opened HeardTargets
  import EngineInvariants
  import EngineRuns

  // ---------------------------------------------------------------- the engine's newest causal stamp

  function Top(s: State): set<int> { if s.highWater.Some? then {s.highWater.value} else {} }

  /** The high water is the stamp of the current, unregressed anchor. */
  ghost predicate Aims(s: State) { EngineRuns.HighWaterInv(s, Top(s)) }

  predicate Reached(s: State, stamp: int) { s.highWater.Some? && stamp <= s.highWater.value }

  /** The high water does not fall, and still belongs to the anchor. */
  ghost predicate Climbs(s: State, after: State) {
    Aims(after) && forall stamp :: Reached(s, stamp) ==> Reached(after, stamp)
  }

  lemma Narrowed(s: State, after: State, stamps: set<int>)
    requires EngineRuns.HighWaterInv(after, stamps) && Top(s) <= stamps
    ensures Climbs(s, after) && forall t :: t in stamps ==> Reached(after, t)
  {
    if s.highWater.Some? { assert s.highWater.value in stamps; }
  }

  lemma GapClimbs(s: State, feed: Feed, reason: string, wall: Option<int>, mono: Option<int>)
    requires Aims(s)
    ensures Climbs(s, RecordGap(s, feed, reason, wall, mono).state)
  {
    hide EngineRuns.HighWaterInv, RecordGap;
    EngineRuns.GapKeepsHighWater(s, feed, reason, wall, mono, Top(s));
    Narrowed(s, RecordGap(s, feed, reason, wall, mono).state, Top(s));
  }

  lemma AcceptClimbs(s: State, e: PriceEvent)
    requires Aims(s) && s.policy.enabled
    ensures Climbs(s, AcceptOutcome(s, e, Bounded).0)
    ensures e.feed == Twap && e.Causal() ==>
              AcceptOutcome(s, e, Bounded).1 == Raised || Reached(AcceptOutcome(s, e, Bounded).0, e.sourceMs)
  {
    hide EngineRuns.HighWaterInv, AcceptOutcome;
    var all := Top(s) + (if EngineRuns.AcceptsCausalTwap(s, EngineRuns.AcceptOp(e), Bounded) then {e.sourceMs} else {});
    EngineRuns.AcceptKeepsHighWater(s, e, Bounded, Top(s), all);
    Narrowed(s, AcceptOutcome(s, e, Bounded).0, all);
    EnabledIsHeard(s, e);
  }

  lemma EnabledIsHeard(s: State, e: PriceEvent)
    requires s.policy.enabled
    ensures AcceptOutcome(s, e, Bounded).1 != Ignored
  {
    hide BridgeSequence, ResolveReconnect, Admit;
  }

  lemma SnapshotClimbs(s: State, id: int, wall: int, mono: int)
    requires Aims(s)
    ensures Climbs(s, Snapshot(s, id, wall, mono, Bounded).0)
  {
    hide EngineRuns.HighWaterInv, SnapshotState, Decide;
    EngineRuns.SnapshotKeepsHighWater(s, wall, mono, Bounded, Top(s));
    Narrowed(s, SnapshotState(s, wall, mono, Bounded), Top(s));
    StampedClimbs(s, wall, mono);
  }

  lemma StampedClimbs(s: State, wall: int, mono: int)
    requires Aims(s)
    ensures Climbs(s, s) && Climbs(s, s.(lastDecision := Some((wall, mono))))
  {
  }

  /** A priced forecast of this engine aims above every stamp it has reached. */
  lemma PricedIsAhead(s: State, id: int, wall: int, mono: int, i: int, stamp: int)
    requires Aims(s) && Reached(s, stamp) && 0 <= i < 6
    ensures var d := Snapshot(s, id, wall, mono, Bounded).1;
            d.Some? && d.value.forecasts[i].price.Some? ==>
              d.value.forecasts[i].target.Some? && stamp < d.value.forecasts[i].target.value
  {
    hide EngineRuns.HighWaterInv, SnapshotState, Decide;
    var ready := SnapshotState(s, wall, mono, Bounded);
    EngineRuns.SnapshotKeepsHighWater(s, wall, mono, Bounded, Top(s));
    Narrowed(s, ready, Top(s));
    if Decide(ready, id, wall, mono).forecasts[i].price.Some? {
      EngineRuns.PricedIsAboveHighWater(ready, id, wall, mono, i, Top(ready));
    }
  }

  // ---------------------------------------------------------------- admitted stamps are remembered

  predicate Queues(item: Item, stamp: int) {
    item.PriceItem? && item.event.feed == Twap && item.event.Causal() && item.event.sourceMs == stamp
  }

  ghost predicate Waits(queue: seq<Item>, stamp: int) { exists i :: 0 <= i < |queue| && Queues(queue[i], stamp) }

  /** The engine has reached the stamp, or will when the queue is drained, unless everything has stopped. */
  ghost predicate Remembers(rt: Runtime, stamp: int) {
    rt.stopped || Reached(rt.engine, stamp) || Waits(rt.queue, stamp)
  }

  /** The event a price offer makes. */
  function OfferedEvent(rt: Runtime, offer: Offer): PriceEvent
    requires offer.PriceOffer?
  {
    PriceEvent(offer.feed, offer.value, offer.sourceMs, offer.at.wall, offer.at.mono, rt.sequence + 1, offer.eventId)
  }

  /** The step admits a causal TWAP event with this stamp. */
  predicate AdmitsCausal(rt: Runtime, step: Step, stamp: int) {
    && step.Offered? && step.offer.PriceOffer? && step.offer.feed == Twap && step.offer.sourceMs == stamp
    && !rt.closed && !Backdated(rt, step.offer.at)
    && OfferedEvent(rt, step.offer).Valid() && OfferedEvent(rt, step.offer).Causal()
  }

  /** An input arrives at a full queue. */
  predicate Overflows(rt: Runtime, step: Step) {
    step.Offered? && (step.offer.PriceOffer? || step.offer.GapOffer?) && !rt.closed && |rt.queue| >= rt.queueMax
  }

  lemma WaitsLonger(queue: seq<Item>, item: Item, stamp: int)
    ensures Waits(queue, stamp) ==> Waits(queue + [item], stamp)
    ensures Queues(item, stamp) ==> Waits(queue + [item], stamp)
  {
    var more := queue + [item];
    if Waits(queue, stamp) {
      var i :| 0 <= i < |queue| && Queues(queue[i], stamp);
      assert Queues(more[i], stamp);
    }
    if Queues(item, stamp) { assert Queues(more[|queue|], stamp); }
  }

  lemma AdmittedQueues(rt: Runtime, e: PriceEvent, lateFull: bool)
    requires Formed(rt) && |rt.queue| < rt.queueMax
    ensures var after := Admitted(rt, e, lateFull);
            after.engine == rt.engine && after.queue == rt.queue + [PriceItem(e)] && (rt.stopped ==> after.stopped)
  {
    hide SweepAll, Stop;
    var noted := rt.(lastAdmitted := Some(Stamp(e.wallNs, e.monoNs)));
    SweepLasts(noted, See(e));
    StopLasts(SweepAll(noted, See(e)), false);
    SweepKeepsFlags(noted, See(e));
    StopKeepsBound(SweepAll(noted, See(e)), false);
  }

  lemma StopKeepsBound(rt: Runtime, causal: bool)
    requires Formed(rt)
    ensures Stop(rt, causal).queueMax == rt.queueMax
  {
    hide SweptRows, SweptDirty;
  }

  /** Without an overflow, an offer never loses a stamp, and an admitted one waits for the engine. */
  lemma OfferRemembers(rt: Runtime, offer: Offer, stamp: int)
    requires Formed(rt) && (offer.PriceOffer? || offer.GapOffer?) && !Overflows(rt, Offered(offer))
    requires Remembers(rt, stamp) || AdmitsCausal(rt, Offered(offer), stamp)
    ensures Remembers(ActOffer(rt, offer), stamp) && ActOffer(rt, offer).engine == rt.engine
  {
    hide Admitted, Stop, Waits, Reached, PriceEvent.Valid, PriceEvent.Causal;
    if rt.closed { return; }
    if offer.GapOffer? {
      WaitsLonger(rt.queue, GapItem(offer.feed, offer.reason, Some(offer.at)), stamp);
    } else {
      var counted, e := rt.(sequence := rt.sequence + 1), OfferedEvent(rt, offer);
      WaitsLonger(rt.queue, GapItem(offer.feed, "invalid_ghost_input", Some(offer.at)), stamp);
      WaitsLonger(rt.queue, PriceItem(e), stamp);
      StopLasts(counted, true);
      AdmittedQueues(counted, e, offer.lateFull);
    }
  }

  // ---------------------------------------------------------------- draining

  lemma DrainOneRemembers(rt: Runtime, item: Item, now: Stamp, stamp: int)
    requires Formed(rt) && Aims(rt.engine) && rt.engine.policy.enabled
    requires Remembers(rt, stamp) || Queues(item, stamp)
    ensures Aims(DrainOne(rt, item, now).engine) && Remembers(DrainOne(rt, item, now), stamp)
  {
    hide RecordGap, AcceptOutcome, Stop, Aims, Reached, Waits;
    match item
    case GapItem(feed, reason, at) =>
      var clock := if at.Some? then at.value else now;
      GapClimbs(rt.engine, feed, reason, Some(clock.wall), Some(clock.mono));
      StopLasts(rt.(engine := RecordGap(rt.engine, feed, reason, Some(clock.wall), Some(clock.mono)).state), true);
    case PriceItem(e) =>
      AcceptClimbs(rt.engine, e);
      StopLasts(rt.(engine := AcceptOutcome(rt.engine, e, Bounded).0), true);
  }

  lemma DrainOneAims(rt: Runtime, item: Item, now: Stamp)
    requires Formed(rt) && Aims(rt.engine) && rt.engine.policy.enabled
    ensures Aims(DrainOne(rt, item, now).engine)
  {
    hide RecordGap, AcceptOutcome, Stop, Aims, Reached;
    match item
    case GapItem(feed, reason, at) =>
      var clock := if at.Some? then at.value else now;
      GapClimbs(rt.engine, feed, reason, Some(clock.wall), Some(clock.mono));
      StopLasts(rt.(engine := RecordGap(rt.engine, feed, reason, Some(clock.wall), Some(clock.mono)).state), true);
    case PriceItem(e) =>
      AcceptClimbs(rt.engine, e);
      StopLasts(rt.(engine := AcceptOutcome(rt.engine, e, Bounded).0), true);
  }

  lemma FirstWaits(queue: seq<Item>, stamp: int)
    requires queue != []
    ensures Waits(queue, stamp) <==> Queues(queue[0], stamp) || Waits(queue[1..], stamp)
  {
    if Waits(queue, stamp) {
      var i :| 0 <= i < |queue| && Queues(queue[i], stamp);
      if i > 0 { assert Queues(queue[1..][i - 1], stamp); }
    }
    if Waits(queue[1..], stamp) {
      var i :| 0 <= i < |queue[1..]| && Queues(queue[1..][i], stamp);
      assert Queues(queue[i + 1], stamp);
    }
  }

  lemma RuntimeIsEnabled(rt: Runtime, now: Stamp)
    requires RtOk(rt, now)
    ensures rt.engine.policy.enabled
  {
    hide RowsOk, StageOk, QueueOk, EngineInvariants.Inv;
  }

  /** Once drained, every remembered stamp has been reached, or everything has stopped. */
  lemma {:induction false} DrainReaches(rt: Runtime, now: Stamp, stamp: int)
    requires RtOk(rt, now) && Aims(rt.engine)
    ensures Formed(rt) && Aims(Drain(rt, now).engine) && Drain(rt, now).queue == []
    ensures Remembers(rt, stamp) ==> Drain(rt, now).stopped || Reached(Drain(rt, now).engine, stamp)
    decreases |rt.queue|
  {
    hide RtOk, DrainOne, Aims, Reached, ItemOk, EngineOk, RowsOk;
    OkParts(rt, now);
    if rt.queue == [] {
      assert !Waits(rt.queue, stamp);
    } else {
      var popped := rt.(queue := rt.queue[1..]);
      PoppedIsOk(rt, now);
      RuntimeIsEnabled(rt, now);
      FirstWaits(rt.queue, stamp);
      DrainOneKeeps(popped, rt.queue[0], now);
      DrainOneAims(popped, rt.queue[0], now);
      if Remembers(rt, stamp) { DrainOneRemembers(popped, rt.queue[0], now, stamp); }
      DrainReaches(DrainOne(popped, rt.queue[0], now), now, stamp);
    }
  }

  lemma PoppedIsOk(rt: Runtime, now: Stamp)
    requires RtOk(rt, now) && rt.queue != []
    ensures RtOk(rt.(queue := rt.queue[1..]), now) && Formed(rt.(queue := rt.queue[1..])) && ItemOk(rt.queue[0], now)
  {
    hide RtOk, EngineOk, ItemOk, RowsOk, Formed;
    OkParts(rt, now);
    EngineSwap(rt, rt.engine, rt.queue[1..], now);
    OkIsFormed(rt.(queue := rt.queue[1..]), now);
  }

  // ---------------------------------------------------------------- every step

  /** An issue takes the engine where its snapshot leaves it. */
  lemma FreezeEngine(rt: Runtime, at: Stamp, completed: Stamp, oversized: bool)
    requires Formed(rt)
    ensures var after := Freeze(rt, at, completed, oversized);
            && after.engine == Snapshot(rt.engine, rt.decisions + 1, at.wall, at.mono, Bounded).0
            && after.queue == rt.queue && (rt.stopped ==> after.stopped)
  {
    hide Snapshot, Stop, NewRow;
    var counted := rt.(decisions := rt.decisions + 1,
                       engine := Snapshot(rt.engine, rt.decisions + 1, at.wall, at.mono, Bounded).0);
    StopLasts(counted, false);
    StopLasts(counted.(lastFrozen := Some(at)), false);
  }

  lemma FreezeAims(rt: Runtime, at: Stamp, completed: Stamp, oversized: bool)
    requires RtOk(rt, at) && Aims(rt.engine)
    ensures Formed(rt) && Climbs(rt.engine, Freeze(rt, at, completed, oversized).engine)
    ensures Freeze(rt, at, completed, oversized).queue == rt.queue
    ensures rt.stopped ==> Freeze(rt, at, completed, oversized).stopped
  {
    hide RtOk, Freeze, Snapshot, Climbs, Aims;
    OkIsFormed(rt, at);
    FreezeEngine(rt, at, completed, oversized);
    SnapshotClimbs(rt.engine, rt.decisions + 1, at.wall, at.mono);
  }

  lemma IssueRemembers(rt: Runtime, admission: Admission, oversized: bool, now: Stamp, at: Stamp, completed: Stamp,
                       stamp: int)
    requires RtOk(rt, now) && now.NotAfter(at) && Aims(rt.engine)
    ensures Formed(rt) && Aims(Issue(rt, admission, oversized, at, completed).engine)
    ensures Remembers(rt, stamp) ==> Remembers(Issue(rt, admission, oversized, at, completed), stamp)
  {
    hide RtOk, Drain, Freeze, Stop, Suspend, Aims, Reached, Waits;
    OkIsFormed(rt, now);
    LaterOk(rt, now, at);
    DrainReaches(rt, at, stamp);
    DrainKeeps(rt, at);
    var drained := Drain(rt, at);
    OkIsFormed(drained, at);
    FreezeAims(drained, at, completed, oversized);
    StopLasts(drained, true);
    StopLasts(drained, false);
    if admission.SuspendFor? { SuspendLasts(drained, admission.scope); }
  }

  lemma ShutRemembers(rt: Runtime, now: Stamp, at: Stamp, stamp: int)
    requires RtOk(rt, now) && now.NotAfter(at) && Aims(rt.engine)
    ensures Formed(rt) && Aims(ShutDown(rt, at).engine)
    ensures Remembers(rt, stamp) ==> Remembers(ShutDown(rt, at), stamp)
  {
    hide RtOk, Drain, SweepAll, Aims, Reached, Waits;
    OkIsFormed(rt, now);
    LaterOk(rt, now, at);
    DrainReaches(rt, at, stamp);
    SweepLasts(Drain(rt, at), End);
  }

  lemma LeavesRemembers(rt: Runtime, after: Runtime, stamp: int)
    requires Leaves(rt, after)
    ensures Remembers(rt, stamp) ==> Remembers(after, stamp)
  {
  }

  lemma AnyOfferRemembers(rt: Runtime, now: Stamp, offer: Offer, stamp: int)
    requires RtOk(rt, now) && Ordered(now, OfferReadings(offer)) && Aims(rt.engine)
    requires !Overflows(rt, Offered(offer))
    ensures Formed(rt) && Aims(ActOffer(rt, offer).engine)
    ensures Remembers(rt, stamp) || AdmitsCausal(rt, Offered(offer), stamp) ==> Remembers(ActOffer(rt, offer), stamp)
  {
    hide RtOk, Stop, Suspend, ShutDown, SweepAll, OfferPrice, OfferGap, Remembers, Aims, Overflows, AdmitsCausal;
    OkIsFormed(rt, now);
    match offer
    case PriceOffer(_, _, _, _, _, _) => OnlyPriceAdmits(rt, offer, stamp); QueueKeepsEngine(rt, offer, stamp);
    case GapOffer(_, _, _) => OnlyPriceAdmits(rt, offer, stamp); QueueKeepsEngine(rt, offer, stamp);
    case DueTick(at) =>
      SweepLasts(rt, Due(at.mono));
      LeavesRemembers(rt, SweepAll(rt, Due(at.mono)), stamp);
      OnlyPriceAdmits(rt, offer, stamp);
    case SuspendCall(scope) =>
      SuspendLasts(rt, scope);
      LeavesRemembers(rt, Suspend(rt, scope), stamp);
      OnlyPriceAdmits(rt, offer, stamp);
    case StopCall(causal) =>
      StopLasts(rt, causal);
      LeavesRemembers(rt, Stop(rt, causal), stamp);
      OnlyPriceAdmits(rt, offer, stamp);
    case ResumeCall =>
      SweepLasts(rt, Note(|rt.suspended|));
      LeavesRemembers(rt, Resume(rt), stamp);
      OnlyPriceAdmits(rt, offer, stamp);
    case ShutCall(at) =>
      ShutRemembers(rt, now, at, stamp);
      OnlyPriceAdmits(rt, offer, stamp);
  }

  lemma OnlyPriceAdmits(rt: Runtime, offer: Offer, stamp: int)
    ensures AdmitsCausal(rt, Offered(offer), stamp) ==> offer.PriceOffer?
  {
  }

  lemma QueueKeepsEngine(rt: Runtime, offer: Offer, stamp: int)
    requires Formed(rt) && (offer.PriceOffer? || offer.GapOffer?) && !Overflows(rt, Offered(offer))
    ensures ActOffer(rt, offer).engine == rt.engine
    ensures Remembers(rt, stamp) || AdmitsCausal(rt, Offered(offer), stamp) ==> Remembers(ActOffer(rt, offer), stamp)
  {
    hide Remembers, ActOffer, AdmitsCausal, Overflows;
    if Remembers(rt, stamp) || AdmitsCausal(rt, Offered(offer), stamp) { OfferRemembers(rt, offer, stamp); }
    OfferSparesEngine(rt, offer);
  }

  lemma OfferSparesEngine(rt: Runtime, offer: Offer)
    requires Formed(rt) && (offer.PriceOffer? || offer.GapOffer?)
    ensures ActOffer(rt, offer).engine == rt.engine
  {
    hide Stop, SweepAll, PriceEvent.Valid;
    if offer.PriceOffer? && !rt.closed {
      var counted, e := rt.(sequence := rt.sequence + 1), OfferedEvent(rt, offer);
      StopLasts(counted, true);
      var noted := counted.(lastAdmitted := Some(Stamp(e.wallNs, e.monoNs)));
      SweepLasts(noted, See(e));
      StopLasts(SweepAll(noted, See(e)), false);
      StopLasts(noted, false);
    }
  }

  lemma StepRemembers(w: World, step: Step, stamp: int)
    requires WorldOk(w) && Ordered(w.now, Readings(step)) && Formed(w.rt) && Aims(w.rt.engine)
    requires !Overflows(w.rt, step)
    ensures Aims(Apply(w, step).rt.engine)
    ensures Remembers(w.rt, stamp) || AdmitsCausal(w.rt, step, stamp) ==> Remembers(Apply(w, step).rt, stamp)
  {
    hide RtOk, LogOk, ActOffer, ActWork, ActAudit, Issue, Aims, Remembers, Overflows, AdmitsCausal, Leaves;
    match step
    case Offered(offer) => AnyOfferRemembers(w.rt, w.now, offer, stamp);
    case Worked(work) =>
      OnlyOffersAdmit(w.rt, step, stamp);
      WorkRemembers(w, work, stamp);
    case Audited(audit) =>
      OnlyOffersAdmit(w.rt, step, stamp);
      AuditLasts(w, audit);
      SameEngine(w.rt, ActAudit(w, audit).rt, stamp);
  }

  lemma WorkRemembers(w: World, work: Work, stamp: int)
    requires RtOk(w.rt, w.now) && Ordered(w.now, WorkReadings(work)) && Formed(w.rt) && Aims(w.rt.engine)
    ensures Aims(ActWork(w, work).rt.engine)
    ensures Remembers(w.rt, stamp) ==> Remembers(ActWork(w, work).rt, stamp)
  {
    hide RtOk, Issue, Aims, Remembers, Leaves;
    WorkLasts(w, work);
    if work.IssueWork? {
      IssueRemembers(w.rt, work.admission, work.oversized, w.now, work.at, work.completed, stamp);
    } else {
      hide ActWork;
      SameEngine(w.rt, ActWork(w, work).rt, stamp);
    }
  }

  lemma OnlyOffersAdmit(rt: Runtime, step: Step, stamp: int)
    ensures AdmitsCausal(rt, step, stamp) ==> step.Offered?
  {
  }

  lemma SameEngine(rt: Runtime, after: Runtime, stamp: int)
    requires Leaves(rt, after)
    ensures after.engine == rt.engine && (Remembers(rt, stamp) ==> Remembers(after, stamp))
  {
    LeavesRemembers(rt, after, stamp);
  }

  // ---------------------------------------------------------------- issuing

  lemma IssueIsAhead(rt: Runtime, admission: Admission, oversized: bool, now: Stamp, at: Stamp, completed: Stamp,
                     stamp: int, i: int)
    requires RtOk(rt, now) && now.NotAfter(at) && Aims(rt.engine) && Remembers(rt, stamp) && 0 <= i < 6
    ensures Formed(rt)
    ensures var after := Issue(rt, admission, oversized, at, completed);
            rt.decisions < after.decisions && after.decisions in after.records ==>
              var f := after.records[after.decisions].decision.forecasts[i];
              f.price.Some? ==> f.target.Some? && stamp < f.target.value
  {
    hide RtOk, Drain, Freeze, Stop, Suspend, Aims, Reached, Remembers, Snapshot, Quiet;
    OkIsFormed(rt, now);
    LaterOk(rt, now, at);
    DrainReaches(rt, at, stamp);
    DrainKeeps(rt, at);
    var drained := Drain(rt, at);
    OkIsFormed(drained, at);
    QuietShape(rt, drained);
    FreezeDecides(drained, at, completed, oversized);
    NothingIssued(drained, admission, at);
    if !drained.stopped {
      PricedIsAhead(drained.engine, drained.decisions + 1, at.wall, at.mono, i, stamp);
    }
  }

  /** The other ways an issue ends number no decision. */
  lemma NothingIssued(rt: Runtime, admission: Admission, now: Stamp)
    requires RtOk(rt, now)
    ensures Formed(rt) && Stop(rt, true).decisions == rt.decisions && Stop(rt, false).decisions == rt.decisions
    ensures admission.SuspendFor? ==> Suspend(rt, admission.scope).decisions == rt.decisions
  {
    hide RtOk, Stop, Suspend, Quiet;
    OkIsFormed(rt, now);
    StopKeepsOk(rt, true, now);
    StopKeepsOk(rt, false, now);
    QuietShape(rt, Stop(rt, true));
    QuietShape(rt, Stop(rt, false));
    if admission.SuspendFor? {
      SuspendKeepsOk(rt, admission.scope, now);
      QuietShape(rt, Suspend(rt, admission.scope));
    }
  }

  lemma StepIsAhead(w: World, step: Step, id: int, stamp: int, i: int)
    requires WorldOk(w) && Ordered(w.now, Readings(step)) && Formed(w.rt) && Aims(w.rt.engine)
    requires Remembers(w.rt, stamp) && 0 <= i < 6
    requires id in Apply(w, step).issued && id !in w.issued
    ensures var d := Apply(w, step).issued[id].decision;
            i < |d.forecasts| && (d.forecasts[i].price.Some? ==>
                                    d.forecasts[i].target.Some? && stamp < d.forecasts[i].target.value)
  {
    hide RtOk, LogOk, ActOffer, ActAudit, Issue, Aims, Remembers, Begin, Replied, Close, TryAttempt, OutboxWrite,
         OutboxFailure;
    match step
    case Offered(_) =>
    case Worked(work) =>
      if work.IssueWork? {
        IssueIsAhead(w.rt, work.admission, work.oversized, w.now, work.at, work.completed, stamp, i);
      }
      if work.OutboxWork? || work.OutboxError? { SpoolStepsMove(w, work); }
    case Audited(audit) => AuditorMoves(w, audit);
  }

  // ---------------------------------------------------------------- whole runs

  /** No input has arrived at a full queue before step `n`. */
  ghost predicate NoOverflow(start: World, steps: seq<Step>, n: nat)
    requires Formed(start.rt) && n <= |steps|
  {
    forall k: nat :: k < n ==> Formed(At(start, steps, k).rt) && !Overflows(At(start, steps, k).rt, steps[k])
  }

  lemma {:induction false} EngineAims(start: World, steps: seq<Step>, n: nat)
    requires Formed(start.rt) && Timely(start, steps) && WorldOk(start) && n <= |steps| && Aims(start.rt.engine)
    requires NoOverflow(start, steps, n)
    ensures Formed(At(start, steps, n).rt) && Aims(At(start, steps, n).rt.engine)
    decreases n
  {
    hide WorldOk, Apply, At, Aims, Overflows, Timely;
    AtStart(start, steps);
    if n > 0 {
      EngineAims(start, steps, n - 1);
      AtStep(start, steps, n - 1);
      StepRemembers(At(start, steps, n - 1), steps[n - 1], 0);
    }
  }

  lemma AtStart(start: World, steps: seq<Step>)
    requires Formed(start.rt)
    ensures At(start, steps, 0) == start
  {
    assert steps[..0] == [];
  }

  lemma {:induction false} AdmittedIsRemembered(start: World, steps: seq<Step>, k: nat, n: nat, stamp: int)
    requires Formed(start.rt) && Timely(start, steps) && WorldOk(start) && k < n <= |steps| && Aims(start.rt.engine)
    requires NoOverflow(start, steps, n) && AdmitsCausal(At(start, steps, k).rt, steps[k], stamp)
    ensures Formed(At(start, steps, n).rt) && Remembers(At(start, steps, n).rt, stamp)
    decreases n
  {
    hide WorldOk, Apply, At, Aims, Overflows, Timely, Remembers, AdmitsCausal;
    if k + 1 < n { AdmittedIsRemembered(start, steps, k, n - 1, stamp); }
    EngineAims(start, steps, n - 1);
    AtStep(start, steps, n - 1);
    StepRemembers(At(start, steps, n - 1), steps[n - 1], stamp);
  }

  /** A decision not yet issued when the stamp was admitted aims above it. */
  lemma {:induction false} IssuedIsAhead(start: World, steps: seq<Step>, k: nat, n: nat, id: int, stamp: int, i: int)
    requires Formed(start.rt) && Timely(start, steps) && WorldOk(start) && k < n <= |steps| && Aims(start.rt.engine)
    requires NoOverflow(start, steps, n) && AdmitsCausal(At(start, steps, k).rt, steps[k], stamp) && 0 <= i < 6
    requires id !in At(start, steps, k).issued && id in At(start, steps, n).issued
    ensures var d := At(start, steps, n).issued[id].decision;
            i < |d.forecasts| && (d.forecasts[i].price.Some? ==>
                                    d.forecasts[i].target.Some? && stamp < d.forecasts[i].target.value)
    decreases n
  {
    hide WorldOk, Apply, At, Aims, Overflows, Timely, Remembers, AdmitsCausal;
    var w, step := At(start, steps, n - 1), steps[n - 1];
    AtStep(start, steps, n - 1);
    if k == n - 1 {
      AdmissionIssuesNothing(w, step, stamp);
    } else if id in w.issued {
      IssuedIsAhead(start, steps, k, n - 1, id, stamp, i);
      StepHistory(w, step);
    } else {
      EngineAims(start, steps, n - 1);
      AdmittedIsRemembered(start, steps, k, n - 1, stamp);
      StepIsAhead(w, step, id, stamp, i);
    }
  }

  lemma AdmissionIssuesNothing(w: World, step: Step, stamp: int)
    requires Formed(w.rt) && AdmitsCausal(w.rt, step, stamp)
    ensures Apply(w, step).issued == w.issued
  {
    hide ActOffer;
  }

  /** What is handed over is priced at every horizon it offers. */
  lemma OfferedIsPriced(w: World, step: Step, i: int)
    requires WorldOk(w) && Ordered(w.now, Readings(step)) && 0 <= i < 6
    ensures Formed(w.rt)
    ensures var a := Apply(w, step);
            |a.attempts| > |w.attempts| && HORIZONS[i] in a.attempts[|w.attempts|].sent.eligible ==>
              var id := a.attempts[|w.attempts|].id;
              && id in w.issued && i < |w.issued[id].decision.forecasts|
              && w.issued[id].decision.forecasts[i].price.Some?
  {
    hide RtOk, LogOk, Apply, Exclusion;
    HandOverIsUnbarred(w, step, i);
    var a := Apply(w, step);
    if |a.attempts| > |w.attempts| && HORIZONS[i] in a.attempts[|w.attempts|].sent.eligible {
      var id := a.attempts[|w.attempts|].id;
      HeldOrigin(w, id);
      UnmaskedIsPriced(w.rt.records[id], i);
    }
  }

  lemma StartAims(policy: Policy, queueMax: nat, spoolMax: nat, now: Stamp, store: Rows)
    ensures Aims(RuntimeRuns.Init(policy, queueMax, spoolMax, now, store).rt.engine)
  {
  }

  /** The horizon's target lies above the stamp. */
  predicate AimsAbove(d: Decision, i: nat, stamp: int) {
    i < |d.forecasts| && d.forecasts[i].target.Some? && stamp < d.forecasts[i].target.value
  }

  /**
   No stale target is handed over: in a run of the runtime whose queue never overflows, the
   target of an offered horizon is the stamp of no causal TWAP event admitted at any earlier
   step, and lies above every one admitted before its decision was issued.
   */
  lemma OfferedTargetIsNew(policy: Policy, queueMax: nat, spoolMax: nat, now: Stamp, store: Rows, steps: seq<Step>,
                           k: nat, n: nat, i: int, stamp: int)
    requires RuntimePolicy(policy) && now.wall >= 0 && now.mono >= 0 && k < n < |steps| && 0 <= i < 6
    requires var start := RuntimeRuns.Init(policy, queueMax, spoolMax, now, store);
             && Timely(start, steps) && NoOverflow(start, steps, n)
             && AdmitsCausal(At(start, steps, k).rt, steps[k], stamp)
             && |At(start, steps, n + 1).attempts| > |At(start, steps, n).attempts|
    ensures var start := RuntimeRuns.Init(policy, queueMax, spoolMax, now, store);
            var entry := At(start, steps, n + 1).attempts[|At(start, steps, n).attempts|];
            HORIZONS[i] in entry.sent.eligible ==>
              && entry.id in At(start, steps, n).issued
              && (var d := At(start, steps, n).issued[entry.id].decision;
                  && i < |d.forecasts| && d.forecasts[i].target != Some(stamp)
                  && (entry.id !in At(start, steps, k).issued ==> AimsAbove(d, i, stamp)))
  {
    hide WorldOk, Apply, At, Aims, Overflows, Timely, AdmitsCausal, NoOverflow;
    var start := RuntimeRuns.Init(policy, queueMax, spoolMax, now, store);
    StartIsOk(policy, queueMax, spoolMax, now, store);
    StartAims(policy, queueMax, spoolMax, now, store);
    AtStep(start, steps, n);
    var w, entry := At(start, steps, n), At(start, steps, n + 1).attempts[|At(start, steps, n).attempts|];
    OfferedIsPriced(w, steps[n], i);
    if HORIZONS[i] in entry.sent.eligible {
      if entry.id in At(start, steps, k).issued {
        NothingHeardIsOffered(start, steps, k, n, i);
        HistoryGrows(start, steps, k, n);
        AdmittedIsHeard(At(start, steps, k).rt, steps[k], w.issued[entry.id].decision, i, stamp);
      } else {
        IssuedIsAhead(start, steps, k, n, entry.id, stamp, i);
      }
    }
  }

  lemma AdmittedIsHeard(rt: Runtime, step: Step, d: Decision, i: nat, stamp: int)
    requires AdmitsCausal(rt, step, stamp) && i < |d.forecasts|
    ensures !HearsTarget(step, d, i) ==> d.forecasts[i].target != Some(stamp)
  {
  }

  // ---------------------------------------------------------------- where remembered stamps come from

  /** The engine's high water, or the stamp of a queued causal TWAP event. */
  ghost predicate Sourced(rt: Runtime, stamp: int) { rt.engine.highWater == Some(stamp) || Waits(rt.queue, stamp) }

  lemma GapKeepsTop(s: State, feed: Feed, reason: string, wall: Option<int>, mono: Option<int>)
    ensures RecordGap(s, feed, reason, wall, mono).state.highWater == s.highWater
  {
    hide TransportGap, GapOutOfOrder, Without;
  }

  lemma AcceptTop(s: State, e: PriceEvent)
    requires Aims(s)
    ensures var after := AcceptOutcome(s, e, Bounded).0;
            after.highWater == s.highWater || (e.feed == Twap && e.Causal() && after.highWater == Some(e.sourceMs))
  {
    hide AcceptOutcome;
    var all := Top(s) + (if EngineRuns.AcceptsCausalTwap(s, EngineRuns.AcceptOp(e), Bounded) then {e.sourceMs} else {});
    EngineRuns.AcceptKeepsHighWater(s, e, Bounded, Top(s), all);
  }

  lemma SnapshotTop(s: State, id: int, wall: int, mono: int)
    ensures Snapshot(s, id, wall, mono, Bounded).0.highWater == s.highWater
  {
    hide PrunedHistory, Decide, Without;
  }

  lemma DrainOneSource(rt: Runtime, item: Item, now: Stamp, stamp: int)
    requires Formed(rt) && Aims(rt.engine)
    ensures Sourced(DrainOne(rt, item, now), stamp) ==> Sourced(rt, stamp) || Queues(item, stamp)
  {
    hide RecordGap, AcceptOutcome, Stop, Aims, Waits;
    match item
    case GapItem(feed, reason, at) =>
      var clock := if at.Some? then at.value else now;
      GapKeepsTop(rt.engine, feed, reason, Some(clock.wall), Some(clock.mono));
      StopLasts(rt.(engine := RecordGap(rt.engine, feed, reason, Some(clock.wall), Some(clock.mono)).state), true);
    case PriceItem(e) =>
      AcceptTop(rt.engine, e);
      StopLasts(rt.(engine := AcceptOutcome(rt.engine, e, Bounded).0), true);
  }

  lemma {:induction false} DrainSource(rt: Runtime, now: Stamp, stamp: int)
    requires RtOk(rt, now) && Aims(rt.engine)
    ensures Formed(rt) && (Sourced(Drain(rt, now), stamp) ==> Sourced(rt, stamp))
    decreases |rt.queue|
  {
    hide RtOk, DrainOne, Aims, Waits, ItemOk, EngineOk, RowsOk;
    OkParts(rt, now);
    if rt.queue != [] {
      var popped := rt.(queue := rt.queue[1..]);
      PoppedIsOk(rt, now);
      RuntimeIsEnabled(rt, now);
      FirstWaits(rt.queue, stamp);
      DrainOneKeeps(popped, rt.queue[0], now);
      DrainOneAims(popped, rt.queue[0], now);
      DrainOneSource(popped, rt.queue[0], now, stamp);
      DrainSource(DrainOne(popped, rt.queue[0], now), now, stamp);
    }
  }

  lemma FreezeSource(rt: Runtime, at: Stamp, completed: Stamp, oversized: bool, stamp: int)
    requires RtOk(rt, at)
    ensures Formed(rt) && (Sourced(Freeze(rt, at, completed, oversized), stamp) ==> Sourced(rt, stamp))
  {
    hide RtOk, Freeze, Snapshot, Waits;
    OkIsFormed(rt, at);
    FreezeEngine(rt, at, completed, oversized);
    SnapshotTop(rt.engine, rt.decisions + 1, at.wall, at.mono);
  }

  lemma IssueSource(rt: Runtime, admission: Admission, oversized: bool, now: Stamp, at: Stamp, completed: Stamp,
                    stamp: int)
    requires RtOk(rt, now) && now.NotAfter(at) && Aims(rt.engine)
    ensures Formed(rt) && (Sourced(Issue(rt, admission, oversized, at, completed), stamp) ==> Sourced(rt, stamp))
  {
    hide RtOk, Drain, Freeze, Stop, Suspend, Aims, Waits;
    OkIsFormed(rt, now);
    LaterOk(rt, now, at);
    DrainSource(rt, at, stamp);
    DrainKeeps(rt, at);
    var drained := Drain(rt, at);
    OkIsFormed(drained, at);
    FreezeSource(drained, at, completed, oversized, stamp);
    StopLasts(drained, true);
    StopLasts(drained, false);
    if admission.SuspendFor? { SuspendLasts(drained, admission.scope); }
  }

  /** Stamps enter through admitted events only, overflow or not. */
  lemma OfferSource(rt: Runtime, now: Stamp, offer: Offer, stamp: int)
    requires RtOk(rt, now) && Ordered(now, OfferReadings(offer)) && Aims(rt.engine)
    ensures Formed(rt)
    ensures Sourced(ActOffer(rt, offer), stamp) ==> Sourced(rt, stamp) || AdmitsCausal(rt, Offered(offer), stamp)
  {
    hide RtOk, Stop, Suspend, Drain, SweepAll, Aims, Waits, OfferPrice, OfferGap;
    OkIsFormed(rt, now);
    match offer
    case PriceOffer(_, _, _, _, _, _) => PriceSource(rt, offer, stamp);
    case GapOffer(feed, reason, at) => GapSource(rt, feed, reason, at, stamp);
    case DueTick(at) => SweepLasts(rt, Due(at.mono));
    case SuspendCall(scope) => SuspendLasts(rt, scope);
    case StopCall(causal) => StopLasts(rt, causal);
    case ResumeCall => SweepLasts(rt, Note(|rt.suspended|));
    case ShutCall(at) =>
      LaterOk(rt, now, at);
      DrainSource(rt, at, stamp);
      SweepLasts(Drain(rt, at), End);
  }

  lemma AppendedSource(queue: seq<Item>, more: seq<Item>, item: Item, stamp: int)
    requires (more == queue || more == OVERFLOW) && Waits(more + [item], stamp)
    ensures Waits(queue, stamp) || Queues(item, stamp)
  {
    var i :| 0 <= i < |more + [item]| && Queues((more + [item])[i], stamp);
    if i < |more| { assert Queues(more[i], stamp); }
  }

  lemma GapSource(rt: Runtime, feed: Feed, reason: string, at: Stamp, stamp: int)
    requires Formed(rt)
    ensures Sourced(OfferGap(rt, feed, reason, at), stamp) ==> Sourced(rt, stamp)
  {
    hide Waits;
    if !rt.closed && Waits(OfferGap(rt, feed, reason, at).queue, stamp) {
      var kept := if |rt.queue| >= rt.queueMax then OVERFLOW else rt.queue;
      AppendedSource(rt.queue, kept, GapItem(feed, reason, Some(at)), stamp);
    }
  }

  lemma PriceSource(rt: Runtime, offer: Offer, stamp: int)
    requires Formed(rt) && offer.PriceOffer?
    ensures Sourced(ActOffer(rt, offer), stamp) ==> Sourced(rt, stamp) || AdmitsCausal(rt, Offered(offer), stamp)
  {
    hide Stop, SweepAll, Waits, OfferGap, PriceEvent.Valid, PriceEvent.Causal;
    if rt.closed { return; }
    var counted, e := rt.(sequence := rt.sequence + 1), OfferedEvent(rt, offer);
    GapSource(counted, offer.feed, "invalid_ghost_input", offer.at, stamp);
    StopLasts(counted, true);
    var noted := counted.(lastAdmitted := Some(Stamp(e.wallNs, e.monoNs)));
    SweepLasts(noted, See(e));
    SweepKeepsFlags(noted, See(e));
    StopLasts(SweepAll(noted, See(e)), false);
    StopKeepsBound(SweepAll(noted, See(e)), false);
    StopLasts(noted, false);
    StopKeepsBound(noted, false);
    if e.Valid() && !Backdated(counted, offer.at) {
      var kept := if |rt.queue| >= rt.queueMax then OVERFLOW else rt.queue;
      assert Admitted(counted, e, offer.lateFull).queue == kept + [PriceItem(e)];
      if Waits(kept + [PriceItem(e)], stamp) { AppendedSource(rt.queue, kept, PriceItem(e), stamp); }
    }
  }

  lemma StepSource(w: World, step: Step, stamp: int)
    requires WorldOk(w) && Ordered(w.now, Readings(step)) && Formed(w.rt) && Aims(w.rt.engine)
    ensures Sourced(Apply(w, step).rt, stamp) ==> Sourced(w.rt, stamp) || AdmitsCausal(w.rt, step, stamp)
  {
    hide RtOk, LogOk, ActOffer, Issue, Aims, Waits, AdmitsCausal, ActAudit;
    match step
    case Offered(offer) => OfferSource(w.rt, w.now, offer, stamp);
    case Worked(work) =>
      WorkLasts(w, work);
      if work.IssueWork? {
        IssueSource(w.rt, work.admission, work.oversized, w.now, work.at, work.completed, stamp);
      } else {
        hide ActWork;
      }
    case Audited(audit) => AuditLasts(w, audit);
  }

  // ---------------------------------------------------------------- exactly when the target leads the whole feed

  lemma {:induction false} SourceWasAdmitted(start: World, steps: seq<Step>, n: nat, stamp: int) returns (k: nat)
    requires Formed(start.rt) && Timely(start, steps) && WorldOk(start) && n <= |steps| && Aims(start.rt.engine)
    requires NoOverflow(start, steps, n) && start.rt.queue == [] && start.rt.engine.highWater.None?
    requires Formed(At(start, steps, n).rt) && Sourced(At(start, steps, n).rt, stamp)
    ensures k < n && AdmitsCausal(At(start, steps, k).rt, steps[k], stamp)
    decreases n
  {
    hide WorldOk, Apply, At, Aims, Overflows, Timely, AdmitsCausal;
    AtStart(start, steps);
    assert n != 0;
    k := n - 1;
    AtStep(start, steps, n - 1);
    EngineAims(start, steps, n - 1);
    StepSource(At(start, steps, n - 1), steps[n - 1], stamp);
    if !AdmitsCausal(At(start, steps, n - 1).rt, steps[n - 1], stamp) {
      k := SourceWasAdmitted(start, steps, n - 1, stamp);
    }
  }

  /** A causal TWAP event at or beyond the target has reached the engine or waits in its queue. */
  ghost predicate Overtaken(rt: Runtime, target: int) {
    Reached(rt.engine, target) || exists i :: 0 <= i < |rt.queue| && QueuesFrom(rt.queue[i], target)
  }

  predicate QueuesFrom(item: Item, target: int) {
    item.PriceItem? && item.event.feed == Twap && item.event.Causal() && target <= item.event.sourceMs
  }

  lemma OvertakenHasSource(rt: Runtime, target: int) returns (stamp: int)
    requires Overtaken(rt, target)
    ensures target <= stamp && Sourced(rt, stamp)
  {
    if Reached(rt.engine, target) {
      stamp := rt.engine.highWater.value;
    } else {
      var i :| 0 <= i < |rt.queue| && QueuesFrom(rt.queue[i], target);
      stamp := rt.queue[i].event.sourceMs;
      assert Queues(rt.queue[i], stamp);
    }
  }

  lemma RememberedOvertakes(rt: Runtime, stamp: int, target: int)
    requires Remembers(rt, stamp) && !rt.stopped && target <= stamp
    ensures Overtaken(rt, target)
  {
    if Waits(rt.queue, stamp) {
      var i :| 0 <= i < |rt.queue| && Queues(rt.queue[i], stamp);
      assert QueuesFrom(rt.queue[i], target);
    }
  }

  /** Every causal TWAP stamp admitted before step `n` lies below the target. */
  ghost predicate LeadsFeed(start: World, steps: seq<Step>, n: nat, target: int)
    requires Formed(start.rt) && n <= |steps|
  {
    forall k: nat, stamp :: k < n && AdmitsCausal(At(start, steps, k).rt, steps[k], stamp) ==> stamp < target
  }

  /**
   A runtime that has not stopped tells by its own state whether a target leads the whole
   feed: exactly if neither its engine nor its queue holds a causal TWAP event at or beyond it.
   */
  lemma LeadsFeedExactly(policy: Policy, queueMax: nat, spoolMax: nat, now: Stamp, store: Rows, steps: seq<Step>,
                         n: nat, target: int)
    requires RuntimePolicy(policy) && now.wall >= 0 && now.mono >= 0 && n <= |steps|
    requires var start := RuntimeRuns.Init(policy, queueMax, spoolMax, now, store);
             Timely(start, steps) && NoOverflow(start, steps, n) && !At(start, steps, n).rt.stopped
    ensures var start := RuntimeRuns.Init(policy, queueMax, spoolMax, now, store);
            LeadsFeed(start, steps, n, target) <==> !Overtaken(At(start, steps, n).rt, target)
  {
    hide WorldOk, Apply, At, Aims, Overflows, Timely, AdmitsCausal, NoOverflow, Overtaken, Remembers, Sourced;
    var start := RuntimeRuns.Init(policy, queueMax, spoolMax, now, store);
    StartIsOk(policy, queueMax, spoolMax, now, store);
    StartAims(policy, queueMax, spoolMax, now, store);
    EngineAims(start, steps, n);
    if Overtaken(At(start, steps, n).rt, target) {
      var stamp := OvertakenHasSource(At(start, steps, n).rt, target);
      var k := SourceWasAdmitted(start, steps, n, stamp);
      assert !LeadsFeed(start, steps, n, target);
    } else {
      forall k: nat, stamp | k < n && AdmitsCausal(At(start, steps, k).rt, steps[k], stamp)
        ensures stamp < target
      {
        AdmittedIsRemembered(start, steps, k, n, stamp);
        if target <= stamp { RememberedOvertakes(At(start, steps, n).rt, stamp, target); }
      }
    }
  }
}
