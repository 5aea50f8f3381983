/**
 Whole runs of the runtime: reader offers, calculation, publication, audit and faults in
 any interleaving, with clocks that never run backwards, and what every reachable state
 keeps about the engine, the rows and the publication in progress.
 */
module RuntimeRuns {
  import opened Core
  import opened GhostTwap
  import opened GhostPayload
  import opened EngineRuns
  import opened EngineInvariants
  import opened DecisionFacts
  import opened AuditRow
  import opened CompactAgreement
  import opened AuditHistory
  import opened PayloadAgreement
  import opened RuntimeModel
  import opened GhostSpool
  import PrunedDecisions

  /**
   One hand-over to Redis, with what was true at that moment: the publication epoch, the
   horizons of the recorded intent, the horizons whose target had been received, and
   whether the outbox held the decision.
   */
  datatype Attempt = Attempt(id: int, sent: Wire, epoch: int, intended: seq<int>, received: set<int>, inOutbox: bool)

  datatype Origin = Origin(decision: Decision, epoch: int)

  datatype World = World(rt: Runtime, now: Stamp, spoolMax: nat, outbox: Rows, store: Rows,
                         issued: map<int, Origin>, attempts: seq<Attempt>)

  /** Readers, clocks and operators: what any task may do to the runtime at any time. */
  datatype Offer =
    | GapOffer(feed: Feed, reason: string, at: Stamp)
    | PriceOffer(feed: Feed, value: int, sourceMs: int, eventId: string, lateFull: bool, at: Stamp)
    | DueTick(at: Stamp)
    | SuspendCall(scope: Scope)
    | StopCall(causal: bool)
    | ResumeCall
    | ShutCall(at: Stamp)

  /** The calculation and publication workers. */
  datatype Work =
    | IssueWork(admission: Admission, oversized: bool, at: Stamp, completed: Stamp)
    | BeginWork(verdict: Verdict, checked: Stamp, at: Stamp)
    | OutboxWork
    | OutboxError(integrity: bool, applied: bool)
    | CancelWork
    | AttemptWork(verdict: Verdict, checked: Stamp, at: Stamp)
    | ReplyWork(outcome: RedisOutcome, at: Stamp)
    | CloseWork

  /** The audit worker. */
  datatype Audit =
    | PickAudit(id: int)
    | SaveAudit
    | StoreAudit
    | SettleAudit
    | UnlinkAudit
    | PopAudit
    | FailAudit(integrity: bool, applied: bool)
    | PreserveAudit(id: int)

  datatype Step = Offered(offer: Offer) | Worked(work: Work) | Audited(audit: Audit)

  function OfferReadings(offer: Offer): seq<Stamp> {
    match offer
    case GapOffer(_, _, at) => [at]
    case PriceOffer(_, _, _, _, _, at) => [at]
    case DueTick(at) => [at]
    case ShutCall(at) => [at]
    case _ => []
  }

  function WorkReadings(work: Work): seq<Stamp> {
    match work
    case IssueWork(_, _, at, completed) => [at, completed]
    case BeginWork(_, checked, at) => [checked, at]
    case AttemptWork(_, checked, at) => [checked, at]
    case ReplyWork(_, at) => [at]
    case _ => []
  }

  /** The clock readings a step takes, in order. */
  function Readings(step: Step): seq<Stamp> {
    match step
    case Offered(offer) => OfferReadings(offer)
    case Worked(work) => WorkReadings(work)
    case Audited(_) => []
  }

  predicate Ordered(from: Stamp, readings: seq<Stamp>)
    decreases |readings|
  {
    readings != [] ==> from.NotAfter(readings[0]) && Ordered(readings[0], readings[1..])
  }

  function Latest(from: Stamp, readings: seq<Stamp>): Stamp {
    if readings == [] then from else readings[|readings| - 1]
  }

  function Init(policy: Policy, queueMax: nat, spoolMax: nat, now: Stamp, store: Rows): World {
    World(RuntimeModel.Start(policy, queueMax), now, spoolMax, map[], store, map[], [])
  }

  // ---------------------------------------------------------------- durable effects

  function OutboxWrite(w: World): (after: World)
    requires Formed(w.rt)
    ensures Formed(after.rt)
  {
    if !w.rt.publishing.Spooling? then w
    else
      match Written(w.outbox, w.spoolMax, w.rt.publishing.record)
      case None => w.(rt := SpoolFailed(w.rt, true))
      case Some(outbox) => w.(outbox := outbox, rt := SpoolDone(w.rt))
  }

  function OutboxFailure(w: World, integrity: bool, applied: bool): (after: World)
    requires Formed(w.rt)
    ensures Formed(after.rt)
  {
    if !w.rt.publishing.Spooling? then w
    else
      var write := Written(w.outbox, w.spoolMax, w.rt.publishing.record);
      w.(outbox := if applied && write.Some? then write.value else w.outbox, rt := SpoolFailed(w.rt, integrity))
  }

  /** What the current audit write does to the outbox and the store, if it takes effect. */
  function AuditEffect(w: World): Option<(Rows, Rows)> {
    match w.rt.auditing
    case Saving(_, record) =>
      var o := Written(w.outbox, w.spoolMax, record);
      if o.Some? then Some((o.value, w.store)) else None
    case Persisting(_, record) =>
      var s := Persisted(w.store, record);
      if s.Some? then Some((w.outbox, s.value)) else None
    case Removing(_, record) =>
      var o := Removed(w.outbox, record);
      if o.Some? then Some((o.value, w.store)) else None
    case _ => Some((w.outbox, w.store))
  }

  /** The audit write of this stage completes, or raises and fails the pass. */
  function AuditWrite(w: World, next: Runtime): (after: World)
    requires Formed(w.rt) && Formed(next)
    ensures Formed(after.rt)
  {
    match AuditEffect(w)
    case None => w.(rt := AuditFailed(w.rt, true))
    case Some(durable) => w.(outbox := durable.0, store := durable.1, rt := next)
  }

  function AuditFailure(w: World, integrity: bool, applied: bool): (after: World)
    requires Formed(w.rt)
    ensures Formed(after.rt)
  {
    var effect := AuditEffect(w);
    var durable := if applied && effect.Some? then effect.value else (w.outbox, w.store);
    w.(outbox := durable.0, store := durable.1, rt := AuditFailed(w.rt, integrity))
  }

  function ReceivedTargets(r: Row): set<int>
    requires Shaped(r)
  {
    set i | 0 <= i < 6 && r.targets[i].first.Some? :: HORIZONS[i]
  }

  function Attempted(w: World, verdict: Verdict, checked: Stamp, at: Stamp): (after: World)
    requires Formed(w.rt)
    ensures Formed(after.rt)
  {
    var (rt, sent) := TryAttempt(w.rt, verdict, checked, at);
    if sent.None? || !w.rt.publishing.Spooled? then w.(rt := rt)
    else
      var id, live := w.rt.publishing.id, w.rt.publishing.live;
      var row := w.rt.records[id];
      w.(rt := rt,
         attempts := w.attempts + [Attempt(id, sent.value, w.rt.epoch, live.eligible, ReceivedTargets(row),
                                           id in w.outbox)])
  }

  function Issued(w: World, rt: Runtime): (after: World)
    ensures after.rt == rt
  {
    if rt.decisions > w.rt.decisions && rt.decisions in rt.records then
      var row := rt.records[rt.decisions];
      w.(rt := rt, issued := w.issued[rt.decisions := Origin(row.decision, row.epoch)])
    else w.(rt := rt)
  }

  /** While closing, every row is written to the outbox before the slow store. */
  function Preserve(w: World, id: int): (after: World)
    ensures after.rt == w.rt
  {
    if !w.rt.closed || !w.rt.auditing.Resting? || !w.rt.publishing.Idle? || id !in w.rt.records then w
    else
      var write := Written(w.outbox, w.spoolMax, w.rt.records[id]);
      if write.Some? then w.(outbox := write.value) else w
  }

  function ActOffer(rt: Runtime, offer: Offer): (after: Runtime)
    requires Formed(rt)
    ensures Formed(after)
  {
    match offer
    case GapOffer(feed, reason, at) => OfferGap(rt, feed, reason, at)
    case PriceOffer(feed, value, sourceMs, eventId, lateFull, at) =>
      OfferPrice(rt, feed, value, sourceMs, eventId, at, lateFull)
    case DueTick(at) => FinalizeDue(rt, at.mono)
    case SuspendCall(scope) => Suspend(rt, scope)
    case StopCall(causal) => Stop(rt, causal)
    case ResumeCall => Resume(rt)
    case ShutCall(at) => ShutDown(rt, at)
  }

  function ActWork(w: World, work: Work): (after: World)
    requires Formed(w.rt)
    ensures Formed(after.rt)
  {
    match work
    case IssueWork(admission, oversized, at, completed) => Issued(w, Issue(w.rt, admission, oversized, at, completed))
    case BeginWork(verdict, checked, at) => w.(rt := Begin(w.rt, verdict, checked, at))
    case OutboxWork => OutboxWrite(w)
    case OutboxError(integrity, applied) => OutboxFailure(w, integrity, applied)
    case CancelWork => w.(rt := SpoolCancelled(w.rt))
    case AttemptWork(verdict, checked, at) => Attempted(w, verdict, checked, at)
    case ReplyWork(outcome, at) => w.(rt := Replied(w.rt, outcome, at))
    case CloseWork => w.(rt := Close(w.rt))
  }

  function ActAudit(w: World, audit: Audit): (after: World)
    requires Formed(w.rt)
    ensures Formed(after.rt)
  {
    match audit
    case PickAudit(id) => w.(rt := TakeDirty(w.rt, id))
    case SaveAudit => if w.rt.auditing.Saving? then AuditWrite(w, Saved(w.rt)) else w
    case StoreAudit => if w.rt.auditing.Persisting? then AuditWrite(w, Stored(w.rt)) else w
    case SettleAudit => w.(rt := Settle(w.rt))
    case UnlinkAudit => if w.rt.auditing.Removing? then AuditWrite(w, Gone(w.rt)) else w
    case PopAudit => w.(rt := Pop(w.rt))
    case FailAudit(integrity, applied) => AuditFailure(w, integrity, applied)
    case PreserveAudit(id) => Preserve(w, id)
  }

  function Act(w: World, step: Step): (after: World)
    requires Formed(w.rt)
    ensures Formed(after.rt)
  {
    match step
    case Offered(offer) => w.(rt := ActOffer(w.rt, offer))
    case Worked(work) => ActWork(w, work)
    case Audited(audit) => ActAudit(w, audit)
  }

  function Apply(w: World, step: Step): (after: World)
    requires Formed(w.rt)
    ensures Formed(after.rt)
  {
    Act(w, step).(now := Latest(w.now, Readings(step)))
  }

  function Run(start: World, steps: seq<Step>): (after: World)
    requires Formed(start.rt)
    ensures Formed(after.rt)
  {
    if steps == [] then start else Apply(Run(start, steps[..|steps| - 1]), steps[|steps| - 1])
  }

  /** Every reading of the run is no earlier than the one before it. */
  predicate Timely(start: World, steps: seq<Step>)
    requires Formed(start.rt)
  {
    steps != [] ==>
      && Timely(start, steps[..|steps| - 1])
      && Ordered(Run(start, steps[..|steps| - 1]).now, Readings(steps[|steps| - 1]))
  }

  // ---------------------------------------------------------------- invariants of the runtime

  predicate ReceivedBy(e: PriceEvent, now: Stamp) { e.wallNs <= now.wall && e.monoNs <= now.mono }

  predicate ItemOk(item: Item, now: Stamp) {
    match item
    case GapItem(_, _, at) => at.Some? ==> 0 <= at.value.wall <= now.wall && 0 <= at.value.mono <= now.mono
    case PriceItem(e) => e.Valid() && e.sequence >= 1 && ReceivedBy(e, now)
  }

  ghost predicate EngineOk(s: State, now: Stamp) {
    && Inv(s) && RuntimePolicy(s.policy) && ReconnectBefore(s.reconnect, now)
    && (s.lastEvent.Some? ==> ReceivedBy(s.lastEvent.value, now))
    && now.wall >= 0 && now.mono >= 0
  }

  ghost predicate QueueOk(queue: seq<Item>, now: Stamp) {
    forall i :: 0 <= i < |queue| ==> ItemOk(queue[i], now)
  }

  ghost predicate RowFacts(r: Row, id: int, now: Stamp) {
    && RowInv(r, now.mono) && Readable(r.decision) && r.decision.id == id
    && Stamp(r.decision.wallNs, r.decision.monoNs).NotAfter(r.completed) && r.completed.NotAfter(now)
  }

  ghost predicate RowsOk(records: Rows, now: Stamp) {
    forall id :: id in records ==> RowFacts(records[id], id, now)
  }

  predicate Unpublished(r: Row) {
    r.publication == Publication(Reserved, None, None, None, None, None, false)
  }

  ghost predicate Intending(r: Row, live: Wire, now: Stamp) {
    && r.publication.status == Intent && r.publication.attempt.None? && r.publication.ack.None?
    && r.publication.failure.None?
    && r.publication.intent == Some(live.intended) && r.publication.payload == Some(live)
    && r.completed.NotAfter(live.intended) && live.intended.NotAfter(now) && Staged(r, live)
    && OffersUnmasked(r, live)
  }

  /** Whatever is unmasked now was eligible at the intent. */
  ghost predicate OffersUnmasked(r: Row, live: Wire)
    requires Shaped(r)
  {
    forall i :: 0 <= i < 6 && Exclusion(r, i).None? ==> HORIZONS[i] in live.eligible
  }

  predicate OnItsWay(r: Row) {
    && r.publication.status == Attempting && r.publication.attempt.Some? && r.publication.ack.None?
    && r.publication.failure.None? && TtlMs(r.decision, r.publication.attempt.value) >= 1
  }

  ghost predicate StageOk(rt: Runtime, now: Stamp)
    requires Formed(rt)
  {
    && (rt.pending.Some? ==> Unpublished(rt.records[rt.pending.value]))
    && (rt.publishing.Spooling? || rt.publishing.Spooled? ==>
          Intending(rt.records[rt.publishing.id], rt.publishing.live, now))
    && (rt.publishing.Sending? ==> OnItsWay(rt.records[rt.publishing.id]))
  }

  ghost predicate RtOk(rt: Runtime, now: Stamp) {
    Formed(rt) && EngineOk(rt.engine, now) && QueueOk(rt.queue, now) && RowsOk(rt.records, now) && StageOk(rt, now)
  }

  // ---------------------------------------------------------------- quiet changes

  /** A change that leaves the publication record alone. */
  predicate QuietlyMoves(r: Row, n: Row) {
    Evolves(r, n) && n.publication == r.publication && n.epoch == r.epoch
  }

  /** Rows only evolve, and whose turn it is stays. */
  ghost predicate Quiet(rt: Runtime, after: Runtime) {
    && after.records.Keys == rt.records.Keys
    && (forall id :: id in rt.records ==> QuietlyMoves(rt.records[id], after.records[id]))
    && after.decisions == rt.decisions && after.pending == rt.pending && after.publishing == rt.publishing
    && after.auditing == rt.auditing && after.closed == rt.closed
    && rt.epoch <= after.epoch && rt.dirty <= after.dirty
  }

  lemma QuietThrough(a: Runtime, b: Runtime, c: Runtime)
    requires Quiet(a, b) && Quiet(b, c)
    ensures Quiet(a, c)
  {
    hide Evolves;
    forall id | id in a.records ensures QuietlyMoves(a.records[id], c.records[id]) {
      EvolvesThrough(a.records[id], b.records[id], c.records[id]);
    }
  }

  lemma QuietSelf(rt: Runtime, after: Runtime)
    requires after.records == rt.records && after.decisions == rt.decisions && after.pending == rt.pending
    requires after.publishing == rt.publishing && after.auditing == rt.auditing && after.closed == rt.closed
    requires rt.epoch <= after.epoch && rt.dirty <= after.dirty
    ensures Quiet(rt, after)
  {
    hide Evolves;
    forall id | id in rt.records ensures QuietlyMoves(rt.records[id], after.records[id]) {
      EvolvesFromSelf(rt.records[id]);
    }
  }

  lemma LaterRow(r: Row, id: int, now: Stamp, later: Stamp)
    requires RowFacts(r, id, now) && now.NotAfter(later)
    ensures RowFacts(r, id, later)
  {
    hide RowInv, Readable;
    LaterKeepsRow(r, now.mono, later.mono);
  }

  lemma StagedStays(r: Row, n: Row, live: Wire, now: Stamp, later: Stamp)
    requires Intending(r, live, now) && QuietlyMoves(r, n) && now.NotAfter(later)
    ensures Intending(n, live, later)
  {
    hide WireShared, PublicationMoves, Derived;
    forall i | 0 <= i < 6 && Exclusion(n, i).None? ensures Exclusion(r, i).None? {
      assert TargetMoves(r.targets[i], n.targets[i]);
    }
  }

  /** Quiet changes keep whatever stage the publication is in. */
  lemma QuietKeepsStage(rt: Runtime, after: Runtime, now: Stamp, later: Stamp)
    requires Formed(rt) && Formed(after) && StageOk(rt, now) && Quiet(rt, after) && now.NotAfter(later)
    ensures StageOk(after, later)
  {
    hide Intending, QuietlyMoves;
    if rt.pending.Some? {
      assert Unpublished(after.records[rt.pending.value]) by {
        var id := rt.pending.value;
        assert QuietlyMoves(rt.records[id], after.records[id]);
        SamePublication(rt.records[id], after.records[id]);
      }
    }
    if rt.publishing.Spooling? || rt.publishing.Spooled? {
      StagedStays(rt.records[rt.publishing.id], after.records[rt.publishing.id], rt.publishing.live, now, later);
    }
    if rt.publishing.Sending? {
      SamePublication(rt.records[rt.publishing.id], after.records[rt.publishing.id]);
    }
  }

  lemma SamePublication(r: Row, n: Row)
    requires QuietlyMoves(r, n)
    ensures n.publication == r.publication && n.decision == r.decision && n.completed == r.completed
  {
  }

  // ---------------------------------------------------------------- sweeps

  predicate SweepOk(sweep: Sweep, now: Stamp, later: Stamp) {
    && now.NotAfter(later)
    && (sweep.See? ==>
          (var e := sweep.event;
           e.feed == Twap && e.Valid() && e.sequence >= 1 && Stamp(e.wallNs, e.monoNs) == later))
  }

  lemma SweptKeepsRow(sweep: Sweep, r: Row, id: int, now: Stamp, later: Stamp)
    requires RowFacts(r, id, now) && SweepOk(sweep, now, later)
    ensures RowFacts(Swept(sweep, r), id, later) && QuietlyMoves(r, Swept(sweep, r))
  {
    hide RowInv, Readable, Observe, Evolves;
    assert Shaped(r) by { RowShape(r, now.mono); }
    SweptEvolves(sweep, r, now.mono);
    EvolvesKeepsDecision(r, Swept(sweep, r));
    match sweep
    case Note(times) => NotedKeepsRow(r, times, now.mono); LaterKeepsRow(Swept(sweep, r), now.mono, later.mono);
    case Void => InvalidateKeepsRow(r, now.mono); LaterKeepsRow(Swept(sweep, r), now.mono, later.mono);
    case See(e) => AttemptIsPast(r, now.mono); ObserveKeepsInv(r, e, now.mono);
    case Due(mono) => EndKeepsRow(r, mono, now.mono); LaterKeepsRow(Swept(sweep, r), now.mono, later.mono);
    case End => EndKeepsRow(r, 0, now.mono); LaterKeepsRow(Swept(sweep, r), now.mono, later.mono);
  }

  lemma EvolvesKeepsDecision(r: Row, n: Row)
    requires Evolves(r, n)
    ensures n.decision == r.decision && n.completed == r.completed && r.version <= n.version
  {
  }

  lemma AttemptIsPast(r: Row, now: int)
    requires RowInv(r, now)
    ensures r.publication.attempt.Some? ==> r.publication.attempt.value.mono <= now
  {
  }

  lemma NotedKeepsRow(r: Row, times: nat, now: int)
    requires RowInv(r, now)
    ensures RowInv(r.(version := r.version + times), now)
  {
    hide ForecastSound, TargetInv, PublicationInv;
  }

  lemma SweepKeeps(rt: Runtime, sweep: Sweep, now: Stamp, later: Stamp)
    requires Formed(rt) && RowsOk(rt.records, now) && SweepOk(sweep, now, later)
    ensures RowsOk(SweepAll(rt, sweep).records, later) && Quiet(rt, SweepAll(rt, sweep))
  {
    hide RowFacts, Swept, QuietlyMoves, SweepOk;
    var after := SweepAll(rt, sweep);
    forall id | id in rt.records
      ensures RowFacts(after.records[id], id, later) && QuietlyMoves(rt.records[id], after.records[id])
    {
      SweptKeepsRow(sweep, rt.records[id], id, now, later);
    }
  }

  lemma LaterEngine(s: State, queue: seq<Item>, now: Stamp, later: Stamp)
    requires EngineOk(s, now) && QueueOk(queue, now) && now.NotAfter(later)
    ensures EngineOk(s, later) && QueueOk(queue, later)
  {
    hide Inv, RuntimePolicy, PriceEvent.Valid;
    forall i | 0 <= i < |queue| ensures ItemOk(queue[i], later) { assert ItemOk(queue[i], now); }
  }

  /** The common frame: rows moved quietly, engine and queue are fine. */
  lemma QuietKeepsOk(rt: Runtime, after: Runtime, now: Stamp, later: Stamp)
    requires RtOk(rt, now) && Formed(after) && Quiet(rt, after) && now.NotAfter(later)
    requires RowsOk(after.records, later) && EngineOk(after.engine, later) && QueueOk(after.queue, later)
    ensures RtOk(after, later)
  {
    hide EngineOk, QueueOk, RowsOk, Quiet, StageOk, Formed;
    QuietKeepsStage(rt, after, now, later);
  }

  lemma SweepKeepsOk(rt: Runtime, sweep: Sweep, now: Stamp, later: Stamp)
    requires RtOk(rt, now) && SweepOk(sweep, now, later)
    ensures RtOk(SweepAll(rt, sweep), later) && Quiet(rt, SweepAll(rt, sweep))
  {
    hide EngineOk, QueueOk, RowsOk, Quiet, StageOk;
    SweepKeeps(rt, sweep, now, later);
    LaterEngine(rt.engine, rt.queue, now, later);
    QuietKeepsOk(rt, SweepAll(rt, sweep), now, later);
  }

  lemma LaterOk(rt: Runtime, now: Stamp, later: Stamp)
    requires RtOk(rt, now) && now.NotAfter(later)
    ensures RtOk(rt, later)
  {
    hide EngineOk, QueueOk, RowFacts, Quiet, StageOk, Formed;
    LaterEngine(rt.engine, rt.queue, now, later);
    forall id | id in rt.records
      ensures RowFacts(rt.records[id], id, later)
    {
      LaterRow(rt.records[id], id, now, later);
    }
    QuietSelf(rt, rt);
    QuietKeepsStage(rt, rt, now, later);
  }

  /** Same rows and stage, other bookkeeping. */
  lemma BookkeepingOk(rt: Runtime, after: Runtime, now: Stamp)
    requires RtOk(rt, now) && after.engine == rt.engine && after.queue == rt.queue && after.records == rt.records
    requires after.decisions == rt.decisions && after.pending == rt.pending && after.publishing == rt.publishing
    requires after.auditing == rt.auditing && after.closed == rt.closed
    requires rt.epoch <= after.epoch && rt.dirty <= after.dirty
    ensures RtOk(after, now) && Quiet(rt, after)
  {
    hide EngineOk, QueueOk, RowFacts, StageOk, Quiet;
    QuietSelf(rt, after);
    QuietKeepsOk(rt, after, now, now);
  }

  lemma StopKeepsOk(rt: Runtime, causal: bool, now: Stamp)
    requires RtOk(rt, now)
    ensures RtOk(Stop(rt, causal), now) && Quiet(rt, Stop(rt, causal)) && Stop(rt, causal).stopped
  {
    hide RtOk, Quiet, Formed, SweepAll;
    assert Formed(rt) by { OkIsFormed(rt, now); }
    var swept := SweepAll(rt, Note(1));
    var noted := if rt.stopped then rt else swept.(stopped := true);
    SweepKeepsOk(rt, Note(1), now, now);
    QuietSelf(rt, rt);
    BookkeepingOk(swept, swept.(stopped := true), now);
    QuietThrough(rt, swept, swept.(stopped := true));
    OkIsFormed(noted, now);
    SweepKeepsOk(noted, Void, now, now);
    QuietThrough(rt, noted, SweepAll(noted, Void));
    SweepKeepsFlags(noted, Void);
  }

  lemma OkIsFormed(rt: Runtime, now: Stamp)
    requires RtOk(rt, now)
    ensures Formed(rt)
  {
  }

  lemma SweepKeepsFlags(rt: Runtime, sweep: Sweep)
    requires Formed(rt)
    ensures SweepAll(rt, sweep) == rt.(records := SweepAll(rt, sweep).records, dirty := SweepAll(rt, sweep).dirty)
  {
  }

  lemma SuspendKeepsOk(rt: Runtime, scope: Scope, now: Stamp)
    requires RtOk(rt, now)
    ensures RtOk(Suspend(rt, scope), now) && Quiet(rt, Suspend(rt, scope))
  {
    hide RtOk, Quiet, SweepAll;
    assert Formed(rt) by { OkIsFormed(rt, now); }
    var raised := rt.(epoch := rt.epoch + 1, suspended := rt.suspended + {scope});
    BookkeepingOk(rt, raised, now);
    SweepKeepsOk(raised, Note(1), now, now);
    QuietThrough(rt, raised, SweepAll(raised, Note(1)));
    QuietSelf(rt, rt);
  }

  lemma ResumeKeepsOk(rt: Runtime, now: Stamp)
    requires RtOk(rt, now)
    ensures RtOk(Resume(rt), now) && Quiet(rt, Resume(rt))
  {
    hide RtOk, Quiet, SweepAll;
    assert Formed(rt) by { OkIsFormed(rt, now); }
    var swept := SweepAll(rt, Note(|rt.suspended|));
    SweepKeepsOk(rt, Note(|rt.suspended|), now, now);
    SweepKeepsFlags(rt, Note(|rt.suspended|));
    BookkeepingOk(swept, swept.(suspended := {}), now);
    QuietThrough(rt, swept, swept.(suspended := {}));
    QuietSelf(rt, rt);
  }

  lemma IoFailureKeepsOk(rt: Runtime, scope: Scope, integrity: bool, now: Stamp)
    requires RtOk(rt, now)
    ensures RtOk(IoFailure(rt, scope, integrity), now) && Quiet(rt, IoFailure(rt, scope, integrity))
  {
    hide RtOk, Quiet, Stop, Suspend;
    assert Formed(rt) by { OkIsFormed(rt, now); }
    StopKeepsOk(rt, false, now);
    SuspendKeepsOk(rt, scope, now);
    QuietSelf(rt, rt);
  }
}
