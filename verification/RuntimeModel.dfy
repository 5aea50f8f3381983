/**
 The runtime's in-memory state (price_collector/ghost_twap_runtime.py) and what each of
 its atomic sections between two awaits does to it. Guard, campaign and size checks that
 depend on the outside arrive as inputs of the step that makes them.
 */
module RuntimeModel {
  import opened Core
  import opened GhostTwap
  import opened GhostPayload
  import opened AuditRow
  import opened AuditHistory

  /** A queued reader offer; an overflow marker has no clocks of its own. */
  datatype Item = GapItem(feed: Feed, reason: string, at: Option<Stamp>) | PriceItem(event: PriceEvent)

  datatype Scope = GuardScope | AuditScope | PublicationScope | CapacityScope

  datatype Publishing =
    | Idle
    | Spooling(id: int, live: Wire, record: Row)   // the outbox write has been handed over
    | Spooled(id: int, live: Wire)                 // it has completed
    | Sending(id: int)                             // Redis may have applied the bytes

  datatype Auditing =
    | Resting
    | Saving(id: int, record: Row)       // towards the outbox
    | Persisting(id: int, record: Row)   // towards the store
    | Committed(id: int, record: Row)    // the store holds it
    | Removing(id: int, record: Row)     // towards removal from the outbox
    | Unlinked(id: int, record: Row)     // removed from the outbox

  datatype Runtime = Runtime(engine: State, queueMax: nat, queue: seq<Item>, sequence: nat, decisions: int,
                             records: map<int, Row>, dirty: set<int>, pending: Option<int>, publishing: Publishing,
                             auditing: Auditing, epoch: int, suspended: set<Scope>, stopped: bool, closed: bool,
                             lastAdmitted: Option<Stamp>, lastFrozen: Option<Stamp>)

  predicate RowsFormed(records: map<int, Row>, decisions: int) {
    forall id | id in records :: 1 <= id <= decisions && Shaped(records[id])
  }

  /** Owned rows exist: the pending one, the publishing one, the one being audited. */
  predicate Formed(rt: Runtime) {
    && RowsFormed(rt.records, rt.decisions) && rt.decisions >= 0
    && (rt.pending.Some? ==> rt.pending.value in rt.records)
    && (!rt.publishing.Idle? ==> rt.publishing.id in rt.records && rt.pending != Some(rt.publishing.id))
    && (rt.publishing.Spooling? || rt.publishing.Spooled? ==> |rt.publishing.live.forecasts| == 6)
    && (!rt.auditing.Resting? ==> rt.auditing.id in rt.records)
    && (rt.auditing.Removing? || rt.auditing.Unlinked? ==> !Held(rt, rt.auditing.id))
  }

  /** The row still belongs to the publication worker. */
  predicate Held(rt: Runtime, id: int) {
    rt.pending == Some(id) || (!rt.publishing.Idle? && rt.publishing.id == id)
  }

  function Start(policy: Policy, queueMax: nat): Runtime {
    Runtime(Init(policy), queueMax, [], 0, 0, map[], {}, None, Idle, Resting, 0, {}, false, false, None, None)
  }

  // ---------------------------------------------------------------- sweeps, stops, suspensions

  function SweptRows(records: map<int, Row>, sweep: Sweep): map<int, Row>
    requires forall id | id in records :: Shaped(records[id])
  {
    map id | id in records :: Swept(sweep, records[id])
  }

  function SweptDirty(records: map<int, Row>, dirty: set<int>, sweep: Sweep): set<int>
    requires forall id | id in records :: Shaped(records[id])
  {
    dirty + set id | id in records && Swept(sweep, records[id]).version != records[id].version
  }

  function SweepAll(rt: Runtime, sweep: Sweep): (after: Runtime)
    requires Formed(rt)
    ensures Formed(after)
  {
    assert forall id | id in rt.records :: Shaped(Swept(sweep, rt.records[id]));
    rt.(records := SweptRows(rt.records, sweep), dirty := SweptDirty(rt.records, rt.dirty, sweep))
  }

  /** A stop is final; a clock-order reason also voids every row's leads. */
  function Stop(rt: Runtime, causal: bool): (after: Runtime)
    requires Formed(rt)
    ensures Formed(after)
  {
    var noted := if rt.stopped then rt else SweepAll(rt, Note(1)).(stopped := true);
    if causal then SweepAll(noted, Void) else noted
  }

  /** The first suspension of a scope fences every candidate of the current epoch. */
  function Suspend(rt: Runtime, scope: Scope): (after: Runtime)
    requires Formed(rt)
    ensures Formed(after)
  {
    if rt.stopped || scope in rt.suspended then rt
    else SweepAll(rt.(epoch := rt.epoch + 1, suspended := rt.suspended + {scope}), Note(1))
  }

  /** All scopes resume together once everything is saved and nothing is being published. */
  function Resume(rt: Runtime): (after: Runtime)
    requires Formed(rt)
    ensures Formed(after)
  {
    if rt.closed || rt.suspended == {} || rt.stopped || rt.dirty != {} || !rt.publishing.Idle? then rt
    else SweepAll(rt, Note(|rt.suspended|)).(suspended := {})
  }

  /** A failed write suspends its scope, or stops on an integrity fault; a closed runtime only counts it. */
  function IoFailure(rt: Runtime, scope: Scope, integrity: bool): (after: Runtime)
    requires Formed(rt)
    ensures Formed(after)
  {
    if rt.closed then rt else if integrity then Stop(rt, false) else Suspend(rt, scope)
  }

  // ---------------------------------------------------------------- reader offers

  const OVERFLOW: seq<Item> := [GapItem(Spot, "input_overflow", None), GapItem(Twap, "input_overflow", None)]

  function OfferGap(rt: Runtime, feed: Feed, reason: string, at: Stamp): (after: Runtime)
    requires Formed(rt)
    ensures Formed(after)
  {
    if rt.closed then rt
    else
      var kept := if |rt.queue| >= rt.queueMax then OVERFLOW else rt.queue;
      rt.(epoch := rt.epoch + 1, queue := kept + [GapItem(feed, reason, Some(at))])
  }

  /** The receipt clocks run behind an admitted receipt or a frozen decision. */
  predicate Backdated(rt: Runtime, at: Stamp) {
    || (rt.lastAdmitted.Some? && !rt.lastAdmitted.value.NotAfter(at))
    || (rt.lastFrozen.Some? && !rt.lastFrozen.value.NotAfter(at))
  }

  function Enqueue(rt: Runtime, e: PriceEvent): (after: Runtime)
    requires Formed(rt)
    ensures Formed(after)
  {
    if |rt.queue| >= rt.queueMax then rt.(epoch := rt.epoch + 1, queue := OVERFLOW + [PriceItem(e)])
    else rt.(queue := rt.queue + [PriceItem(e)])
  }

  /** A TWAP is matched against every open row before it is even queued. */
  function Admitted(rt: Runtime, e: PriceEvent, lateFull: bool): (after: Runtime)
    requires Formed(rt)
    ensures Formed(after)
  {
    var noted := rt.(lastAdmitted := Some(Stamp(e.wallNs, e.monoNs)));
    var observed := if e.feed == Twap then SweepAll(noted, See(e)) else noted;
    var checked := if e.feed == Twap && e.Causal() && lateFull then Stop(observed, false) else observed;
    Enqueue(checked, e)
  }

  function OfferPrice(rt: Runtime, feed: Feed, value: int, sourceMs: int, eventId: string, at: Stamp, lateFull: bool):
    (after: Runtime)
    requires Formed(rt)
    ensures Formed(after)
  {
    if rt.closed then rt
    else
      var counted := rt.(sequence := rt.sequence + 1);
      var e := PriceEvent(feed, value, sourceMs, at.wall, at.mono, rt.sequence + 1, eventId);
      if !e.Valid() then OfferGap(counted, feed, "invalid_ghost_input", at)
      else if Backdated(counted, at) then Stop(counted, true)
      else Admitted(counted, e, lateFull)
  }

  // ---------------------------------------------------------------- decisions

  function DrainOne(rt: Runtime, item: Item, now: Stamp): (after: Runtime)
    requires Formed(rt)
    ensures Formed(after) && after.queue == rt.queue
  {
    match item
    case GapItem(feed, reason, at) =>
      var clock := if at.Some? then at.value else now;
      var outcome := RecordGap(rt.engine, feed, reason, Some(clock.wall), Some(clock.mono));
      var next := rt.(engine := outcome.state);
      if outcome.raised then Stop(next, true) else next
    case PriceItem(e) =>
      var (engine, acceptance) := AcceptOutcome(rt.engine, e, Bounded);
      var next := rt.(engine := engine);
      if acceptance == Raised then Stop(next, true) else next
  }

  /** Nothing else runs between the drain and the snapshot. */
  function Drain(rt: Runtime, now: Stamp): (after: Runtime)
    requires Formed(rt)
    ensures Formed(after)
    decreases |rt.queue|
  {
    if rt.queue == [] then rt
    else Drain(DrainOne(rt.(queue := rt.queue[1..]), rt.queue[0], now), now)
  }

  datatype Admission = Allowed | Paused | SuspendFor(scope: Scope) | StopFor(causal: bool)

  /** The newest decision takes the place of a pending one that was never published. */
  function Reserve(rt: Runtime, d: Decision, completed: Stamp): (after: Runtime)
    requires Formed(rt) && |d.forecasts| == 6 && d.id == rt.decisions && d.id >= 1 && d.id !in rt.records
    ensures Formed(after)
  {
    var coalesced := if rt.pending.Some? then
                       rt.records[rt.pending.value := Changed(WithStatus(rt.records[rt.pending.value], Coalesced))]
                     else rt.records;
    rt.(records := coalesced[d.id := NewRow(d, completed, rt.epoch)],
        dirty := rt.dirty + {d.id} + (if rt.pending.Some? then {rt.pending.value} else {}),
        pending := Some(d.id))
  }

  /** Snapshot and reserve; a snapshot that raises fails the calculation worker. */
  function Freeze(rt: Runtime, now: Stamp, completed: Stamp, oversized: bool): (after: Runtime)
    requires Formed(rt)
    ensures Formed(after)
  {
    var id := rt.decisions + 1;
    var (engine, decision) := Snapshot(rt.engine, id, now.wall, now.mono, Bounded);
    var counted := rt.(decisions := id, engine := engine);
    match decision
    case None => Stop(counted, false)
    case Some(d) =>
      var frozen := counted.(lastFrozen := Some(now));
      if oversized then Stop(frozen, false) else Reserve(frozen, d, completed)
  }

  function Issue(rt: Runtime, admission: Admission, oversized: bool, now: Stamp, completed: Stamp): (after: Runtime)
    requires Formed(rt)
    ensures Formed(after)
  {
    var drained := Drain(rt, now);
    if drained.closed || drained.stopped then drained
    else
      match admission
      case StopFor(causal) => Stop(drained, causal)
      case SuspendFor(scope) =>
        if scope != GuardScope && drained.suspended != {} then drained else Suspend(drained, scope)
      case Paused => drained
      case Allowed => if drained.suspended != {} then drained else Freeze(drained, now, completed, oversized)
  }

  function FinalizeDue(rt: Runtime, mono: int): (after: Runtime)
    requires Formed(rt)
    ensures Formed(after)
  {
    SweepAll(rt, Due(mono))
  }

  // ---------------------------------------------------------------- publication

  datatype Verdict = GuardFresh | GuardStale | DeadlinePassed

  /** Of the current epoch, in an undisturbed runtime. */
  predicate Current(rt: Runtime, r: Row) {
    !rt.closed && !rt.stopped && !r.terminal && rt.suspended == {} && r.epoch == rt.epoch
  }

  predicate HasTime(d: Decision, now: Stamp) {
    now.wall < d.validUntilNs && now.mono - d.monoNs < d.validUntilNs - d.wallNs
  }

  function Publishable(rt: Runtime, id: int, now: Stamp, verdict: Verdict): (r: (Runtime, bool))
    requires Formed(rt) && id in rt.records
    ensures Formed(r.0)
  {
    var d := rt.records[id].decision;
    if !Current(rt, rt.records[id]) then (rt, false)
    else if now.mono < d.monoNs || now.wall < d.wallNs then (Stop(rt, true), false)
    else if !HasTime(d, now) then (rt, false)
    else
      match verdict
      case GuardStale => (Suspend(rt, GuardScope), false)
      case DeadlinePassed => (Stop(rt, false), false)
      case GuardFresh => (rt, true)
  }

  function Replace(rt: Runtime, id: int, r: Row): (after: Runtime)
    requires Formed(rt) && id in rt.records && Shaped(r)
    ensures Formed(after)
  {
    rt.(records := rt.records[id := r], dirty := rt.dirty + {id})
  }

  /** Take the pending decision, check it, mask it and hand its intent to the outbox. */
  function Begin(rt: Runtime, verdict: Verdict, checked: Stamp, now: Stamp): (after: Runtime)
    requires Formed(rt)
    ensures Formed(after)
  {
    if rt.pending.None? || !rt.publishing.Idle? then rt
    else
      var id := rt.pending.value;
      var (c, ok) := Publishable(rt, id, checked, verdict);
      var (row, live) := BeginPublish(c.records[id], ok, now);
      var saved := Replace(c, id, row).(pending := None);
      if live.Some? then saved.(publishing := Spooling(id, live.value, row)) else saved
  }

  /** The outbox write completed. */
  function SpoolDone(rt: Runtime): (after: Runtime)
    requires Formed(rt)
    ensures Formed(after)
  {
    if rt.publishing.Spooling? then rt.(publishing := Spooled(rt.publishing.id, rt.publishing.live)) else rt
  }

  /** The outbox write failed: the reservation stays, nothing is sent. */
  function SpoolFailed(rt: Runtime, integrity: bool): (after: Runtime)
    requires Formed(rt)
    ensures Formed(after)
  {
    if !rt.publishing.Spooling? then rt
    else
      var id := rt.publishing.id;
      IoFailure(Replace(rt, id, Changed(WithStatus(rt.records[id], SpoolUnavailable))), PublicationScope, integrity)
      .(publishing := Idle)
  }

  /** Cancelled while waiting for the outbox. */
  function SpoolCancelled(rt: Runtime): (after: Runtime)
    requires Formed(rt)
    ensures Formed(after)
  {
    if rt.publishing.Spooling? || rt.publishing.Spooled? then rt.(publishing := Idle) else rt
  }

  /** Check and mask once more, then hand the bytes to Redis. */
  function TryAttempt(rt: Runtime, verdict: Verdict, checked: Stamp, now: Stamp): (r: (Runtime, Option<Wire>))
    requires Formed(rt)
    ensures Formed(r.0)
  {
    if !rt.publishing.Spooled? then (rt, None)
    else
      var id := rt.publishing.id;
      var (c, ok) := Publishable(rt, id, checked, verdict);
      var (row, sent) := AttemptPublish(c.records[id], rt.publishing.live, ok, now);
      (Replace(c, id, row).(publishing := if sent.Some? then Sending(id) else Idle), sent)
  }

  function Replied(rt: Runtime, outcome: RedisOutcome, now: Stamp): (after: Runtime)
    requires Formed(rt)
    ensures Formed(after)
  {
    if !rt.publishing.Sending? then rt
    else
      var id := rt.publishing.id;
      Replace(rt, id, FinishPublish(rt.records[id], outcome, now)).(publishing := Idle)
  }

  // ---------------------------------------------------------------- audit

  /** The audit pass takes a snapshot of one dirty row. */
  function TakeDirty(rt: Runtime, id: int): (after: Runtime)
    requires Formed(rt)
    ensures Formed(after)
  {
    if !rt.auditing.Resting? || id !in rt.dirty then rt
    else if id !in rt.records then rt.(dirty := rt.dirty - {id})
    else rt.(auditing := Saving(id, rt.records[id]))
  }

  function Saved(rt: Runtime): (after: Runtime)
    requires Formed(rt)
    ensures Formed(after)
  {
    if rt.auditing.Saving? then rt.(auditing := Persisting(rt.auditing.id, rt.auditing.record)) else rt
  }

  function Stored(rt: Runtime): (after: Runtime)
    requires Formed(rt)
    ensures Formed(after)
  {
    if rt.auditing.Persisting? then rt.(auditing := Committed(rt.auditing.id, rt.auditing.record)) else rt
  }

  /** After the commit: clean if nothing changed meanwhile, and done if it was the end of the row. */
  function Settle(rt: Runtime): (after: Runtime)
    requires Formed(rt)
    ensures Formed(after)
  {
    if !rt.auditing.Committed? then rt
    else
      var id, record := rt.auditing.id, rt.auditing.record;
      if rt.records[id].version != record.version then rt.(auditing := Resting)
      else
        var clean := rt.(dirty := rt.dirty - {id});
        if rt.records[id].terminal && !Held(rt, id) then clean.(auditing := Removing(id, record))
        else clean.(auditing := Resting)
  }

  function Gone(rt: Runtime): (after: Runtime)
    requires Formed(rt)
    ensures Formed(after)
  {
    if rt.auditing.Removing? then rt.(auditing := Unlinked(rt.auditing.id, rt.auditing.record)) else rt
  }

  /** The row leaves memory unless it changed while its outbox file was removed. */
  function Pop(rt: Runtime): (after: Runtime)
    requires Formed(rt)
    ensures Formed(after)
  {
    if !rt.auditing.Unlinked? then rt
    else
      var id := rt.auditing.id;
      var resting := rt.(auditing := Resting);
      if rt.records[id].version == rt.auditing.record.version then resting.(records := rt.records - {id}) else resting
  }

  /** Any audit write may fail, before or after it took effect. */
  function AuditFailed(rt: Runtime, integrity: bool): (after: Runtime)
    requires Formed(rt)
    ensures Formed(after)
  {
    if rt.auditing.Resting? then rt
    else IoFailure(rt.(auditing := Resting, dirty := rt.dirty + {rt.auditing.id}), AuditScope, integrity)
  }

  // ---------------------------------------------------------------- shutdown

  function Close(rt: Runtime): (after: Runtime)
    requires Formed(rt)
    ensures Formed(after)
  {
    if rt.closed then rt else rt.(closed := true, epoch := rt.epoch + 1, pending := None)
  }

  /** Once the workers are quiet, drain the inputs and end every row. */
  function ShutDown(rt: Runtime, now: Stamp): (after: Runtime)
    requires Formed(rt)
    ensures Formed(after)
  {
    if !rt.closed || !rt.publishing.Idle? || !rt.auditing.Resting? then rt
    else SweepAll(Drain(rt, now), End)
  }
}
