/**
 Watermark completeness: the runtime, the late target events it forwards to the store, the
 maintenance worker that compacts stored rows and the monitor that reads watermarks and
 hourly rows, interleaved in any way. Each decision
 created before the reported end of the completed window is counted in the hourly rows
 the monitor used, and no decision is compacted while the runtime can still change it.
 */
module Watermark {
  import opened Core
  import opened GhostTwap
  import opened GhostPayload
  import opened AuditRow
  import opened AuditHistory
  import opened RuntimeModel
  import opened GhostSpool
  import opened RuntimeRuns
  import opened RuntimeSteps
  import opened PublicationSteps
  import opened RuntimeSafety
  import opened PublicationSafety
  import opened CrashSafety
  import opened EpochFence
  import opened LateTargets
  import Accuracy
  import CompactAgreement
  import PayloadAgreement

  /** One maintenance pass: the identities it must leave alone, and its clock. */
  datatype Pass = Pass(excluded: set<int>, nowMs: int)

  /** The audit task forwards one event; it leaves the rows alone that memory held when it began. */
  datatype Forward = Forward(event: PriceEvent, excluded: set<int>)

  /** How far the monitor has read: the runtime, the active rows, the hourly rows. */
  datatype Monitor =
    | Unread
    | RuntimeRead(nowMs: int, runtimeMs: int)
    | ActiveRead(nowMs: int, watermarkMs: int)
    | HoursRead(endMs: int, counted: set<int>)

  /** The runtime's world, the stored rows already compacted into hourly rows, and both workers. */
  datatype Site = Site(w: World, compacted: set<int>, pass: Option<Pass>, late: Option<Forward>, monitor: Monitor)

  datatype Move =
    | RuntimeMove(step: Step)
    | CaptureActive(at: Stamp)
    | CompactRow(id: int)
    | EndPass
    | CaptureLate(event: PriceEvent)
    | NoteLate(id: int)
    | EndLate
    | ReadRuntime(first: Stamp, at: Stamp)   // the monitor's own clock, then the runtime's
    | ReadActive
    | ReadHours

  function CreatedMs(d: Decision): int { d.wallNs / NS_PER_MS }

  function MinOf(values: set<int>, fallback: int): (m: int)
    ensures forall v :: v in values ==> m <= v
    ensures values == {} ==> m == fallback
    ensures values != {} ==> m in values
  {
    if values == {} then fallback
    else
      var negated := set v | v in values :: -v;
      var some := MaxOf(values);
      assert -some in negated;
      var top := MaxOf(negated);
      assert forall v :: v in values ==> -v in negated;
      -top
  }

  /** The runtime's own watermark: its oldest row, or now. */
  function RuntimeWatermark(rt: Runtime, nowMs: int): int {
    MinOf(set id | id in rt.records :: CreatedMs(rt.records[id].decision), nowMs)
  }

  /** The oldest stored row that is not compacted yet lowers it further. */
  function ActiveWatermark(s: Site, runtimeMs: int): int {
    var active := set id | id in s.w.store && id !in s.compacted :: CreatedMs(s.w.store[id].decision);
    Min(runtimeMs, MinOf(active, runtimeMs))
  }

  function HourFloor(ms: int): int { ms / Accuracy.HOUR_MS * Accuracy.HOUR_MS }

  /** The end of the completed window. */
  function CompletedEnd(nowMs: int, watermarkMs: int): int {
    Min(HourFloor(nowMs - 120_000), HourFloor(watermarkMs))
  }

  predicate MayCompact(s: Site, id: int) {
    && s.pass.Some? && id in s.w.store && id !in s.compacted && id !in s.pass.value.excluded
    && s.w.store[id].terminal && s.w.store[id].decision.wallNs <= (s.pass.value.nowMs - 120_000) * NS_PER_MS
    && Compactable(s.w.store[id], s.pass.value.nowMs * NS_PER_MS)
  }

  /** A finished stored row that is not compacted yet and was not held when the forwarding began. */
  predicate MayNote(s: Site, id: int) {
    s.late.Some? && id in s.w.store && id !in s.compacted && id !in s.late.value.excluded && s.w.store[id].terminal
  }

  /** The audit task takes no step of its own while it forwards. */
  predicate Busy(s: Site, step: Step) { s.late.Some? && step.Audited? }

  function At(w: World, at: Stamp): World { w.(now := at) }

  function MovedSite(s: Site, m: Move): (t: Site)
    requires Formed(s.w.rt)
    ensures Formed(t.w.rt)
  {
    match m
    case RuntimeMove(step) => if Busy(s, step) then s else s.(w := Apply(s.w, step))
    case CaptureActive(at) => s.(w := At(s.w, at), pass := Some(Pass(s.w.rt.records.Keys, at.wall / NS_PER_MS)))
    case CompactRow(id) => if MayCompact(s, id) then s.(compacted := s.compacted + {id}) else s
    case EndPass => s.(pass := None)
    case CaptureLate(e) =>
      if s.w.rt.auditing.Resting? && Forwardable(e) then s.(late := Some(Forward(e, s.w.rt.records.Keys))) else s
    case NoteLate(id) => if MayNote(s, id) then s.(w := Noted(s.w, id, s.late.value.event)) else s
    case EndLate => s.(late := None)
    case ReadRuntime(first, at) =>
      s.(w := At(s.w, at), monitor := RuntimeRead(first.wall / NS_PER_MS,
                                                  RuntimeWatermark(s.w.rt, at.wall / NS_PER_MS)))
    case ReadActive =>
      if s.monitor.RuntimeRead?
      then s.(monitor := ActiveRead(s.monitor.nowMs, ActiveWatermark(s, s.monitor.runtimeMs))) else s
    case ReadHours =>
      if s.monitor.ActiveRead?
      then s.(monitor := HoursRead(CompletedEnd(s.monitor.nowMs, s.monitor.watermarkMs), s.compacted)) else s
  }

  function MoveReadings(m: Move): seq<Stamp> {
    match m
    case RuntimeMove(step) => Readings(step)
    case CaptureActive(at) => [at]
    case ReadRuntime(first, at) => [first, at]
    case _ => []
  }

  // ---------------------------------------------------------------- new decisions carry the clock

  lemma StopAddsNoRow(rt: Runtime, causal: bool, now: Stamp)
    requires RtOk(rt, now)
    ensures Formed(rt) && Stop(rt, causal).records.Keys == rt.records.Keys && Stop(rt, causal).decisions == rt.decisions
  {
    hide RtOk;
    OkIsFormed(rt, now);
    StopKeepsOk(rt, causal, now);
    QuietShape(rt, Stop(rt, causal));
  }

  lemma IssueClock(rt: Runtime, admission: Admission, oversized: bool, now: Stamp, at: Stamp, completed: Stamp)
    requires RtOk(rt, now) && now.NotAfter(at)
    ensures Formed(rt)
    ensures var after := Issue(rt, admission, oversized, at, completed);
            rt.decisions < after.decisions && after.decisions in after.records ==>
              after.records[after.decisions].decision.wallNs == at.wall
  {
    hide RtOk, Drain, Freeze, Stop, Suspend, Quiet, Snapshot;
    OkIsFormed(rt, now);
    LaterOk(rt, now, at);
    DrainKeeps(rt, at);
    var drained := Drain(rt, at);
    OkIsFormed(drained, at);
    QuietShape(rt, drained);
    FreezeDecides(drained, at, completed, oversized);
    StopAddsNoRow(drained, true, at);
    StopAddsNoRow(drained, false, at);
    if admission.SuspendFor? {
      SuspendKeepsOk(drained, admission.scope, at);
      QuietShape(drained, Suspend(drained, admission.scope));
    }
  }

  /** A decision that enters the record book was taken at the step's own reading. */
  lemma NewDecisionIsNow(w: World, step: Step)
    requires WorldOk(w) && Ordered(w.now, Readings(step))
    ensures Formed(w.rt)
    ensures var a := Apply(w, step);
            forall id :: id in a.issued && id !in w.issued ==> a.issued[id].decision.wallNs >= w.now.wall
  {
    hide RtOk, LogOk, ActOffer, ActAudit, Issue, Begin, Replied, Close, TryAttempt, OutboxWrite, OutboxFailure;
    OkIsFormed(w.rt, w.now);
    match step
    case Offered(_) =>
    case Worked(work) =>
      if work.IssueWork? { IssueClock(w.rt, work.admission, work.oversized, w.now, work.at, work.completed); }
      if work.OutboxWork? || work.OutboxError? { SpoolStepsMove(w, work); }
    case Audited(audit) => AuditorMoves(w, audit);
  }

  // ---------------------------------------------------------------- what each reading promises

  /** A decision that the runtime no longer holds. */
  predicate Released(w: World, id: int) { id !in w.rt.records && id in w.store }

  ghost predicate PassOk(s: Site) {
    s.pass.Some? ==>
      s.pass.value.nowMs <= s.w.now.wall / NS_PER_MS
      && forall id :: id in s.w.rt.records ==>
           id in s.pass.value.excluded || s.w.rt.records[id].decision.wallNs >= s.pass.value.nowMs * NS_PER_MS
  }

  ghost predicate MonitorOk(m: Monitor, w: World, compacted: set<int>) {
    match m
    case Unread => true
    case RuntimeRead(nowMs, runtimeMs) =>
      && nowMs <= w.now.wall / NS_PER_MS
      && forall id :: id in w.issued ==>
           CreatedMs(w.issued[id].decision) >= Min(runtimeMs, nowMs) || Released(w, id)
    case ActiveRead(nowMs, watermarkMs) =>
      && nowMs <= w.now.wall / NS_PER_MS
      && forall id :: id in w.issued ==>
           CreatedMs(w.issued[id].decision) >= Min(watermarkMs, nowMs) || id in compacted
    case HoursRead(endMs, counted) =>
      && endMs <= w.now.wall / NS_PER_MS && counted <= compacted
      && forall id :: id in w.issued && CreatedMs(w.issued[id].decision) < endMs ==> id in counted
  }

  /** A stored row that memory still holds is one the forwarding leaves alone. */
  ghost predicate LateOk(s: Site) {
    s.late.Some? ==>
      && Forwardable(s.late.value.event)
      && forall id :: id in s.w.store && id in s.w.rt.records ==> id in s.late.value.excluded
  }

  ghost predicate SiteOk(s: Site) {
    && WorldOk(s.w) && DurableOk(s.w) && OutboxOwned(s.w) && LateOk(s)
    && s.compacted <= s.w.store.Keys && s.compacted !! s.w.rt.records.Keys
    && PassOk(s) && MonitorOk(s.monitor, s.w, s.compacted)
  }

  lemma ReleasedOrHeld(w: World, id: int)
    requires WorldOk(w) && DurableOk(w) && id in w.issued
    ensures id in w.rt.records || id in w.store
    ensures id in w.rt.records ==> w.rt.records[id].decision == w.issued[id].decision
    ensures id in w.store ==> w.store[id].decision == w.issued[id].decision
    ensures 1 <= id <= w.rt.decisions
  {
    hide RtOk, Linked, Evolves, SafeAttempt, TurnsOk, InOrder, Copies;
    if id in w.store { StoreIsCopy(w, id); assert Linked(w, id); CopyIdentity(w, id, w.store[id]); }
  }

  lemma StoreIsCopy(w: World, id: int)
    ensures id in w.store ==> w.store[id] in Copies(w, id)
  {
  }

  lemma HeldAreIssued(w: World, id: int)
    requires WorldOk(w) && id in w.rt.records
    ensures id in w.issued && w.rt.records[id].decision == w.issued[id].decision
  {
    hide RtOk, SafeAttempt, TurnsOk, InOrder;
  }

  /** What one runtime step does to the record book: memory only gains new decisions, the store only grows. */
  lemma StepBook(w: World, step: Step)
    requires WorldOk(w) && DurableOk(w) && Ordered(w.now, Readings(step))
    ensures Formed(w.rt)
    ensures var a := Apply(w, step);
            && WorldOk(a) && DurableOk(a) && w.now.NotAfter(a.now)
            && w.store.Keys <= a.store.Keys
            && (forall id :: id in a.rt.records ==> id in w.rt.records || id !in w.issued)
            && (forall id :: id in w.issued ==> id in a.issued && a.issued[id] == w.issued[id])
            && (forall id :: id in a.issued && id !in w.issued ==> a.issued[id].decision.wallNs >= w.now.wall)
  {
    hide WorldOk, DurableOk, Apply, Readings;
    StepKeepsWorld(w, step);
    StepKeepsDurable(w, step);
    StepHistory(w, step);
    NewDecisionIsNow(w, step);
    StepRows(w, step);
    StepStore(w, step);
    StepClock(w, step);
  }

  lemma StepClock(w: World, step: Step)
    requires Formed(w.rt) && Ordered(w.now, Readings(step))
    ensures w.now.NotAfter(Apply(w, step).now)
  {
    hide Act;
    LatestIsLater(w.now, Readings(step));
  }

  lemma StepRows(w: World, step: Step)
    requires WorldOk(w) && Ordered(w.now, Readings(step))
    ensures Formed(w.rt)
    ensures forall id :: id in Apply(w, step).rt.records ==> id in w.rt.records || id !in w.issued
  {
    hide RtOk, Apply, SafeAttempt, TurnsOk, InOrder, Evolves;
    StepKeepsOk(w, step);
  }

  lemma EffectGrowsStore(w: World)
    requires WorldOk(w) && DurableOk(w)
    ensures AuditEffect(w).Some? ==> w.store.Keys <= AuditEffect(w).value.1.Keys
  {
    hide WorldOk, DurableOk, Written, Persisted;
    if !w.rt.auditing.Resting? {
      AuditedCompares(w);
      PersistEffect(w.store, w.rt.auditing.record);
    }
  }

  lemma AuditGrowsStore(w: World, audit: Audit)
    requires WorldOk(w) && DurableOk(w)
    ensures Formed(w.rt) && w.store.Keys <= ActAudit(w, audit).store.Keys
  {
    hide RtOk, LogOk, DurableOk, AuditEffect, IoFailure, Written;
    WorldParts(w);
    EffectGrowsStore(w);
  }

  lemma StepStore(w: World, step: Step)
    requires WorldOk(w) && DurableOk(w) && Ordered(w.now, Readings(step))
    ensures Formed(w.rt) && w.store.Keys <= Apply(w, step).store.Keys
  {
    hide RtOk, LogOk, DurableOk, ActOffer, ActWork, ActAudit, Moved;
    WorldParts(w);
    match step
    case Offered(_) =>
    case Worked(work) =>
      WorkKeepsOk(w, work);
      MovedIsOk(w, ActWork(w, work), Latest(w.now, WorkReadings(work)));
    case Audited(audit) => AuditGrowsStore(w, audit);
  }

  // ---------------------------------------------------------------- every move keeps the site

  lemma LaterSite(s: Site, a: World)
    requires SiteOk(s) && WorldOk(a) && DurableOk(a) && OutboxOwned(a) && s.w.now.NotAfter(a.now)
    requires s.late.Some? ==> a.store == s.w.store
    requires s.w.store.Keys <= a.store.Keys
    requires forall id :: id in a.rt.records ==> id in s.w.rt.records || id !in s.w.issued
    requires forall id :: id in s.w.issued ==> id in a.issued && a.issued[id] == s.w.issued[id]
    requires forall id :: id in a.issued && id !in s.w.issued ==> a.issued[id].decision.wallNs >= s.w.now.wall
    ensures SiteOk(s.(w := a))
  {
    hide WorldOk, DurableOk, MonitorOk, OutboxOwned, Forwardable;
    forall id | id in s.compacted ensures id !in a.rt.records {
      StoredIsIssued(s.w, id);
    }
    if s.late.Some? {
      forall id | id in a.store && id in a.rt.records ensures id in s.late.value.excluded { StoredIsIssued(s.w, id); }
    }
    if s.pass.Some? {
      forall id | id in a.rt.records
        ensures id in s.pass.value.excluded || a.rt.records[id].decision.wallNs >= s.pass.value.nowMs * NS_PER_MS
      {
        HeldAreIssued(a, id);
        if id in s.w.issued { HeldAreIssued(s.w, id); }
      }
    }
    LaterMonitor(s, a);
  }

  lemma StoredIsIssued(w: World, id: int)
    requires DurableOk(w) && id in w.store
    ensures id in w.issued
  {
    hide Linked, Copies;
    StoreIsCopy(w, id);
    assert Linked(w, id);
    CopyIdentity(w, id, w.store[id]);
  }

  lemma LaterMonitor(s: Site, a: World)
    requires MonitorOk(s.monitor, s.w, s.compacted) && s.w.now.NotAfter(a.now) && s.w.store.Keys <= a.store.Keys
    requires forall id :: id in a.rt.records ==> id in s.w.rt.records || id !in s.w.issued
    requires forall id :: id in s.w.issued ==> id in a.issued && a.issued[id] == s.w.issued[id]
    requires forall id :: id in a.issued && id !in s.w.issued ==> a.issued[id].decision.wallNs >= s.w.now.wall
    ensures MonitorOk(s.monitor, a, s.compacted)
  {
  }

  lemma CaptureKeeps(s: Site, at: Stamp)
    requires SiteOk(s) && s.w.now.NotAfter(at)
    ensures Formed(s.w.rt) && SiteOk(MovedSite(s, CaptureActive(at)))
  {
    hide WorldOk, DurableOk, MonitorOk, Forwardable;
    TickKeeps(s.w, at);
    LaterMonitor(s, At(s.w, at));
  }

  /** Reading a clock changes nothing. */
  lemma TickKeeps(w: World, at: Stamp)
    requires WorldOk(w) && DurableOk(w) && w.now.NotAfter(at)
    ensures Formed(w.rt) && WorldOk(At(w, at)) && DurableOk(At(w, at))
  {
    hide RtOk, LogOk, Evolves, Chain, CompactAgreement.RowInv, StageSaved, Kept, Durable;
    OkIsFormed(w.rt, w.now);
    LaterOk(w.rt, w.now, at);
    assert LogOk(At(w, at)) by { LogIgnoresClock(w, at); }
    forall id: int ensures Linked(At(w, at), id) {
      assert Linked(w, id) && Copies(At(w, at), id) == Copies(w, id);
      forall r | r in Copies(w, id) ensures CopyFacts(r, id, w.issued, at.mono) {
        CompactAgreement.LaterKeepsRow(r, w.now.mono, at.mono);
      }
    }
  }

  lemma LogIgnoresClock(w: World, at: Stamp)
    requires LogOk(w)
    ensures LogOk(At(w, at))
  {
    hide SafeAttempt, OriginsOk, TurnsOk, InOrder;
  }

  /** A compacted row is one the runtime no longer holds. */
  lemma CompactKeeps(s: Site, id: int)
    requires SiteOk(s)
    ensures Formed(s.w.rt) && SiteOk(MovedSite(s, CompactRow(id)))
    ensures MayCompact(s, id) ==> id !in s.w.rt.records
  {
    hide WorldOk, DurableOk, Compactable, OutboxOwned, LateOk;
    WorldParts(s.w);
    if MayCompact(s, id) {
      StoredIsIssued(s.w, id);
      ReleasedOrHeld(s.w, id);
      assert id !in s.w.rt.records;
      SameLate(s, s.(compacted := s.compacted + {id}));
    }
  }

  lemma SameLate(s: Site, a: Site)
    requires LateOk(s) && a.late == s.late && a.w.store.Keys == s.w.store.Keys && a.w.rt == s.w.rt
    ensures LateOk(a)
  {
  }

  lemma CaptureLateKeeps(s: Site, e: PriceEvent)
    requires SiteOk(s)
    ensures Formed(s.w.rt) && SiteOk(MovedSite(s, CaptureLate(e)))
  {
    hide WorldOk, DurableOk, OutboxOwned, MonitorOk, Forwardable;
    WorldParts(s.w);
  }

  /** A noted row is one the runtime no longer holds. */
  lemma NoteLateKeeps(s: Site, id: int)
    requires SiteOk(s)
    ensures Formed(s.w.rt) && SiteOk(MovedSite(s, NoteLate(id)))
    ensures MayNote(s, id) ==> id !in s.w.rt.records
  {
    hide WorldOk, DurableOk, OutboxOwned, Forwardable, NoteRow, MonitorOk;
    WorldParts(s.w);
    if MayNote(s, id) {
      NoteKeepsDurable(s.w, id, s.late.value.event);
      SameLate(s, MovedSite(s, NoteLate(id)));
      NoteKeepsMonitor(s, id);
    }
  }

  lemma NoteKeepsMonitor(s: Site, id: int)
    requires MonitorOk(s.monitor, s.w, s.compacted) && id in s.w.store && s.late.Some?
    ensures MonitorOk(s.monitor, Noted(s.w, id, s.late.value.event), s.compacted)
  {
    hide NoteRow;
    LaterMonitor(s, Noted(s.w, id, s.late.value.event));
  }

  lemma ReadRuntimeKeeps(s: Site, first: Stamp, at: Stamp)
    requires SiteOk(s) && s.w.now.NotAfter(first) && first.NotAfter(at)
    ensures Formed(s.w.rt) && SiteOk(MovedSite(s, ReadRuntime(first, at)))
  {
    hide Forwardable, WorldOk, DurableOk;
    TickKeeps(s.w, at);
    var nowMs := first.wall / NS_PER_MS;
    var runtimeMs := RuntimeWatermark(s.w.rt, at.wall / NS_PER_MS);
    forall id | id in s.w.issued
      ensures CreatedMs(s.w.issued[id].decision) >= Min(runtimeMs, nowMs) || Released(s.w, id)
    {
      ReleasedOrHeld(s.w, id);
      if id in s.w.rt.records {
        var all := set k | k in s.w.rt.records :: CreatedMs(s.w.rt.records[k].decision);
        assert CreatedMs(s.w.rt.records[id].decision) in all;
      }
    }
  }

  lemma ReadActiveKeeps(s: Site)
    requires SiteOk(s)
    ensures Formed(s.w.rt) && SiteOk(MovedSite(s, ReadActive))
  {
    hide OutboxOwned, Forwardable, WorldOk, DurableOk;
    WorldParts(s.w);
    if s.monitor.RuntimeRead? {
      var nowMs, runtimeMs := s.monitor.nowMs, s.monitor.runtimeMs;
      var watermarkMs := ActiveWatermark(s, runtimeMs);
      forall id | id in s.w.issued
        ensures CreatedMs(s.w.issued[id].decision) >= Min(watermarkMs, nowMs) || id in s.compacted
      {
        ReleasedOrHeld(s.w, id);
        if id in s.w.store && id !in s.compacted {
          var active := set k | k in s.w.store && k !in s.compacted :: CreatedMs(s.w.store[k].decision);
          assert CreatedMs(s.w.store[id].decision) in active;
        }
      }
    }
  }

  lemma FloorIsBelow(ms: int)
    ensures HourFloor(ms) <= ms
  {
  }

  lemma ReadHoursKeeps(s: Site)
    requires SiteOk(s)
    ensures Formed(s.w.rt) && SiteOk(MovedSite(s, ReadHours))
  {
    hide OutboxOwned, Forwardable, WorldOk, DurableOk, HourFloor;
    WorldParts(s.w);
    if s.monitor.ActiveRead? {
      FloorIsBelow(s.monitor.nowMs - 120_000);
      FloorIsBelow(s.monitor.watermarkMs);
    }
  }

  lemma MoveKeeps(s: Site, m: Move)
    requires SiteOk(s) && Ordered(s.w.now, MoveReadings(m))
    ensures Formed(s.w.rt) && SiteOk(MovedSite(s, m))
  {
    hide SiteOk, Apply, At;
    assert WorldOk(s.w) && DurableOk(s.w) by { SiteWorld(s); }
    assert Formed(s.w.rt) by { WorldParts(s.w); }
    match m
    case RuntimeMove(step) => if !Busy(s, step) { RuntimeKeeps(s, step); }
    case CaptureActive(at) => CaptureKeeps(s, at);
    case CompactRow(id) => CompactKeeps(s, id);
    case EndPass => EndPassKeeps(s);
    case CaptureLate(e) => CaptureLateKeeps(s, e);
    case NoteLate(id) => NoteLateKeeps(s, id);
    case EndLate => EndLateKeeps(s);
    case ReadRuntime(first, at) => ReadRuntimeKeeps(s, first, at);
    case ReadActive => ReadActiveKeeps(s);
    case ReadHours => ReadHoursKeeps(s);
  }

  lemma SiteWorld(s: Site)
    requires SiteOk(s)
    ensures WorldOk(s.w) && DurableOk(s.w) && OutboxOwned(s.w)
  {
  }

  lemma RuntimeKeeps(s: Site, step: Step)
    requires SiteOk(s) && Ordered(s.w.now, Readings(step)) && !Busy(s, step)
    ensures Formed(s.w.rt) && SiteOk(s.(w := Apply(s.w, step)))
  {
    hide SiteOk, Apply, Readings;
    SiteWorld(s);
    StepBook(s.w, step);
    StepKeepsOwned(s.w, step);
    if !step.Audited? { OnlyAuditsStore(s.w, step); }
    LaterSite(s, Apply(s.w, step));
  }

  /** Only the audit task writes the store. */
  lemma OnlyAuditsStore(w: World, step: Step)
    requires WorldOk(w) && Ordered(w.now, Readings(step)) && !step.Audited?
    ensures Formed(w.rt) && Apply(w, step).store == w.store
  {
    hide RtOk, LogOk, ActOffer, ActWork, StepShape, Advances;
    WorldParts(w);
    if step.Worked? { WorkKeepsOk(w, step.work); }
  }

  lemma EndLateKeeps(s: Site)
    requires SiteOk(s)
    ensures SiteOk(s.(late := None))
  {
    hide WorldOk, DurableOk, OutboxOwned, MonitorOk;
  }

  lemma EndPassKeeps(s: Site)
    requires SiteOk(s)
    ensures SiteOk(s.(pass := None))
  {
    hide WorldOk, DurableOk, OutboxOwned, MonitorOk, Forwardable;
  }

  function RunSite(s: Site, moves: seq<Move>): (t: Site)
    requires Formed(s.w.rt)
    ensures Formed(t.w.rt)
  {
    if moves == [] then s else MovedSite(RunSite(s, moves[..|moves| - 1]), moves[|moves| - 1])
  }

  predicate SiteTimely(s: Site, moves: seq<Move>)
    requires Formed(s.w.rt)
  {
    moves != [] ==>
      && SiteTimely(s, moves[..|moves| - 1])
      && Ordered(RunSite(s, moves[..|moves| - 1]).w.now, MoveReadings(moves[|moves| - 1]))
  }

  function StartSite(policy: Policy, queueMax: nat, spoolMax: nat, now: Stamp): (s: Site)
    ensures Formed(s.w.rt)
  {
    Site(RuntimeRuns.Init(policy, queueMax, spoolMax, now, map[]), {}, None, None, Unread)
  }

  lemma StartSiteIsOk(policy: Policy, queueMax: nat, spoolMax: nat, now: Stamp)
    requires PayloadAgreement.RuntimePolicy(policy) && now.wall >= 0 && now.mono >= 0
    ensures SiteOk(StartSite(policy, queueMax, spoolMax, now))
  {
    hide WorldOk, DurableOk;
    StartIsDurable(policy, queueMax, spoolMax, now);
  }

  lemma {:induction false} RunKeepsSite(s: Site, moves: seq<Move>)
    requires Formed(s.w.rt) && SiteOk(s) && SiteTimely(s, moves)
    ensures SiteOk(RunSite(s, moves))
  {
    hide SiteOk, MovedSite;
    if moves != [] {
      RunKeepsSite(s, moves[..|moves| - 1]);
      MoveKeeps(RunSite(s, moves[..|moves| - 1]), moves[|moves| - 1]);
    }
  }

  /**
   Watermark completeness: in every interleaving, once the monitor has composed its end of
   the completed window, each issued decision created before that end is counted in the
   hourly rows it read, and a row that maintenance may compact is never one the runtime
   still holds.
   */
  lemma CompletedWindowIsComplete(policy: Policy, queueMax: nat, spoolMax: nat, now: Stamp, moves: seq<Move>)
    requires PayloadAgreement.RuntimePolicy(policy) && now.wall >= 0 && now.mono >= 0
    requires SiteTimely(StartSite(policy, queueMax, spoolMax, now), moves)
    ensures var s := RunSite(StartSite(policy, queueMax, spoolMax, now), moves);
            && (s.monitor.HoursRead? ==>
                  forall id :: id in s.w.issued && CreatedMs(s.w.issued[id].decision) < s.monitor.endMs ==>
                    id in s.monitor.counted)
            && (forall id :: MayCompact(s, id) || MayNote(s, id) ==> id !in s.w.rt.records)
            && s.compacted !! s.w.rt.records.Keys
  {
    hide WorldOk, DurableOk, OutboxOwned, MovedSite, MayCompact, MayNote;
    var start := StartSite(policy, queueMax, spoolMax, now);
    StartSiteIsOk(policy, queueMax, spoolMax, now);
    RunKeepsSite(start, moves);
    var s := RunSite(start, moves);
    forall id | MayCompact(s, id) || MayNote(s, id)
      ensures id !in s.w.rt.records
    {
      CompactKeeps(s, id);
      NoteLateKeeps(s, id);
    }
  }

  // ---------------------------------------------------------------- a row that can never be compacted

  /** A stored row whose decision was taken before any event was accepted. */
  predicate Stuck(s: Site, id: int) {
    id in s.w.store && id !in s.compacted && s.w.store[id].decision.includedSequence.None?
  }

  ghost predicate CompactedHadEvents(s: Site) {
    forall id :: id in s.compacted ==> id in s.w.store && s.w.store[id].decision.includedSequence.Some?
  }

  lemma StepKeepsHadEvents(s: Site, step: Step)
    requires SiteOk(s) && Ordered(s.w.now, Readings(step)) && CompactedHadEvents(s)
    ensures Formed(s.w.rt) && CompactedHadEvents(s.(w := Apply(s.w, step)))
  {
    hide WorldOk, DurableOk, Apply, Readings;
    WorldParts(s.w);
    forall id | id in s.compacted
      ensures id in Apply(s.w, step).store && Apply(s.w, step).store[id].decision.includedSequence.Some?
    {
      StepKeepsDecision(s.w, step, id);
    }
  }

  lemma MoveKeepsHadEvents(s: Site, m: Move)
    requires SiteOk(s) && Ordered(s.w.now, MoveReadings(m)) && CompactedHadEvents(s)
    ensures Formed(s.w.rt) && CompactedHadEvents(MovedSite(s, m))
  {
    hide WorldOk, DurableOk, Apply, HourFloor, ActiveWatermark, Busy;
    WorldParts(s.w);
    if m.RuntimeMove? { StepKeepsHadEvents(s, m.step); }
  }

  lemma {:induction false} RunKeepsHadEvents(s: Site, moves: seq<Move>)
    requires SiteOk(s) && Formed(s.w.rt) && SiteTimely(s, moves) && CompactedHadEvents(s)
    ensures CompactedHadEvents(RunSite(s, moves))
  {
    hide SiteOk, MovedSite, CompactedHadEvents;
    if moves != [] {
      var front := moves[..|moves| - 1];
      RunKeepsSite(s, front);
      RunKeepsHadEvents(s, front);
      MoveKeepsHadEvents(RunSite(s, front), moves[|moves| - 1]);
    }
  }

  /** What the monitor has read since, given that the stuck row was created at `createdMs`. */
  predicate HeldBack(m: Monitor, createdMs: int) {
    match m
    case ActiveRead(_, watermarkMs) => watermarkMs <= createdMs
    case HoursRead(endMs, _) => endMs <= HourFloor(createdMs)
    case _ => true
  }

  lemma StoredDecision(w: World, id: int)
    requires DurableOk(w) && id in w.store
    ensures id in w.issued && w.store[id].decision == w.issued[id].decision
  {
    hide Linked, Copies;
    StoreIsCopy(w, id);
    assert Linked(w, id);
    CopyIdentity(w, id, w.store[id]);
  }

  /** A stored row keeps its decision through every runtime step. */
  lemma StepKeepsDecision(w: World, step: Step, id: int)
    requires WorldOk(w) && DurableOk(w) && Ordered(w.now, Readings(step)) && id in w.store
    ensures Formed(w.rt)
    ensures id in Apply(w, step).store && Apply(w, step).store[id].decision == w.store[id].decision
  {
    hide WorldOk, DurableOk, Apply, Readings;
    StepBook(w, step);
    StoredDecision(w, id);
    StoredDecision(Apply(w, step), id);
  }

  lemma FloorIsMonotone(a: int, b: int)
    requires a <= b
    ensures HourFloor(a) <= HourFloor(b)
  {
  }

  lemma StuckBoundsWatermark(s: Site, id: int, runtimeMs: int)
    requires Stuck(s, id)
    ensures ActiveWatermark(s, runtimeMs) <= CreatedMs(s.w.store[id].decision)
  {
    var active := set k | k in s.w.store && k !in s.compacted :: CreatedMs(s.w.store[k].decision);
    assert CreatedMs(s.w.store[id].decision) in active;
  }

  lemma MoveKeepsStuck(s: Site, m: Move, id: int)
    requires SiteOk(s) && Ordered(s.w.now, MoveReadings(m))
    requires Stuck(s, id) && HeldBack(s.monitor, CreatedMs(s.w.store[id].decision))
    ensures Formed(s.w.rt)
    ensures var t := MovedSite(s, m);
            && Stuck(t, id) && t.w.store[id].decision == s.w.store[id].decision
            && HeldBack(t.monitor, CreatedMs(s.w.store[id].decision))
  {
    hide WorldOk, DurableOk, Apply, HourFloor, ActiveWatermark;
    WorldParts(s.w);
    if m.RuntimeMove? { StepKeepsDecision(s.w, m.step, id); }
    if m.ReadActive? && s.monitor.RuntimeRead? { StuckBoundsWatermark(s, id, s.monitor.runtimeMs); }
    if m.ReadHours? && s.monitor.ActiveRead? {
      FloorIsMonotone(s.monitor.watermarkMs, CreatedMs(s.w.store[id].decision));
    }
  }

  lemma {:induction false} StuckStays(s: Site, more: seq<Move>, id: int)
    requires SiteOk(s) && Formed(s.w.rt) && SiteTimely(s, more)
    requires Stuck(s, id) && HeldBack(s.monitor, CreatedMs(s.w.store[id].decision))
    ensures var t := RunSite(s, more);
            && Stuck(t, id) && t.w.store[id].decision == s.w.store[id].decision
            && HeldBack(t.monitor, CreatedMs(s.w.store[id].decision))
  {
    hide SiteOk, MovedSite, Stuck, HeldBack;
    if more != [] {
      var front := more[..|more| - 1];
      RunKeepsSite(s, front);
      StuckStays(s, front, id);
      MoveKeepsStuck(RunSite(s, front), more[|more| - 1], id);
    }
  }

  /**
   A stored row without an included sequence is never compacted, and from then on no
   window the monitor completes reaches past the hour that row was created in.
   */
  lemma StuckRowHoldsTheWindow(policy: Policy, queueMax: nat, spoolMax: nat, now: Stamp, moves: seq<Move>,
                               more: seq<Move>, id: int)
    requires PayloadAgreement.RuntimePolicy(policy) && now.wall >= 0 && now.mono >= 0
    requires SiteTimely(StartSite(policy, queueMax, spoolMax, now), moves)
    requires SiteTimely(RunSite(StartSite(policy, queueMax, spoolMax, now), moves), more)
    requires var s := RunSite(StartSite(policy, queueMax, spoolMax, now), moves);
             && id in s.w.store && s.w.store[id].decision.includedSequence.None?
             && (s.monitor.Unread? || s.monitor.RuntimeRead?)
    ensures var s := RunSite(StartSite(policy, queueMax, spoolMax, now), moves);
            var t := RunSite(s, more);
            && id in t.w.store && id !in s.compacted && id !in t.compacted
            && (t.monitor.HoursRead? ==> t.monitor.endMs <= HourFloor(CreatedMs(s.w.store[id].decision)))
  {
    hide WorldOk, DurableOk, MovedSite, SiteTimely, HourFloor;
    var start := StartSite(policy, queueMax, spoolMax, now);
    StartSiteIsOk(policy, queueMax, spoolMax, now);
    RunKeepsSite(start, moves);
    RunKeepsHadEvents(start, moves);
    StuckStays(RunSite(start, moves), more, id);
  }
}
