/**
 The publication and audit steps keep the runtime's invariants, step by step: begin, outbox
 write, attempt, reply, audit stages and shutdown.
 */
module PublicationSteps {
  import opened Core
  import opened GhostTwap
  import opened GhostPayload
  import opened EngineRuns
  import opened EngineInvariants
  import opened DecisionFacts
  import opened AuditRow
  import opened CompactAgreement
  import opened AuditHistory
  import opened PayloadAgreement
  import opened RuntimeModel
  import opened GhostSpool
  import opened RuntimeRuns
  import opened RuntimeSteps

  // ---------------------------------------------------------------- one row replaced

  /** Everything but one row and the stage stays. */
  lemma ReplacedOk(rt: Runtime, id: int, r: Row, after: Runtime, now: Stamp)
    requires RtOk(rt, now) && id in rt.records && Shaped(r) && RowFacts(r, id, now) && Evolves(rt.records[id], r)
    requires after == Replace(rt, id, r).(pending := after.pending, publishing := after.publishing) && Formed(after)
    requires StageOk(after, now)
    ensures RtOk(after, now) && Advances(rt, after)
  {
    hide EngineOk, QueueOk, RowFacts, Evolves, StageOk;
    forall k | k in rt.records
      ensures RowFacts(after.records[k], k, now) && Evolves(rt.records[k], after.records[k])
    {
      EvolvesFromSelf(rt.records[k]);
    }
  }

  lemma PublishableKeeps(rt: Runtime, id: int, now: Stamp, verdict: Verdict)
    requires RtOk(rt, now) && id in rt.records
    ensures Formed(rt)
    ensures var (c, ok) := Publishable(rt, id, now, verdict);
            && RtOk(c, now) && Quiet(rt, c)
            && (ok ==> c == rt && Current(rt, rt.records[id]) && HasTime(rt.records[id].decision, now))
  {
    hide RtOk, Quiet, Stop, Suspend;
    OkIsFormed(rt, now);
    QuietSelf(rt, rt);
    StopKeepsOk(rt, true, now);
    StopKeepsOk(rt, false, now);
    SuspendKeepsOk(rt, GuardScope, now);
  }

  lemma FactsOfRow(rt: Runtime, id: int, now: Stamp)
    requires RtOk(rt, now) && id in rt.records
    ensures RowFacts(rt.records[id], id, now) && Shaped(rt.records[id]) && 1 <= id <= rt.decisions
    ensures rt.pending == Some(id) ==> Unpublished(rt.records[id])
    ensures (rt.publishing.Spooling? || rt.publishing.Spooled?) && rt.publishing.id == id ==>
              Intending(rt.records[id], rt.publishing.live, now)
    ensures rt.publishing.Sending? && rt.publishing.id == id ==> OnItsWay(rt.records[id])
  {
    hide EngineOk, QueueOk, RowFacts, Intending;
  }

  lemma RowFactsFrom(r: Row, n: Row, id: int, clock: Stamp, now: Stamp)
    requires RowFacts(r, id, clock) && clock.NotAfter(now) && RowInv(n, now.mono)
    requires n.decision == r.decision && n.completed == r.completed
    ensures RowFacts(n, id, now)
  {
    hide RowInv, Readable;
  }

  // ---------------------------------------------------------------- begin

  lemma BegunRow(r: Row, id: int, ok: bool, checked: Stamp, at: Stamp)
    requires RowFacts(r, id, checked) && checked.NotAfter(at) && Unpublished(r) && Shaped(r)
    ensures var (row, live) := BeginPublish(r, ok, at);
            && RowFacts(row, id, at) && Shaped(row) && Evolves(r, row) && row.epoch == r.epoch
            && (live.Some? ==> Intending(row, live.value, at) && |live.value.forecasts| == 6)
  {
    hide RowInv, Readable, Evolves, WireShared, Header, Derived, Masking;
    BeginKeepsRow(r, ok, at, checked.mono);
    BeginEvolves(r, ok, at);
    var (row, live) := BeginPublish(r, ok, at);
    EvolvesKeepsDecision(r, row);
    RowFactsFrom(r, row, id, checked, at);
  }

  lemma BeginKeeps(rt: Runtime, verdict: Verdict, now: Stamp, checked: Stamp, at: Stamp)
    requires RtOk(rt, now) && now.NotAfter(checked) && checked.NotAfter(at)
    ensures var after := Begin(rt, verdict, checked, at);
            && RtOk(after, at) && Advances(rt, after) && after.auditing == rt.auditing && after.closed == rt.closed
            && after.decisions == rt.decisions && (after.pending.None? || after == rt)
            && (after.publishing == rt.publishing
                || (after.publishing.Spooling? && rt.pending == Some(after.publishing.id)
                    && after.publishing.record == after.records[after.publishing.id]))
  {
    hide RtOk, Quiet, Publishable, BeginPublish, Evolves, Advances, RowFacts, Intending;
    OkIsFormed(rt, now);
    LaterOk(rt, now, checked);
    LaterOk(rt, now, at);
    if rt.pending.Some? && rt.publishing.Idle? {
      var id := rt.pending.value;
      PublishableKeeps(rt, id, checked, verdict);
      var (c, ok) := Publishable(rt, id, checked, verdict);
      QuietStages(rt, c);
      QuietKeys(rt, c);
      FactsOfRow(c, id, checked);
      BegunRow(c.records[id], id, ok, checked, at);
      LaterOk(c, checked, at);
      BeginReplaces(rt, c, id, ok, checked, at, verdict);
      AdvancesAfterQuiet(rt, c, Begin(rt, verdict, checked, at));
    } else {
      AdvanceByCount(rt, rt);
    }
  }

  lemma QuietKeys(rt: Runtime, c: Runtime)
    requires Quiet(rt, c)
    ensures c.records.Keys == rt.records.Keys && forall id :: id in rt.records ==> id in c.records
  {
    hide QuietlyMoves;
  }

  lemma BeginReplaces(rt: Runtime, c: Runtime, id: int, ok: bool, checked: Stamp, at: Stamp, verdict: Verdict)
    requires Formed(rt) && rt.pending == Some(id) && rt.publishing.Idle? && id in rt.records
    requires (c, ok) == Publishable(rt, id, checked, verdict) && RtOk(c, at) && id in c.records && Shaped(c.records[id])
    requires c.publishing == rt.publishing && c.pending == rt.pending
    requires var (row, live) := BeginPublish(c.records[id], ok, at);
             && RowFacts(row, id, at) && Shaped(row) && Evolves(c.records[id], row)
             && (live.Some? ==> Intending(row, live.value, at) && |live.value.forecasts| == 6)
    ensures var after := Begin(rt, verdict, checked, at);
            && RtOk(after, at) && Advances(c, after) && after.auditing == c.auditing && after.closed == c.closed
            && after.decisions == c.decisions && after.pending.None?
            && (after.publishing == rt.publishing
                || (after.publishing.Spooling? && after.publishing.id == id
                    && after.publishing.record == after.records[id]))
  {
    hide Publishable, BeginPublish, Evolves, Advances, RowFacts, Intending, RowsFormed, EngineOk, QueueOk, RowsOk;
    var (row, live) := BeginPublish(c.records[id], ok, at);
    var after := Begin(rt, verdict, checked, at);
    assert after == Replace(c, id, row).(pending := None, publishing := after.publishing);
    ReplacedOk(c, id, row, after, at);
  }

  // ---------------------------------------------------------------- outbox and attempt

  lemma SpoolKeeps(rt: Runtime, now: Stamp, integrity: bool)
    requires RtOk(rt, now)
    ensures Formed(rt)
    ensures RtOk(SpoolDone(rt), now) && SpoolDone(rt) == rt.(publishing := SpoolDone(rt).publishing)
    ensures RtOk(SpoolCancelled(rt), now) && SpoolCancelled(rt) == rt.(publishing := SpoolCancelled(rt).publishing)
    ensures RtOk(SpoolFailed(rt, integrity), now) && Advances(rt, SpoolFailed(rt, integrity))
    ensures var after := SpoolFailed(rt, integrity);
            after.auditing == rt.auditing && after.pending == rt.pending && after.closed == rt.closed
            && after.decisions == rt.decisions && (after.publishing.Idle? || after == rt)
  {
    hide RowsOk, EngineOk, QueueOk, Advances, SpoolFailed, Intending;
    SpoolFailedKeeps(rt, now, integrity);
  }

  lemma SpoolFailedKeeps(rt: Runtime, now: Stamp, integrity: bool)
    requires RtOk(rt, now)
    ensures RtOk(SpoolFailed(rt, integrity), now) && Advances(rt, SpoolFailed(rt, integrity))
    ensures var after := SpoolFailed(rt, integrity);
            after.auditing == rt.auditing && after.pending == rt.pending && after.closed == rt.closed
            && after.decisions == rt.decisions && (after.publishing.Idle? || after == rt)
  {
    hide RtOk, Advances, IoFailure, RowFacts, Evolves, Intending;
    OkIsFormed(rt, now);
    if rt.publishing.Spooling? {
      var id := rt.publishing.id;
      FactsOfRow(rt, id, now);
      var failed := Changed(WithStatus(rt.records[id], SpoolUnavailable));
      UnavailableRow(rt.records[id], rt.publishing.live, id, now);
      var idle := Replace(rt, id, failed).(publishing := Idle);
      IdleReplace(rt, id, failed, now);
      IoFailureKeepsOk(idle, PublicationScope, integrity, now);
      QuietAfterAdvances(rt, idle, IoFailure(idle, PublicationScope, integrity));
      QuietStages(idle, IoFailure(idle, PublicationScope, integrity));
      IoFailureIgnoresStage(Replace(rt, id, failed), PublicationScope, integrity);
    } else {
      AdvanceByCount(rt, rt);
    }
  }

  /** Noting a failure does not read the publication stage. */
  lemma IoFailureIgnoresStage(rt: Runtime, scope: Scope, integrity: bool)
    requires Formed(rt) && Formed(rt.(publishing := Idle))
    ensures IoFailure(rt, scope, integrity).(publishing := Idle) == IoFailure(rt.(publishing := Idle), scope, integrity)
  {
    hide SweptRows, SweptDirty;
  }

  lemma UnavailableRow(r: Row, live: Wire, id: int, now: Stamp)
    requires RowFacts(r, id, now) && Shaped(r) && Intending(r, live, now)
    ensures var n := Changed(WithStatus(r, SpoolUnavailable)); RowFacts(n, id, now) && Evolves(r, n) && Shaped(n)
  {
    hide RowInv, Readable, Evolves, Staged, OffersUnmasked;
    StatusKeepsRow(r, SpoolUnavailable, now.mono);
    ChangedKeepsRow(WithStatus(r, SpoolUnavailable), now.mono);
    StatusEvolves(r, SpoolUnavailable);
  }

  lemma IdleReplace(rt: Runtime, id: int, r: Row, now: Stamp)
    requires RtOk(rt, now) && id in rt.records && Shaped(r) && RowFacts(r, id, now) && Evolves(rt.records[id], r)
    requires !rt.publishing.Idle? && rt.publishing.id == id
    ensures var idle := Replace(rt, id, r).(publishing := Idle); RtOk(idle, now) && Advances(rt, idle)
  {
    hide RowFacts, Evolves, Advances, EngineOk, QueueOk, RowsOk, Intending;
    ReplacedOk(rt, id, r, Replace(rt, id, r).(publishing := Idle), now);
  }

  lemma AttemptedRow(r: Row, live: Wire, id: int, ok: bool, checked: Stamp, at: Stamp)
    requires RowFacts(r, id, checked) && checked.NotAfter(at) && Shaped(r) && Intending(r, live, checked)
    ensures |live.forecasts| == 6
    ensures var (row, sent) := AttemptPublish(r, live, ok, at);
            && RowFacts(row, id, at) && Shaped(row) && Evolves(r, row) && row.epoch == r.epoch
            && (sent.Some? ==> OnItsWay(row) && MaskedBy(r, sent.value) && ok
                               && row.publication.attempt == Some(at) && row.publication.payload == sent)
  {
    hide RowInv, Readable, Evolves, WireShared, Header, Derived, Masking, MaskedBy, OffersUnmasked, TtlMs, Mask,
         WorthPublishing;
    AttemptKeepsRow(r, live, ok, at, checked.mono);
    AttemptEvolves(r, live, ok, at);
    var (row, sent) := AttemptPublish(r, live, ok, at);
    EvolvesKeepsDecision(r, row);
    RowFactsFrom(r, row, id, checked, at);
  }

  lemma AttemptKeeps(rt: Runtime, verdict: Verdict, now: Stamp, checked: Stamp, at: Stamp)
    requires RtOk(rt, now) && now.NotAfter(checked) && checked.NotAfter(at)
    ensures Formed(rt)
    ensures var (after, sent) := TryAttempt(rt, verdict, checked, at);
            && RtOk(after, at) && Advances(rt, after) && after.auditing == rt.auditing && after.closed == rt.closed
            && after.decisions == rt.decisions && after.pending == rt.pending
            && (sent.Some? ==> rt.publishing.Spooled? && after.publishing == Sending(rt.publishing.id))
            && (sent.None? ==> after.publishing.Idle? || after == rt)
  {
    hide RtOk, Quiet, Publishable, AttemptPublish, Evolves, Advances, RowFacts, Intending, MaskedBy;
    OkIsFormed(rt, now);
    LaterOk(rt, now, checked);
    LaterOk(rt, now, at);
    if rt.publishing.Spooled? {
      var id := rt.publishing.id;
      PublishableKeeps(rt, id, checked, verdict);
      var (c, ok) := Publishable(rt, id, checked, verdict);
      QuietStages(rt, c);
      QuietKeys(rt, c);
      FactsOfRow(c, id, checked);
      AttemptedRow(c.records[id], rt.publishing.live, id, ok, checked, at);
      LaterOk(c, checked, at);
      OkIsFormed(c, at);
      var (row, sent) := AttemptPublish(c.records[id], rt.publishing.live, ok, at);
      var after := Replace(c, id, row).(publishing := if sent.Some? then Sending(id) else Idle);
      StageReplace(c, id, row, after, at);
      AdvancesAfterQuiet(rt, c, after);
    } else {
      AdvanceByCount(rt, rt);
    }
  }

  lemma StageReplace(c: Runtime, id: int, row: Row, after: Runtime, at: Stamp)
    requires RtOk(c, at) && id in c.records && Shaped(row) && RowFacts(row, id, at) && Evolves(c.records[id], row)
    requires !c.publishing.Idle? && c.publishing.id == id && Formed(c)
    requires after == Replace(c, id, row).(publishing := after.publishing)
    requires after.publishing.Idle? || (after.publishing == Sending(id) && OnItsWay(row))
    ensures RtOk(after, at) && Advances(c, after)
  {
    hide RowFacts, Evolves, Advances, EngineOk, QueueOk, RowsOk, Intending, OnItsWay;
    ReplacedOk(c, id, row, after, at);
  }

  lemma RepliedRow(r: Row, id: int, outcome: RedisOutcome, now: Stamp, at: Stamp)
    requires RowFacts(r, id, now) && now.NotAfter(at) && Shaped(r) && OnItsWay(r)
    ensures var n := FinishPublish(r, outcome, at); RowFacts(n, id, at) && Evolves(r, n) && Shaped(n)
  {
    hide RowInv, Readable, Evolves, TtlMs, ScoreAll;
    FinishKeepsRow(r, outcome, at, now.mono);
    FinishEvolves(r, outcome, at);
    EvolvesKeepsDecision(r, FinishPublish(r, outcome, at));
    RowFactsFrom(r, FinishPublish(r, outcome, at), id, now, at);
    RowShape(FinishPublish(r, outcome, at), at.mono);
  }

  lemma ReplyKeeps(rt: Runtime, outcome: RedisOutcome, now: Stamp, at: Stamp)
    requires RtOk(rt, now) && now.NotAfter(at)
    ensures Formed(rt)
    ensures var after := Replied(rt, outcome, at);
            && RtOk(after, at) && Advances(rt, after) && after.auditing == rt.auditing && after.closed == rt.closed
            && after.decisions == rt.decisions && after.pending == rt.pending
            && (after.publishing.Idle? || after == rt)
  {
    hide RtOk, FinishPublish, Evolves, Advances, RowFacts, Intending, OnItsWay;
    OkIsFormed(rt, now);
    LaterOk(rt, now, at);
    if rt.publishing.Sending? {
      var id := rt.publishing.id;
      FactsOfRow(rt, id, now);
      RepliedRow(rt.records[id], id, outcome, now, at);
      IdleReplace(rt, id, FinishPublish(rt.records[id], outcome, at), at);
    } else {
      AdvanceByCount(rt, rt);
    }
  }

  // ---------------------------------------------------------------- audit and shutdown

  /** Rows and stage are the same; dirty marks and the audit stage may differ. */
  lemma AuditStageKeeps(rt: Runtime, after: Runtime, now: Stamp)
    requires RtOk(rt, now) && Formed(after) && after == rt.(dirty := after.dirty, auditing := after.auditing)
    ensures RtOk(after, now) && Advances(rt, after)
  {
    hide EngineOk, QueueOk, RowsOk, Intending, Advances;
    AdvanceByCount(rt, after);
  }

  lemma PopKeeps(rt: Runtime, now: Stamp)
    requires RtOk(rt, now)
    ensures Formed(rt) && RtOk(Pop(rt), now)
    ensures Pop(rt) == rt.(records := Pop(rt).records, auditing := Pop(rt).auditing)
    ensures forall id :: id in Pop(rt).records ==> id in rt.records && Pop(rt).records[id] == rt.records[id]
  {
    hide EngineOk, QueueOk, RowFacts, Intending;
  }

  lemma AuditFailedKeeps(rt: Runtime, integrity: bool, now: Stamp)
    requires RtOk(rt, now)
    ensures Formed(rt)
    ensures var after := AuditFailed(rt, integrity);
            && RtOk(after, now) && Advances(rt, after) && after.publishing == rt.publishing
            && after.pending == rt.pending
            && after.decisions == rt.decisions && after.closed == rt.closed && after.auditing.Resting?
  {
    hide RtOk, Advances, IoFailure, Quiet;
    OkIsFormed(rt, now);
    if rt.auditing.Resting? {
      AdvanceByCount(rt, rt);
    } else {
      var resting := rt.(auditing := Resting, dirty := rt.dirty + {rt.auditing.id});
      AuditStageKeeps(rt, resting, now);
      IoFailureKeepsOk(resting, AuditScope, integrity, now);
      QuietStages(resting, IoFailure(resting, AuditScope, integrity));
      QuietAfterAdvances(rt, resting, IoFailure(resting, AuditScope, integrity));
    }
  }

  lemma CloseKeeps(rt: Runtime, now: Stamp)
    requires RtOk(rt, now)
    ensures Formed(rt) && RtOk(Close(rt), now) && Advances(rt, Close(rt))
    ensures var after := Close(rt);
            after.auditing == rt.auditing && after.publishing == rt.publishing && after.decisions == rt.decisions
            && after.records == rt.records && (after.pending.None? || after == rt) && after.dirty == rt.dirty
  {
    hide EngineOk, QueueOk, RowsOk, Intending, Advances;
    AdvanceByCount(rt, Close(rt));
  }

  lemma ShutKeeps(rt: Runtime, now: Stamp, at: Stamp)
    requires RtOk(rt, now) && now.NotAfter(at)
    ensures Formed(rt) && RtOk(ShutDown(rt, at), at) && Quiet(rt, ShutDown(rt, at))
  {
    hide RtOk, Quiet, Drain, SweepAll;
    OkIsFormed(rt, now);
    LaterOk(rt, now, at);
    DrainKeeps(rt, at);
    OkIsFormed(Drain(rt, at), at);
    SweepKeepsOk(Drain(rt, at), End, at, at);
    QuietThrough(rt, Drain(rt, at), SweepAll(Drain(rt, at), End));
    QuietSelf(rt, rt);
  }
}
