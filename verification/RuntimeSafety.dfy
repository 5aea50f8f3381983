/**
 Every atomic step of the runtime keeps its invariant, and only the Redis attempt ever
 hands a publication over.
 */
module RuntimeSafety {
  import opened Core
  import opened GhostTwap
  import opened GhostPayload
  import opened EngineInvariants
  import opened AuditRow
  import opened CompactAgreement
  import opened AuditHistory
  import opened PayloadAgreement
  import opened RuntimeModel
  import opened GhostSpool
  import opened RuntimeRuns
  import opened RuntimeSteps
  import opened PublicationSteps
  import EngineRuns

  // ---------------------------------------------------------------- what a step does

  /** A publication goes on, ends, or starts with the pending decision. */
  predicate PublicationMovesOn(rt: Runtime, after: Runtime) {
    || after.publishing.Idle?
    || (!rt.publishing.Idle? && after.publishing.id == rt.publishing.id
        && (rt.publishing.Sending? <==> after.publishing.Sending?)
        && (rt.publishing.Spooled? ==> after.publishing.Spooled?)
        && (after.publishing.Spooling? ==> rt.publishing == after.publishing))
    || (rt.publishing.Idle? && after.publishing.Spooling? && rt.pending == Some(after.publishing.id)
        && after.pending.None? && after.publishing.id in after.records
        && after.publishing.record == after.records[after.publishing.id])
  }

  /** Rows evolve or leave, new ones carry the newest identity, the epoch never falls. */
  ghost predicate StepShape(rt: Runtime, after: Runtime) {
    && (forall id :: id in rt.records && id in after.records ==> Evolves(rt.records[id], after.records[id]))
    && (forall id :: id in after.records ==> id in rt.records || (id == after.decisions && rt.decisions < id))
    && rt.decisions <= after.decisions && rt.epoch <= after.epoch && PendingMoves(rt, after)
  }

  lemma QuietShape(rt: Runtime, after: Runtime)
    requires Quiet(rt, after)
    ensures StepShape(rt, after) && PublicationMovesOn(rt, after) && Advances(rt, after)
    ensures after.publishing == rt.publishing && after.auditing == rt.auditing && after.closed == rt.closed
    ensures after.pending == rt.pending && after.decisions == rt.decisions && after.records.Keys == rt.records.Keys
  {
    hide Evolves;
  }

  lemma AdvancesShape(rt: Runtime, after: Runtime)
    requires Advances(rt, after) && PendingMoves(rt, after)
    ensures StepShape(rt, after)
  {
    hide Evolves;
  }

  lemma OffersKeepOk(rt: Runtime, offer: Offer, now: Stamp)
    requires RtOk(rt, now) && Ordered(now, OfferReadings(offer))
    ensures Formed(rt)
    ensures var after := ActOffer(rt, offer); RtOk(after, Latest(now, OfferReadings(offer))) && Quiet(rt, after)
  {
    hide RtOk, Quiet, OfferGap, OfferPrice, Stop, Suspend, Resume, ShutDown, SweepAll, Advances;
    OkIsFormed(rt, now);
    match offer
    case GapOffer(feed, reason, at) => OfferGapKeeps(rt, feed, reason, now, at);
    case PriceOffer(feed, value, sourceMs, eventId, lateFull, at) =>
      OfferPriceKeeps(rt, feed, value, sourceMs, eventId, lateFull, now, at);
    case DueTick(at) => SweepKeepsOk(rt, Due(at.mono), now, at);
    case SuspendCall(scope) => SuspendKeepsOk(rt, scope, now);
    case StopCall(causal) => StopKeepsOk(rt, causal, now);
    case ResumeCall => ResumeKeepsOk(rt, now);
    case ShutCall(at) => ShutKeeps(rt, now, at);
  }

  /** What the calculation and publication workers leave alone. */
  predicate SameBack(w: World, a: World) {
    a.rt.auditing == w.rt.auditing && a.store == w.store && a.spoolMax == w.spoolMax && a.now == w.now
  }

  ghost predicate Moved(w: World, a: World, now: Stamp) {
    && RtOk(a.rt, now) && StepShape(w.rt, a.rt) && Advances(w.rt, a.rt) && SameBack(w, a)
  }

  lemma SpoolStepsMove(w: World, work: Work)
    requires RtOk(w.rt, w.now) && (work.CancelWork? || work.OutboxWork? || work.OutboxError?)
    ensures Formed(w.rt) && Moved(w, ActWork(w, work), w.now) && PublicationMovesOn(w.rt, ActWork(w, work).rt)
    ensures ActWork(w, work).attempts == w.attempts && ActWork(w, work).issued == w.issued
  {
    hide RtOk, StepShape, Advances, SpoolFailed, SpoolDone, SpoolCancelled, Written, Formed, PublicationMovesOn;
    OkIsFormed(w.rt, w.now);
    var integrity := if work.OutboxError? then work.integrity else true;
    SpoolKeeps(w.rt, w.now, integrity);
    SpoolMovesOn(w.rt, integrity);
    AdvanceByCount(w.rt, w.rt);
    AdvanceByCount(w.rt, SpoolDone(w.rt));
    AdvanceByCount(w.rt, SpoolCancelled(w.rt));
    AdvancesShape(w.rt, ActWork(w, work).rt);
  }

  lemma WorkersMove(w: World, work: Work)
    requires RtOk(w.rt, w.now) && Ordered(w.now, WorkReadings(work))
    requires work.IssueWork? || work.BeginWork? || work.ReplyWork? || work.CloseWork?
    ensures Formed(w.rt) && Moved(w, ActWork(w, work), Latest(w.now, WorkReadings(work)))
    ensures PublicationMovesOn(w.rt, ActWork(w, work).rt)
    ensures ActWork(w, work).attempts == w.attempts && ActWork(w, work).outbox == w.outbox
    ensures ActWork(w, work).rt.publishing.Spooled? ==> ActWork(w, work).rt.publishing == w.rt.publishing
  {
    hide RtOk, StepShape, Advances, Issue, Begin, Replied, Close;
    OkIsFormed(w.rt, w.now);
    var a := ActWork(w, work);
    match work
    case IssueWork(admission, oversized, at, completed) =>
      IssueKeeps(w.rt, admission, oversized, w.now, at, completed);
      AdvancesShape(w.rt, a.rt);
    case BeginWork(verdict, checked, at) =>
      BeginKeeps(w.rt, verdict, w.now, checked, at);
      BegunMovesOn(w.rt, verdict, checked, at);
      AdvancesShape(w.rt, a.rt);
    case ReplyWork(outcome, at) =>
      ReplyKeeps(w.rt, outcome, w.now, at);
      AdvancesShape(w.rt, a.rt);
    case CloseWork =>
      CloseKeeps(w.rt, w.now);
      AdvancesShape(w.rt, a.rt);
  }

  lemma AttemptMoves(w: World, verdict: Verdict, checked: Stamp, at: Stamp)
    requires RtOk(w.rt, w.now) && w.now.NotAfter(checked) && checked.NotAfter(at)
    ensures Formed(w.rt) && Moved(w, Attempted(w, verdict, checked, at), at)
    ensures var a := Attempted(w, verdict, checked, at);
            && a.rt == TryAttempt(w.rt, verdict, checked, at).0 && a.outbox == w.outbox && a.issued == w.issued
  {
    hide RtOk, Advances, TryAttempt, StepShape;
    OkIsFormed(w.rt, w.now);
    AttemptKeeps(w.rt, verdict, w.now, checked, at);
    AdvancesShape(w.rt, TryAttempt(w.rt, verdict, checked, at).0);
  }

  lemma BegunMovesOn(rt: Runtime, verdict: Verdict, checked: Stamp, at: Stamp)
    requires Formed(rt)
    ensures PublicationMovesOn(rt, Begin(rt, verdict, checked, at)) && PendingMoves(rt, Begin(rt, verdict, checked, at))
  {
    hide Stop, Suspend, BeginPublish;
    if rt.pending.Some? && rt.publishing.Idle? {
      PublishableStages(rt, rt.pending.value, checked, verdict);
    }
  }

  lemma PublishableStages(rt: Runtime, id: int, now: Stamp, verdict: Verdict)
    requires Formed(rt) && id in rt.records
    ensures var c := Publishable(rt, id, now, verdict).0;
            && c.publishing == rt.publishing && c.pending == rt.pending && c.decisions == rt.decisions
            && c.auditing == rt.auditing
  {
    hide SweptRows, SweptDirty;
  }

  lemma SpoolMovesOn(rt: Runtime, integrity: bool)
    requires Formed(rt)
    ensures PublicationMovesOn(rt, SpoolDone(rt)) && PublicationMovesOn(rt, SpoolCancelled(rt))
    ensures PublicationMovesOn(rt, SpoolFailed(rt, integrity)) && PublicationMovesOn(rt, rt)
  {
    hide IoFailure;
  }

  /** Same publication, same decisions, same log. */
  predicate SameFront(w: World, a: World) {
    && a.rt.publishing == w.rt.publishing && a.rt.pending == w.rt.pending && a.rt.decisions == w.rt.decisions
    && a.now == w.now && a.attempts == w.attempts && a.issued == w.issued && a.rt.closed == w.rt.closed
    && a.spoolMax == w.spoolMax
  }

  lemma AuditWriteShape(w: World, next: Runtime)
    requires RtOk(w.rt, w.now) && Formed(next) && next == w.rt.(dirty := next.dirty, auditing := next.auditing)
    ensures Formed(w.rt)
    ensures var a := AuditWrite(w, next); RtOk(a.rt, w.now) && Advances(w.rt, a.rt) && SameFront(w, a)
  {
    hide RtOk, Advances, AuditEffect, AuditFailed;
    OkIsFormed(w.rt, w.now);
    AuditFailedKeeps(w.rt, true, w.now);
    AuditStageKeeps(w.rt, next, w.now);
  }

  lemma AuditFailureShape(w: World, integrity: bool, applied: bool)
    requires RtOk(w.rt, w.now)
    ensures Formed(w.rt)
    ensures var a := AuditFailure(w, integrity, applied); RtOk(a.rt, w.now) && Advances(w.rt, a.rt) && SameFront(w, a)
  {
    hide RtOk, Advances, AuditEffect, AuditFailed;
    OkIsFormed(w.rt, w.now);
    AuditFailedKeeps(w.rt, integrity, w.now);
  }

  /** The stages of the audit pass change nothing but themselves and the dirty marks. */
  lemma AuditStagesKeep(rt: Runtime, id: int, now: Stamp)
    requires RtOk(rt, now)
    ensures Formed(rt)
    ensures forall next :: next in {TakeDirty(rt, id), Saved(rt), Stored(rt), Settle(rt), Gone(rt)} ==>
              && RtOk(next, now) && Advances(rt, next)
              && next == rt.(dirty := next.dirty, auditing := next.auditing)
  {
    hide RtOk, Advances;
    OkIsFormed(rt, now);
    AuditStageKeeps(rt, TakeDirty(rt, id), now);
    AuditStageKeeps(rt, Saved(rt), now);
    AuditStageKeeps(rt, Stored(rt), now);
    AuditStageKeeps(rt, Settle(rt), now);
    AuditStageKeeps(rt, Gone(rt), now);
  }

  lemma PreserveShape(w: World, id: int)
    requires RtOk(w.rt, w.now)
    ensures var a := Preserve(w, id); a.rt == w.rt && SameFront(w, a) && a.store == w.store
  {
    hide RtOk, Written;
  }

  lemma PopMoves(w: World)
    requires RtOk(w.rt, w.now)
    ensures Formed(w.rt) && RtOk(Pop(w.rt), w.now) && StepShape(w.rt, Pop(w.rt))
    ensures Pop(w.rt) == w.rt.(records := Pop(w.rt).records, auditing := Pop(w.rt).auditing)
  {
    hide Evolves, RtOk;
    OkIsFormed(w.rt, w.now);
    PopKeeps(w.rt, w.now);
    forall id | id in Pop(w.rt).records ensures Evolves(w.rt.records[id], Pop(w.rt).records[id]) {
      EvolvesFromSelf(w.rt.records[id]);
    }
  }

  lemma AuditorMoves(w: World, audit: Audit)
    requires RtOk(w.rt, w.now)
    ensures Formed(w.rt)
    ensures var a := ActAudit(w, audit); RtOk(a.rt, w.now) && StepShape(w.rt, a.rt) && SameFront(w, a)
    ensures !audit.PopAudit? ==> Advances(w.rt, ActAudit(w, audit).rt)
  {
    hide RtOk, Advances, AuditWrite, AuditFailure, Preserve, TakeDirty, Saved, Stored, Settle, Gone, Pop, Formed,
         StepShape;
    OkIsFormed(w.rt, w.now);
    AdvanceByCount(w.rt, w.rt);
    var id := if audit.PickAudit? || audit.PreserveAudit? then audit.id else 0;
    AuditStagesKeep(w.rt, id, w.now);
    match audit
    case PickAudit(_) => AdvancesShape(w.rt, ActAudit(w, audit).rt);
    case SaveAudit => AuditWriteShape(w, Saved(w.rt)); AdvancesShape(w.rt, ActAudit(w, audit).rt);
    case StoreAudit => AuditWriteShape(w, Stored(w.rt)); AdvancesShape(w.rt, ActAudit(w, audit).rt);
    case SettleAudit => AdvancesShape(w.rt, ActAudit(w, audit).rt);
    case UnlinkAudit => AuditWriteShape(w, Gone(w.rt)); AdvancesShape(w.rt, ActAudit(w, audit).rt);
    case PopAudit => PopMoves(w);
    case FailAudit(integrity, applied) =>
      AuditFailureShape(w, integrity, applied);
      AdvancesShape(w.rt, ActAudit(w, audit).rt);
    case PreserveAudit(_) =>
      PreserveShape(w, id);
      AdvancesShape(w.rt, w.rt);
  }

  lemma StagesMoveOn(rt: Runtime, after: Runtime)
    requires after.publishing == rt.publishing
    ensures PublicationMovesOn(rt, after)
  {
  }

  /** Every step keeps the runtime's invariants and moves rows and stages as it may. */
  lemma StepKeepsOk(w: World, step: Step)
    requires RtOk(w.rt, w.now) && Ordered(w.now, Readings(step))
    ensures Formed(w.rt)
    ensures var a := Apply(w, step); RtOk(a.rt, a.now) && StepShape(w.rt, a.rt)
    ensures var a := Apply(w, step);
            (step.Worked? && step.work.AttemptWork?)
            || (PublicationMovesOn(w.rt, a.rt) && a.attempts == w.attempts)
  {
    hide RtOk, StepShape, Advances, Quiet, PublicationMovesOn, ActOffer, ActWork, ActAudit;
    OkIsFormed(w.rt, w.now);
    match step
    case Offered(offer) =>
      OffersKeepOk(w.rt, offer, w.now);
      QuietShape(w.rt, ActOffer(w.rt, offer));
    case Worked(work) => WorkKeepsOk(w, work);
    case Audited(audit) =>
      AuditorMoves(w, audit);
      StagesMoveOn(w.rt, ActAudit(w, audit).rt);
  }

  lemma WorkKeepsOk(w: World, work: Work)
    requires RtOk(w.rt, w.now) && Ordered(w.now, WorkReadings(work))
    ensures Formed(w.rt) && Moved(w, ActWork(w, work), Latest(w.now, WorkReadings(work)))
    ensures !work.AttemptWork? ==>
              PublicationMovesOn(w.rt, ActWork(w, work).rt) && ActWork(w, work).attempts == w.attempts
  {
    hide RtOk, Moved, Attempted, Begin, Issue, Replied, Close, OutboxWrite, OutboxFailure;
    OkIsFormed(w.rt, w.now);
    match work
    case AttemptWork(verdict, checked, at) => AttemptMoves(w, verdict, checked, at);
    case CancelWork => SpoolStepsMove(w, work);
    case OutboxWork => SpoolStepsMove(w, work);
    case OutboxError(_, _) => SpoolStepsMove(w, work);
    case _ => WorkersMove(w, work);
  }
}
