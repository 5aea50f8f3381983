/**
 No stale offer: once a TWAP event with a horizon's target stamp has been offered to the
 runtime after a decision was issued, that decision is never handed to Redis with the
 horizon, whatever the runtime made of the event.
 */
module HeardTargets {
  import opened Core
  import opened GhostTwap
  import opened GhostPayload
  import opened AuditRow
  import opened CompactAgreement
  import opened AuditHistory
  import opened PayloadAgreement
  import opened RuntimeModel
  import opened GhostSpool
  import opened RuntimeRuns
  import opened RuntimeSteps
  import opened PublicationSteps
  import opened RuntimeSafety
  import opened PublicationSafety
  import opened EpochFence

  /** A reader offers a TWAP event stamped at the target of this horizon. */
  predicate HearsTarget(step: Step, d: Decision, i: nat) {
    && step.Offered? && step.offer.PriceOffer? && step.offer.feed == Twap
    && i < |d.forecasts| && d.forecasts[i].target == Some(step.offer.sourceMs)
  }

  // ---------------------------------------------------------------- what ends a row's chances for good

  /** The runtime will not publish this row again. */
  predicate Fenced(rt: Runtime, r: Row) { rt.closed || rt.stopped || r.epoch < rt.epoch }

  /** The row, if still held, can no longer offer this horizon. */
  predicate Barred(rt: Runtime, id: int, i: int)
    requires Formed(rt) && 0 <= i < 6
  {
    id in rt.records ==> Fenced(rt, rt.records[id]) || Exclusion(rt.records[id], i).Some?
  }

  /** Stopping and closing are final. */
  predicate Lasts(rt: Runtime, after: Runtime) {
    (rt.stopped ==> after.stopped) && (rt.closed ==> after.closed)
  }

  /** And the engine and its queue are left alone. */
  predicate Leaves(rt: Runtime, after: Runtime) {
    Lasts(rt, after) && after.engine == rt.engine && after.queue == rt.queue
  }

  lemma SweepLasts(rt: Runtime, sweep: Sweep)
    requires Formed(rt)
    ensures SweepAll(rt, sweep).stopped == rt.stopped && Leaves(rt, SweepAll(rt, sweep))
    ensures SweepAll(rt, sweep).closed == rt.closed
  {
    hide SweptRows, SweptDirty;
  }

  lemma StopLasts(rt: Runtime, causal: bool)
    requires Formed(rt)
    ensures Stop(rt, causal).stopped && Stop(rt, causal).closed == rt.closed && Leaves(rt, Stop(rt, causal))
  {
    hide SweepAll;
    SweepLasts(rt, Note(1));
    SweepLasts(if rt.stopped then rt else SweepAll(rt, Note(1)).(stopped := true), Void);
  }

  lemma SuspendLasts(rt: Runtime, scope: Scope)
    requires Formed(rt)
    ensures Leaves(rt, Suspend(rt, scope))
  {
    hide SweptRows, SweptDirty;
  }

  lemma IoFailureLasts(rt: Runtime, scope: Scope, integrity: bool)
    requires Formed(rt)
    ensures Leaves(rt, IoFailure(rt, scope, integrity))
  {
    hide Stop, Suspend;
    StopLasts(rt, false);
    SuspendLasts(rt, scope);
  }

  lemma PriceLasts(rt: Runtime, feed: Feed, value: int, sourceMs: int, eventId: string, at: Stamp, lateFull: bool)
    requires Formed(rt)
    ensures Lasts(rt, OfferPrice(rt, feed, value, sourceMs, eventId, at, lateFull))
  {
    hide SweepAll, Stop, PriceEvent.Valid;
    var counted := rt.(sequence := rt.sequence + 1);
    var e := PriceEvent(feed, value, sourceMs, at.wall, at.mono, rt.sequence + 1, eventId);
    StopLasts(counted, true);
    var noted := counted.(lastAdmitted := Some(Stamp(e.wallNs, e.monoNs)));
    SweepLasts(noted, See(e));
    StopLasts(SweepAll(noted, See(e)), false);
    StopLasts(noted, false);
  }

  lemma {:induction false} DrainLasts(rt: Runtime, now: Stamp)
    requires Formed(rt)
    ensures Lasts(rt, Drain(rt, now))
    decreases |rt.queue|
  {
    hide RecordGap, AcceptOutcome, Stop;
    if rt.queue != [] {
      var popped := rt.(queue := rt.queue[1..]);
      var next := DrainOne(popped, rt.queue[0], now);
      OneLasts(popped, rt.queue[0], now);
      DrainLasts(next, now);
    }
  }

  lemma OneLasts(rt: Runtime, item: Item, now: Stamp)
    requires Formed(rt)
    ensures Lasts(rt, DrainOne(rt, item, now))
  {
    hide RecordGap, AcceptOutcome, Stop;
    match item
    case GapItem(feed, reason, at) =>
      var clock := if at.Some? then at.value else now;
      StopLasts(rt.(engine := RecordGap(rt.engine, feed, reason, Some(clock.wall), Some(clock.mono)).state), true);
    case PriceItem(e) =>
      StopLasts(rt.(engine := AcceptOutcome(rt.engine, e, Bounded).0), true);
  }

  lemma OfferLasts(rt: Runtime, offer: Offer)
    requires Formed(rt)
    ensures Lasts(rt, ActOffer(rt, offer))
  {
    hide SweepAll, Stop, Suspend, Drain, OfferPrice;
    match offer
    case GapOffer(_, _, _) =>
    case PriceOffer(feed, value, sourceMs, eventId, lateFull, at) =>
      PriceLasts(rt, feed, value, sourceMs, eventId, at, lateFull);
    case DueTick(at) => SweepLasts(rt, Due(at.mono));
    case SuspendCall(scope) => SuspendLasts(rt, scope);
    case StopCall(causal) => StopLasts(rt, causal);
    case ResumeCall => SweepLasts(rt, Note(|rt.suspended|));
    case ShutCall(at) =>
      DrainLasts(rt, at);
      SweepLasts(Drain(rt, at), End);
  }

  lemma FreezeLasts(rt: Runtime, now: Stamp, completed: Stamp, oversized: bool)
    requires Formed(rt)
    ensures Lasts(rt, Freeze(rt, now, completed, oversized))
  {
    hide Snapshot, Stop, NewRow;
    var (engine, decision) := Snapshot(rt.engine, rt.decisions + 1, now.wall, now.mono, Bounded);
    var counted := rt.(decisions := rt.decisions + 1, engine := engine);
    StopLasts(counted, false);
    StopLasts(counted.(lastFrozen := Some(now)), false);
  }

  lemma IssueLasts(rt: Runtime, admission: Admission, oversized: bool, now: Stamp, completed: Stamp)
    requires Formed(rt)
    ensures Lasts(rt, Issue(rt, admission, oversized, now, completed))
  {
    hide Drain, Freeze, Stop, Suspend;
    DrainLasts(rt, now);
    var drained := Drain(rt, now);
    FreezeLasts(drained, now, completed, oversized);
    StopLasts(drained, true);
    StopLasts(drained, false);
    if admission.SuspendFor? { SuspendLasts(drained, admission.scope); }
  }

  lemma PublishableLasts(rt: Runtime, id: int, now: Stamp, verdict: Verdict)
    requires Formed(rt) && id in rt.records
    ensures Leaves(rt, Publishable(rt, id, now, verdict).0)
    ensures Publishable(rt, id, now, verdict).1 ==>
              Publishable(rt, id, now, verdict).0 == rt && Current(rt, rt.records[id])
  {
    hide Stop, Suspend, Current;
    StopLasts(rt, true);
    StopLasts(rt, false);
    SuspendLasts(rt, GuardScope);
  }

  lemma BeginLasts(rt: Runtime, verdict: Verdict, checked: Stamp, now: Stamp)
    requires Formed(rt)
    ensures Leaves(rt, Begin(rt, verdict, checked, now))
  {
    hide Publishable, BeginPublish;
    if rt.pending.Some? { PublishableLasts(rt, rt.pending.value, checked, verdict); }
  }

  lemma AttemptLasts(rt: Runtime, verdict: Verdict, checked: Stamp, now: Stamp)
    requires Formed(rt)
    ensures Leaves(rt, TryAttempt(rt, verdict, checked, now).0)
  {
    hide Publishable, AttemptPublish;
    if rt.publishing.Spooled? { PublishableLasts(rt, rt.publishing.id, checked, verdict); }
  }

  lemma WorkLasts(w: World, work: Work)
    requires Formed(w.rt)
    ensures Lasts(w.rt, ActWork(w, work).rt) && (!work.IssueWork? ==> Leaves(w.rt, ActWork(w, work).rt))
  {
    hide Issue, Begin, TryAttempt, FinishPublish, SpoolFailed, Written, ReceivedTargets;
    match work
    case IssueWork(admission, oversized, at, completed) => IssueLasts(w.rt, admission, oversized, at, completed);
    case BeginWork(verdict, checked, at) => BeginLasts(w.rt, verdict, checked, at);
    case OutboxWork => SpoolLasts(w.rt, true);
    case OutboxError(integrity, _) => SpoolLasts(w.rt, integrity);
    case AttemptWork(verdict, checked, at) => AttemptLasts(w.rt, verdict, checked, at);
    case _ =>
  }

  lemma SpoolLasts(rt: Runtime, integrity: bool)
    requires Formed(rt)
    ensures Leaves(rt, SpoolFailed(rt, integrity)) && Leaves(rt, SpoolDone(rt))
  {
    hide IoFailure;
    if rt.publishing.Spooling? {
      var id := rt.publishing.id;
      IoFailureLasts(Replace(rt, id, Changed(WithStatus(rt.records[id], SpoolUnavailable))), PublicationScope,
                     integrity);
    }
  }

  lemma AuditFailedLasts(rt: Runtime, integrity: bool)
    requires Formed(rt)
    ensures Leaves(rt, AuditFailed(rt, integrity))
  {
    hide IoFailure;
    if !rt.auditing.Resting? {
      IoFailureLasts(rt.(auditing := Resting, dirty := rt.dirty + {rt.auditing.id}), AuditScope, integrity);
    }
  }

  lemma AuditStagesLast(rt: Runtime, id: int)
    requires Formed(rt)
    ensures Leaves(rt, TakeDirty(rt, id)) && Leaves(rt, Saved(rt)) && Leaves(rt, Stored(rt)) && Leaves(rt, Settle(rt))
    ensures Leaves(rt, Gone(rt)) && Leaves(rt, Pop(rt))
  {
  }

  lemma AuditLasts(w: World, audit: Audit)
    requires Formed(w.rt)
    ensures Leaves(w.rt, ActAudit(w, audit).rt)
  {
    hide Leaves, AuditFailed, AuditEffect, Written, TakeDirty, Saved, Stored, Settle, Gone, Pop;
    AuditStagesLast(w.rt, if audit.PickAudit? then audit.id else 0);
    AuditFailedLasts(w.rt, if audit.FailAudit? then audit.integrity else true);
    assert Leaves(w.rt, w.rt) by { QuietLasts(w.rt); }
  }

  lemma QuietLasts(rt: Runtime)
    ensures Leaves(rt, rt)
  {
  }

  lemma StepLasts(w: World, step: Step)
    requires Formed(w.rt)
    ensures Lasts(w.rt, Apply(w, step).rt)
  {
    hide ActOffer, ActWork, ActAudit;
    match step
    case Offered(offer) => OfferLasts(w.rt, offer);
    case Worked(work) => WorkLasts(w, work);
    case Audited(audit) => AuditLasts(w, audit);
  }

  // ---------------------------------------------------------------- what bars a horizon stays

  lemma ExclusionStays(o: Row, n: Row, i: int)
    requires Shaped(o) && Shaped(n) && 0 <= i < 6 && Evolves(o, n)
    ensures n.epoch == o.epoch && (Exclusion(o, i).Some? ==> Exclusion(n, i).Some?)
  {
    assert TargetMoves(o.targets[i], n.targets[i]);
  }

  lemma BarredStays(w: World, step: Step, id: int, i: int)
    requires WorldOk(w) && Ordered(w.now, Readings(step)) && 0 <= i < 6
    requires id in w.issued && Formed(w.rt) && Barred(w.rt, id, i)
    ensures Formed(Apply(w, step).rt) && Barred(Apply(w, step).rt, id, i)
  {
    hide RtOk, LogOk, Apply, Evolves, Exclusion;
    var a := Apply(w, step);
    StepKeepsOk(w, step);
    StepLasts(w, step);
    IssuedIsNotNew(w, id);
    if id in a.rt.records { ExclusionStays(w.rt.records[id], a.rt.records[id], i); }
  }

  lemma IssuedIsNotNew(w: World, id: int)
    requires WorldOk(w) && id in w.issued
    ensures 1 <= id <= w.rt.decisions
  {
    hide RtOk, SafeAttempt, TurnsOk, InOrder;
  }

  // ---------------------------------------------------------------- hearing a target bars its horizon

  lemma ObservedIsExcluded(r: Row, id: int, now: Stamp, e: PriceEvent, i: int)
    requires RowFacts(r, id, now) && Shaped(r) && 0 <= i < 6
    requires r.decision.forecasts[i].target == Some(e.sourceMs) && r.decision.monoNs <= e.monoNs
    ensures Exclusion(Observe(r, e), i).Some?
  {
    hide ObserveTarget, Masking, TargetInv, Readable;
    assert TargetInv(r.decision, r.publication, r.causalityInvalid, r.targets[i], i, now.mono);
    TargetIsForecast(r, i, now.mono);
    ObservedAt(r, 6, e, i);
    ObservedTargetIsMasked(r, e, i);
  }

  lemma TargetIsForecast(r: Row, i: int, now: int)
    requires Shaped(r) && 0 <= i < 6 && TargetInv(r.decision, r.publication, r.causalityInvalid, r.targets[i], i, now)
    ensures r.targets[i].stamp == r.decision.forecasts[i].target
  {
    hide FirstOk, EvidenceOk, ExpectedLead;
  }

  lemma {:induction false} ObservedAt(r: Row, n: nat, e: PriceEvent, i: int)
    requires Shaped(r) && n <= 6 && 0 <= i < 6
    ensures var after := ObserveUpTo(r, n, e);
            && after.decision == r.decision && after.publication == r.publication
            && after.causalityInvalid == r.causalityInvalid
            && after.targets[i]
               == if i < n then ObserveTarget(r.decision, r.publication, r.causalityInvalid, r.targets[i], i, e).0
                  else r.targets[i]
  {
    hide ObserveTarget;
    if n > 0 { ObservedAt(r, n - 1, e, i); }
  }

  lemma ObservedTargetIsMasked(r: Row, e: PriceEvent, i: int)
    requires Shaped(r) && 0 <= i < 6 && r.targets[i].stamp == Some(e.sourceMs) && r.decision.monoNs <= e.monoNs
    ensures Masking(r.decision.forecasts[i],
                    ObserveTarget(r.decision, r.publication, r.causalityInvalid, r.targets[i], i, e).0).Some?
  {
  }

  /** Whatever becomes of the offer, the row cannot offer its horizon any more. */
  lemma OfferBars(rt: Runtime, now: Stamp, offer: Offer, id: int, i: int)
    requires RtOk(rt, now) && Ordered(now, OfferReadings(offer)) && Formed(rt)
    requires offer.PriceOffer? && offer.feed == Twap && 0 <= i < 6 && id in rt.records
    requires rt.records[id].epoch <= rt.epoch
    requires rt.records[id].decision.forecasts[i].target == Some(offer.sourceMs)
    ensures Barred(ActOffer(rt, offer), id, i)
  {
    hide RtOk, Stop, SweepAll, Exclusion, Quiet, PriceEvent.Valid;
    var counted := rt.(sequence := rt.sequence + 1);
    var e := PriceEvent(Twap, offer.value, offer.sourceMs, offer.at.wall, offer.at.mono, rt.sequence + 1,
                        offer.eventId);
    StopLasts(counted, true);
    if !rt.closed && e.Valid() && !Backdated(counted, offer.at) {
      AdmissionBars(counted, rt, now, e, offer.lateFull, id, i);
    }
  }

  lemma AdmissionBars(counted: Runtime, rt: Runtime, now: Stamp, e: PriceEvent, lateFull: bool, id: int, i: int)
    requires RtOk(rt, now) && Formed(rt) && counted == rt.(sequence := rt.sequence + 1)
    requires e.feed == Twap && now.NotAfter(Stamp(e.wallNs, e.monoNs)) && 0 <= i < 6 && id in rt.records
    requires rt.records[id].decision.forecasts[i].target == Some(e.sourceMs)
    ensures Barred(Admitted(counted, e, lateFull), id, i)
  {
    hide RtOk, RowFacts, Stop, Exclusion, Observe, Evolves;
    var noted := counted.(lastAdmitted := Some(Stamp(e.wallNs, e.monoNs)));
    var observed := SweepAll(noted, See(e));
    FactsOfRow(rt, id, now);
    RowPrecedes(rt.records[id], id, now);
    ObservedIsExcluded(rt.records[id], id, now, e, i);
    assert observed.records[id] == Observe(rt.records[id], e);
    StopLasts(observed, false);
  }

  lemma RowPrecedes(r: Row, id: int, now: Stamp)
    requires RowFacts(r, id, now)
    ensures r.decision.monoNs <= now.mono
  {
    hide RowInv, Readable;
  }

  lemma OfferStepBars(w: World, step: Step, id: int, i: int)
    requires WorldOk(w) && Ordered(w.now, Readings(step)) && 0 <= i < 6 && id in w.issued
    requires HearsTarget(step, w.issued[id].decision, i)
    ensures Formed(w.rt) && Barred(Apply(w, step).rt, id, i)
  {
    hide RtOk, LogOk, ActOffer, Exclusion, Barred;
    OkIsFormed(w.rt, w.now);
    IssuedIsNotNew(w, id);
    StepKeepsOk(w, step);
    if id in w.rt.records {
      HeldOrigin(w, id);
      OfferBars(w.rt, w.now, step.offer, id, i);
    } else {
      AbsentIsBarred(Apply(w, step).rt, w.rt, id, i);
    }
  }

  lemma AbsentIsBarred(after: Runtime, rt: Runtime, id: int, i: int)
    requires StepShape(rt, after) && Formed(after) && id !in rt.records && id <= rt.decisions && 0 <= i < 6
    ensures Barred(after, id, i)
  {
    hide Evolves, Exclusion;
  }

  lemma HeldOrigin(w: World, id: int)
    requires WorldOk(w) && id in w.rt.records
    ensures id in w.issued && w.rt.records[id].decision == w.issued[id].decision
    ensures w.rt.records[id].epoch <= w.rt.epoch
  {
    hide RtOk, SafeAttempt, TurnsOk, InOrder;
  }

  // ---------------------------------------------------------------- the hand-over

  /** What is handed over comes from a row nothing bars. */
  lemma SentIsUnbarred(w: World, work: Work, i: int)
    requires RtOk(w.rt, w.now) && Ordered(w.now, WorkReadings(work)) && work.AttemptWork? && 0 <= i < 6
    ensures Formed(w.rt)
    ensures var a := ActWork(w, work);
            |a.attempts| > |w.attempts| && HORIZONS[i] in a.attempts[|w.attempts|].sent.eligible
            ==> !Barred(w.rt, a.attempts[|w.attempts|].id, i)
  {
    hide RtOk, Publishable, Exclusion, TtlMs, WorthPublishing, Mask, Current, ReceivedTargets;
    OkIsFormed(w.rt, w.now);
    if w.rt.publishing.Spooled? {
      var id := w.rt.publishing.id;
      PublishableLasts(w.rt, id, work.checked, work.verdict);
      if Publishable(w.rt, id, work.checked, work.verdict).1 {
        CurrentIsUnfenced(w.rt, w.rt.records[id]);
        MaskShape(w.rt.records[id], w.rt.publishing.live, work.at);
      }
    }
  }

  lemma CurrentIsUnfenced(rt: Runtime, r: Row)
    requires Current(rt, r)
    ensures !Fenced(rt, r)
  {
  }

  lemma {:induction false} BarredSince(start: World, steps: seq<Step>, heard: nat, n: nat, id: int, i: int)
    requires Formed(start.rt) && Timely(start, steps) && WorldOk(start) && heard < n <= |steps| && 0 <= i < 6
    requires id in At(start, steps, heard).issued
    requires HearsTarget(steps[heard], At(start, steps, heard).issued[id].decision, i)
    ensures Formed(At(start, steps, n).rt) && Barred(At(start, steps, n).rt, id, i)
    decreases n
  {
    hide WorldOk, Apply, At, Barred, HearsTarget, Timely;
    AtStep(start, steps, n - 1);
    if heard == n - 1 {
      OfferStepBars(At(start, steps, heard), steps[heard], id, i);
    } else {
      BarredSince(start, steps, heard, n - 1, id, i);
      HistoryGrows(start, steps, heard, n - 1);
      BarredStays(At(start, steps, n - 1), steps[n - 1], id, i);
    }
  }

  /**
   When a step hands a decision to Redis, no TWAP event stamped at the target of a horizon
   it offers was offered to the runtime by any step since the decision was issued.
   */
  lemma NothingHeardIsOffered(start: World, steps: seq<Step>, heard: nat, n: nat, i: int)
    requires Formed(start.rt) && Timely(start, steps) && WorldOk(start) && heard < n < |steps| && 0 <= i < 6
    requires |At(start, steps, n + 1).attempts| > |At(start, steps, n).attempts|
    ensures var entry := At(start, steps, n + 1).attempts[|At(start, steps, n).attempts|];
            var issued := At(start, steps, heard).issued;
            entry.id in issued && HORIZONS[i] in entry.sent.eligible ==>
              !HearsTarget(steps[heard], issued[entry.id].decision, i)
  {
    hide WorldOk, Apply, At, Barred, HearsTarget, Timely;
    var w, a := At(start, steps, n), At(start, steps, n + 1);
    AtStep(start, steps, n);
    HandOverIsUnbarred(w, steps[n], i);
    var id := a.attempts[|w.attempts|].id;
    var issued := At(start, steps, heard).issued;
    if id in issued && HORIZONS[i] in a.attempts[|w.attempts|].sent.eligible {
      if HearsTarget(steps[heard], issued[id].decision, i) { BarredSince(start, steps, heard, n, id, i); }
    }
  }

  lemma HandOverIsUnbarred(w: World, step: Step, i: int)
    requires WorldOk(w) && Ordered(w.now, Readings(step)) && 0 <= i < 6
    ensures Formed(w.rt)
    ensures var a := Apply(w, step);
            |a.attempts| > |w.attempts| && HORIZONS[i] in a.attempts[|w.attempts|].sent.eligible
            ==> !Barred(w.rt, a.attempts[|w.attempts|].id, i)
  {
    hide RtOk, LogOk, ActOffer, ActWork, ActAudit, Barred, StepShape, PublicationMovesOn;
    OkIsFormed(w.rt, w.now);
    StepKeepsOk(w, step);
    if step.Worked? && step.work.AttemptWork? { SentIsUnbarred(w, step.work, i); }
  }
}
