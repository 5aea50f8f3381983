/**
 What the log of Redis hand-overs can look like after any run.
 */
module PublicationSafety {
  import opened Core
  import opened GhostTwap
  import opened GhostPayload
  import opened AuditRow
  import opened CompactAgreement
  import opened AuditHistory
  import opened PayloadAgreement
  import opened RuntimeModel
  import opened GhostSpool
  import opened RuntimeRuns
  import opened RuntimeSteps
  import opened PublicationSteps
  import opened RuntimeSafety
  import EngineInvariants

  /** One hand-over was safe, given how the decision was issued. */
  ghost predicate SafeAttempt(a: Attempt, issued: map<int, Origin>) {
    && a.id in issued && WireMatches(issued[a.id].decision, a.sent)
    && Accepts(a.sent)
    && a.epoch == issued[a.id].epoch
    && a.inOutbox
    && forall h :: h in a.sent.eligible ==> h in a.intended && h !in a.received
  }

  predicate InOrder(attempts: seq<Attempt>) {
    forall i, j | 0 <= i < j < |attempts| :: attempts[i].id < attempts[j].id
  }

  predicate AllBelow(attempts: seq<Attempt>, id: int) {
    forall i | 0 <= i < |attempts| :: attempts[i].id < id
  }

  /** Origins of the rows: the decision and epoch they were issued with. */
  ghost predicate OriginsOk(rt: Runtime, issued: map<int, Origin>) {
    && (forall id :: id in issued ==> 1 <= id <= rt.decisions && issued[id].epoch <= rt.epoch)
    && (forall id :: id in rt.records ==>
          id in issued && rt.records[id].decision == issued[id].decision && rt.records[id].epoch == issued[id].epoch)
  }

  /** The decisions still to be handed over are newer than every logged one. */
  ghost predicate TurnsOk(rt: Runtime, attempts: seq<Attempt>) {
    && AllBelow(attempts, rt.decisions + 1)
    && (rt.pending.Some? ==> AllBelow(attempts, rt.pending.value) && rt.pending.value <= rt.decisions)
    && (rt.publishing.Spooling? || rt.publishing.Spooled? ==> AllBelow(attempts, rt.publishing.id))
    && (rt.pending.Some? && !rt.publishing.Idle? ==> rt.publishing.id < rt.pending.value)
    && (!rt.publishing.Idle? ==> rt.publishing.id <= rt.decisions)
  }

  predicate SpoolOk(rt: Runtime, outbox: Rows) {
    && (rt.publishing.Spooling? ==> rt.publishing.record.decision.id == rt.publishing.id)
    && (rt.publishing.Spooled? ==> rt.publishing.id in outbox)
  }

  ghost predicate LogOk(w: World) {
    && InOrder(w.attempts) && (forall i :: 0 <= i < |w.attempts| ==> SafeAttempt(w.attempts[i], w.issued))
    && OriginsOk(w.rt, w.issued) && TurnsOk(w.rt, w.attempts) && SpoolOk(w.rt, w.outbox)
  }

  // ---------------------------------------------------------------- steps that send nothing

  lemma TurnsMoveOn(rt: Runtime, after: Runtime, attempts: seq<Attempt>)
    requires TurnsOk(rt, attempts) && StepShape(rt, after) && PublicationMovesOn(rt, after)
    ensures TurnsOk(after, attempts)
  {
    hide Evolves;
  }

  lemma OriginsMoveOn(rt: Runtime, after: Runtime, issued: map<int, Origin>)
    requires OriginsOk(rt, issued) && StepShape(rt, after) && after.records.Keys <= rt.records.Keys
    ensures OriginsOk(after, issued)
  {
    hide Moves;
    forall id | id in after.records
      ensures after.records[id].decision == rt.records[id].decision && after.records[id].epoch == rt.records[id].epoch
    {
      EvolvesKeepsDecision(rt.records[id], after.records[id]);
    }
  }

  lemma IssueOrigins(w: World, admission: Admission, oversized: bool, at: Stamp, completed: Stamp)
    requires RtOk(w.rt, w.now) && w.now.NotAfter(at) && at.NotAfter(completed) && OriginsOk(w.rt, w.issued)
    ensures Formed(w.rt)
    ensures var a := Issued(w, Issue(w.rt, admission, oversized, at, completed));
            OriginsOk(a.rt, a.issued) && forall id :: id in w.issued ==> id in a.issued && a.issued[id] == w.issued[id]
  {
    hide RtOk, Issue, Moves;
    OkIsFormed(w.rt, w.now);
    IssueKeeps(w.rt, admission, oversized, w.now, at, completed);
    var after := Issue(w.rt, admission, oversized, at, completed);
    var a := Issued(w, after);
    forall id | id in after.records
      ensures id in a.issued && after.records[id].decision == a.issued[id].decision
              && after.records[id].epoch == a.issued[id].epoch
    {
      if id in w.rt.records { EvolvesKeepsDecision(w.rt.records[id], after.records[id]); }
    }
  }

  /** What an outbox write can do to the set of names in the directory. */
  lemma WriteKeepsNames(outbox: Rows, capacity: nat, record: Row)
    ensures var o := Written(outbox, capacity, record);
            o.Some? ==> outbox.Keys <= o.value.Keys && record.decision.id in o.value
  {
  }

  lemma WorkKeepsSpool(w: World, work: Work)
    requires RtOk(w.rt, w.now) && SpoolOk(w.rt, w.outbox) && Ordered(w.now, WorkReadings(work)) && !work.AttemptWork?
    ensures Formed(w.rt) && SpoolOk(ActWork(w, work).rt, ActWork(w, work).outbox)
  {
    hide RtOk, Moved, Begin, Issue, Replied, Close, Written, SpoolFailed, StepShape;
    OkIsFormed(w.rt, w.now);
    WorkKeepsOk(w, work);
    var a, now := ActWork(w, work), Latest(w.now, WorkReadings(work));
    MovedIsOk(w, a, now);
    FreshSpool(w.rt, a.rt, now);
    match work
    case OutboxWork => SpoolKeeps(w.rt, w.now, true); NamesAfterSpooling(w);
    case OutboxError(integrity, _) => SpoolKeeps(w.rt, w.now, integrity);
    case CancelWork =>
    case _ => WorkersMove(w, work);
  }

  lemma MovedIsOk(w: World, a: World, now: Stamp)
    requires Moved(w, a, now)
    ensures RtOk(a.rt, now) && StepShape(w.rt, a.rt) && Advances(w.rt, a.rt) && SameBack(w, a)
  {
  }

  lemma NamesAfterSpooling(w: World)
    ensures w.rt.publishing.Spooling? ==>
              (var o := Written(w.outbox, w.spoolMax, w.rt.publishing.record);
               o.Some? ==> w.rt.publishing.record.decision.id in o.value)
  {
    if w.rt.publishing.Spooling? { WriteKeepsNames(w.outbox, w.spoolMax, w.rt.publishing.record); }
  }

  lemma FreshSpool(rt: Runtime, after: Runtime, now: Stamp)
    requires RtOk(after, now) && PublicationMovesOn(rt, after)
    ensures after.publishing.Spooling? ==>
              after.publishing == rt.publishing || after.publishing.record.decision.id == after.publishing.id
    ensures after.publishing.Spooled? ==> !rt.publishing.Idle? && rt.publishing.id == after.publishing.id
                                          && (rt.publishing.Spooled? || rt.publishing.Spooling?)
  {
    hide RtOk;
    if after.publishing.Spooling? && after.publishing != rt.publishing { FactsOfRow(after, after.publishing.id, now); }
  }

  lemma AuditKeepsNames(w: World, audit: Audit)
    requires Formed(w.rt) && w.rt.publishing.Spooled? && w.rt.publishing.id in w.outbox
    requires !w.rt.auditing.Resting? ==> w.rt.auditing.record.decision.id == w.rt.auditing.id
    ensures w.rt.publishing.id in ActAudit(w, audit).outbox
  {
    hide IoFailure, Settle, Pop, TakeDirty, Saved, Stored, Gone, Persisted;
    match w.rt.auditing
    case Saving(_, record) => WriteKeepsNames(w.outbox, w.spoolMax, record);
    case Removing(id, record) =>
    case _ =>
    if audit.PreserveAudit? && audit.id in w.rt.records {
      WriteKeepsNames(w.outbox, w.spoolMax, w.rt.records[audit.id]);
    }
  }

  /** The audit snapshot belongs to the row it was taken from. */
  predicate AuditOk(rt: Runtime) {
    !rt.auditing.Resting? ==> rt.auditing.record.decision.id == rt.auditing.id
  }

  lemma AuditStays(w: World, audit: Audit)
    requires RtOk(w.rt, w.now) && AuditOk(w.rt)
    ensures Formed(w.rt) && AuditOk(ActAudit(w, audit).rt)
  {
    hide RtOk, IoFailure, Written, Persisted, Removed;
    OkIsFormed(w.rt, w.now);
    AuditFailedKeeps(w.rt, true, w.now);
    match audit
    case PickAudit(id) => if id in w.rt.records { FactsOfRow(w.rt, id, w.now); }
    case FailAudit(integrity, _) => AuditFailedKeeps(w.rt, integrity, w.now);
    case _ =>
  }

  // ---------------------------------------------------------------- the attempt

  lemma SafeAttemptFacts(w: World, verdict: Verdict, checked: Stamp, at: Stamp, sent: Wire)
    requires RtOk(w.rt, w.now) && w.now.NotAfter(checked) && checked.NotAfter(at)
    requires w.rt.publishing.Spooled? && TryAttempt(w.rt, verdict, checked, at).1 == Some(sent)
    ensures Formed(w.rt)
    ensures var id := w.rt.publishing.id;
            && Accepts(sent) && WireMatches(w.rt.records[id].decision, sent) && w.rt.records[id].epoch == w.rt.epoch
            && (forall h :: h in sent.eligible ==> h in w.rt.publishing.live.eligible
                                                   && h !in ReceivedTargets(w.rt.records[id]))
  {
    hide RtOk, Publishable, AttemptPublish, Accepts, WireMatches, RowFacts, Intending, MaskedBy, Evolves, OnItsWay;
    OkIsFormed(w.rt, w.now);
    var id, live := w.rt.publishing.id, w.rt.publishing.live;
    LaterOk(w.rt, w.now, checked);
    PublishableKeeps(w.rt, id, checked, verdict);
    var (c, ok) := Publishable(w.rt, id, checked, verdict);
    QuietStages(w.rt, c);
    QuietKeys(w.rt, c);
    FactsOfRow(c, id, checked);
    AttemptedRow(c.records[id], live, id, ok, checked, at);
    var r := w.rt.records[id];
    assert ok && c == w.rt;
    AttemptIsAccepted(r, live, id, checked, at);
    assert WireMatches(r.decision, sent) by { SentMatches(r, live, id, checked, at); }
    OfferedAreOpen(r, live, sent, checked);
  }

  lemma AttemptIsAccepted(r: Row, live: Wire, id: int, checked: Stamp, at: Stamp)
    requires RowFacts(r, id, checked) && Shaped(r) && Intending(r, live, checked) && checked.NotAfter(at)
    ensures |live.forecasts| == 6
    ensures var sent := AttemptPublish(r, live, true, at).1; sent.Some? ==> Accepts(sent.value)
  {
    hide RowInv, Readable, Accepts, AttemptPublish, OffersUnmasked, WireShared, Header, Derived;
    SentPayloadIsAccepted(r, live, at);
  }

  lemma SentMatches(r: Row, live: Wire, id: int, checked: Stamp, at: Stamp)
    requires RowFacts(r, id, checked) && Shaped(r) && Intending(r, live, checked) && checked.NotAfter(at)
    ensures |live.forecasts| == 6
    ensures var sent := AttemptPublish(r, live, true, at).1; sent.Some? ==> WireMatches(r.decision, sent.value)
  {
    hide RowInv, Readable, OffersUnmasked, WireShared, Header, Derived, Mask, WorthPublishing, TtlMs, MaskShapeOk,
         Exclusion;
    MaskCarries(r, live, at);
    SentCarries(r.decision, Mask(r, live, at), at);
  }

  /** An eligible horizon was eligible at the intent and has no received target. */
  lemma OfferedAreOpen(r: Row, live: Wire, sent: Wire, now: Stamp)
    requires Shaped(r) && Intending(r, live, now) && MaskedBy(r, sent) && WireMatches(r.decision, sent)
    ensures forall h :: h in sent.eligible ==> h in live.eligible && h !in ReceivedTargets(r)
  {
    hide Staged;
    forall h | h in sent.eligible ensures h in live.eligible && h !in ReceivedTargets(r) {
      var i := HorizonIndex(h);
      UnmaskedIsPriced(r, i);
      ReceivedAt(r, i);
    }
  }

  lemma ReceivedAt(r: Row, i: int)
    requires Shaped(r) && 0 <= i < 6
    ensures HORIZONS[i] in ReceivedTargets(r) ==> r.targets[i].first.Some?
  {
    assert forall k :: 0 <= k < 6 && HORIZONS[k] == HORIZONS[i] ==> k == i;
  }

  lemma AttemptLogs(w: World, verdict: Verdict, checked: Stamp, at: Stamp)
    requires RtOk(w.rt, w.now) && w.now.NotAfter(checked) && checked.NotAfter(at) && LogOk(w)
    ensures Formed(w.rt) && LogOk(Attempted(w, verdict, checked, at))
  {
    hide RtOk, TryAttempt, Accepts, WireMatches, StepShape, Advances, Moves;
    OkIsFormed(w.rt, w.now);
    AttemptMoves(w, verdict, checked, at);
    AttemptKeeps(w.rt, verdict, w.now, checked, at);
    var a := Attempted(w, verdict, checked, at);
    var (after, sent) := TryAttempt(w.rt, verdict, checked, at);
    AttemptKeysStay(w, a, at);
    OriginsMoveOn(w.rt, after, w.issued);
    AttemptTurns(w.rt, after, w.attempts, sent);
    if sent.Some? {
      SafeAttemptFacts(w, verdict, checked, at, sent.value);
      var entry := Attempt(w.rt.publishing.id, sent.value, w.rt.epoch, w.rt.publishing.live.eligible,
                           ReceivedTargets(w.rt.records[w.rt.publishing.id]), w.rt.publishing.id in w.outbox);
      assert SafeAttempt(entry, w.issued);
      AppendKeepsOrder(w.attempts, entry);
    }
  }

  lemma AttemptKeysStay(w: World, a: World, now: Stamp)
    requires Moved(w, a, now) && a.rt.decisions == w.rt.decisions
    ensures a.rt.records.Keys <= w.rt.records.Keys && StepShape(w.rt, a.rt)
  {
    hide RtOk, Evolves;
    forall id | id in a.rt.records ensures id in w.rt.records { }
  }

  lemma AppendKeepsOrder(attempts: seq<Attempt>, entry: Attempt)
    requires InOrder(attempts) && AllBelow(attempts, entry.id)
    ensures InOrder(attempts + [entry])
  {
  }

  lemma AttemptTurns(rt: Runtime, after: Runtime, attempts: seq<Attempt>, sent: Option<Wire>)
    requires TurnsOk(rt, attempts) && after.pending == rt.pending && after.decisions == rt.decisions
    requires sent.Some? ==> rt.publishing.Spooled? && after.publishing == Sending(rt.publishing.id)
    requires sent.None? ==> after.publishing.Idle? || after == rt
    ensures sent.None? ==> TurnsOk(after, attempts)
    ensures forall entry: Attempt :: sent.Some? && entry.id == rt.publishing.id ==>
              AllBelow(attempts, entry.id) && TurnsOk(after, attempts + [entry])
  {
  }

  // ---------------------------------------------------------------- whole runs

  ghost predicate WorldOk(w: World) { RtOk(w.rt, w.now) && LogOk(w) && AuditOk(w.rt) }

  lemma OfferKeepsWorld(w: World, offer: Offer)
    requires WorldOk(w) && Ordered(w.now, OfferReadings(offer))
    ensures Formed(w.rt) && WorldOk(Apply(w, Offered(offer)))
  {
    hide RtOk, Quiet, SafeAttempt, OriginsOk, TurnsOk, InOrder, ActOffer, StepShape;
    OkIsFormed(w.rt, w.now);
    OffersKeepOk(w.rt, offer, w.now);
    var after := ActOffer(w.rt, offer);
    QuietShape(w.rt, after);
    TurnsMoveOn(w.rt, after, w.attempts);
    OriginsMoveOn(w.rt, after, w.issued);
  }

  lemma WorkKeepsWorld(w: World, work: Work)
    requires WorldOk(w) && Ordered(w.now, WorkReadings(work))
    ensures Formed(w.rt) && WorldOk(Apply(w, Worked(work)))
  {
    hide RtOk, Moved, SafeAttempt, OriginsOk, TurnsOk, SpoolOk, InOrder, ActWork, StepShape, PublicationMovesOn;
    OkIsFormed(w.rt, w.now);
    var a := ActWork(w, work);
    WorkKeepsOk(w, work);
    MovedIsOk(w, a, Latest(w.now, WorkReadings(work)));
    if work.AttemptWork? {
      AttemptLogs(w, work.verdict, work.checked, work.at);
      assert a == Attempted(w, work.verdict, work.checked, work.at) by { AttemptIsAttempted(w, work); }
    } else {
      WorkKeepsSpool(w, work);
      TurnsMoveOn(w.rt, a.rt, w.attempts);
      WorkOrigins(w, work);
      SafeStays(w.attempts, w.issued, a.issued);
    }
  }

  lemma AttemptIsAttempted(w: World, work: Work)
    requires Formed(w.rt) && work.AttemptWork?
    ensures ActWork(w, work) == Attempted(w, work.verdict, work.checked, work.at)
  {
  }

  lemma SafeStays(attempts: seq<Attempt>, issued: map<int, Origin>, later: map<int, Origin>)
    requires forall i :: 0 <= i < |attempts| ==> SafeAttempt(attempts[i], issued)
    requires forall id :: id in issued ==> id in later && later[id] == issued[id]
    ensures forall i :: 0 <= i < |attempts| ==> SafeAttempt(attempts[i], later)
  {
    hide Accepts, WireMatches;
    forall i | 0 <= i < |attempts| ensures SafeAttempt(attempts[i], later) {
      assert SafeAttempt(attempts[i], issued);
    }
  }

  lemma WorkOrigins(w: World, work: Work)
    requires RtOk(w.rt, w.now) && Ordered(w.now, WorkReadings(work)) && OriginsOk(w.rt, w.issued) && !work.AttemptWork?
    ensures Formed(w.rt)
    ensures var a := ActWork(w, work);
            OriginsOk(a.rt, a.issued) && forall id :: id in w.issued ==> id in a.issued && a.issued[id] == w.issued[id]
  {
    hide RtOk, OriginsOk, Issue, Begin, Replied, Close, SpoolFailed, Written, StepShape, Advances;
    OkIsFormed(w.rt, w.now);
    var a, now := ActWork(w, work), Latest(w.now, WorkReadings(work));
    WorkKeepsOk(w, work);
    MovedIsOk(w, a, now);
    if work.IssueWork? {
      IssueOrigins(w, work.admission, work.oversized, work.at, work.completed);
    } else {
      NoNewRows(w, work);
      OldRows(w.rt, a.rt);
      OriginsMoveOn(w.rt, a.rt, w.issued);
    }
  }

  lemma NoNewRows(w: World, work: Work)
    requires RtOk(w.rt, w.now) && Ordered(w.now, WorkReadings(work)) && !work.AttemptWork? && !work.IssueWork?
    ensures Formed(w.rt) && ActWork(w, work).rt.decisions == w.rt.decisions && ActWork(w, work).issued == w.issued
  {
    hide RtOk, Advances, Begin, Replied, Close, SpoolFailed, Written;
    OkIsFormed(w.rt, w.now);
    match work
    case BeginWork(verdict, checked, at) => BeginKeeps(w.rt, verdict, w.now, checked, at);
    case ReplyWork(outcome, at) => ReplyKeeps(w.rt, outcome, w.now, at);
    case CloseWork => CloseKeeps(w.rt, w.now);
    case OutboxError(integrity, _) => SpoolKeeps(w.rt, w.now, integrity);
    case _ => SpoolKeeps(w.rt, w.now, true);
  }

  lemma OldRows(rt: Runtime, after: Runtime)
    requires StepShape(rt, after) && after.decisions == rt.decisions
    ensures after.records.Keys <= rt.records.Keys
  {
    hide Evolves;
    forall id | id in after.records ensures id in rt.records { }
  }

  lemma AuditKeepsWorld(w: World, audit: Audit)
    requires WorldOk(w)
    ensures Formed(w.rt) && WorldOk(Apply(w, Audited(audit)))
  {
    hide RtOk, SafeAttempt, OriginsOk, TurnsOk, InOrder, ActAudit, StepShape, Advances, AuditOk;
    OkIsFormed(w.rt, w.now);
    var a := ActAudit(w, audit);
    AuditorMoves(w, audit);
    AuditStays(w, audit);
    StagesMoveOn(w.rt, a.rt);
    TurnsMoveOn(w.rt, a.rt, w.attempts);
    OldRows(w.rt, a.rt);
    OriginsMoveOn(w.rt, a.rt, w.issued);
    if w.rt.publishing.Spooled? {
      AuditRecord(w.rt);
      AuditKeepsNames(w, audit);
    }
  }

  lemma AuditRecord(rt: Runtime)
    requires AuditOk(rt)
    ensures !rt.auditing.Resting? ==> rt.auditing.record.decision.id == rt.auditing.id
  {
  }

  lemma StepKeepsWorld(w: World, step: Step)
    requires WorldOk(w) && Ordered(w.now, Readings(step))
    ensures Formed(w.rt) && WorldOk(Apply(w, step))
  {
    hide WorldOk, Apply;
    match step
    case Offered(offer) => OfferKeepsWorld(w, offer);
    case Worked(work) => WorkKeepsWorld(w, work);
    case Audited(audit) => AuditKeepsWorld(w, audit);
  }

  lemma StartIsOk(policy: Policy, queueMax: nat, spoolMax: nat, now: Stamp, store: Rows)
    requires RuntimePolicy(policy) && now.wall >= 0 && now.mono >= 0
    ensures WorldOk(RuntimeRuns.Init(policy, queueMax, spoolMax, now, store))
  {
  }

  lemma {:induction false} RunKeepsWorld(start: World, steps: seq<Step>)
    requires WorldOk(start) && Formed(start.rt) && Timely(start, steps)
    ensures WorldOk(Run(start, steps))
  {
    hide WorldOk, Apply;
    if steps != [] {
      RunKeepsWorld(start, steps[..|steps| - 1]);
      StepKeepsWorld(Run(start, steps[..|steps| - 1]), steps[|steps| - 1]);
    }
  }

  /**
   Publication safety: after any run with clocks that never go backwards, the log of
   hand-overs to Redis is in strictly increasing decision order (so no decision is handed
   over twice), and each hand-over was accepted by the wire parser, came after the
   decision's outbox write, belongs to the epoch the decision was issued in, and offers
   only horizons that the recorded intent offered and whose target had not been received.
   */
  lemma PublicationIsSafe(policy: Policy, queueMax: nat, spoolMax: nat, now: Stamp, store: Rows, steps: seq<Step>)
    requires RuntimePolicy(policy) && now.wall >= 0 && now.mono >= 0
    requires Timely(RuntimeRuns.Init(policy, queueMax, spoolMax, now, store), steps)
    ensures var w := Run(RuntimeRuns.Init(policy, queueMax, spoolMax, now, store), steps);
            && InOrder(w.attempts)
            && forall i :: 0 <= i < |w.attempts| ==> SafeAttempt(w.attempts[i], w.issued)
  {
    hide Apply, RtOk, SafeAttempt;
    StartIsOk(policy, queueMax, spoolMax, now, store);
    RunKeepsWorld(RuntimeRuns.Init(policy, queueMax, spoolMax, now, store), steps);
  }
}
