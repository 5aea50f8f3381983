/**
 Late target events noted on stored rows (price_collector/ghost_twap_store.py,
 price_collector/ghost_twap_retention.py): first late or conflicting evidence raises the
 version of a finished row that the runtime no longer holds. The row stays what the
 compactor accepts, and no copy of it is left that a later write could disagree with.
 */
module LateTargets {
  import opened Core
  import opened GhostTwap
  import opened GhostPayload
  import opened DecisionFacts
  import opened AuditRow
  import opened CompactAgreement
  import opened AuditHistory
  import opened RuntimeModel
  import opened GhostSpool
  import opened RuntimeRuns
  import opened RuntimeSteps
  import opened PublicationSteps
  import opened RuntimeSafety
  import opened PublicationSafety
  import opened CrashSafety
  import Accuracy

  // ---------------------------------------------------------------- one row

  /** What the store takes as late evidence: a causal sixty-second TWAP event. */
  predicate Forwardable(e: PriceEvent) { e.feed == Twap && e.Valid() && e.sequence > 0 && e.Causal() }

  function NoteTarget(t: Target, e: PriceEvent): Target {
    if t.stamp != Some(e.sourceMs) then t
    else if t.first.Some? && t.status == Matched then
      if t.first.value.value != e.value && t.conflicting.None?
      then t.(conflicted := true, conflicting := Some(e), leadNs := None) else t
    else if t.status in {Missed, RestartUnmatched} && t.late.None?
    then t.(late := Some(e), lateMissing := true) else t
  }

  function NotedTargets(targets: seq<Target>, e: PriceEvent): (noted: seq<Target>)
    ensures |noted| == |targets| && forall i | 0 <= i < |noted| :: noted[i] == NoteTarget(targets[i], e)
  {
    seq(|targets|, i requires 0 <= i < |targets| => NoteTarget(targets[i], e))
  }

  /** One version more if anything was noted. */
  function NoteRow(r: Row, e: PriceEvent): Row {
    if NotedTargets(r.targets, e) == r.targets then r
    else r.(targets := NotedTargets(r.targets, e), version := r.version + 1)
  }

  /** The loop over the row's targets. */
  method NoteTargets(r: Row, e: PriceEvent) returns (after: Row)
    ensures after == NoteRow(r, e)
  {
    hide NoteTarget;
    var targets, dirty := r.targets, false;
    for i := 0 to |targets|
      invariant |targets| == |r.targets|
      invariant forall k :: 0 <= k < i ==> targets[k] == NoteTarget(r.targets[k], e)
      invariant forall k :: i <= k < |targets| ==> targets[k] == r.targets[k]
      invariant dirty <==> targets != r.targets
    {
      var target := NoteTarget(targets[i], e);
      if target != targets[i] {
        targets := targets[i := target];
        assert targets[i] != r.targets[i];
        dirty := true;
      }
    }
    assert targets == NotedTargets(r.targets, e);
    after := if dirty then r.(targets := targets, version := r.version + 1) else r;
  }

  /** First evidence only: the same event again changes nothing. */
  lemma NoteIsIdempotent(r: Row, e: PriceEvent)
    ensures NoteRow(NoteRow(r, e), e) == NoteRow(r, e)
  {
    hide NoteTarget;
    var once := NotedTargets(r.targets, e);
    forall i | 0 <= i < |once|
      ensures NoteTarget(once[i], e) == once[i]
    {
      NotedOnce(r.targets[i], e);
    }
    assert NotedTargets(once, e) == once;
  }

  lemma NotedOnce(t: Target, e: PriceEvent)
    ensures NoteTarget(NoteTarget(t, e), e) == NoteTarget(t, e)
  {
  }

  /** The store accepts the new version: it rewrites no recorded evidence. */
  lemma NoteEvolves(r: Row, e: PriceEvent, now: int)
    requires RowInv(r, now)
    ensures Evolves(r, NoteRow(r, e))
  {
    hide NoteTarget, PublicationInv, DecisionSound, TargetMoves, TargetInv;
    forall i | 0 <= i < |r.targets|
      ensures TargetMoves(r.targets[i], NoteTarget(r.targets[i], e))
    {
      assert TargetInv(r.decision, r.publication, r.causalityInvalid, r.targets[i], i, now);
      NoteMoves(r.decision, r.publication, r.causalityInvalid, r.targets[i], i, now, e);
    }
    if NoteRow(r, e) == r { EvolvesFromSelf(r); }
  }

  lemma NoteMoves(d: Decision, p: Publication, invalid: bool, t: Target, i: int, now: int, e: PriceEvent)
    requires 0 <= i < 6 && |d.forecasts| == 6 && TargetInv(d, p, invalid, t, i, now)
    ensures TargetMoves(t, NoteTarget(t, e))
  {
    hide FirstOk, EvidenceOk, ExpectedLead;
  }

  /** The row's evidence stays consistent, so the compactor accepts it exactly as before. */
  lemma NoteKeepsRow(r: Row, e: PriceEvent, now: int)
    requires RowInv(r, now) && Forwardable(e)
    ensures RowInv(NoteRow(r, e), now) && NoteRow(r, e).terminal == r.terminal
    ensures NoteRow(r, e).decision == r.decision
  {
    hide NoteTarget, PublicationInv, DecisionSound, TargetInv;
    var after := NoteRow(r, e);
    forall i | 0 <= i < 6
      ensures TargetInv(r.decision, r.publication, r.causalityInvalid, NoteTarget(r.targets[i], e), i, now)
      ensures r.terminal ==> NoteTarget(r.targets[i], e).status != AwaitingTarget
    {
      assert TargetInv(r.decision, r.publication, r.causalityInvalid, r.targets[i], i, now);
      NoteKeepsTarget(r.decision, r.publication, r.causalityInvalid, r.targets[i], i, now, e);
    }
    assert forall i | 0 <= i < 6 :: after.targets[i] == NoteTarget(r.targets[i], e);
  }

  lemma NoteKeepsTarget(d: Decision, p: Publication, invalid: bool, t: Target, i: int, now: int, e: PriceEvent)
    requires 0 <= i < 6 && |d.forecasts| == 6 && TargetInv(d, p, invalid, t, i, now) && Forwardable(e)
    ensures TargetInv(d, p, invalid, NoteTarget(t, e), i, now) && NoteTarget(t, e).status == t.status
  {
  }

  // ---------------------------------------------------------------- before or after compaction

  lemma NoteIsAnnotation(r: Row, n: Row, i: int, e: PriceEvent)
    requires Shaped(r) && Shaped(n) && 0 <= i < 6 && r.targets[i].stamp == r.decision.forecasts[i].target
    requires n.decision == r.decision && n.publication == r.publication && n.targets[i] == NoteTarget(r.targets[i], e)
    ensures Accuracy.CompactEntry(n, i) == Accuracy.AnnotateEntry(Accuracy.CompactEntry(r, i), e)
    ensures Accuracy.CompactEntry(n, i) == Accuracy.CompactEntry(r, i) <==> n.targets[i] == r.targets[i]
  {
    hide MaxCarryAt, AttemptedEligible;
  }

  /**
   It makes no difference whether a late event is noted on the stored row before it is
   compacted, or annotated on the compact record afterwards.
   */
  lemma NoteCommutesWithCompaction(r: Row, e: PriceEvent, campaignStartMs: int, asOfWallNs: int)
    requires Compactable(r, asOfWallNs)
    ensures Accuracy.Annotate(Accuracy.CompactOf(r, campaignStartMs), e)
         == if NoteRow(r, e) == r then None
            else Some(Accuracy.CompactOf(NoteRow(r, e), campaignStartMs).(revision := 1))
  {
    hide NoteTarget, PublicationCompacts, Accuracy.CompactEntry, Accuracy.AnnotateEntry;
    var n, c := NoteRow(r, e), Accuracy.CompactOf(r, campaignStartMs);
    var noted := Accuracy.CompactOf(n, campaignStartMs);
    assert n.targets == NotedTargets(r.targets, e);
    forall i | 0 <= i < 6
      ensures Accuracy.CompactEntry(n, i) == Accuracy.AnnotateEntry(c.horizons[i], e)
      ensures noted.horizons[i] == c.horizons[i] <==> n.targets[i] == r.targets[i]
    {
      assert r.targets[i].stamp == r.decision.forecasts[i].target by { StampIsTarget(r, i, asOfWallNs); }
      NoteIsAnnotation(r, n, i, e);
    }
    assert noted.horizons
             == seq(|c.horizons|, i requires 0 <= i < |c.horizons| => Accuracy.AnnotateEntry(c.horizons[i], e));
    if noted.horizons == c.horizons {
      forall i | 0 <= i < 6 ensures n.targets[i] == r.targets[i] { assert noted.horizons[i] == c.horizons[i]; }
      assert n.targets == r.targets;
    } else {
      var i :| 0 <= i < 6 && noted.horizons[i] != c.horizons[i];
      assert n.targets[i] != r.targets[i];
    }
  }

  lemma StampIsTarget(r: Row, i: int, asOfWallNs: int)
    requires Compactable(r, asOfWallNs) && 0 <= i < 6
    ensures r.targets[i].stamp == r.decision.forecasts[i].target
  {
    hide PublicationCompacts, FirstCompacts, ExpectedLead, MaxCarryAt, AttemptedEligible;
    assert TargetCompacts(r, i);
  }

  // ---------------------------------------------------------------- who owns a file

  /** Every file of the outbox belongs to a row in memory, and an unlinked one is gone. */
  ghost predicate OutboxOwned(w: World) {
    && (forall id :: id in w.outbox ==> id in w.rt.records)
    && (w.rt.auditing.Unlinked? ==> w.rt.auditing.id !in w.outbox)
  }

  lemma OwnedMoves(w: World, a: World, id: int)
    requires OutboxOwned(w) && w.rt.records.Keys <= a.rt.records.Keys
    requires a.outbox.Keys <= w.outbox.Keys + {id} && (id in a.outbox ==> id in a.rt.records)
    requires a.rt.auditing.Unlinked? ==> a.rt.auditing.id !in a.outbox
    ensures OutboxOwned(a)
  {
    forall k | k in a.outbox ensures k in a.rt.records { assert k in w.outbox.Keys + {id}; }
  }

  lemma WorkKeepsOwned(w: World, work: Work)
    requires WorldOk(w) && OutboxOwned(w) && Ordered(w.now, WorkReadings(work))
    ensures Formed(w.rt) && OutboxOwned(ActWork(w, work))
  {
    hide WorldOk, RtOk, LogOk, ActWork, StepShape, Advances, Evolves, SpoolOk;
    WorldParts(w);
    WorkKeepsOk(w, work);
    var a := ActWork(w, work);
    MovedKeys(w, a, Latest(w.now, WorkReadings(work)));
    if work.OutboxWork? || work.OutboxError? {
      SpoolKeepsOwned(w, work);
    } else {
      WorkKeepsOutbox(w, work);
    }
  }

  lemma MovedKeys(w: World, a: World, now: Stamp)
    requires Moved(w, a, now)
    ensures w.rt.records.Keys <= a.rt.records.Keys && a.rt.auditing == w.rt.auditing
  {
    hide RtOk, StepShape, Evolves;
    AdvancesKeys(w.rt, a.rt);
  }

  lemma SpoolKeepsOwned(w: World, work: Work)
    requires WorldOk(w) && OutboxOwned(w) && (work.OutboxWork? || work.OutboxError?) && Formed(w.rt)
    ensures OutboxOwned(ActWork(w, work))
  {
    hide WorldOk, RtOk, LogOk, OutboxWrite, OutboxFailure, Written, OutboxOwned;
    WorldParts(w);
    var a := ActWork(w, work);
    OutboxShape(w, if work.OutboxError? then work.integrity else true, work.OutboxError? && work.applied);
    if w.rt.publishing.Spooling? {
      var id := w.rt.publishing.id;
      WrittenKeys(w.outbox, w.spoolMax, w.rt.publishing.record);
      StageIsNotPublished(w, id);
      OneFileMore(w, a, id);
    }
  }

  lemma OneFileMore(w: World, a: World, id: int)
    requires OutboxOwned(w) && w.rt.records.Keys <= a.rt.records.Keys && id in w.rt.records
    requires a.outbox.Keys <= w.outbox.Keys + {id} && a.rt.auditing == w.rt.auditing
    requires w.rt.auditing.Unlinked? ==> w.rt.auditing.id != id
    ensures OutboxOwned(a)
  {
    OwnedMoves(w, a, id);
  }

  lemma WrittenKeys(outbox: Rows, capacity: nat, record: Row)
    ensures var o := Written(outbox, capacity, record);
            o.Some? ==> o.value.Keys <= outbox.Keys + {record.decision.id}
  {
  }

  lemma StageIsNotPublished(w: World, id: int)
    requires Formed(w.rt) && SpoolOk(w.rt, w.outbox) && w.rt.publishing.Spooling? && w.rt.publishing.id == id
    ensures id in w.rt.records && w.rt.publishing.record.decision.id == id
    ensures w.rt.auditing.Unlinked? ==> w.rt.auditing.id != id
  {
  }

  lemma AuditKeepsOwned(w: World, audit: Audit)
    requires WorldOk(w) && DurableOk(w) && OutboxOwned(w)
    ensures Formed(w.rt) && OutboxOwned(Apply(w, Audited(audit)))
  {
    hide WorldOk, DurableOk, RtOk, LogOk, StepShape, Advances, OutboxOwned, Formed, TakeDirty, Settle, Pop, Preserve;
    WorldParts(w);
    AuditorMoves(w, audit);
    match audit
    case PickAudit(id) => QuietAudits(w, id); TakingKeepsOwned(w, id);
    case SettleAudit => QuietAudits(w, 0); SettlingKeepsOwned(w);
    case PopAudit => QuietAudits(w, 0); PoppingKeepsOwned(w);
    case PreserveAudit(id) => QuietAudits(w, id); PreservingKeepsOwned(w, id);
    case _ => WritingKeepsOwned(w, audit);
  }

  lemma TakingKeepsOwned(w: World, id: int)
    requires OutboxOwned(w) && Formed(w.rt)
    ensures OutboxOwned(w.(rt := TakeDirty(w.rt, id)))
  {
  }

  lemma SettlingKeepsOwned(w: World)
    requires OutboxOwned(w) && Formed(w.rt)
    ensures OutboxOwned(w.(rt := Settle(w.rt)))
  {
  }

  /** The row that leaves memory is the unlinked one. */
  lemma PoppingKeepsOwned(w: World)
    requires OutboxOwned(w) && Formed(w.rt)
    ensures OutboxOwned(w.(rt := Pop(w.rt)))
  {
  }

  lemma PreservingKeepsOwned(w: World, id: int)
    requires WorldOk(w) && DurableOk(w) && OutboxOwned(w)
    ensures OutboxOwned(Preserve(w, id).(now := w.now))
  {
    hide WorldOk, DurableOk, Preserve;
    PreserveOutcome(w, id);
    var a := Preserve(w, id);
    if a.outbox != w.outbox { OwnedMoves(w, a.(now := w.now), id); }
  }

  lemma WritingKeepsOwned(w: World, audit: Audit)
    requires WorldOk(w) && DurableOk(w) && OutboxOwned(w)
    requires audit.SaveAudit? || audit.StoreAudit? || audit.UnlinkAudit? || audit.FailAudit?
    ensures Formed(w.rt) && OutboxOwned(Apply(w, Audited(audit)))
  {
    hide WorldOk, DurableOk, RtOk, LogOk, StepShape, Advances, ActAudit, AuditEffect;
    WorldParts(w);
    AuditorMoves(w, audit);
    AdvancesKeys(w.rt, ActAudit(w, audit).rt);
    AuditOutcome(w, audit);
    var a := Apply(w, Audited(audit));
    if a.outbox == w.outbox && a.store == w.store && (a.rt.auditing.Resting? || a.rt.auditing == w.rt.auditing) {
      OwnedMoves(w, a, 0);
    } else {
      EffectOfAudit(w);
      EffectKeepsOwned(w, a);
    }
  }

  lemma EffectKeepsOwned(w: World, a: World)
    requires OutboxOwned(w) && Formed(w.rt) && w.rt.records.Keys <= a.rt.records.Keys && !w.rt.auditing.Resting?
    requires AuditWrites(w.rt.auditing, w.outbox, w.store, a.outbox, a.store)
    requires NextStage(w.rt.auditing, a.rt.auditing)
    ensures OutboxOwned(a)
  {
    OwnedMoves(w, a, w.rt.auditing.id);
  }

  lemma StepKeepsOwned(w: World, step: Step)
    requires WorldOk(w) && DurableOk(w) && OutboxOwned(w) && Ordered(w.now, Readings(step))
    ensures Formed(w.rt) && OutboxOwned(Apply(w, step))
  {
    hide WorldOk, DurableOk, RtOk, LogOk, ActOffer, ActWork, ActAudit, Quiet, StepShape;
    WorldParts(w);
    match step
    case Offered(offer) =>
      OffersKeepOk(w.rt, offer, w.now);
      QuietShape(w.rt, ActOffer(w.rt, offer));
    case Worked(work) => WorkKeepsOwned(w, work);
    case Audited(audit) => AuditKeepsOwned(w, audit);
  }

  // ---------------------------------------------------------------- noting a stored row

  /** A late event is noted on the stored row of this identity. */
  function Noted(w: World, id: int, e: PriceEvent): World
    requires id in w.store
  {
    w.(store := w.store[id := NoteRow(w.store[id], e)])
  }

  /** No copy but the stored one is left of a row that memory has released. */
  lemma OnlyStored(w: World, id: int)
    requires Formed(w.rt) && OutboxOwned(w) && id !in w.rt.records && id in w.store
    ensures Copies(w, id) == {w.store[id]}
  {
  }

  /** The note rewrites the last copy of the row, and so contradicts none. */
  lemma NoteKeepsDurable(w: World, id: int, e: PriceEvent)
    requires WorldOk(w) && DurableOk(w) && OutboxOwned(w) && Forwardable(e)
    requires id in w.store && id !in w.rt.records
    ensures var a := Noted(w, id, e);
            WorldOk(a) && DurableOk(a) && OutboxOwned(a) && Evolves(w.store[id], a.store[id])
  {
    hide RtOk, LogOk, Evolves, RowInv, NoteRow, Chain, Copies, StageSaved, Kept, Durable;
    WorldParts(w);
    var a, r := Noted(w, id, e), w.store[id];
    OnlyStored(w, id);
    assert Linked(w, id) && r in Copies(w, id);
    NoteEvolves(r, e, w.now.mono);
    NoteKeepsRow(r, e, w.now.mono);
    OnlyStored(a, id);
    forall k: int ensures Linked(a, k) {
      assert Linked(w, k);
      if k == id { OneLink(a, id, a.store[id]); } else { SameCopies(w, a, k); }
    }
    NoteKeepsSides(w, id, e);
    NoteKeepsLog(w, a);
  }

  lemma OneLink(a: World, id: int, r: Row)
    requires Copies(a, id) == {r} && CopyFacts(r, id, a.issued, a.now.mono) && id !in a.rt.records
    ensures Linked(a, id)
  {
    hide Copies, Moves, CopyFacts;
    EvolvesFromSelf(r);
  }

  lemma SameCopies(w: World, a: World, k: int)
    requires a == w.(store := a.store) && (k in a.store <==> k in w.store)
             && (k in w.store ==> a.store[k] == w.store[k])
    ensures Copies(a, k) == Copies(w, k)
  {
  }

  lemma NoteKeepsLog(w: World, a: World)
    requires LogOk(w) && a == w.(store := a.store)
    ensures LogOk(a)
  {
    hide SafeAttempt, OriginsOk, TurnsOk, InOrder;
  }

  lemma NoteKeepsSides(w: World, id: int, e: PriceEvent)
    requires Formed(w.rt) && id in w.store && id !in w.rt.records
    requires StageSaved(w.rt.auditing, w.outbox, w.store) && Kept(w.issued, w.rt.records, w.store)
    requires Durable(w.attempts, w.outbox, w.store)
    ensures var a := Noted(w, id, e);
            && StageSaved(a.rt.auditing, a.outbox, a.store) && Kept(a.issued, a.rt.records, a.store)
            && Durable(a.attempts, a.outbox, a.store)
  {
    assert NoteRow(w.store[id], e).terminal == w.store[id].terminal;
  }
}
