/**
 Late evidence over whole runs of the site: noting an event on a stored row never leaves a
 version that a later persist or a restart disagrees with, the row stays what the compactor
 accepts, and the evidence stays until the row is compacted.
 */
module LateEvidence {
  import opened Core
  import opened GhostTwap
  import opened GhostPayload
  import opened AuditRow
  import opened CompactAgreement
  import opened AuditHistory
  import opened RuntimeModel
  import opened GhostSpool
  import opened RuntimeRuns
  import opened RuntimeSafety
  import opened PublicationSafety
  import opened CrashSafety
  import opened LateTargets
  import opened Watermark
  import PayloadAgreement
  import Recovery

  // ---------------------------------------------------------------- nothing disagrees

  /** The persist of the current audit pass, if it is at that point, is no conflict. */
  lemma PersistSucceeds(w: World)
    requires WorldOk(w) && DurableOk(w)
    ensures w.rt.auditing.Persisting? ==> Persisted(w.store, w.rt.auditing.record).Some?
  {
    hide WorldOk, DurableOk, Persisted, Written, AuditWrites;
    if w.rt.auditing.Persisting? { EffectOfAudit(w); }
  }

  /** Nor is the restart that finds these two sides. */
  lemma RestartSucceeds(w: World, id: int)
    requires DurableOk(w) && id in w.outbox
    ensures Recovery.Coherent(w.outbox, w.store) && Shaped(w.outbox[id])
    ensures Recovery.RecoverOne(w.store, w.outbox[id]).Some?
  {
    hide DurableOk, Recovery.RecoverOne, Recovery.Coherent, WaitsUnmatched;
    Recovery.CrashIsCoherent(w);
    assert Recovery.Survivor(w.outbox[id], id) by { SidesSurvive(w.outbox, w.store, id); }
    Recovery.RecoverOneEffect(w.outbox, w.store, id);
  }

  lemma SidesSurvive(outbox: Rows, store: Rows, id: int)
    requires Recovery.Coherent(outbox, store) && id in outbox
    ensures Recovery.Survivor(outbox[id], id)
  {
    hide Recovery.Survivor, Evolves;
  }

  /** A stored row that memory has released is finished, and passes the compactor's checks when old enough. */
  lemma ReleasedCompacts(w: World, id: int, asOfWallNs: int)
    requires WorldOk(w) && DurableOk(w) && OutboxOwned(w) && id in w.store && id !in w.rt.records
    ensures w.store[id].terminal && id !in w.outbox
    ensures Compactable(w.store[id], asOfWallNs)
            <==> w.store[id].decision.includedSequence.Some?
                 && asOfWallNs >= w.store[id].decision.wallNs + 120 * NS_PER_SECOND
  {
    hide WorldOk, Linked, Compactable, RowInv, Copies, StageSaved, Durable;
    StoredIsIssued(w, id);
    StoreIsCopy(w, id);
    Recovery.SideFacts(w, id, w.store[id]);
    TerminalRowsCompact(w.store[id], w.now.mono, asOfWallNs);
  }

  lemma CompactedHasNoFile(s: Site)
    requires SiteOk(s)
    ensures s.compacted !! s.w.outbox.Keys
  {
    hide WorldOk, DurableOk, MonitorOk, PassOk, LateOk;
    forall id | id in s.compacted
      ensures id !in s.w.outbox
    {
      assert id !in s.w.rt.records.Keys;
    }
  }

  /**
   Late notes are safe: in every interleaving of runtime steps, late notes, compaction and
   monitor reads, the next persist of the audit task succeeds, a restart at this point
   conflicts with nothing and finds no file of a compacted row, and each stored row that
   memory has released is finished, has no file left, and passes every check of the
   compactor exactly when its decision had an included sequence and 120 seconds have passed.
   */
  lemma LateNotesAreSafe(policy: Policy, queueMax: nat, spoolMax: nat, now: Stamp, moves: seq<Move>, asOfWallNs: int)
    requires PayloadAgreement.RuntimePolicy(policy) && now.wall >= 0 && now.mono >= 0
    requires SiteTimely(StartSite(policy, queueMax, spoolMax, now), moves)
    ensures var s := RunSite(StartSite(policy, queueMax, spoolMax, now), moves);
            && (s.w.rt.auditing.Persisting? ==> Persisted(s.w.store, s.w.rt.auditing.record).Some?)
            && Recovery.Coherent(s.w.outbox, s.w.store) && s.compacted !! s.w.outbox.Keys
            && (forall id :: id in s.w.outbox ==>
                  Shaped(s.w.outbox[id]) && Recovery.RecoverOne(s.w.store, s.w.outbox[id]).Some?)
            && forall id :: id in s.w.store && id !in s.w.rt.records ==>
                 && s.w.store[id].terminal && id !in s.w.outbox
                 && (Compactable(s.w.store[id], asOfWallNs)
                     <==> s.w.store[id].decision.includedSequence.Some?
                          && asOfWallNs >= s.w.store[id].decision.wallNs + 120 * NS_PER_SECOND)
  {
    hide WorldOk, DurableOk, OutboxOwned, SiteOk, MovedSite, SiteTimely, Compactable, Persisted, Recovery.RecoverOne,
         Recovery.Coherent, Shaped;
    var start := StartSite(policy, queueMax, spoolMax, now);
    StartSiteIsOk(policy, queueMax, spoolMax, now);
    RunKeepsSite(start, moves);
    var s := RunSite(start, moves);
    SiteWorld(s);
    PersistSucceeds(s.w);
    CompactedHasNoFile(s);
    Recovery.CrashIsCoherent(s.w);
    forall id | id in s.w.outbox
      ensures Shaped(s.w.outbox[id]) && Recovery.RecoverOne(s.w.store, s.w.outbox[id]).Some?
    {
      RestartSucceeds(s.w, id);
    }
    forall id | id in s.w.store && id !in s.w.rt.records
      ensures s.w.store[id].terminal && id !in s.w.outbox
      ensures Compactable(s.w.store[id], asOfWallNs)
              <==> s.w.store[id].decision.includedSequence.Some?
                   && asOfWallNs >= s.w.store[id].decision.wallNs + 120 * NS_PER_SECOND
    {
      ReleasedCompacts(s.w, id, asOfWallNs);
    }
  }

  /** Any number of events forwarded one after the other. */
  function AllNoted(r: Row, events: seq<PriceEvent>): Row {
    if events == [] then r else NoteRow(AllNoted(r, events[..|events| - 1]), events[|events| - 1])
  }

  lemma {:induction false} NotesKeepRow(r: Row, events: seq<PriceEvent>, now: int)
    requires RowInv(r, now) && forall e <- events :: Forwardable(e)
    ensures RowInv(AllNoted(r, events), now)
    ensures AllNoted(r, events).terminal == r.terminal && AllNoted(r, events).decision == r.decision
  {
    hide RowInv, Forwardable, NoteRow;
    if events != [] {
      NotesKeepRow(r, events[..|events| - 1], now);
      NoteKeepsRow(AllNoted(r, events[..|events| - 1]), events[|events| - 1], now);
    }
  }

  lemma RecoveredNotedCompacts(w: World, id: int, events: seq<PriceEvent>, asOfWallNs: int)
    requires DurableOk(w) && id in Recovery.AllRecovered(w.outbox, w.store) && forall e <- events :: Forwardable(e)
    ensures var r := Recovery.AllRecovered(w.outbox, w.store)[id];
            Compactable(AllNoted(r, events), asOfWallNs)
            <==> Recovery.CompactsWhenOld(r) && asOfWallNs >= r.decision.wallNs + 120 * NS_PER_SECOND
  {
    hide DurableOk, Compactable, RowInv, Recovered, Copies, AllNoted, Forwardable;
    Recovery.OutboxIsCopy(w, id);
    var newest := Recovery.Newest(w.outbox, w.store, id);
    Recovery.SideFacts(w, id, newest);
    RecoveredKeepsRow(newest, w.now.mono);
    NotesKeepRow(Recovered(newest), events, w.now.mono);
    TerminalRowsCompact(AllNoted(Recovered(newest), events), w.now.mono, asOfWallNs);
  }

  /**
   Late notes after a restart: what a restart recovers from a crash at any point still passes
   the compactor, under the same condition, whatever late events are noted on it.
   */
  lemma NotedEndCompacts(policy: Policy, queueMax: nat, spoolMax: nat, now: Stamp, steps: seq<Step>, id: int,
                         events: seq<PriceEvent>, asOfWallNs: int)
    requires PayloadAgreement.RuntimePolicy(policy) && now.wall >= 0 && now.mono >= 0
    requires Timely(RuntimeRuns.Init(policy, queueMax, spoolMax, now, map[]), steps)
    requires forall e <- events :: Forwardable(e)
    ensures var w := Run(RuntimeRuns.Init(policy, queueMax, spoolMax, now, map[]), steps);
            && Recovery.Coherent(w.outbox, w.store)
            && (id in Recovery.AllRecovered(w.outbox, w.store) ==>
                  var r := Recovery.AllRecovered(w.outbox, w.store)[id];
                  (Compactable(AllNoted(r, events), asOfWallNs)
                   <==> Recovery.CompactsWhenOld(r) && asOfWallNs >= r.decision.wallNs + 120 * NS_PER_SECOND))
  {
    hide WorldOk, DurableOk, Compactable, Recovery.Coherent, AllNoted, Forwardable;
    StartIsDurable(policy, queueMax, spoolMax, now);
    RunKeepsDurable(RuntimeRuns.Init(policy, queueMax, spoolMax, now, map[]), steps);
    var w := Run(RuntimeRuns.Init(policy, queueMax, spoolMax, now, map[]), steps);
    Recovery.CrashIsCoherent(w);
    if id in Recovery.AllRecovered(w.outbox, w.store) { RecoveredNotedCompacts(w, id, events, asOfWallNs); }
  }

  // ---------------------------------------------------------------- the evidence stays

  /** A runtime step leaves a released row of the store alone. */
  lemma StepSparesReleased(w: World, step: Step, id: int)
    requires WorldOk(w) && DurableOk(w) && Ordered(w.now, Readings(step)) && id in w.store && id !in w.rt.records
    ensures Formed(w.rt)
    ensures var a := Apply(w, step); id !in a.rt.records && id in a.store && a.store[id] == w.store[id]
  {
    hide WorldOk, DurableOk, Apply, Readings;
    WorldParts(w);
    StepBook(w, step);
    StoredIsIssued(w, id);
    if step.Audited? { AuditSparesOthers(w, step.audit, id); } else { OnlyAuditsStore(w, step); }
  }

  lemma AuditSparesOthers(w: World, audit: Audit, id: int)
    requires WorldOk(w) && DurableOk(w) && Formed(w.rt) && id in w.store && id !in w.rt.records
    ensures var a := Apply(w, Audited(audit)); id in a.store && a.store[id] == w.store[id]
  {
    hide WorldOk, DurableOk, RtOk, LogOk, AuditEffect, Formed, TakeDirty, Settle, Pop, Preserve, AuditWrite,
         AuditFailure;
    WorldParts(w);
    match audit
    case PickAudit(other) => QuietAudits(w, other);
    case SettleAudit => QuietAudits(w, 0);
    case PopAudit => QuietAudits(w, 0);
    case PreserveAudit(other) => QuietAudits(w, other); PreserveShape(w, other);
    case _ =>
      AuditOutcome(w, audit);
      AuditedIsHeld(w);
      if !w.rt.auditing.Resting? { EffectOfAudit(w); }
  }

  lemma AuditedIsHeld(w: World)
    requires Formed(w.rt)
    ensures !w.rt.auditing.Resting? ==> w.rt.auditing.id in w.rt.records
  {
  }

  /** The row of this identity has left memory; what the store holds only ever gains late evidence. */
  predicate ReleasedRow(s: Site, id: int) { id in s.w.store && id !in s.w.rt.records }

  lemma MoveKeepsEvidence(s: Site, m: Move, id: int)
    requires SiteOk(s) && Ordered(s.w.now, MoveReadings(m)) && ReleasedRow(s, id)
    ensures Formed(s.w.rt)
    ensures var t := MovedSite(s, m); ReleasedRow(t, id) && Evolves(s.w.store[id], t.w.store[id])
  {
    hide WorldOk, DurableOk, OutboxOwned, Apply, HourFloor, ActiveWatermark, Evolves, NoteRow, MonitorOk, LateOk;
    WorldParts(s.w);
    EvolvesFromSelf(s.w.store[id]);
    if m.RuntimeMove? && !Busy(s, m.step) { StepSparesReleased(s.w, m.step, id); }
    if m.NoteLate? && MayNote(s, m.id) && m.id == id {
      NoteLateKeeps(s, id);
      Recovery.OutboxIsCopy(s.w, id);
      Recovery.SideFacts(s.w, id, s.w.store[id]);
      NoteEvolves(s.w.store[id], s.late.value.event, s.w.now.mono);
    }
  }

  /**
   Evidence stays: from any reachable state on, a stored row that memory has released never
   returns to memory, and whatever follows only adds to it. So the first late or conflicting
   event noted on it is the one the compactor, whenever it comes, finds there.
   */
  lemma {:induction false} LateEvidenceStays(s: Site, more: seq<Move>, id: int)
    requires SiteOk(s) && Formed(s.w.rt) && SiteTimely(s, more) && ReleasedRow(s, id)
    ensures var t := RunSite(s, more);
            && ReleasedRow(t, id) && Evolves(s.w.store[id], t.w.store[id])
            && |t.w.store[id].targets| == |s.w.store[id].targets|
            && forall i | 0 <= i < |s.w.store[id].targets| ::
                 && Keeps(s.w.store[id].targets[i].late, t.w.store[id].targets[i].late)
                 && Keeps(s.w.store[id].targets[i].conflicting, t.w.store[id].targets[i].conflicting)
  {
    hide SiteOk, MovedSite, PublicationMoves;
    if more == [] {
      EvolvesFromSelf(s.w.store[id]);
    } else {
      hide ReleasedRow, Evolves;
      var front := more[..|more| - 1];
      RunKeepsSite(s, front);
      LateEvidenceStays(s, front, id);
      var mid, t := RunSite(s, front), RunSite(s, more);
      MoveKeepsEvidence(mid, more[|more| - 1], id);
      ReleasedIsStored(s, id);
      ReleasedIsStored(mid, id);
      ReleasedIsStored(t, id);
      EvolvesThrough(s.w.store[id], mid.w.store[id], t.w.store[id]);
      EvidenceIsKept(s.w.store[id], t.w.store[id]);
    }
  }

  lemma ReleasedIsStored(s: Site, id: int)
    requires ReleasedRow(s, id)
    ensures id in s.w.store
  {
  }

  lemma EvidenceIsKept(o: Row, n: Row)
    requires Evolves(o, n)
    ensures |n.targets| == |o.targets|
    ensures forall i | 0 <= i < |o.targets| ::
              Keeps(o.targets[i].late, n.targets[i].late) && Keeps(o.targets[i].conflicting, n.targets[i].conflicting)
  {
    forall i | 0 <= i < |o.targets|
      ensures Keeps(o.targets[i].late, n.targets[i].late) && Keeps(o.targets[i].conflicting, n.targets[i].conflicting)
    {
      assert TargetMoves(o.targets[i], n.targets[i]);
    }
  }
}
