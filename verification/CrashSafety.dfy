/**
 Durability over whole runs: the copies of a row in flight, in the outbox and in the store
 are versions of one history, nothing that was handed to Redis is ever missing from both
 sides, and a row leaves memory only when the store holds exactly its final version.
 */
module CrashSafety {
  import opened Core
  import opened GhostTwap
  import opened GhostPayload
  import opened AuditRow
  import opened CompactAgreement
  import opened AuditHistory
  import opened PayloadAgreement
  import opened RuntimeModel
  import opened GhostSpool
  import opened RuntimeRuns
  import opened RuntimeSteps
  import opened PublicationSteps
  import opened RuntimeSafety
  import opened PublicationSafety

  function At(rows: Rows, id: int): set<Row> { if id in rows then {rows[id]} else {} }

  function SpoolCopy(p: Publishing, id: int): set<Row> {
    if p.Spooling? && p.id == id then {p.record} else {}
  }

  function AuditCopy(a: Auditing, id: int): set<Row> {
    if !a.Resting? && a.id == id then {a.record} else {}
  }

  /** Every copy of a row outside the runtime's own records. */
  function Copies(w: World, id: int): set<Row> {
    At(w.outbox, id) + At(w.store, id) + SpoolCopy(w.rt.publishing, id) + AuditCopy(w.rt.auditing, id)
  }

  /** Copies are versions of one history that the live row continues. */
  ghost predicate Chain(copies: set<Row>, live: set<Row>) {
    && (forall r, s :: r in copies && s in copies ==> Evolves(r, s) || Evolves(s, r))
    && (forall r, s :: r in copies && s in live ==> Evolves(r, s))
  }

  ghost predicate CopyFacts(r: Row, id: int, issued: map<int, Origin>, now: int) {
    RowInv(r, now) && r.decision.id == id && id in issued && r.decision == issued[id].decision
  }

  ghost predicate Linked(w: World, id: int) {
    && Chain(Copies(w, id), At(w.rt.records, id))
    && forall r :: r in Copies(w, id) ==> CopyFacts(r, id, w.issued, w.now.mono)
  }

  /** How far the current audit write has got on disk and in the store. */
  predicate StageSaved(a: Auditing, outbox: Rows, store: Rows) {
    && (a.Persisting? || a.Committed? || a.Removing? ==> a.id in outbox && outbox[a.id].version >= a.record.version)
    && (a.Committed? || a.Removing? || a.Unlinked? ==> a.id in store && store[a.id].version >= a.record.version)
    && (a.Removing? || a.Unlinked? ==> a.record.terminal)
    && (a.Removing? ==> outbox[a.id].version == a.record.version)
  }

  predicate Kept(issued: map<int, Origin>, records: Rows, store: Rows) {
    forall id | id in issued :: id in records || (id in store && store[id].terminal)
  }

  predicate Durable(attempts: seq<Attempt>, outbox: Rows, store: Rows) {
    forall i | 0 <= i < |attempts| :: attempts[i].id in outbox || attempts[i].id in store
  }

  ghost predicate DurableOk(w: World) {
    && (forall id: int :: Linked(w, id))
    && StageSaved(w.rt.auditing, w.outbox, w.store)
    && Kept(w.issued, w.rt.records, w.store)
    && Durable(w.attempts, w.outbox, w.store)
  }

  // ---------------------------------------------------------------- chains

  /** Copies only come from earlier copies or from the live row, which only evolves. */
  lemma ChainMoves(copies: set<Row>, live: set<Row>, later: set<Row>, top: set<Row>)
    requires Chain(copies, live) && |live| <= 1 && |top| <= 1 && later <= copies + top
    requires forall r, s :: r in live && s in top ==> Evolves(r, s)
    requires live == {} && top != {} ==> copies == {}
    ensures Chain(later, top)
  {
    hide Moves;
    forall r, s | r in later && s in top ensures Evolves(r, s) {
      SameTop(top, r, s);
      EvolvesFromSelf(s);
      if r in copies {
        var l := Pick(live);
        EvolvesThrough(r, l, s);
      }
    }
    forall r, s | r in later && s in later ensures Evolves(r, s) || Evolves(s, r) {
      if r in copies && s in copies {
      } else if r in top {
        if s in top { SameTop(top, r, s); EvolvesFromSelf(s); } else { assert Evolves(s, r); }
      } else {
        assert Evolves(r, s);
      }
    }
  }

  lemma SameTop(top: set<Row>, r: Row, s: Row)
    requires |top| <= 1 && s in top
    ensures r in top ==> r == s
  {
    if r in top && r != s {
      assert {r, s} <= top;
      SubsetSize({r, s}, top);
    }
  }

  lemma LinkedMoves(w: World, a: World, id: int)
    requires Linked(w, id) && w.now.mono <= a.now.mono
    requires Copies(a, id) <= Copies(w, id) + At(a.rt.records, id)
    requires id in w.rt.records && id in a.rt.records ==> Evolves(w.rt.records[id], a.rt.records[id])
    requires id !in w.rt.records && id in a.rt.records ==> Copies(w, id) == {}
    requires id in a.rt.records ==> CopyFacts(a.rt.records[id], id, a.issued, a.now.mono)
    requires id in w.issued ==> id in a.issued && a.issued[id] == w.issued[id]
    ensures Linked(a, id)
  {
    hide Copies, Evolves, RowInv;
    ChainMoves(Copies(w, id), At(w.rt.records, id), Copies(a, id), At(a.rt.records, id));
    forall r | r in Copies(a, id) ensures CopyFacts(r, id, a.issued, a.now.mono) {
      if r in Copies(w, id) { LaterKeepsRow(r, w.now.mono, a.now.mono); }
    }
  }

  /** Rows of the next state carry the facts a copy of them needs. */
  lemma LiveFacts(a: World, id: int)
    requires WorldOk(a) && id in a.rt.records
    ensures CopyFacts(a.rt.records[id], id, a.issued, a.now.mono)
  {
    hide SafeAttempt, TurnsOk, InOrder, RowInv;
    FactsOfRow(a.rt, id, a.now);
  }

  lemma NoCopiesAhead(w: World, id: int)
    requires WorldOk(w) && Linked(w, id) && id > w.rt.decisions
    ensures Copies(w, id) == {}
  {
    hide SafeAttempt, TurnsOk, InOrder, RtOk, Copies, RowInv, Linked;
    if Copies(w, id) != {} {
      var r := Pick(Copies(w, id));
      CopyIdentity(w, id, r);
    }
  }

  /** Any step whose copies come from old copies or the live row keeps every chain. */
  lemma LinksMove(w: World, a: World)
    requires WorldOk(w) && WorldOk(a) && StepShape(w.rt, a.rt) && w.now.mono <= a.now.mono
    requires forall id: int :: Linked(w, id)
    requires forall id: int :: Copies(a, id) <= Copies(w, id) + At(a.rt.records, id)
    requires forall id :: id in w.issued ==> id in a.issued && a.issued[id] == w.issued[id]
    ensures forall id: int :: Linked(a, id)
  {
    hide WorldOk, Copies, Evolves, CopyFacts, Chain;
    forall id: int ensures Linked(a, id) {
      assert Linked(w, id);
      if id in a.rt.records {
        LiveFacts(a, id);
        if id !in w.rt.records { NoCopiesAhead(w, id); }
      }
      LinkedMoves(w, a, id);
    }
  }

  // ---------------------------------------------------------------- writes never conflict

  lemma ComparableVersions(r: Row, s: Row)
    requires Evolves(r, s) || Evolves(s, r)
    ensures r.decision == s.decision && (r.version == s.version ==> r == s) && (r.version < s.version ==> Moves(r, s))
    ensures r.terminal && r.version <= s.version ==> s.terminal
  {
    hide PublicationMoves, TargetMoves;
  }

  /** One write of a known copy: what it leaves, and that only a full directory refuses it. */
  lemma WriteEffect(outbox: Rows, capacity: nat, record: Row)
    requires var id := record.decision.id;
             id in outbox ==> Evolves(outbox[id], record) || Evolves(record, outbox[id])
    ensures var id := record.decision.id;
            var o := Written(outbox, capacity, record);
            && (o.None? ==> id !in outbox && |outbox| >= capacity)
            && (o.Some? ==>
                  && id in o.value && o.value.Keys == outbox.Keys + {id} && o.value[id].version >= record.version
                  && (o.value[id] == record || (id in outbox && o.value[id] == outbox[id]))
                  && (id in outbox ==> o.value[id].version >= outbox[id].version)
                  && forall k :: k in outbox && k != id ==> o.value[k] == outbox[k])
  {
    hide Evolves;
    var id := record.decision.id;
    if id in outbox { ComparableVersions(outbox[id], record); }
  }

  lemma PersistEffect(store: Rows, record: Row)
    requires var id := record.decision.id;
             id in store ==> Evolves(store[id], record) || Evolves(record, store[id])
    ensures var id := record.decision.id;
            var s := Persisted(store, record);
            && s.Some? && id in s.value && s.value.Keys == store.Keys + {id} && s.value[id].version >= record.version
            && (s.value[id] == record || (id in store && s.value[id] == store[id]))
            && (id in store ==> s.value[id].version >= store[id].version)
            && (id in store && store[id].terminal ==> s.value[id].terminal)
            && forall k :: k in store && k != id ==> s.value[k] == store[k]
  {
    hide Evolves, Moves;
    var id := record.decision.id;
    if id in store { ComparableVersions(store[id], record); }
  }

  lemma CopiesCompare(w: World, id: int, r: Row, s: Row)
    requires Linked(w, id) && r in Copies(w, id) && s in Copies(w, id)
    ensures Evolves(r, s) || Evolves(s, r)
  {
    hide Evolves, Copies, CopyFacts;
  }

  lemma CopyIdentity(w: World, id: int, r: Row)
    requires Linked(w, id) && r in Copies(w, id)
    ensures r.decision.id == id && id in w.issued && r.decision == w.issued[id].decision
    ensures id in w.rt.records ==> Evolves(r, w.rt.records[id])
  {
    hide Evolves, Copies;
    assert CopyFacts(r, id, w.issued, w.now.mono);
  }

  // ---------------------------------------------------------------- offers and workers

  /** Steps that write neither side: only the copies in flight and the live rows matter. */
  lemma DurableMoves(w: World, a: World)
    requires WorldOk(w) && DurableOk(w) && WorldOk(a) && StepShape(w.rt, a.rt) && w.now.mono <= a.now.mono
    requires a.outbox == w.outbox && a.store == w.store && a.rt.auditing == w.rt.auditing
    requires a.rt.publishing.Spooling? ==>
               a.rt.publishing == w.rt.publishing
               || (a.rt.publishing.id in a.rt.records && a.rt.publishing.record == a.rt.records[a.rt.publishing.id])
    requires forall id :: id in w.issued ==> id in a.issued && a.issued[id] == w.issued[id]
    requires forall id :: id in a.issued ==> id in w.issued || id in a.rt.records
    requires w.rt.records.Keys <= a.rt.records.Keys
    requires forall i :: 0 <= i < |a.attempts| ==> i < |w.attempts| || a.attempts[i].id in a.outbox
    requires |w.attempts| <= |a.attempts| && a.attempts[..|w.attempts|] == w.attempts
    ensures DurableOk(a)
  {
    hide WorldOk, StepShape, Linked, StageSaved;
    forall id: int ensures Copies(a, id) <= Copies(w, id) + At(a.rt.records, id) { }
    LinksMove(w, a);
    forall i | 0 <= i < |w.attempts| ensures a.attempts[i] == w.attempts[i] {
      assert a.attempts[i] == a.attempts[..|w.attempts|][i];
    }
  }

  lemma OfferKeepsDurable(w: World, offer: Offer)
    requires WorldOk(w) && DurableOk(w) && Ordered(w.now, OfferReadings(offer))
    ensures Formed(w.rt) && DurableOk(Apply(w, Offered(offer)))
  {
    hide DurableOk, ActOffer, Quiet, RtOk, LogOk, StepShape, WorldOk;
    WorldParts(w);
    OfferKeepsWorld(w, offer);
    OffersKeepOk(w.rt, offer, w.now);
    QuietShape(w.rt, ActOffer(w.rt, offer));
    LatestIsLater(w.now, OfferReadings(offer));
    var a := Apply(w, Offered(offer));
    IssuedAreHeld(a);
    DurableMoves(w, a);
  }

  lemma WorldParts(w: World)
    requires WorldOk(w)
    ensures Formed(w.rt) && RtOk(w.rt, w.now) && LogOk(w) && AuditOk(w.rt) && SpoolOk(w.rt, w.outbox)
    ensures OriginsOk(w.rt, w.issued)
  {
  }

  lemma IssuedAreHeld(w: World)
    ensures forall id :: id in w.issued ==> id in w.issued || id in w.rt.records
  {
  }

  lemma {:induction false} LatestIsLater(from: Stamp, readings: seq<Stamp>)
    requires Ordered(from, readings)
    ensures from.NotAfter(Latest(from, readings))
    decreases |readings|
  {
    if readings != [] {
      LatestIsLater(readings[0], readings[1..]);
      assert |readings| > 1 ==> readings[1..][|readings| - 2] == readings[|readings| - 1];
    }
  }

  /** What a publication's outbox write changes. */
  lemma OutboxShape(w: World, integrity: bool, applied: bool)
    requires RtOk(w.rt, w.now)
    ensures Formed(w.rt)
    ensures forall a :: a in {OutboxWrite(w), OutboxFailure(w, integrity, applied)} ==>
              && a == w.(rt := a.rt, outbox := a.outbox) && a.rt.auditing == w.rt.auditing
              && (!w.rt.publishing.Spooling? ==> a == w)
              && (w.rt.publishing.Spooling? ==>
                    && !a.rt.publishing.Spooling? && w.rt.records.Keys <= a.rt.records.Keys
                    && (a.outbox == w.outbox
                        || Written(w.outbox, w.spoolMax, w.rt.publishing.record) == Some(a.outbox)))
  {
    hide RtOk, IoFailure, Written, Evolves, Formed;
    OkIsFormed(w.rt, w.now);
    SpoolKeeps(w.rt, w.now, true);
    SpoolKeeps(w.rt, w.now, integrity);
    AdvancesKeys(w.rt, SpoolFailed(w.rt, true));
    AdvancesKeys(w.rt, SpoolFailed(w.rt, integrity));
  }

  lemma OutboxKeepsDurable(w: World, work: Work)
    requires WorldOk(w) && DurableOk(w) && (work.OutboxWork? || work.OutboxError?)
    ensures Formed(w.rt) && DurableOk(Apply(w, Worked(work)))
  {
    hide WorldOk, RtOk, LogOk, OutboxWrite, OutboxFailure, StepShape, DurableOk, Evolves, Written, Advances;
    WorldParts(w);
    var a := Apply(w, Worked(work));
    WorkKeepsWorld(w, work);
    WorkKeepsOk(w, work);
    MovedIsOk(w, ActWork(w, work), w.now);
    OutboxShape(w, if work.OutboxError? then work.integrity else true, work.OutboxError? && work.applied);
    if w.rt.publishing.Spooling? { SpoolWriteDurable(w, a); }
  }

  lemma AdvancesKeys(rt: Runtime, after: Runtime)
    requires Advances(rt, after)
    ensures rt.records.Keys <= after.records.Keys
  {
    hide Evolves;
    forall id | id in rt.records ensures id in after.records { }
  }

  /** The publication's record reached the outbox, or a full directory refused it. */
  lemma SpoolWriteDurable(w: World, a: World)
    requires WorldOk(w) && DurableOk(w) && WorldOk(a) && w.rt.publishing.Spooling?
    requires SpoolOk(w.rt, w.outbox) && Formed(w.rt)
    requires a == w.(rt := a.rt, outbox := a.outbox) && a.rt.auditing == w.rt.auditing && !a.rt.publishing.Spooling?
    requires a.outbox == w.outbox || Written(w.outbox, w.spoolMax, w.rt.publishing.record) == Some(a.outbox)
    requires StepShape(w.rt, a.rt) && w.rt.records.Keys <= a.rt.records.Keys
    ensures DurableOk(a)
  {
    hide WorldOk, StepShape, Linked, Evolves, Written;
    var id, record := w.rt.publishing.id, w.rt.publishing.record;
    if id in w.outbox { CopiesCompare(w, id, w.outbox[id], record); }
    WriteEffect(w.outbox, w.spoolMax, record);
    forall k: int ensures Copies(a, k) <= Copies(w, k) + At(a.rt.records, k) { }
    LinksMove(w, a);
    OutboxOnlyGrows(w, a, id);
  }

  /** The outbox keeps every name and only moves one row forward. */
  lemma OutboxOnlyGrows(w: World, a: World, id: int)
    requires DurableOk(w) && a.store == w.store && a.rt.auditing == w.rt.auditing && a.issued == w.issued
    requires w.outbox.Keys <= a.outbox.Keys && w.rt.records.Keys <= a.rt.records.Keys && a.attempts == w.attempts
    requires forall k :: k in w.outbox && k != id ==> a.outbox[k] == w.outbox[k]
    requires id in w.outbox && id in a.outbox ==> a.outbox[id].version >= w.outbox[id].version
    requires w.rt.auditing.Removing? ==> w.rt.auditing.id != id || a.outbox == w.outbox
    ensures StageSaved(a.rt.auditing, a.outbox, a.store) && Kept(a.issued, a.rt.records, a.store)
    ensures Durable(a.attempts, a.outbox, a.store)
  {
    hide Linked;
  }

  lemma IssuedFromRows(w: World, work: Work)
    requires Formed(w.rt)
    ensures var a := ActWork(w, work);
            !work.OutboxWork? && !work.OutboxError? ==>
              forall id :: id in a.issued ==> id in w.issued || id in a.rt.records
  {
    hide Issue, Begin, Replied, Close, TryAttempt;
  }

  lemma AttemptIsDurable(w: World, verdict: Verdict, checked: Stamp, at: Stamp)
    requires RtOk(w.rt, w.now) && w.now.NotAfter(checked) && checked.NotAfter(at) && SpoolOk(w.rt, w.outbox)
    ensures Formed(w.rt)
    ensures var a := Attempted(w, verdict, checked, at);
            && |w.attempts| <= |a.attempts| && a.attempts[..|w.attempts|] == w.attempts
            && (forall i :: |w.attempts| <= i < |a.attempts| ==> a.attempts[i].id in w.outbox)
            && !(a.rt.publishing.Spooling? && a.rt.publishing != w.rt.publishing)
  {
    hide RtOk, TryAttempt, ReceivedTargets;
    OkIsFormed(w.rt, w.now);
    AttemptKeeps(w.rt, verdict, w.now, checked, at);
  }

  lemma WorkKeepsDurable(w: World, work: Work)
    requires WorldOk(w) && DurableOk(w) && Ordered(w.now, WorkReadings(work))
    requires !work.OutboxWork? && !work.OutboxError?
    ensures Formed(w.rt) && DurableOk(Apply(w, Worked(work)))
  {
    hide WorldOk, RtOk, LogOk, ActWork, StepShape, DurableOk, Evolves, Advances;
    WorldParts(w);
    var a, now := ActWork(w, work), Latest(w.now, WorkReadings(work));
    WorkKeepsWorld(w, work);
    WorkKeepsOk(w, work);
    MovedIsOk(w, a, now);
    AdvancesKeys(w.rt, a.rt);
    LatestIsLater(w.now, WorkReadings(work));
    IssuedFromRows(w, work);
    if work.AttemptWork? {
      AttemptIsAttempted(w, work);
      AttemptIsDurable(w, work.verdict, work.checked, work.at);
      AttemptKeepsIssued(w, work);
    } else {
      WorkOrigins(w, work);
      WorkKeepsOutbox(w, work);
    }
    DurableMoves(w, Apply(w, Worked(work)));
  }

  lemma AttemptKeepsIssued(w: World, work: Work)
    requires Formed(w.rt) && work.AttemptWork?
    ensures ActWork(w, work).issued == w.issued && ActWork(w, work).outbox == w.outbox
  {
    hide TryAttempt;
  }

  lemma WorkKeepsOutbox(w: World, work: Work)
    requires Formed(w.rt) && !work.OutboxWork? && !work.OutboxError?
    ensures ActWork(w, work).outbox == w.outbox
  {
    hide Issue, Begin, Replied, Close, TryAttempt;
  }

  // ---------------------------------------------------------------- the audit worker

  /** Rows of `after` are rows of `before`, except that one identity may now hold `record`. */
  predicate OneWrite(before: Rows, after: Rows, id: int, record: Row) {
    && before.Keys <= after.Keys && after.Keys <= before.Keys + {id}
    && (forall k | k in before && k != id :: after[k] == before[k])
    && (id in after ==> after[id] == record || (id in before && after[id] == before[id]))
  }

  predicate OneRemoval(before: Rows, after: Rows, id: int) {
    after == before - {id}
  }

  /** What the audit write of this stage does to the two sides. */
  predicate AuditWrites(a: Auditing, outbox: Rows, store: Rows, newOutbox: Rows, newStore: Rows)
    requires !a.Resting?
  {
    && (if a.Saving? then OneWrite(outbox, newOutbox, a.id, a.record) && a.id in newOutbox
                          && newOutbox[a.id].version >= a.record.version
        else if a.Removing? then OneRemoval(outbox, newOutbox, a.id)
        else newOutbox == outbox)
    && (if a.Persisting? then OneWrite(store, newStore, a.id, a.record) && a.id in newStore
                              && newStore[a.id].version >= a.record.version
                              && (a.id in store && store[a.id].terminal ==> newStore[a.id].terminal)
        else newStore == store)
  }

  lemma WriteIsOneWrite(outbox: Rows, capacity: nat, record: Row)
    requires var id := record.decision.id;
             id in outbox ==> Evolves(outbox[id], record) || Evolves(record, outbox[id])
    ensures var id := record.decision.id;
            var o := Written(outbox, capacity, record);
            && (o.None? ==> |outbox| >= capacity)
            && (o.Some? ==>
                  OneWrite(outbox, o.value, id, record) && id in o.value && o.value[id].version >= record.version)
  {
    hide Evolves, Written;
    WriteEffect(outbox, capacity, record);
  }

  lemma PersistIsOneWrite(store: Rows, record: Row)
    requires var id := record.decision.id;
             id in store ==> Evolves(store[id], record) || Evolves(record, store[id])
    ensures var id := record.decision.id;
            var s := Persisted(store, record);
            && s.Some? && OneWrite(store, s.value, id, record) && id in s.value && s.value[id].version >= record.version
            && (id in store && store[id].terminal ==> s.value[id].terminal)
  {
    hide Evolves, Persisted;
    PersistEffect(store, record);
  }

  /** The copy being audited compares with both sides. */
  lemma AuditedCompares(w: World)
    requires WorldOk(w) && DurableOk(w) && !w.rt.auditing.Resting?
    ensures var a := w.rt.auditing;
            && a.record.decision.id == a.id
            && (a.id in w.outbox ==> Evolves(w.outbox[a.id], a.record) || Evolves(a.record, w.outbox[a.id]))
            && (a.id in w.store ==> Evolves(w.store[a.id], a.record) || Evolves(a.record, w.store[a.id]))
  {
    hide RtOk, LogOk, Linked, Evolves, Kept, Durable, StageSaved;
    var a := w.rt.auditing;
    assert Linked(w, a.id);
    AuditRecord(w.rt);
    if a.id in w.outbox { CopiesCompare(w, a.id, w.outbox[a.id], a.record); }
    if a.id in w.store { CopiesCompare(w, a.id, w.store[a.id], a.record); }
  }

  lemma SavedStage(w: World)
    requires DurableOk(w)
    ensures StageSaved(w.rt.auditing, w.outbox, w.store)
  {
  }

  /** The effect of the current audit write: one row moved or one file removed, and never a conflict. */
  lemma EffectOfAudit(w: World)
    requires WorldOk(w) && DurableOk(w) && !w.rt.auditing.Resting?
    ensures AuditEffect(w).None? ==> w.rt.auditing.Saving? && |w.outbox| >= w.spoolMax
    ensures AuditEffect(w).Some? ==>
              AuditWrites(w.rt.auditing, w.outbox, w.store, AuditEffect(w).value.0, AuditEffect(w).value.1)
  {
    hide WorldOk, DurableOk, Evolves, Written, Persisted, OneWrite;
    AuditedCompares(w);
    SavedStage(w);
    WriteIsOneWrite(w.outbox, w.spoolMax, w.rt.auditing.record);
    PersistIsOneWrite(w.store, w.rt.auditing.record);
  }

  /** The stage reached after an audit step, given the sides it left. */
  lemma AuditedDurable(w: World, a: World)
    requires WorldOk(w) && DurableOk(w) && WorldOk(a) && StepShape(w.rt, a.rt) && SameFront(w, a)
    requires forall k :: k in a.outbox ==> a.outbox[k] in Copies(w, k) + At(a.rt.records, k)
    requires forall k :: k in a.store ==> a.store[k] in Copies(w, k)
    requires a.rt.auditing.Resting?
             || a.rt.auditing.record in Copies(w, a.rt.auditing.id) + At(a.rt.records, a.rt.auditing.id)
    requires StageSaved(a.rt.auditing, a.outbox, a.store)
    requires Kept(a.issued, a.rt.records, a.store)
    requires Durable(a.attempts, a.outbox, a.store)
    ensures DurableOk(a)
  {
    hide WorldOk, StepShape, Linked, StageSaved, Kept, Durable;
    forall id: int ensures Copies(a, id) <= Copies(w, id) + At(a.rt.records, id) { }
    LinksMove(w, a);
  }

  /** The next stage of the same pass, or its end. */
  predicate NextStage(a: Auditing, next: Auditing)
    requires !a.Resting?
  {
    || next.Resting?
    || (a.Saving? && next == Persisting(a.id, a.record))
    || (a.Persisting? && next == Committed(a.id, a.record))
    || (a.Removing? && next == Unlinked(a.id, a.record))
  }

  lemma SidesStaySaved(a: Auditing, next: Auditing, outbox: Rows, store: Rows, newOutbox: Rows, newStore: Rows)
    requires !a.Resting? && AuditWrites(a, outbox, store, newOutbox, newStore) && NextStage(a, next)
    requires StageSaved(a, outbox, store)
    ensures StageSaved(next, newOutbox, newStore)
  {
  }

  lemma SidesStayKept(a: Auditing, issued: map<int, Origin>, records: Rows, later: Rows, attempts: seq<Attempt>,
                      outbox: Rows, store: Rows, newOutbox: Rows, newStore: Rows)
    requires !a.Resting? && AuditWrites(a, outbox, store, newOutbox, newStore) && StageSaved(a, outbox, store)
    requires Kept(issued, records, store) && records.Keys <= later.Keys && Durable(attempts, outbox, store)
    ensures Kept(issued, later, newStore) && Durable(attempts, newOutbox, newStore)
  {
  }

  lemma SidesAreCopies(w: World, newOutbox: Rows, newStore: Rows)
    requires !w.rt.auditing.Resting? && AuditWrites(w.rt.auditing, w.outbox, w.store, newOutbox, newStore)
    ensures forall k :: k in newOutbox ==> newOutbox[k] in Copies(w, k)
    ensures forall k :: k in newStore ==> newStore[k] in Copies(w, k)
    ensures w.rt.auditing.record in Copies(w, w.rt.auditing.id)
  {
  }

  /** The audit write took effect and the pass went on, or failed. */
  lemma EffectDurable(w: World, a: World)
    requires WorldOk(w) && DurableOk(w) && WorldOk(a) && StepShape(w.rt, a.rt) && SameFront(w, a)
    requires !w.rt.auditing.Resting? && AuditEffect(w).Some? && AuditEffect(w).value == (a.outbox, a.store)
    requires w.rt.records.Keys <= a.rt.records.Keys && NextStage(w.rt.auditing, a.rt.auditing)
    ensures DurableOk(a)
  {
    hide WorldOk, StepShape, Linked, AuditEffect, AuditWrites, Copies, StageSaved, Kept, Durable;
    EffectOfAudit(w);
    SidesStaySaved(w.rt.auditing, a.rt.auditing, w.outbox, w.store, a.outbox, a.store);
    SidesStayKept(w.rt.auditing, w.issued, w.rt.records, a.rt.records, w.attempts, w.outbox, w.store, a.outbox,
                  a.store);
    SidesAreCopies(w, a.outbox, a.store);
    AuditedDurable(w, a);
  }

  /** What the writing audit steps amount to. */
  lemma AuditOutcome(w: World, audit: Audit)
    requires RtOk(w.rt, w.now)
    requires audit.SaveAudit? || audit.StoreAudit? || audit.UnlinkAudit? || audit.FailAudit?
    ensures Formed(w.rt)
    ensures var a := ActAudit(w, audit);
            || (a.outbox == w.outbox && a.store == w.store
                && (a.rt.auditing.Resting? || a.rt.auditing == w.rt.auditing))
            || (!w.rt.auditing.Resting? && AuditEffect(w) == Some((a.outbox, a.store))
                && NextStage(w.rt.auditing, a.rt.auditing))
  {
    hide RtOk, IoFailure, Written, Persisted, Removed, Formed, AuditFailed;
    OkIsFormed(w.rt, w.now);
    AuditFailedKeeps(w.rt, true, w.now);
    AuditFailedKeeps(w.rt, if audit.FailAudit? then audit.integrity else true, w.now);
  }

  lemma AuditWritesDurable(w: World, audit: Audit)
    requires WorldOk(w) && DurableOk(w)
             && (audit.SaveAudit? || audit.StoreAudit? || audit.UnlinkAudit? || audit.FailAudit?)
    ensures Formed(w.rt) && DurableOk(Apply(w, Audited(audit)))
  {
    hide WorldOk, RtOk, LogOk, AuditEffect, ActAudit, DurableOk, StepShape, Advances, NextStage;
    WorldParts(w);
    var a := Apply(w, Audited(audit));
    AuditKeepsWorld(w, audit);
    AuditorMoves(w, audit);
    AdvancesKeys(w.rt, a.rt);
    AuditOutcome(w, audit);
    if a.outbox == w.outbox && a.store == w.store && (a.rt.auditing.Resting? || a.rt.auditing == w.rt.auditing) {
      GivenUp(w, a);
    } else {
      EffectDurable(w, a);
    }
  }

  /** Neither side was written and the pass stayed where it was or ended. */
  lemma QuietDurable(w: World, a: World)
    requires WorldOk(w) && DurableOk(w) && WorldOk(a) && StepShape(w.rt, a.rt) && SameFront(w, a)
    requires a.outbox == w.outbox && a.store == w.store && Kept(w.issued, a.rt.records, w.store)
    requires a.rt.auditing.Resting? || a.rt.auditing == w.rt.auditing
    ensures DurableOk(a)
  {
    hide WorldOk, StepShape, Linked, Kept, Durable;
    AuditedDurable(w, a);
  }

  /** Nothing was written. */
  lemma GivenUp(w: World, a: World)
    requires WorldOk(w) && DurableOk(w) && WorldOk(a) && StepShape(w.rt, a.rt) && SameFront(w, a)
    requires a.outbox == w.outbox && a.store == w.store && w.rt.records.Keys <= a.rt.records.Keys
    requires a.rt.auditing.Resting? || a.rt.auditing == w.rt.auditing
    ensures DurableOk(a)
  {
    hide WorldOk, StepShape, Linked;
    QuietDurable(w, a);
  }

  // ---------------------------------------------------------------- settling, popping, preserving

  lemma QuietAudits(w: World, id: int)
    requires Formed(w.rt)
    ensures Apply(w, Audited(PickAudit(id))) == w.(rt := TakeDirty(w.rt, id))
    ensures Apply(w, Audited(SettleAudit)) == w.(rt := Settle(w.rt))
    ensures Apply(w, Audited(PopAudit)) == w.(rt := Pop(w.rt))
    ensures Apply(w, Audited(PreserveAudit(id))) == Preserve(w, id).(now := w.now)
  {
    hide TakeDirty, Settle, Pop, Preserve, Formed;
  }

  lemma PickSides(rt: Runtime, id: int, outbox: Rows, store: Rows)
    requires Formed(rt) && StageSaved(rt.auditing, outbox, store)
    ensures var after := TakeDirty(rt, id);
            && after.records == rt.records && StageSaved(after.auditing, outbox, store)
            && (after.auditing == rt.auditing
                || (after.auditing.Saving? && after.auditing.id in rt.records
                    && after.auditing.record == rt.records[after.auditing.id]))
  {
  }

  lemma PickKeepsDurable(w: World, id: int)
    requires WorldOk(w) && DurableOk(w)
    ensures Formed(w.rt) && DurableOk(Apply(w, Audited(PickAudit(id))))
  {
    hide WorldOk, RtOk, LogOk, StepShape, Linked, Advances, Apply, Formed, TakeDirty, StageSaved, Kept, Durable;
    WorldParts(w);
    var a := Apply(w, Audited(PickAudit(id)));
    QuietAudits(w, id);
    AuditKeepsWorld(w, PickAudit(id));
    AuditorMoves(w, PickAudit(id));
    PickSides(w.rt, id, w.outbox, w.store);
    AuditedDurable(w, a);
  }

  /** A clean terminal row is the audited record, which both sides hold. */
  lemma SettledIsSaved(w: World)
    requires Formed(w.rt) && w.rt.auditing.Committed? && Linked(w, w.rt.auditing.id)
    requires StageSaved(w.rt.auditing, w.outbox, w.store)
    ensures StageSaved(Settle(w.rt).auditing, w.outbox, w.store)
  {
    hide Moves, CopyFacts;
    var id, record := w.rt.auditing.id, w.rt.auditing.record;
    assert record in Copies(w, id) && w.outbox[id] in Copies(w, id) && w.rt.records[id] in At(w.rt.records, id);
    assert Evolves(record, w.rt.records[id]) && Evolves(w.outbox[id], w.rt.records[id]);
  }

  lemma SettleKeepsDurable(w: World)
    requires WorldOk(w) && DurableOk(w)
    ensures Formed(w.rt) && DurableOk(Apply(w, Audited(SettleAudit)))
  {
    hide WorldOk, RtOk, LogOk, StepShape, Linked, Advances, StageSaved, Apply;
    WorldParts(w);
    var a := Apply(w, Audited(SettleAudit));
    QuietAudits(w, 0);
    AuditKeepsWorld(w, SettleAudit);
    AuditorMoves(w, SettleAudit);
    if w.rt.auditing.Committed? { SettledIsSaved(w); }
    SettleFrame(w.rt);
    AuditedDurable(w, a);
  }

  lemma SettleFrame(rt: Runtime)
    requires Formed(rt)
    ensures Settle(rt).records == rt.records
    ensures Settle(rt).auditing == rt.auditing || Settle(rt).auditing.Resting?
            || (Settle(rt).auditing.Removing? && rt.auditing.Committed?
                && Settle(rt).auditing.record == rt.auditing.record
                && Settle(rt).auditing.id == rt.auditing.id)
  {
  }

  /** A row leaves memory exactly when the store holds its final, terminal version. */
  lemma PoppedIsStored(w: World)
    requires WorldOk(w) && DurableOk(w)
    ensures Formed(w.rt)
    ensures forall id :: id in w.rt.records && id !in Pop(w.rt).records ==>
              id in w.store && w.store[id] == w.rt.records[id] && w.store[id].terminal
  {
    hide RtOk, LogOk, Kept, Durable, Moves, CopyFacts;
    WorldParts(w);
    if w.rt.auditing.Unlinked? {
      var id, record := w.rt.auditing.id, w.rt.auditing.record;
      assert Linked(w, id);
      assert record in Copies(w, id) && w.store[id] in Copies(w, id) && w.rt.records[id] in At(w.rt.records, id);
      assert Evolves(record, w.rt.records[id]) && Evolves(w.store[id], w.rt.records[id]);
    }
  }

  /** Popping ends the pass; what leaves memory is finished in the store. */
  lemma PopSides(w: World)
    requires Formed(w.rt) && Kept(w.issued, w.rt.records, w.store)
    requires forall id :: id in w.rt.records && id !in Pop(w.rt).records ==>
               id in w.store && w.store[id].terminal
    ensures Pop(w.rt).auditing.Resting? || Pop(w.rt).auditing == w.rt.auditing
    ensures Kept(w.issued, Pop(w.rt).records, w.store)
  {
  }

  lemma PopKeepsDurable(w: World)
    requires WorldOk(w) && DurableOk(w)
    ensures Formed(w.rt) && DurableOk(Apply(w, Audited(PopAudit)))
  {
    hide WorldOk, RtOk, LogOk, StepShape, Linked, Evolves, Apply, Formed, Pop, StageSaved, Kept, Durable;
    WorldParts(w);
    var a := Apply(w, Audited(PopAudit));
    QuietAudits(w, 0);
    AuditKeepsWorld(w, PopAudit);
    AuditorMoves(w, PopAudit);
    PoppedIsStored(w);
    PopSides(w);
    QuietDurable(w, a);
  }

  /** Preserving writes the live row, or nothing. */
  lemma PreserveOutcome(w: World, id: int)
    requires WorldOk(w) && DurableOk(w)
    ensures var a := Preserve(w, id);
            && a == w.(outbox := a.outbox)
            && (a.outbox == w.outbox
                || (id in w.rt.records && w.rt.auditing.Resting? && OneWrite(w.outbox, a.outbox, id, w.rt.records[id])))
  {
    hide WorldOk, Evolves, Written, OneWrite, Linked, StageSaved, Kept, Durable;
    if id in w.rt.records {
      LiveFacts(w, id);
      LiveIdentity(w, id);
      assert Linked(w, id);
      if id in w.outbox { CopyIdentity(w, id, w.outbox[id]); }
      WriteIsOneWrite(w.outbox, w.spoolMax, w.rt.records[id]);
    }
  }

  lemma PreserveKeepsDurable(w: World, id: int)
    requires WorldOk(w) && DurableOk(w)
    ensures Formed(w.rt) && DurableOk(Apply(w, Audited(PreserveAudit(id))))
  {
    hide WorldOk, RtOk, LogOk, StepShape, Linked, Advances, Preserve, Apply, Formed;
    WorldParts(w);
    var a := Apply(w, Audited(PreserveAudit(id)));
    QuietAudits(w, id);
    AuditKeepsWorld(w, PreserveAudit(id));
    AuditorMoves(w, PreserveAudit(id));
    PreserveOutcome(w, id);
    AuditedDurable(w, a);
  }

  lemma LiveIdentity(w: World, id: int)
    requires id in w.rt.records && CopyFacts(w.rt.records[id], id, w.issued, w.now.mono)
    ensures w.rt.records[id].decision.id == id
  {
  }

  // ---------------------------------------------------------------- whole runs

  lemma StepKeepsDurable(w: World, step: Step)
    requires WorldOk(w) && DurableOk(w) && Ordered(w.now, Readings(step))
    ensures Formed(w.rt) && DurableOk(Apply(w, step))
  {
    hide WorldOk, DurableOk, Apply;
    match step
    case Offered(offer) => OfferKeepsDurable(w, offer);
    case Worked(work) =>
      if work.OutboxWork? || work.OutboxError? { OutboxKeepsDurable(w, work); } else { WorkKeepsDurable(w, work); }
    case Audited(audit) =>
      match audit {
        case PickAudit(id) => PickKeepsDurable(w, id);
        case SettleAudit => SettleKeepsDurable(w);
        case PopAudit => PopKeepsDurable(w);
        case PreserveAudit(id) => PreserveKeepsDurable(w, id);
        case _ => AuditWritesDurable(w, audit);
      }
  }

  lemma {:induction false} RunKeepsDurable(start: World, steps: seq<Step>)
    requires WorldOk(start) && DurableOk(start) && Formed(start.rt) && Timely(start, steps)
    ensures WorldOk(Run(start, steps)) && DurableOk(Run(start, steps))
  {
    hide WorldOk, DurableOk, Apply;
    if steps != [] {
      var front := steps[..|steps| - 1];
      RunKeepsDurable(start, front);
      StepKeepsWorld(Run(start, front), steps[|steps| - 1]);
      StepKeepsDurable(Run(start, front), steps[|steps| - 1]);
    }
  }

  lemma StartIsDurable(policy: Policy, queueMax: nat, spoolMax: nat, now: Stamp)
    requires RuntimePolicy(policy) && now.wall >= 0 && now.mono >= 0
    ensures WorldOk(RuntimeRuns.Init(policy, queueMax, spoolMax, now, map[]))
    ensures DurableOk(RuntimeRuns.Init(policy, queueMax, spoolMax, now, map[]))
  {
    hide RtOk, LogOk;
    StartIsOk(policy, queueMax, spoolMax, now, map[]);
    var w := RuntimeRuns.Init(policy, queueMax, spoolMax, now, map[]);
    forall id: int ensures Linked(w, id) { assert Copies(w, id) == {}; }
  }

  /**
   Crash safety: stop any run at any point. Every decision ever handed to Redis is still in
   the outbox or the store with the decision it was issued with; every issued decision is
   in memory or finished in the store; and the outbox and the store hold versions of one
   history, so no later write of it can conflict.
   */
  lemma CrashLosesNothing(policy: Policy, queueMax: nat, spoolMax: nat, now: Stamp, steps: seq<Step>)
    requires RuntimePolicy(policy) && now.wall >= 0 && now.mono >= 0
    requires Timely(RuntimeRuns.Init(policy, queueMax, spoolMax, now, map[]), steps)
    ensures var w := Run(RuntimeRuns.Init(policy, queueMax, spoolMax, now, map[]), steps);
            && (forall i :: 0 <= i < |w.attempts| ==>
                  var id := w.attempts[i].id;
                  && id in w.issued
                  && (id in w.outbox || id in w.store)
                  && (id in w.outbox ==> w.outbox[id].decision == w.issued[id].decision)
                  && (id in w.store ==> w.store[id].decision == w.issued[id].decision))
            && (forall id :: id in w.issued ==> id in w.rt.records || (id in w.store && w.store[id].terminal))
            && (forall id :: id in w.outbox && id in w.store ==>
                  Evolves(w.outbox[id], w.store[id]) || Evolves(w.store[id], w.outbox[id]))
  {
    hide Apply, RtOk, Evolves, Linked, StageSaved, Accepts, WireMatches, OriginsOk, TurnsOk;
    StartIsDurable(policy, queueMax, spoolMax, now);
    RunKeepsDurable(RuntimeRuns.Init(policy, queueMax, spoolMax, now, map[]), steps);
    var w := Run(RuntimeRuns.Init(policy, queueMax, spoolMax, now, map[]), steps);
    forall id | id in w.outbox ensures id in w.issued && w.outbox[id].decision == w.issued[id].decision {
      CopyIdentity(w, id, w.outbox[id]);
    }
    forall id | id in w.store ensures id in w.issued && w.store[id].decision == w.issued[id].decision {
      CopyIdentity(w, id, w.store[id]);
    }
    forall id | id in w.outbox && id in w.store
      ensures Evolves(w.outbox[id], w.store[id]) || Evolves(w.store[id], w.outbox[id])
    {
      CopiesCompare(w, id, w.outbox[id], w.store[id]);
    }
  }
}
