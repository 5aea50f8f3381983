/**
 Restart recovery (price_collector/ghost_twap_runtime.py): the outbox left by a crash is
 reconciled with the store row by row, then every unfinished stored row is ended. Rows
 of all earlier runs are keyed by their identity.
 */
module Recovery {
  import opened Core
  import opened GhostTwap
  import opened GhostPayload
  import opened AuditRow
  import opened CompactAgreement
  import opened AuditHistory
  import opened RuntimeModel
  import opened GhostSpool
  import opened RuntimeRuns
  import opened PublicationSafety
  import opened CrashSafety
  import PayloadAgreement
  import PublicationSteps

  /** Reconcile one row with the store; None is the ValueError that stops the start. */
  function RecoverOne(store: Rows, record: Row): Option<Rows>
    requires Shaped(record)
  {
    var id := record.decision.id;
    var conflict := id in store
                    && (store[id].decision != record.decision
                        || (store[id].version == record.version && store[id] != record));
    if conflict then None
    else
      var newest := if id in store && store[id].version > record.version then store[id] else record;
      if newest.terminal then
        if id !in store || store[id].version < newest.version then Persisted(store, newest) else Some(store)
      else Persisted(store, Recovered(newest))
  }

  // ---------------------------------------------------------------- what recovery amounts to

  /** Of the two durable copies of a row, the later version. */
  function Newest(outbox: Rows, store: Rows, id: int): Row
    requires id in outbox || id in store
  {
    if id !in outbox then store[id]
    else if id !in store then outbox[id]
    else if store[id].version > outbox[id].version then store[id] else outbox[id]
  }

  /** Every surviving row, ended. */
  function AllRecovered(outbox: Rows, store: Rows): Rows {
    map id | id in outbox.Keys + store.Keys :: Recovered(Newest(outbox, store, id))
  }

  ghost predicate Survivor(r: Row, id: int) {
    r.decision.id == id && Shaped(r) && WaitsUnmatched(r)
  }

  /** What a crash leaves: at each identity, versions of one history. */
  ghost predicate Coherent(outbox: Rows, store: Rows) {
    && (forall id :: id in outbox ==> Survivor(outbox[id], id))
    && (forall id :: id in store ==> Survivor(store[id], id))
    && (forall id :: id in outbox && id in store ==>
          Evolves(outbox[id], store[id]) || Evolves(store[id], outbox[id]))
  }

  lemma RecoveredIsDone(r: Row)
    requires Shaped(r)
    ensures Shaped(Recovered(r)) && Recovered(r).terminal && Recovered(Recovered(r)) == Recovered(r)
    ensures Recovered(r).decision == r.decision && r.version <= Recovered(r).version
    ensures r.terminal ==> Recovered(r) == r
    ensures !r.terminal ==> Recovered(r).version == r.version + 1
  {
  }

  /** Recovering an outbox row stores its ended newest version, and never fails. */
  lemma RecoverOneEffect(outbox: Rows, store: Rows, id: int)
    requires Coherent(outbox, store) && id in outbox
    ensures RecoverOne(store, outbox[id]) == Some(store[id := Recovered(Newest(outbox, store, id))])
  {
    hide Moves, Recovered, WaitsUnmatched;
    var record := outbox[id];
    assert Survivor(record, id);
    var newest := Newest(outbox, store, id);
    StoredNewest(outbox, store, id);
    RecoveredIsDone(newest);
    if id in store {
      ComparableVersions(store[id], record);
      assert Survivor(store[id], id);
    }
    RecoveredEvolves(newest);
    EvolvesFromSelf(newest);
    if newest.terminal {
      if id in store && store[id].version >= newest.version { assert store[id := newest] == store; }
    } else if id in store {
      assert Evolves(store[id], newest);
      EvolvesThrough(store[id], newest, Recovered(newest));
    }
  }

  /** Ending a stored row the second pass finds unfinished. */
  lemma RecoverStoredEffect(store: Rows, id: int)
    requires Coherent(map[], store) && id in store
    ensures RecoverOne(store, store[id]) == Some(store[id := Recovered(store[id])])
  {
    hide Moves, Recovered;
    assert Survivor(store[id], id);
    RecoveredIsDone(store[id]);
    RecoveredEvolves(store[id]);
    assert store[id := store[id]] == store;
  }

  // ---------------------------------------------------------------- crashes during recovery

  /**
   One durable effect of a start: a row of the outbox is reconciled, its file is removed
   once its recovered version is stored, or an unfinished stored row is ended.
   */
  datatype Repair = Reconcile(id: int) | Discard(id: int) | Finish(id: int)

  datatype Sides = Sides(outbox: Rows, store: Rows)

  function Repaired(s: Sides, repair: Repair): Sides
    requires Coherent(s.outbox, s.store)
  {
    match repair
    case Reconcile(id) =>
      if id !in s.outbox then s
      else
        assert Survivor(s.outbox[id], id);
        var stored := RecoverOne(s.store, s.outbox[id]);
        if stored.Some? then s.(store := stored.value) else s
    case Discard(id) =>
      if id in s.outbox && id in s.store && s.store[id] == Recovered(Newest(s.outbox, s.store, id))
      then s.(outbox := s.outbox - {id}) else s
    case Finish(id) =>
      if id !in s.store || id in s.outbox || s.store[id].terminal then s
      else
        assert Survivor(s.store[id], id);
        var stored := RecoverOne(s.store, s.store[id]);
        if stored.Some? then s.(store := stored.value) else s
  }

  lemma RecoveredSurvives(r: Row, id: int)
    requires Survivor(r, id)
    ensures Survivor(Recovered(r), id)
  {
    hide WaitsUnmatched;
    RecoveredIsDone(r);
    RecoveredWaits(r);
  }

  lemma RecoveredWaits(r: Row)
    requires Shaped(r) && WaitsUnmatched(r)
    ensures WaitsUnmatched(Recovered(r))
  {
  }

  lemma StoredNewest(outbox: Rows, store: Rows, id: int)
    requires Coherent(outbox, store) && (id in outbox || id in store)
    ensures var newest := Newest(outbox, store, id);
            && Survivor(newest, id)
            && (id in outbox ==> Evolves(outbox[id], newest)) && (id in store ==> Evolves(store[id], newest))
  {
    hide Moves, WaitsUnmatched;
    var newest := Newest(outbox, store, id);
    EvolvesFromSelf(newest);
    if id in outbox && id in store { ComparableVersions(outbox[id], store[id]); }
  }

  /** Every repair keeps the copies coherent, lowers no version, and leaves the same end. */
  lemma RepairKeeps(s: Sides, repair: Repair)
    requires Coherent(s.outbox, s.store)
    ensures var t := Repaired(s, repair);
            && Coherent(t.outbox, t.store)
            && AllRecovered(t.outbox, t.store) == AllRecovered(s.outbox, s.store)
            && (forall id :: id in s.store ==> id in t.store && Evolves(s.store[id], t.store[id]))
            && t.outbox.Keys <= s.outbox.Keys
  {
    hide Moves, Recovered, WaitsUnmatched, RecoverOne, Newest;
    match repair
    case Reconcile(id) =>
      if id in s.outbox {
        RecoverOneEffect(s.outbox, s.store, id);
        StoreEnded(s, id);
      } else { SameSides(s); }
    case Discard(id) =>
      var t := Repaired(s, repair);
      SameSides(s);
      if t != s { DiscardKeeps(s, id); }
    case Finish(id) =>
      if id in s.store && id !in s.outbox && !s.store[id].terminal {
        RecoverStoredEffect(s.store, id);
        FinishIsNewest(s, id);
        StoreEnded(s, id);
      } else { SameSides(s); }
  }

  lemma SameSides(s: Sides)
    ensures forall id :: id in s.store ==> Evolves(s.store[id], s.store[id])
  {
    hide Evolves;
    forall id | id in s.store ensures Evolves(s.store[id], s.store[id]) { EvolvesFromSelf(s.store[id]); }
  }

  lemma FinishIsNewest(s: Sides, id: int)
    requires id in s.store && id !in s.outbox
    ensures Newest(s.outbox, s.store, id) == s.store[id]
  {
  }

  /** Storing the ended newest version of one row. */
  lemma StoreEnded(s: Sides, id: int)
    requires Coherent(s.outbox, s.store) && (id in s.outbox || id in s.store)
    ensures var t := s.(store := s.store[id := Recovered(Newest(s.outbox, s.store, id))]);
            && Coherent(t.outbox, t.store)
            && AllRecovered(t.outbox, t.store) == AllRecovered(s.outbox, s.store)
            && (forall k :: k in s.store ==> k in t.store && Evolves(s.store[k], t.store[k]))
  {
    hide Moves, Recovered, WaitsUnmatched, Shaped, Evolves, Newest;
    var newest := Newest(s.outbox, s.store, id);
    var t := s.(store := s.store[id := Recovered(newest)]);
    StoredNewest(s.outbox, s.store, id);
    EndedIsLater(s, id, newest);
    SameSides(s);
    assert t.outbox.Keys + t.store.Keys == s.outbox.Keys + s.store.Keys;
    forall k | k in s.outbox.Keys + s.store.Keys
      ensures Recovered(Newest(t.outbox, t.store, k)) == Recovered(Newest(s.outbox, s.store, k))
    {
      if k != id { SameNewest(s.outbox, s.store, t.store, k); }
    }
  }

  lemma SameNewest(outbox: Rows, store: Rows, later: Rows, k: int)
    requires k in outbox || k in store
    requires (k in later <==> k in store) && (k in store ==> later[k] == store[k])
    ensures Newest(outbox, later, k) == Newest(outbox, store, k)
  {
  }

  /** The ended version follows both copies, and ending it again changes nothing. */
  lemma EndedIsLater(s: Sides, id: int, newest: Row)
    requires Survivor(newest, id)
    requires id in s.outbox ==> Evolves(s.outbox[id], newest)
    requires id in s.store ==> Evolves(s.store[id], newest)
    ensures Survivor(Recovered(newest), id)
    ensures id in s.outbox ==> Evolves(s.outbox[id], Recovered(newest))
    ensures id in s.store ==> Evolves(s.store[id], Recovered(newest))
    ensures var store := s.store[id := Recovered(newest)];
            Recovered(Newest(s.outbox, store, id)) == Recovered(newest)
  {
    hide Moves, WaitsUnmatched;
    RecoveredSurvives(newest, id);
    RecoveredEvolves(newest);
    RecoveredIsDone(newest);
    if id in s.outbox { EvolvesThrough(s.outbox[id], newest, Recovered(newest)); }
    if id in s.store { EvolvesThrough(s.store[id], newest, Recovered(newest)); }
  }

  lemma DiscardKeeps(s: Sides, id: int)
    requires Coherent(s.outbox, s.store) && id in s.outbox && id in s.store
    requires s.store[id] == Recovered(Newest(s.outbox, s.store, id))
    ensures var t := s.(outbox := s.outbox - {id});
            && Coherent(t.outbox, t.store)
            && AllRecovered(t.outbox, t.store) == AllRecovered(s.outbox, s.store)
  {
    hide Moves, WaitsUnmatched, Evolves;
    var t := s.(outbox := s.outbox - {id});
    assert t.outbox.Keys + t.store.Keys == s.outbox.Keys + s.store.Keys;
    StoredNewest(s.outbox, s.store, id);
    RecoveredIsDone(Newest(s.outbox, s.store, id));
  }

  function RunRepairs(s: Sides, repairs: seq<Repair>): (t: Sides)
    requires Coherent(s.outbox, s.store)
    ensures Coherent(t.outbox, t.store)
  {
    if repairs == [] then s
    else
      var before := RunRepairs(s, repairs[..|repairs| - 1]);
      RepairKeeps(before, repairs[|repairs| - 1]);
      Repaired(before, repairs[|repairs| - 1])
  }

  /**
   Recovery is idempotent across crashes: whatever part of it was done, in any order and
   any number of times, a complete pass afterwards ends in the same store, in which every
   row of either side is terminal, keeps its frozen decision and has no lower version.
   */
  lemma {:induction false} RecoveryIsIdempotent(s: Sides, repairs: seq<Repair>)
    requires Coherent(s.outbox, s.store)
    ensures var t := RunRepairs(s, repairs);
            && AllRecovered(t.outbox, t.store) == AllRecovered(s.outbox, s.store)
            && (forall id :: id in s.store ==> id in t.store && Evolves(s.store[id], t.store[id]))
  {
    hide AllRecovered, Evolves, Repaired, Coherent;
    if repairs == [] {
      SameSides(s);
    } else {
      var front := repairs[..|repairs| - 1];
      RecoveryIsIdempotent(s, front);
      var before := RunRepairs(s, front);
      RepairKeeps(before, repairs[|repairs| - 1]);
      var t := Repaired(before, repairs[|repairs| - 1]);
      forall id | id in s.store ensures id in t.store && Evolves(s.store[id], t.store[id]) {
        EvolvesThrough(s.store[id], before.store[id], t.store[id]);
      }
    }
  }

  lemma RecoveredRowsAreDone(outbox: Rows, store: Rows)
    requires Coherent(outbox, store)
    ensures forall id :: id in outbox || id in store ==>
              && id in AllRecovered(outbox, store)
              && AllRecovered(outbox, store)[id].terminal
              && (id in outbox ==> Evolves(outbox[id], AllRecovered(outbox, store)[id]))
              && (id in store ==> Evolves(store[id], AllRecovered(outbox, store)[id]))
  {
    hide Moves, WaitsUnmatched, Newest, Recovered;
    forall id | id in outbox || id in store
      ensures id in AllRecovered(outbox, store) && AllRecovered(outbox, store)[id].terminal
      ensures id in outbox ==> Evolves(outbox[id], AllRecovered(outbox, store)[id])
      ensures id in store ==> Evolves(store[id], AllRecovered(outbox, store)[id])
    {
      StoredNewest(outbox, store, id);
      var newest := Newest(outbox, store, id);
      RecoveredIsDone(newest);
      EndedIsLater(Sides(outbox, store), id, newest);
    }
  }

  // ---------------------------------------------------------------- the start, in place

  /** Take one file: reconcile it with the store, then remove it. */
  method TakeFile(spool: Spool, store: Rows, id: int) returns (stored: Rows)
    requires Coherent(spool.rows, store) && id in spool.rows
    modifies spool
    ensures spool.rows == old(spool.rows) - {id}
    ensures Coherent(spool.rows, stored) && AllRecovered(spool.rows, stored) == AllRecovered(old(spool.rows), store)
  {
    hide Moves, Recovered, WaitsUnmatched, AllRecovered, RecoverOne;
    ghost var before := Sides(spool.rows, store);
    var record := spool.rows[id];
    assert Survivor(record, id);
    RecoverOneEffect(spool.rows, store, id);
    RepairKeeps(before, Reconcile(id));
    ReconciledIsEnded(before, id);
    stored := RecoverOne(store, record).value;
    ghost var reconciled := Sides(spool.rows, stored);
    RepairKeeps(reconciled, Discard(id));
    var raised := spool.Remove(record);
  }

  /** End one stored row that no file is left for. */
  method EndStored(store: Rows, id: int) returns (stored: Rows)
    requires Coherent(map[], store) && id in store && !store[id].terminal
    ensures Coherent(map[], stored) && AllRecovered(map[], stored) == AllRecovered(map[], store)
    ensures id in stored && stored == store[id := stored[id]] && stored[id].terminal
  {
    hide Moves, Recovered, WaitsUnmatched, AllRecovered, RecoverOne;
    assert Survivor(store[id], id);
    RecoverStoredEffect(store, id);
    RepairKeeps(Sides(map[], store), Finish(id));
    RecoveredIsDone(store[id]);
    stored := RecoverOne(store, store[id]).value;
  }

  /** Every file in turn, then every row the store still has open. */
  method Start(spool: Spool, store: Rows) returns (recovered: Rows)
    requires Coherent(spool.rows, store)
    modifies spool
    ensures spool.rows == map[]
    ensures recovered == AllRecovered(old(spool.rows), store)
  {
    hide Coherent, AllRecovered;
    recovered := store;
    while spool.rows != map[]
      invariant Coherent(spool.rows, recovered)
      invariant AllRecovered(spool.rows, recovered) == AllRecovered(old(spool.rows), store)
      decreases |spool.rows.Keys|
    {
      ghost var names := spool.rows.Keys;
      assert names != {};
      ghost var some := Pick(names);
      var id :| id in spool.rows.Keys;
      recovered := TakeFile(spool, recovered, id);
      assert spool.rows.Keys == names - {id};
    }
    var open := set id | id in recovered && !recovered[id].terminal;
    while open != {}
      invariant Coherent(map[], recovered)
      invariant AllRecovered(map[], recovered) == AllRecovered(old(spool.rows), store)
      invariant spool.rows == map[]
      invariant open == set id | id in recovered && !recovered[id].terminal
      decreases |open|
    {
      ghost var some := Pick(open);
      var id :| id in open;
      recovered := EndStored(recovered, id);
      open := open - {id};
    }
    assert forall id :: id in recovered && !recovered[id].terminal ==> id in open;
    NothingIsOpen(recovered);
  }

  lemma ReconciledIsEnded(s: Sides, id: int)
    requires Coherent(s.outbox, s.store) && id in s.outbox
    ensures var t := Repaired(s, Reconcile(id));
            && id in t.store && t.store[id] == Recovered(Newest(t.outbox, t.store, id)) && t.outbox == s.outbox
            && Removed(t.outbox, t.outbox[id]) == Some(t.outbox - {id})
  {
    hide Moves, WaitsUnmatched;
    RecoverOneEffect(s.outbox, s.store, id);
    StoredNewest(s.outbox, s.store, id);
    var newest := Newest(s.outbox, s.store, id);
    EndedIsLater(s, id, newest);
    RecoveredIsDone(newest);
    assert Survivor(s.outbox[id], id);
  }

  lemma NothingIsOpen(store: Rows)
    requires Coherent(map[], store) && forall id :: id in store ==> store[id].terminal
    ensures AllRecovered(map[], store) == store
  {
    forall id | id in store ensures Recovered(Newest(map[], store, id)) == store[id] { }
  }

  // ---------------------------------------------------------------- every crash is recoverable

  lemma RowSurvives(r: Row, id: int, now: int)
    requires RowInv(r, now) && r.decision.id == id
    ensures Survivor(r, id)
  {
    hide DecisionSound, PublicationInv;
    RowWaitsUnmatched(r, now);
  }

  lemma SideFacts(w: World, id: int, r: Row)
    requires DurableOk(w) && r in Copies(w, id)
    ensures RowInv(r, w.now.mono) && r.decision.id == id
  {
    hide Chain, RowInv;
    assert Linked(w, id);
  }

  lemma CrashIsCoherent(w: World)
    requires DurableOk(w)
    ensures Coherent(w.outbox, w.store)
  {
    hide DurableOk, Copies, Evolves, RowInv, Survivor;
    forall id | id in w.outbox ensures Survivor(w.outbox[id], id) {
      OutboxIsCopy(w, id);
      SideFacts(w, id, w.outbox[id]);
      RowSurvives(w.outbox[id], id, w.now.mono);
    }
    forall id | id in w.store ensures Survivor(w.store[id], id) {
      OutboxIsCopy(w, id);
      SideFacts(w, id, w.store[id]);
      RowSurvives(w.store[id], id, w.now.mono);
    }
    forall id | id in w.outbox && id in w.store
      ensures Evolves(w.outbox[id], w.store[id]) || Evolves(w.store[id], w.outbox[id])
    {
      OutboxIsCopy(w, id);
      SidesCompare(w, id);
    }
  }

  lemma OutboxIsCopy(w: World, id: int)
    ensures id in w.outbox ==> w.outbox[id] in Copies(w, id)
    ensures id in w.store ==> w.store[id] in Copies(w, id)
  {
  }

  lemma SidesCompare(w: World, id: int)
    requires DurableOk(w) && id in w.outbox && id in w.store
    ensures Evolves(w.outbox[id], w.store[id]) || Evolves(w.store[id], w.outbox[id])
  {
    hide Evolves, CopyFacts;
    assert Linked(w, id);
    OutboxIsCopy(w, id);
    CopiesCompare(w, id, w.outbox[id], w.store[id]);
  }

  /** The compactor takes a finished row once it is old enough, unless no event preceded it. */
  predicate CompactsWhenOld(r: Row) {
    r.decision.includedSequence.Some?
  }

  lemma LiveRowsCompact(w: World, id: int, asOfWallNs: int)
    requires WorldOk(w) && id in w.rt.records && w.rt.records[id].terminal
    ensures var r := w.rt.records[id];
            Compactable(r, asOfWallNs)
            <==> CompactsWhenOld(r) && asOfWallNs >= r.decision.wallNs + 120 * NS_PER_SECOND
  {
    hide RtOk, LogOk, Compactable, RowInv, PayloadAgreement.Readable;
    WorldParts(w);
    PublicationSteps.FactsOfRow(w.rt, id, w.now);
    TerminalRowsCompact(w.rt.records[id], w.now.mono, asOfWallNs);
  }

  lemma RecoveredRowsCompact(w: World, id: int, asOfWallNs: int)
    requires DurableOk(w) && (id in w.outbox || id in w.store)
    ensures id in AllRecovered(w.outbox, w.store)
    ensures var r := AllRecovered(w.outbox, w.store)[id];
            Compactable(r, asOfWallNs)
            <==> CompactsWhenOld(r) && asOfWallNs >= r.decision.wallNs + 120 * NS_PER_SECOND
  {
    hide DurableOk, Compactable, RowInv, Recovered, Copies;
    OutboxIsCopy(w, id);
    var newest := Newest(w.outbox, w.store, id);
    SideFacts(w, id, newest);
    RecoveredKeepsRow(newest, w.now.mono);
    TerminalRowsCompact(Recovered(newest), w.now.mono, asOfWallNs);
  }

  /**
   Runtime/compactor agreement: after any run, every row the runtime has finished, and
   every row a restart finishes after a crash at that point, passes all of the compactor's
   checks from 120 seconds after its decision on, exactly when the decision had an
   included sequence.
   */
  lemma EveryEndCompacts(policy: Policy, queueMax: nat, spoolMax: nat, now: Stamp, steps: seq<Step>, asOfWallNs: int)
    requires PayloadAgreement.RuntimePolicy(policy) && now.wall >= 0 && now.mono >= 0
    requires Timely(RuntimeRuns.Init(policy, queueMax, spoolMax, now, map[]), steps)
    ensures var w := Run(RuntimeRuns.Init(policy, queueMax, spoolMax, now, map[]), steps);
            && Coherent(w.outbox, w.store)
            && (forall id :: id in w.rt.records && w.rt.records[id].terminal ==>
                  (Compactable(w.rt.records[id], asOfWallNs)
                   <==> CompactsWhenOld(w.rt.records[id])
                        && asOfWallNs >= w.rt.records[id].decision.wallNs + 120 * NS_PER_SECOND))
            && (forall id :: id in AllRecovered(w.outbox, w.store) ==>
                  var r := AllRecovered(w.outbox, w.store)[id];
                  (Compactable(r, asOfWallNs)
                   <==> CompactsWhenOld(r) && asOfWallNs >= r.decision.wallNs + 120 * NS_PER_SECOND))
  {
    hide WorldOk, DurableOk, Compactable, Recovered, Newest, CompactsWhenOld, Coherent;
    StartIsDurable(policy, queueMax, spoolMax, now);
    RunKeepsDurable(RuntimeRuns.Init(policy, queueMax, spoolMax, now, map[]), steps);
    var w := Run(RuntimeRuns.Init(policy, queueMax, spoolMax, now, map[]), steps);
    CrashIsCoherent(w);
    forall id | id in w.rt.records && w.rt.records[id].terminal
      ensures Compactable(w.rt.records[id], asOfWallNs)
              <==> CompactsWhenOld(w.rt.records[id])
                   && asOfWallNs >= w.rt.records[id].decision.wallNs + 120 * NS_PER_SECOND
    {
      LiveRowsCompact(w, id, asOfWallNs);
    }
    forall id | id in AllRecovered(w.outbox, w.store)
      ensures var r := AllRecovered(w.outbox, w.store)[id];
              (Compactable(r, asOfWallNs)
               <==> CompactsWhenOld(r) && asOfWallNs >= r.decision.wallNs + 120 * NS_PER_SECOND)
    {
      RecoveredRowsCompact(w, id, asOfWallNs);
    }
  }

  // ---------------------------------------------------------------- the row that never compacts

  /** A feed drops before its first event; the wake-up issues a decision about nothing. */
  function EarlySteps(): seq<Step> {
    [Offered(GapOffer(Twap, CONNECTION_END, Stamp(0, 0))),
     Worked(IssueWork(Allowed, false, Stamp(0, 0), Stamp(0, 0))),
     Offered(DueTick(Stamp(MATCH_NS, MATCH_NS)))]
  }

  lemma EarlyGap(rt: Runtime)
    requires rt == RuntimeModel.Start(PayloadAgreement.DEFAULT_POLICY, 16)
    ensures OfferGap(rt, Twap, CONNECTION_END, Stamp(0, 0))
            == rt.(epoch := 1, queue := [GapItem(Twap, CONNECTION_END, Some(Stamp(0, 0)))])
  {
    assert [] + [GapItem(Twap, CONNECTION_END, Some(Stamp(0, 0)))]
             == [GapItem(Twap, CONNECTION_END, Some(Stamp(0, 0)))];
  }

  lemma EarlyDrain(rt: Runtime)
    requires rt == RuntimeModel.Start(PayloadAgreement.DEFAULT_POLICY, 16)
    ensures var gapped := OfferGap(rt, Twap, CONNECTION_END, Stamp(0, 0));
            var drained := Drain(gapped, Stamp(0, 0));
            && drained == gapped.(queue := [], engine := drained.engine)
            && drained.engine == RecordGap(rt.engine, Twap, CONNECTION_END, Some(0), Some(0)).state
  {
    hide TransportGap, Forget;
    EarlyGap(rt);
    var gapped := OfferGap(rt, Twap, CONNECTION_END, Stamp(0, 0));
    assert gapped.queue[1..] == [];
    var popped := gapped.(queue := []);
    assert !RecordGap(rt.engine, Twap, CONNECTION_END, Some(0), Some(0)).raised;
    var next := DrainOne(popped, gapped.queue[0], Stamp(0, 0));
    assert next == popped.(engine := RecordGap(rt.engine, Twap, CONNECTION_END, Some(0), Some(0)).state);
    assert Drain(next, Stamp(0, 0)) == next;
  }

  lemma EarlyDecision(s: State)
    requires s == RecordGap(GhostTwap.Init(PayloadAgreement.DEFAULT_POLICY), Twap, CONNECTION_END, Some(0),
                            Some(0)).state
    ensures var d := Snapshot(s, 1, 0, 0, Bounded).1;
            d.Some? && d.value.includedSequence.None? && d.value.id == 1 && d.value.monoNs == 0
  {
    hide GlobalReasons, Deadlines, PrunedHistory;
  }

  lemma ApplyClock(w: World, step: Step)
    requires Formed(w.rt)
    ensures Apply(w, step).now == Latest(w.now, Readings(step))
  {
    hide Act;
  }

  lemma EarlyIsTimely(start: World)
    requires Formed(start.rt) && start.now == Stamp(0, 0)
    ensures Timely(start, EarlySteps())
  {
    hide Apply;
    var steps := EarlySteps();
    assert steps[..2][..1] == steps[..1] && steps[..1][..0] == [] && steps[..2] == steps[..|steps| - 1];
    ApplyClock(start, steps[0]);
    ApplyClock(Apply(start, steps[0]), steps[1]);
    var zero, due := Stamp(0, 0), Stamp(MATCH_NS, MATCH_NS);
    assert [zero, zero][1..] == [zero] && Ordered(zero, [zero]) && Ordered(zero, [zero, zero]) && Ordered(zero, [due]);
    assert Run(start, []) == start && Timely(start, []);
    assert Run(start, steps[..1]) == Apply(start, steps[0]);
    assert Timely(start, steps[..1]);
    assert Run(start, steps[..2]) == Apply(Apply(start, steps[0]), steps[1]);
    assert Timely(start, steps[..2]);
  }

  /**
   The compactor does refuse such a row for good: a gap offered before any event wakes
   the calculation, and the decision it issues is finished by its timeout but can never
   be compacted.
   */
  lemma EarlyDecisionNeverCompacts(asOfWallNs: int)
    ensures var start := RuntimeRuns.Init(PayloadAgreement.DEFAULT_POLICY, 16, 512, Stamp(0, 0), map[]);
            && Timely(start, EarlySteps())
            && (var rt := Run(start, EarlySteps()).rt;
                1 in rt.records && rt.records[1].terminal && !Compactable(rt.records[1], asOfWallNs))
  {
    hide Compactable, RecordGap, Snapshot, Drain, OfferGap, ResolveAll, Timely;
    var start := RuntimeRuns.Init(PayloadAgreement.DEFAULT_POLICY, 16, 512, Stamp(0, 0), map[]);
    var steps := EarlySteps();
    assert steps[..2][..1] == steps[..1] && steps[..1][..0] == [] && steps[..2] == steps[..|steps| - 1];
    EarlyIsTimely(start);
    EarlyGap(start.rt);
    EarlyDrain(start.rt);
    var gapped := OfferGap(start.rt, Twap, CONNECTION_END, Stamp(0, 0));
    var drained := Drain(gapped, Stamp(0, 0));
    EarlyDecision(drained.engine);
    EarlyReserve(drained);
    var issued := Issue(gapped, Allowed, false, Stamp(0, 0), Stamp(0, 0));
    EarlyFinish(issued, asOfWallNs);
    var w1 := Apply(start, steps[0]);
    var w2 := Apply(w1, steps[1]);
    assert Run(start, steps[..1]) == w1;
    assert Run(start, steps[..2]) == w2;
    assert w2.rt == issued;
    assert Run(start, steps).rt == FinalizeDue(issued, MATCH_NS);
  }

  lemma EarlyReserve(drained: Runtime)
    requires drained == RuntimeModel.Start(PayloadAgreement.DEFAULT_POLICY, 16).(epoch := 1, engine := drained.engine)
    requires Snapshot(drained.engine, 1, 0, 0, Bounded).1.Some?
    requires var d := Snapshot(drained.engine, 1, 0, 0, Bounded).1.value;
             d.includedSequence.None? && d.id == 1 && d.monoNs == 0
    ensures Formed(drained)
    ensures var after := Freeze(drained, Stamp(0, 0), Stamp(0, 0), false);
            && 1 in after.records && after.records[1].decision.includedSequence.None?
            && after.records[1].decision.monoNs == 0 && !after.records[1].terminal
  {
    hide Snapshot;
  }

  lemma EarlyFinish(rt: Runtime, asOfWallNs: int)
    requires Formed(rt) && 1 in rt.records && rt.records[1].decision.includedSequence.None?
    requires rt.records[1].decision.monoNs == 0 && !rt.records[1].terminal
    ensures var row := FinalizeDue(rt, MATCH_NS).records;
            1 in row && row[1].terminal && !Compactable(row[1], asOfWallNs)
  {
    hide TargetCompacts, PublicationCompacts;
  }
}
