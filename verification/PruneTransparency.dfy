/**
 Pruning is invisible. The engine that prunes is compared with a reference that
 runs the same code over the same operations but never forgets an event; the
 decisions they issue agree, exactly for the policies whose history is long
 enough that a future-dated spot can never displace a needed seed.
 */
module PruneTransparency {
  import opened Core
  import opened GhostTwap
  import opened EngineRuns

  // ---------------------------------------------------------------- the relation between the two histories

  ghost predicate WellKeyed(h: History) {
    forall k :: k in h ==> h[k].feed == k.feed && h[k].sourceMs == k.stamp && k.stamp >= 0 && k.stamp % 1000 == 0
  }

  /** `kept` holds what pruning at `cut` must leave of `all`: everything from the cut on, and the seed. */
  ghost predicate Covers(kept: History, all: History, cut: int, carry: int) {
    && (forall k :: k in kept ==> k in all && kept[k] == all[k])
    && (forall k :: k in all && k.stamp >= cut ==> k in kept)
    && (forall k :: k in all && IsSeed(all, k, cut, carry) ==> k in kept)
  }

  ghost predicate SameConflicts(kept: set<int>, all: set<int>, cut: int) {
    forall t :: t >= cut ==> (t in kept <==> t in all)
  }

  ghost predicate ConflictsKeyed(conflicts: set<int>, h: History) {
    forall t :: t in conflicts ==> Key(Twap, t) in h
  }

  /** The cut never runs ahead of a boundary that later clocks must respect. */
  ghost predicate CutBehind(s: State, cut: int) {
    || cut == -s.policy.historyMs
    || (s.lastEvent.Some? && cut + s.policy.historyMs <= s.lastEvent.value.ReceivedMs())
    || (s.lastDecision.Some? && cut + s.policy.historyMs <= s.lastDecision.value.0 / NS_PER_MS)
  }

  ghost predicate Kept(hb: History, cb: set<int>, hu: History, cu: set<int>, cut: int, carry: int) {
    WellKeyed(hu) && Covers(hb, hu, cut, carry) && SameConflicts(cb, cu, cut) && ConflictsKeyed(cu, hu)
  }

  ghost predicate Related(b: State, u: State, cut: int) {
    && b == u.(history := b.history, conflicts := b.conflicts)
    && Kept(b.history, b.conflicts, u.history, u.conflicts, cut, u.policy.maxCarryMs)
    && CutBehind(u, cut)
  }

  lemma CoversWithout(kept: History, all: History, cut: int, carry: int, feed: Feed)
    requires Covers(kept, all, cut, carry)
    ensures Covers(Without(kept, feed), Without(all, feed), cut, carry)
  {
    var fewer := Without(all, feed);
    forall k | k in fewer && IsSeed(fewer, k, cut, carry)
      ensures k in Without(kept, feed)
    {
      if feed == Twap {
        forall other | other in all && other.feed == Spot && other.stamp < cut
          ensures other.stamp <= k.stamp
        {
          assert other in fewer;
        }
        assert IsSeed(all, k, cut, carry);
      }
    }
  }

  lemma CoversInsert(kept: History, all: History, cut: int, carry: int, e: PriceEvent)
    requires Covers(kept, all, cut, carry)
    ensures var k := Key(e.feed, e.sourceMs); Covers(kept[k := e], all[k := e], cut, carry)
  {
    var k0 := Key(e.feed, e.sourceMs);
    var more := all[k0 := e];
    forall k | k in more && IsSeed(more, k, cut, carry)
      ensures k in kept[k0 := e]
    {
      if k != k0 {
        forall other | other in all && other.feed == Spot && other.stamp < cut
          ensures other.stamp <= k.stamp
        {
          assert other in more;
        }
        assert IsSeed(all, k, cut, carry);
      }
    }
  }

  /** A later cut's seed is either above the old cut or was already the old seed. */
  lemma CoversPrune(kept: History, all: History, cut: int, later: int, carry: int)
    requires Covers(kept, all, cut, carry) && cut <= later
    ensures Covers(PrunedHistory(kept, later, carry), all, later, carry)
  {
    var pruned := PrunedHistory(kept, later, carry);
    forall k | k in all && IsSeed(all, k, later, carry)
      ensures k in pruned
    {
      if k.stamp < cut {
        assert IsSeed(all, k, cut, carry);
      }
      assert k in kept;
      forall other | other in kept && other.feed == Spot && other.stamp < later
        ensures other.stamp <= k.stamp
      {
        assert other in all;
      }
      assert IsSeed(kept, k, later, carry);
    }
  }

  // ---------------------------------------------------------------- every operation keeps the relation

  lemma KeptWithout(hb: History, cb: set<int>, hu: History, cu: set<int>, cut: int, carry: int, feed: Feed)
    requires Kept(hb, cb, hu, cu, cut, carry)
    ensures Kept(Without(hb, feed), if feed == Twap then {} else cb, Without(hu, feed), if feed == Twap then {} else cu,
                 cut, carry)
  {
    CoversWithout(hb, hu, cut, carry, feed);
  }

  lemma ForgetKeepsRelation(b: State, u: State, cut: int, feed: Feed, retain: bool)
    requires Related(b, u, cut) && (retain ==> feed == Spot)
    ensures Related(Forget(b, feed, retain), Forget(u, feed, retain), cut)
  {
    hide Kept;
    KeptWithout(b.history, b.conflicts, u.history, u.conflicts, cut, u.policy.maxCarryMs, feed);
  }

  /** From the cut on, both histories show the same causal spot stamps. */
  lemma SameCausalStamps(kept: History, all: History, cut: int, carry: int)
    requires Covers(kept, all, cut, carry)
    ensures CausalStamps(kept) <= CausalStamps(all)
    ensures forall t :: t >= cut ==> (t in CausalStamps(kept) <==> t in CausalStamps(all))
  {
    forall t | t in CausalStamps(kept)
      ensures t in CausalStamps(all)
    {
      assert Key(Spot, t) in kept;
      assert Key(Spot, t) in all;
    }
    forall t | t >= cut && t in CausalStamps(all)
      ensures t in CausalStamps(kept)
    {
      assert Key(Spot, t) in all;
      assert Key(Spot, t) in kept;
    }
  }

  lemma FreshIsAboveCut(s: State, cut: int, e: PriceEvent, wall: int, mono: int)
    requires s.policy.Valid() && CutBehind(s, cut) && !BehindBoundary(s, wall, mono) && wall >= 0
    requires CurrentReasons(s.policy, Some(e), Spot, wall, mono) == []
    ensures e.sourceMs >= cut
  {
  }

  lemma SameVerdict(b: State, u: State, cut: int, wall: Option<int>, mono: Option<int>)
    requires Related(b, u, cut) && u.policy.Valid()
    requires wall.Some? ==> wall.value >= 0
    requires !GapOutOfOrder(u, Spot, CONNECTION_END, wall, mono)
    ensures TransportGap(b, wall, mono) == TransportGap(u, wall, mono)
  {
    SameCausalStamps(b.history, u.history, cut, u.policy.maxCarryMs);
    if && u.policy.enabled && u.policy.reconnectMaxGapMs != 0 && u.fault.None? && wall.Some? && mono.Some?
       && u.Current(Spot).Some?
       && CurrentReasons(u.policy, u.Current(Spot), Spot, wall.value, mono.value) == [] {
      var stamp := u.Current(Spot).value.sourceMs;
      FreshIsAboveCut(u, cut, u.Current(Spot).value, wall.value, mono.value);
      assert IsFrontier(b.history, stamp) <==> IsFrontier(u.history, stamp);
    }
  }

  lemma CountKeepsRelation(b: State, u: State, cut: int, feed: Feed, reason: string, recovery: Option<SpotReconnect>,
                           fault: Option<Reason>)
    requires Related(b, u, cut)
    ensures Related(CountGap(b, feed, reason).(reconnect := recovery, fault := fault),
                    CountGap(u, feed, reason).(reconnect := recovery, fault := fault), cut)
  {
    hide Kept;
  }

  lemma GapForgets(b: State, u: State, cut: int, feed: Feed, reason: string, recovery: Option<SpotReconnect>,
                   retain: bool)
    requires Related(b, u, cut) && (retain ==> feed == Spot)
    ensures b.fault == u.fault
    ensures Related(Forget(CountGap(b, feed, reason).(reconnect := recovery), feed, retain),
                    Forget(CountGap(u, feed, reason).(reconnect := recovery), feed, retain), cut)
  {
    hide Forget, Kept, CutBehind;
    CountKeepsRelation(b, u, cut, feed, reason, recovery, u.fault);
    ForgetKeepsRelation(CountGap(b, feed, reason).(reconnect := recovery, fault := u.fault),
                        CountGap(u, feed, reason).(reconnect := recovery, fault := u.fault), cut, feed, retain);
  }

  /** What a gap leaves of the reconnect state, and whether it keeps the spot history. */
  function Recovery(s: State, feed: Feed, reason: string, wall: Option<int>, mono: Option<int>): Option<SpotReconnect> {
    if feed == Spot && reason == CONNECTION_END then
      var verdict := TransportGap(s, wall, mono);
      Some(SpotReconnect(s.gapCount + 1, wall, mono, s.Current(Spot), None, verdict.0, verdict.1))
    else if feed == Spot && s.reconnect.Some? then
      Some(s.reconnect.value.(status := Cleared, reason := HardGap(reason)))
    else s.reconnect
  }

  predicate Retains(s: State, feed: Feed, reason: string, wall: Option<int>, mono: Option<int>) {
    feed == Spot && reason == CONNECTION_END && TransportGap(s, wall, mono).0 == Waiting
  }

  lemma RecordGapIs(s: State, feed: Feed, reason: string, wall: Option<int>, mono: Option<int>)
    requires !GapOutOfOrder(s, feed, reason, wall, mono)
    ensures RecordGap(s, feed, reason, wall, mono)
         == Outcome(Forget(CountGap(s, feed, reason).(reconnect := Recovery(s, feed, reason, wall, mono)), feed,
                           Retains(s, feed, reason, wall, mono)), false)
  {
    hide TransportGap, Forget;
  }

  lemma SameRecovery(b: State, u: State, cut: int, feed: Feed, reason: string, wall: Option<int>, mono: Option<int>)
    requires Related(b, u, cut) && u.policy.Valid() && (wall.Some? ==> wall.value >= 0)
    requires !GapOutOfOrder(u, feed, reason, wall, mono)
    ensures Recovery(b, feed, reason, wall, mono) == Recovery(u, feed, reason, wall, mono)
    ensures Retains(b, feed, reason, wall, mono) == Retains(u, feed, reason, wall, mono)
  {
    hide TransportGap, Kept, CutBehind;
    if feed == Spot && reason == CONNECTION_END { SameVerdict(b, u, cut, wall, mono); }
  }

  lemma SameOrder(b: State, u: State, cut: int, feed: Feed, reason: string, wall: Option<int>, mono: Option<int>)
    requires Related(b, u, cut)
    ensures GapOutOfOrder(b, feed, reason, wall, mono) <==> GapOutOfOrder(u, feed, reason, wall, mono)
    ensures b.reconnect == u.reconnect && b.fault == u.fault
  {
    hide Kept, CutBehind;
  }

  lemma GapKeepsRelation(b: State, u: State, cut: int, feed: Feed, reason: string, wall: Option<int>, mono: Option<int>)
    requires Related(b, u, cut) && u.policy.Valid()
    requires wall.Some? ==> wall.value >= 0
    ensures RecordGap(b, feed, reason, wall, mono).raised == RecordGap(u, feed, reason, wall, mono).raised
    ensures Related(RecordGap(b, feed, reason, wall, mono).state, RecordGap(u, feed, reason, wall, mono).state, cut)
  {
    hide TransportGap, Forget, Related, GapOutOfOrder, CountGap, Recovery, Retains;
    SameOrder(b, u, cut, feed, reason, wall, mono);
    if GapOutOfOrder(u, feed, reason, wall, mono) {
      CountKeepsRelation(b, u, cut, feed, reason, u.reconnect, Some(GapOrder));
      CountKeepsReconnect(b, feed, reason);
      CountKeepsReconnect(u, feed, reason);
    } else {
      RecordGapIs(b, feed, reason, wall, mono);
      RecordGapIs(u, feed, reason, wall, mono);
      SameRecovery(b, u, cut, feed, reason, wall, mono);
      RetainsOnlySpot(u, feed, reason, wall, mono);
      GapForgets(b, u, cut, feed, reason, Recovery(u, feed, reason, wall, mono), Retains(u, feed, reason, wall, mono));
    }
  }

  lemma RetainsOnlySpot(s: State, feed: Feed, reason: string, wall: Option<int>, mono: Option<int>)
    ensures Retains(s, feed, reason, wall, mono) ==> feed == Spot
  {
  }

  lemma CountKeepsReconnect(s: State, feed: Feed, reason: string)
    ensures CountGap(s, feed, reason).reconnect == s.reconnect
  {
  }

  lemma HardLossKeepsRelation(b: State, u: State, cut: int, reason: string)
    requires Related(b, u, cut) && u.policy.Valid() && reason != CONNECTION_END
    ensures Related(HardLoss(b, reason), HardLoss(u, reason), cut)
  {
    hide Related;
    GapKeepsRelation(b, u, cut, Spot, reason, None, None);
    assert RecordGap(u, Spot, reason, None, None).state.policy == u.policy;
    GapKeepsRelation(RecordGap(b, Spot, reason, None, None).state, RecordGap(u, Spot, reason, None, None).state, cut,
                     Twap, reason, None, None);
  }

  lemma ClearKeepsRelation(b: State, u: State, cut: int, reason: RecoveryReason, event: Option<PriceEvent>)
    requires Related(b, u, cut) && u.reconnect.Some?
    ensures Related(ClearReconnect(b, reason, event), ClearReconnect(u, reason, event), cut)
  {
    hide Kept;
    KeptWithout(b.history, b.conflicts, u.history, u.conflicts, cut, u.policy.maxCarryMs, Spot);
  }

  lemma ResolveKeepsRelation(b: State, u: State, cut: int, e: PriceEvent)
    requires Related(b, u, cut)
    ensures ResolveReconnect(b, e).raised == ResolveReconnect(u, e).raised
    ensures Related(ResolveReconnect(b, e).state, ResolveReconnect(u, e).state, cut)
  {
    hide Kept, CurrentReasons, ClearReconnect;
    if u.reconnect.Some? {
      var invalid := CurrentReasons(u.policy, Some(e), Spot, e.wallNs, e.monoNs);
      if invalid != [] { ClearKeepsRelation(b, u, cut, PostGapInvalid(invalid[0]), Some(e)); }
      ClearKeepsRelation(b, u, cut, SourceNotAdvanced, Some(e));
      ClearKeepsRelation(b, u, cut, ReconnectLimitExceeded, Some(e));
    }
  }

  lemma KeptNote(hb: History, cb: set<int>, hu: History, cu: set<int>, cut: int, carry: int, e: PriceEvent)
    requires Kept(hb, cb, hu, cu, cut, carry)
    ensures Kept(hb, ConflictsAfter(hb, cb, e), hu, ConflictsAfter(hu, cu, e), cut, carry)
  {
    var k := Key(Twap, e.sourceMs);
    if e.sourceMs >= cut {
      assert k in hb <==> k in hu;
    }
  }

  /** What lies behind the cut does not depend on the history. */
  lemma SameCut(u: State, v: State, cut: int)
    requires CutBehind(u, cut) && v == u.(conflicts := v.conflicts, highWater := v.highWater, regressed := v.regressed)
    ensures CutBehind(v, cut)
  {
  }

  /** The high water and the regression flag a causal TWAP stamp leaves. */
  function WaterAfter(water: Option<int>, regressed: bool, e: PriceEvent): (Option<int>, bool) {
    if !e.Causal() then (water, regressed)
    else if water.None? || e.sourceMs > water.value then (Some(e.sourceMs), false)
    else (water, regressed || e.sourceMs < water.value)
  }

  lemma NoteIs(s: State, e: PriceEvent)
    requires e.feed == Twap
    ensures var (water, regressed) := WaterAfter(s.highWater, s.regressed, e);
            var noted := s.(conflicts := ConflictsAfter(s.history, s.conflicts, e), highWater := water,
                            regressed := regressed);
            NoteTwap(s, e) == noted
  {
    hide ConflictsAfter, PriceEvent.Causal;
  }

  lemma SpotIsNotNoted(s: State, e: PriceEvent)
    requires e.feed != Twap
    ensures NoteTwap(s, e) == s
  {
  }

  lemma NoteKeepsRelation(b: State, u: State, cut: int, e: PriceEvent)
    requires Related(b, u, cut)
    ensures Related(NoteTwap(b, e), NoteTwap(u, e), cut)
  {
    hide Kept, ConflictsAfter, CutBehind, NoteTwap, WaterAfter;
    if e.feed == Twap {
      NoteIs(b, e);
      NoteIs(u, e);
    } else {
      SpotIsNotNoted(b, e);
      SpotIsNotNoted(u, e);
    }
    SameCut(u, NoteTwap(u, e), cut);
    KeptNote(b.history, b.conflicts, u.history, u.conflicts, cut, u.policy.maxCarryMs, e);
  }

  lemma KeptInsert(hb: History, cb: set<int>, hu: History, cu: set<int>, cut: int, carry: int, e: PriceEvent)
    requires Kept(hb, cb, hu, cu, cut, carry) && e.Valid()
    ensures var k := Key(e.feed, e.sourceMs); Kept(hb[k := e], cb, hu[k := e], cu, cut, carry)
  {
    CoversInsert(hb, hu, cut, carry, e);
  }

  lemma InsertKeepsRelation(b: State, u: State, cut: int, e: PriceEvent)
    requires Related(b, u, cut) && e.Valid()
    requires u.lastEvent.Some? ==> u.lastEvent.value.wallNs <= e.wallNs
    ensures Related(Insert(b, e).(lastEvent := Some(e)), Insert(u, e).(lastEvent := Some(e)), cut)
  {
    hide Kept;
    KeptInsert(b.history, b.conflicts, u.history, u.conflicts, cut, u.policy.maxCarryMs, e);
  }

  lemma PruneKeepsRelation(b: State, u: State, cut: int, wallMs: int)
    requires Related(b, u, cut) && cut <= wallMs - u.policy.historyMs
    requires CutBehind(u, wallMs - u.policy.historyMs)
    ensures Related(Prune(b, wallMs), u, wallMs - u.policy.historyMs)
  {
    hide Kept, PrunedHistory;
    KeptPrune(b.history, b.conflicts, u.history, u.conflicts, cut, wallMs - u.policy.historyMs, u.policy.maxCarryMs);
  }

  lemma KeptPrune(hb: History, cb: set<int>, hu: History, cu: set<int>, cut: int, later: int, carry: int)
    requires Kept(hb, cb, hu, cu, cut, carry) && cut <= later
    ensures var pruned := PrunedHistory(hb, later, carry);
            Kept(pruned, (set t | t in cb && Key(Twap, t) in pruned), hu, cu, later, carry)
  {
    CoversPrune(hb, hu, cut, later, carry);
    var pruned := PrunedHistory(hb, later, carry);
    forall t | t >= later
      ensures (t in cb && Key(Twap, t) in pruned) <==> t in cu
    {
      if t in cu {
        assert Key(Twap, t) in hu;
        assert Key(Twap, t) in pruned;
      }
    }
  }

  /** The bounded engine sheds everything on this event because its history is full. */
  predicate LosesCapacity(s: State, e: PriceEvent) {
    && AcceptOutcome(s, e, Bounded).1 == Accepted
    && |Prune(Entered(ResolveReconnect(BridgeSequence(s, e), e).state, e), e.ReceivedMs()).history| > s.policy.maxEvents
  }

  lemma EnterKeepsRelation(b: State, u: State, cut: int, e: PriceEvent)
    requires Related(b, u, cut) && e.Valid()
    requires u.lastEvent.Some? ==> u.lastEvent.value.wallNs <= e.wallNs
    ensures Related(Entered(b, e), Entered(u, e), cut)
    ensures Entered(u, e).policy == u.policy && Entered(u, e).lastEvent == Some(e)
  {
    hide Kept, ConflictsAfter;
    NoteKeepsRelation(b, u, cut, e);
    InsertKeepsRelation(NoteTwap(b, e), NoteTwap(u, e), cut, e);
  }

  lemma CutIsReached(s: State, cut: int, wall: int)
    requires CutBehind(s, cut) && wall >= 0
    requires s.lastEvent.Some? ==> s.lastEvent.value.wallNs <= wall
    requires s.lastDecision.Some? ==> s.lastDecision.value.0 <= wall
    ensures cut <= wall / NS_PER_MS - s.policy.historyMs
  {
  }

  lemma AdmitWithinCapacity(s: State, e: PriceEvent)
    requires |Prune(Entered(s, e), e.ReceivedMs()).history| <= s.policy.maxEvents
    ensures Admit(s, e, Bounded) == Prune(Entered(s, e), e.ReceivedMs())
  {
    hide Prune, Entered, HardLoss, Insert;
    EnteredPolicy(s, e);
  }

  lemma EnteredPolicy(s: State, e: PriceEvent)
    ensures Prune(Entered(s, e), e.ReceivedMs()).policy == s.policy
  {
  }

  lemma AdmitUnbounded(s: State, e: PriceEvent)
    ensures Admit(s, e, Unbounded) == Entered(s, e)
  {
    hide Entered, HardLoss;
  }

  lemma AdmitKeepsRelation(b: State, u: State, cut: int, e: PriceEvent)
    requires Related(b, u, cut) && u.policy.Valid() && e.Valid()
    requires u.lastEvent.Some? ==> u.lastEvent.value.wallNs <= e.wallNs
    requires u.lastDecision.Some? ==> u.lastDecision.value.0 <= e.wallNs
    requires |Prune(Entered(b, e), e.ReceivedMs()).history| <= b.policy.maxEvents
    ensures Related(Admit(b, e, Bounded), Admit(u, e, Unbounded), e.ReceivedMs() - u.policy.historyMs)
  {
    hide Kept, Admit, Prune, Entered;
    CutIsReached(u, cut, e.wallNs);
    AdmitWithinCapacity(b, e);
    AdmitUnbounded(u, e);
    EnterKeepsRelation(b, u, cut, e);
    PruneKeepsRelation(Entered(b, e), Entered(u, e), cut, e.ReceivedMs());
  }

  lemma BridgeKeepsRelation(b: State, u: State, cut: int, e: PriceEvent)
    requires Related(b, u, cut) && u.policy.Valid()
    ensures Related(BridgeSequence(b, e), BridgeSequence(u, e), cut)
    ensures BridgeSequence(u, e).policy == u.policy
    ensures BridgeSequence(u, e).lastEvent == u.lastEvent && BridgeSequence(u, e).lastDecision == u.lastDecision
  {
    HardLossKeepsRelation(b, u, cut, "sequence_gap");
  }

  lemma AcceptKeepsRelation(b: State, u: State, cut: int, e: PriceEvent) returns (later: int)
    requires Related(b, u, cut) && u.policy.Valid() && e.Valid() && !LosesCapacity(b, e)
    ensures AcceptOutcome(b, e, Bounded).1 == AcceptOutcome(u, e, Unbounded).1
    ensures Related(AcceptOutcome(b, e, Bounded).0, AcceptOutcome(u, e, Unbounded).0, later)
  {
    hide Kept, Prune, ResolveReconnect, BridgeSequence, Admit, Entered;
    var bb, rb := AcceptCases(b, e, Bounded);
    var bu, ru := AcceptCases(u, e, Unbounded);
    BridgeKeepsRelation(b, u, cut, e);
    ResolveKeepsRelation(bb, bu, cut, e);
    ResolveFrame(bu, e);
    later := cut;
    if AcceptOutcome(u, e, Unbounded).1 == Accepted {
      later := e.ReceivedMs() - u.policy.historyMs;
      AdmitKeepsRelation(rb.state, ru.state, cut, e);
    }
  }

  lemma ResolveFrame(s: State, e: PriceEvent)
    ensures var after := ResolveReconnect(s, e).state;
            after.policy == s.policy && after.lastEvent == s.lastEvent && after.lastDecision == s.lastDecision
  {
  }
}
