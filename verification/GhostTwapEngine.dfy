/**
 The engine as the single owner of its fields. Every method is proved to make
 exactly the transition that GhostTwap.dfy defines, so what is proved about those
 functions holds of the object.
 */
module EngineObject {
  import opened Core
  import opened GhostTwap

  class GhostTwapEngine {
    const policy: Policy
    var history: History
    var current: map<Feed, PriceEvent>
    var conflicts: set<int>
    var twapHighWater: Option<int>
    var twapRegressed: bool
    var fault: Option<Reason>
    var lastEvent: Option<PriceEvent>
    var lastDecision: Option<(int, int)>
    var gapCount: int
    var lastGaps: map<Feed, GapMarker>
    var spotReconnect: Option<SpotReconnect>

    function Model(): State
      reads this
    {
      State(policy, history, current, conflicts, twapHighWater, twapRegressed, fault, lastEvent, lastDecision,
            gapCount, lastGaps, spotReconnect)
    }

    constructor (policy: Policy)
      ensures Model() == Init(policy)
    {
      this.policy := policy;
      history, current, conflicts := map[], map[], {};
      twapHighWater, twapRegressed, fault := None, false, None;
      lastEvent, lastDecision := None, None;
      gapCount, lastGaps, spotReconnect := 0, map[], None;
    }

    method CurrentReasonsOf(feed: Feed, wall: int, mono: int) returns (r: seq<Reason>)
      ensures r == CurrentReasons(policy, Model().Current(feed), feed, wall, mono)
    {
      var event := if feed in current then Some(current[feed]) else None;
      r := CurrentReasons(policy, event, feed, wall, mono);
    }

    /** Whether a transport gap keeps the observed history; a gap stamped before accepted data raises. */
    method JudgeTransportGap(wall: Option<int>, mono: Option<int>)
      returns (raised: bool, status: RecoveryStatus, reason: RecoveryReason)
      ensures raised == GapOutOfOrder(Model(), Spot, CONNECTION_END, wall, mono)
      ensures !raised ==> (status, reason) == TransportGap(Model(), wall, mono)
    {
      raised, status, reason := false, Cleared, PolicyDisabled;
      if policy.enabled && policy.reconnectMaxGapMs != 0 && fault.None? {
        reason := MissingGapClocks;
        if wall.Some? && mono.Some? {
          if BehindBoundary(Model(), wall.value, mono.value) {
            return true, status, reason;
          }
          var invalid := CurrentReasonsOf(Spot, wall.value, mono.value);
          if invalid != [] {
            reason := PreGapInvalid(invalid[0]);
          } else if Spot in current && IsFrontier(history, current[Spot].sourceMs) {
            status, reason := Waiting, AwaitingFreshAdvancingSpot;
          } else {
            reason := PreGapSourceRegression;
          }
        }
      }
    }

    method RecordGap(feed: Feed, reason: string, wall: Option<int>, mono: Option<int>) returns (raised: bool)
      modifies this
      ensures Outcome(Model(), raised) == GhostTwap.RecordGap(old(Model()), feed, reason, wall, mono)
    {
      hide TransportGap, BehindBoundary, Forget;
      var misordered, status, verdict := JudgeTransportGap(wall, mono);
      gapCount := gapCount + 1;
      var after := if lastEvent.None? then None else Some(lastEvent.value.sequence);
      lastGaps := lastGaps[feed := GapMarker(feed, reason, gapCount, after)];
      var retain := false;
      if feed == Spot && reason == CONNECTION_END {
        if misordered {
          fault := Some(GapOrder);
          return true;
        }
        retain := status == Waiting;
        var previous := if Spot in current then Some(current[Spot]) else None;
        spotReconnect := Some(SpotReconnect(gapCount, wall, mono, previous, None, status, verdict));
      } else if feed == Spot && spotReconnect.Some? {
        spotReconnect := Some(spotReconnect.value.(status := Cleared, reason := HardGap(reason)));
      }
      ForgetFeed(feed, retain);
      return false;
    }

    method ForgetFeed(feed: Feed, retain: bool)
      modifies this`history, this`current, this`conflicts, this`twapRegressed
      ensures Model() == Forget(old(Model()), feed, retain)
    {
      if !retain {
        history := Without(history, feed);
      }
      current := current - {feed};
      if feed == Twap {
        conflicts := {};
        twapRegressed := twapHighWater.Some?;
      }
    }

    method ClearSpotReconnect(reason: RecoveryReason, event: Option<PriceEvent>)
      requires spotReconnect.Some?
      modifies this`history, this`current, this`spotReconnect
      ensures Model() == ClearReconnect(old(Model()), reason, event)
    {
      history := Without(history, Spot);
      current := current - {Spot};
      spotReconnect := Some(spotReconnect.value.(status := Cleared, reason := reason, first := event));
    }

    method ResolveSpotReconnect(event: PriceEvent) returns (raised: bool)
      modifies this`history, this`current, this`spotReconnect, this`fault
      ensures Outcome(Model(), raised) == ResolveReconnect(old(Model()), event)
    {
      if event.feed != Spot || !WaitingForSpot(Model()) {
        return false;
      }
      var recovery := spotReconnect.value;
      var previous := recovery.previous.value;
      if event.wallNs < recovery.gapWallNs.value || event.monoNs < recovery.gapMonoNs.value {
        fault := Some(GapOrder);
        return true;
      }
      var invalid := CurrentReasons(policy, Some(event), Spot, event.wallNs, event.monoNs);
      var sourceDelta := (event.sourceMs - previous.sourceMs) * NS_PER_MS;
      var wallDelta, monoDelta := event.wallNs - previous.wallNs, event.monoNs - previous.monoNs;
      if invalid != [] {
        ClearSpotReconnect(PostGapInvalid(invalid[0]), Some(event));
      } else if sourceDelta <= 0 {
        ClearSpotReconnect(SourceNotAdvanced, Some(event));
      } else if Max(sourceDelta, Max(wallDelta, monoDelta)) > policy.ReconnectLimitNs() {
        ClearSpotReconnect(ReconnectLimitExceeded, Some(event));
      } else {
        spotReconnect := Some(recovery.(first := Some(event), status := Retained, reason := BoundedCarryEstimates));
      }
      return false;
    }

    method PruneAt(wallMs: int)
      modifies this`history, this`conflicts
      ensures Model() == Prune(old(Model()), wallMs)
    {
      hide PrunedHistory, KeepFrom;
      var cutoff := wallMs - policy.historyMs;
      var predecessors := CarryWindow(history, cutoff, policy.maxCarryMs);
      var seed := if predecessors == {} then None else Some(MaxOf(predecessors));
      SeedIsNewest(history, cutoff, policy.maxCarryMs, seed);
      history := KeepFrom(history, cutoff, seed);
      conflicts := set t | t in conflicts && Key(Twap, t) in history;
    }

    method NoteTwapStamp(event: PriceEvent)
      modifies this`conflicts, this`twapHighWater, this`twapRegressed
      ensures Model() == NoteTwap(old(Model()), event)
    {
      if event.feed != Twap {
        return;
      }
      var key := Key(Twap, event.sourceMs);
      if key in history && history[key].value != event.value {
        conflicts := conflicts + {event.sourceMs};
      }
      if event.sourceMs * NS_PER_MS <= event.wallNs {
        if twapHighWater.None? || event.sourceMs > twapHighWater.value {
          twapHighWater := Some(event.sourceMs);
          twapRegressed := false;
        } else if event.sourceMs < twapHighWater.value {
          twapRegressed := true;
        }
      }
    }

    /** Insert the event, prune, and shed everything but the event when over capacity. */
    method AdmitEvent(event: PriceEvent)
      modifies this
      ensures Model() == Admit(old(Model()), event, Bounded)
    {
      hide NoteTwap, Prune, HardLoss;
      NoteTwapStamp(event);
      history := history[Key(event.feed, event.sourceMs) := event];
      current := current[event.feed := event];
      lastEvent := Some(event);
      assert Model() == Entered(old(Model()), event);
      PruneAt(event.ReceivedMs());
      ghost var kept := Model();
      if |history| > policy.maxEvents {
        LoseEverything("capacity");
        history := history[Key(event.feed, event.sourceMs) := event];
        current := current[event.feed := event];
        assert Model() == Insert(HardLoss(kept, "capacity"), event);
      }
    }

    method LoseEverything(reason: string)
      requires reason != CONNECTION_END
      modifies this
      ensures Model() == HardLoss(old(Model()), reason)
    {
      var _ := RecordGap(Spot, reason, None, None);
      var _ := RecordGap(Twap, reason, None, None);
    }

    method Accept(event: PriceEvent) returns (outcome: Acceptance)
      modifies this
      ensures (Model(), outcome) == AcceptOutcome(old(Model()), event, Bounded)
    {
      if !policy.enabled {
        return Ignored;
      }
      if AcceptanceRegressed(Model(), event) {
        fault := Some(AcceptanceOrder);
        return Raised;
      }
      if Backlogged(Model(), event) {
        fault := Some(BackloggedEvent);
        return Raised;
      }
      if lastEvent.Some? && event.sequence > lastEvent.value.sequence + 1 {
        LoseEverything("sequence_gap");
      }
      assert Model() == BridgeSequence(old(Model()), event);
      var raised := ResolveSpotReconnect(event);
      if raised {
        return Raised;
      }
      AdmitEvent(event);
      return Accepted;
    }

    method BuildSlots(anchor: PriceEvent, wall: int, mono: int) returns (slots: seq<Slot>)
      ensures slots == Slots(Model(), anchor, wall, mono)
    {
      slots := [];
      for second := -61 to 28
        invariant |slots| == second + 61
        invariant forall i | 0 <= i < |slots| ::
            slots[i] == SlotAt(Model(), anchor.sourceMs + (i - 61) * 1000, wall, mono)
      {
        slots := slots + [SlotAt(Model(), anchor.sourceMs + second * 1000, wall, mono)];
      }
    }

    method Snapshot(id: int, wall: int, mono: int) returns (decision: Option<Decision>)
      modifies this
      ensures (Model(), decision) == GhostTwap.Snapshot(old(Model()), id, wall, mono, Bounded)
    {
      hide Prune, Decide;
      if BehindBoundary(Model(), wall, mono) {
        return None;
      }
      lastDecision := Some((wall, mono));
      if WaitingForSpot(Model()) {
        var recovery := spotReconnect.value;
        if wall < recovery.gapWallNs.value || mono < recovery.gapMonoNs.value {
          return None;
        }
        if Max(wall - recovery.previous.value.wallNs, mono - recovery.previous.value.monoNs)
           > policy.ReconnectLimitNs() {
          ClearSpotReconnect(ReconnectTimeout, None);
        }
      }
      PruneAt(wall / NS_PER_MS);
      var d := Calculate(id, wall, mono);
      decision := Some(d);
    }

    /** The decision of the current fields: reasons, slots, six forecasts and the deadline. */
    method Calculate(id: int, wall: int, mono: int) returns (d: Decision)
      ensures d == Decide(Model(), id, wall, mono)
    {
      hide ForecastFor, GlobalReasons, SlotAt, Earliest, InputDeadlines;
      var spot := if Spot in current then Some(current[Spot]) else None;
      var anchor := if Twap in current then Some(current[Twap]) else None;
      var reasons := GlobalReasons(Model(), wall, mono);
      var slots := [];
      if anchor.Some? {
        slots := BuildSlots(anchor.value, wall, mono);
      }
      var forecasts := [];
      for i := 0 to 6
        invariant |forecasts| == i
        invariant forall j | 0 <= j < i :: forecasts[j] == ForecastFor(Model(), slots, reasons, HORIZONS[j], wall)
      {
        forecasts := forecasts + [ForecastFor(Model(), slots, reasons, HORIZONS[i], wall)];
      }
      var deadlines := if reasons != [] then [wall] else [];
      if spot.Some? {
        deadlines := deadlines + InputDeadlines(policy, spot.value, wall, mono);
      }
      if anchor.Some? {
        deadlines := deadlines + InputDeadlines(policy, anchor.value, wall, mono);
      }
      assert deadlines == Deadlines(Model(), reasons, wall, mono);
      d := Decision(id, wall, mono, if lastEvent.None? then None else Some(lastEvent.value.sequence), policy,
                    spot, anchor, slots, forecasts, reasons, gapCount, lastGaps, Earliest(deadlines, wall),
                    spotReconnect);
    }
  }

  function KeepFrom(h: History, cutoff: int, seed: Option<int>): History {
    map k | k in h && (k.stamp >= cutoff || (k.feed == Spot && Some(k.stamp) == seed)) :: h[k]
  }

  function CarryWindow(h: History, cutoff: int, carry: int): set<int> {
    set k | k in h && k.feed == Spot && cutoff - carry <= k.stamp < cutoff :: k.stamp
  }

  /** The maximum of the carry window is the one key that pruning keeps below the cutoff. */
  lemma SeedIsNewest(h: History, cutoff: int, carry: int, seed: Option<int>)
    requires seed == if CarryWindow(h, cutoff, carry) == {} then None else Some(MaxOf(CarryWindow(h, cutoff, carry)))
    ensures KeepFrom(h, cutoff, seed) == PrunedHistory(h, cutoff, carry)
  {
    var window := CarryWindow(h, cutoff, carry);
    forall k | k in h
      ensures IsSeed(h, k, cutoff, carry) <==> k.feed == Spot && Some(k.stamp) == seed
    {
      if IsSeed(h, k, cutoff, carry) {
        assert k.stamp in window;
        assert Key(Spot, MaxOf(window)) in h;
      } else if k.feed == Spot && Some(k.stamp) == seed {
        assert k.stamp in window;
        forall other | other in h && other.feed == Spot && other.stamp < cutoff
          ensures other.stamp <= k.stamp
        {
          if other.stamp >= cutoff - carry { assert other.stamp in window; }
        }
      }
    }
  }
}
