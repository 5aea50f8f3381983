/**
 What holds of every decision the engine issues: its slot counts, prices, targets and
 inputs, read off the decision alone.
 */
module DecisionFacts {
  import opened Core
  import opened GhostTwap
  import opened GhostPayload
  import opened EngineRuns
  import opened EngineInvariants
  import Rounding

  // ---------------------------------------------------------------- slots

  predicate SlotSound(slot: Slot, p: Policy) {
    && (slot.category != MissingSlot ==> slot.value.Some? && LegalPrice(slot.value.value))
    && (slot.category == Carried ==> slot.carryAgeMs.Some? && 1 <= slot.carryAgeMs.value <= p.maxCarryMs)
  }

  lemma PredecessorIsKept(h: History, stamp: int)
    requires HistoryOk(h)
    ensures var e := Predecessor(h, stamp); e.Some? ==> e.value.Valid() && e.value.sourceMs <= stamp
  {
    var below := set t | t in CausalStamps(h) && t <= stamp;
    if below != {} { assert MaxOf(below) in CausalStamps(h); }
  }

  lemma SlotIsSound(s: State, stamp: int, wall: int, mono: int)
    requires HistoryOk(s.history) && CurrentOk(s.current, s.lastEvent)
    ensures SlotSound(SlotAt(s, stamp, wall, mono), s.policy)
  {
    hide Predecessor, CausalStamps, CurrentReasons, HistoryOk;
    PredecessorIsKept(s.history, stamp);
  }

  lemma {:induction false} CountsAddUp(slots: seq<Slot>)
    ensures var c := CountsOf(slots);
            c.observed + c.carried + c.pending + c.future + c.missing == |slots|
  {
    if slots != [] { CountsAddUp(slots[..|slots| - 1]); }
  }

  lemma {:induction false} SumInRange(slots: seq<Slot>, p: Policy)
    requires forall i :: 0 <= i < |slots| ==> SlotSound(slots[i], p)
    requires CountOf(slots, MissingSlot) == 0
    ensures |slots| <= SumOf(slots) <= |slots| * (Rounding.PRICE_LIMIT - 1)
  {
    if slots != [] {
      var front := slots[..|slots| - 1];
      SumInRange(front, p);
    }
  }

  /** The longest carry among the slots that repeat an older value between observations. */
  function MaxCarry(slots: seq<Slot>): int {
    if slots == [] then 0
    else
      var last := slots[|slots| - 1];
      Max(MaxCarry(slots[..|slots| - 1]),
          if last.category == Carried && last.carryAgeMs.Some? then last.carryAgeMs.value else 0)
  }

  lemma {:induction false} MaxCarryIsBounded(slots: seq<Slot>, p: Policy)
    requires forall i :: 0 <= i < |slots| ==> SlotSound(slots[i], p)
    requires p.maxCarryMs >= 0
    ensures 0 <= MaxCarry(slots) <= p.maxCarryMs
    ensures MaxCarry(slots) == 0 <==> CountOf(slots, Carried) == 0
  {
    if slots != [] { MaxCarryIsBounded(slots[..|slots| - 1], p); }
  }

  // ---------------------------------------------------------------- forecasts

  /** The forecast a reader may rely on, given the decision's own reasons and anchor. */
  ghost predicate ForecastSound(d: Decision, i: int)
    requires 0 <= i < 6 && |d.forecasts| == 6
  {
    var f := d.forecasts[i];
    && f.horizon == HORIZONS[i] && CountsOk(f.counts) && GeometryOk(d.twap, d.wallNs, f)
    && (f.price.Some? <==> f.reasons == [])
    && (f.price.Some? ==> LegalPrice(f.price.value) && d.reasons == [] && d.twap.Some? && f.counts.missing == 0
                          && f.quality == (if f.counts.carried != 0 then Degraded else Healthy))
    && (f.price.None? ==> f.quality == Unavailable)
    && d.reasons <= f.reasons
    && (LegalReasons(d.reasons) && |d.reasons| <= 8 && MissingSlots !in d.reasons && TargetAlreadyReceived !in d.reasons
        ==> LegalReasons(f.reasons) && |f.reasons| <= 10)
    && (forall r :: r in f.reasons ==> r in d.reasons || r == MissingSlots || r == TargetAlreadyReceived)
  }

  ghost predicate CarrySound(d: Decision, i: int)
    requires 0 <= i < 6 && |d.forecasts| == 6
  {
    && 0 <= MaxCarryAt(d, i) <= d.policy.maxCarryMs
    && (MaxCarryAt(d, i) == 0 <==> d.forecasts[i].counts.carried == 0)
  }

  /** `max_interior_carry_ms` as it is frozen into the audit record. */
  function MaxCarryAt(d: Decision, i: int): int
    requires 0 <= i < 6
  {
    if |d.slots| == 89 then MaxCarry(Selected(d.slots, HORIZONS[i])) else 0
  }

  predicate SlotsSound(slots: seq<Slot>, p: Policy) {
    forall i | 0 <= i < |slots| :: SlotSound(slots[i], p)
  }

  lemma DecidedSlotsSound(s: State, anchor: PriceEvent, wall: int, mono: int)
    requires HistoryOk(s.history) && CurrentOk(s.current, s.lastEvent)
    ensures SlotsSound(Slots(s, anchor, wall, mono), s.policy)
  {
    hide SlotAt, SlotSound, CurrentOk, HistoryOk;
    var slots := Slots(s, anchor, wall, mono);
    forall i | 0 <= i < |slots| ensures SlotSound(slots[i], s.policy) {
      SlotIsSound(s, anchor.sourceMs + (i - 61) * 1000, wall, mono);
    }
  }

  lemma SelectedFacts(slots: seq<Slot>, p: Policy, horizon: int)
    requires 1 <= horizon <= 30 && |slots| == 89 && SlotsSound(slots, p) && p.maxCarryMs >= 0
    ensures var chosen := Selected(slots, horizon);
            && CountsOk(CountsOf(chosen))
            && (CountsOf(chosen).missing == 0 ==>
                  Priceable(chosen) && 60 <= SumOf(chosen) <= 60 * (Rounding.PRICE_LIMIT - 1))
            && 0 <= MaxCarry(chosen) <= p.maxCarryMs
            && (MaxCarry(chosen) == 0 <==> CountsOf(chosen).carried == 0)
  {
    hide SlotSound;
    var chosen := Selected(slots, horizon);
    CountsAddUp(chosen);
    MaxCarryIsBounded(chosen, p);
    if CountsOf(chosen).missing == 0 { SumInRange(chosen, p); }
  }

  lemma MeanIsLegal(slots: seq<Slot>)
    requires Priceable(slots)
    requires 60 <= SumOf(slots) <= 60 * (Rounding.PRICE_LIMIT - 1)
    ensures LegalPrice(Rounding.Mean60(SumOf(slots)))
  {
    hide Rounding.Mean60;
    Rounding.MeanIsBetween(SumOf(slots), 1, Rounding.PRICE_LIMIT - 1);
  }

  /** The issues a forecast lists: the decision's reasons, then its own. */
  function Issues(reasons: seq<Reason>, missing: bool, received: bool): seq<Reason> {
    reasons + (if missing then [MissingSlots] else []) + (if received then [TargetAlreadyReceived] else [])
  }

  lemma IssuesAreLegal(reasons: seq<Reason>, missing: bool, received: bool)
    ensures var all := Issues(reasons, missing, received);
            && reasons <= all && (all == [] <==> reasons == [] && !missing && !received)
            && (forall r :: r in all ==> r in reasons || r == MissingSlots || r == TargetAlreadyReceived)
            && (LegalReasons(reasons) && |reasons| <= 8 && MissingSlots !in reasons && TargetAlreadyReceived !in reasons
                ==> LegalReasons(all) && |all| <= 10)
  {
  }

  /** An anchored forecast counts, prices and excuses itself by its own sixty slots. */
  lemma AnchoredForecast(s: State, slots: seq<Slot>, reasons: seq<Reason>, horizon: int, wall: int)
    requires s.Current(Twap).Some? && 1 <= horizon <= 30 && |slots| == 89
    requires SlotsSound(slots, s.policy) && s.policy.maxCarryMs >= 0
    ensures var f := ForecastFor(s, slots, reasons, horizon, wall);
            && CountsOk(f.counts)
            && f.reasons == Issues(reasons, f.counts.missing != 0,
                                   Key(Twap, s.Current(Twap).value.sourceMs + horizon * 1000) in s.history)
            && (f.price.Some? <==> f.reasons == [])
            && (f.price.Some? ==> LegalPrice(f.price.value) && f.counts.missing == 0
                                  && f.quality == (if f.counts.carried != 0 then Degraded else Healthy))
            && (f.price.None? ==> f.quality == Unavailable)
            && 0 <= MaxCarry(Selected(slots, horizon)) <= s.policy.maxCarryMs
            && (MaxCarry(Selected(slots, horizon)) == 0 <==> f.counts.carried == 0)
  {
    hide CountsOk, SlotSound, CountOf, SumOf, MaxCarry, Priceable, Rounding.Mean60, LegalPrice, MarketFor, SlotsSound;
    SelectedFacts(slots, s.policy, horizon);
    var chosen := Selected(slots, horizon);
    if CountsOf(chosen).missing == 0 { MeanIsLegal(chosen); }
  }

  lemma ForecastIsSound(s: State, id: int, wall: int, mono: int, i: int)
    requires 0 <= i < 6 && HistoryOk(s.history) && CurrentOk(s.current, s.lastEvent) && s.policy.maxCarryMs >= 0
    ensures ForecastSound(Decide(s, id, wall, mono), i) && CarrySound(Decide(s, id, wall, mono), i)
  {
    hide HistoryOk, CurrentOk, GlobalReasons, Deadlines, SlotAt, SlotsSound, Selected, CountsOf, Priceable, SumOf,
         MaxCarry, Rounding.Mean60, LegalReasons, LegalPrice, MarketFor;
    var d := Decide(s, id, wall, mono);
    var f := d.forecasts[i];
    assert f == ForecastFor(s, d.slots, d.reasons, HORIZONS[i], wall);
    if s.Current(Twap).Some? {
      var anchor := s.Current(Twap).value;
      DecidedSlotsSound(s, anchor, wall, mono);
      AnchoredForecast(s, d.slots, d.reasons, HORIZONS[i], wall);
      IssuesAreLegal(d.reasons, f.counts.missing != 0, Key(Twap, anchor.sourceMs + HORIZONS[i] * 1000) in s.history);
    } else {
      IssuesAreLegal(d.reasons, true, false);
      assert f.reasons == Issues(d.reasons, true, false);
    }
  }
}
