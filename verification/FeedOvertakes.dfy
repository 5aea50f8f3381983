/**
 A run in which a decision is handed to Redis although its target no longer leads the
 feed: a TWAP event beyond the target arrives between the issue and the hand-over, and
 matches none of the six targets.
 */
module FeedOvertakes {
  import opened Core
  import opened GhostTwap
  import opened GhostPayload
  import opened AuditRow
  import opened AuditHistory
  import opened CompactAgreement
  import opened PayloadAgreement
  import opened RuntimeModel
  import opened GhostSpool
  import opened RuntimeRuns
  import opened EpochFence
  import opened StaleTargets
  import PruneThreshold
  import Rounding

  // ---------------------------------------------------------------- nine inputs

  const P: Policy := DEFAULT_POLICY
  const ANCHOR_MS: int := 100_000
  const INPUTS: nat := 9

  function AtMs(ms: int): Stamp { Stamp(ms * NS_PER_MS, ms * NS_PER_MS) }

  const DECIDED: Stamp := AtMs(102_000)
  const OVERTAKEN: Stamp := AtMs(104_000)

  /** A spot every ten seconds, the anchor, and a spot with the anchor's stamp. */
  function FeedOf(n: nat): Feed { if n == 7 then Twap else Spot }

  function StampOf(n: nat): int { if n < 7 then 30_000 + 10_000 * n else ANCHOR_MS }

  function ReceiptOf(n: nat): Stamp { if n < 7 then AtMs(StampOf(n)) else DECIDED }

  function Input(n: nat): PriceEvent {
    PriceEvent(FeedOf(n), 1, StampOf(n), ReceiptOf(n).wall, ReceiptOf(n).mono, n + 1, "input")
  }

  function InputOffer(n: nat): Offer { PriceOffer(FeedOf(n), 1, StampOf(n), "input", false, ReceiptOf(n)) }

  function Entries(n: nat): History {
    if n == 0 then map[] else Entries(n - 1)[Key(FeedOf(n - 1), StampOf(n - 1)) := Input(n - 1)]
  }

  function Currents(n: nat): map<Feed, PriceEvent> {
    if n == 0 then map[] else Currents(n - 1)[FeedOf(n - 1) := Input(n - 1)]
  }

  function Engine(n: nat): State {
    PruneThreshold.Plain(P, Entries(n), Currents(n), if n <= 7 then None else Some(ANCHOR_MS),
                         if n == 0 then None else Some(Input(n - 1)))
  }

  predicate EntryOk(h: History, k: Key)
    requires k in h
  {
    k.stamp >= 30_000 && h[k].feed == k.feed && h[k].sourceMs == k.stamp && h[k].value == 1 && h[k].Causal()
  }

  ghost predicate EntriesOk(h: History, n: nat) {
    && |h| <= n
    && (forall k :: k in h ==> EntryOk(h, k) && (k.feed == Twap ==> n > 7 && k.stamp == ANCHOR_MS))
    && forall j: nat :: j < n && FeedOf(j) == Spot ==> Key(Spot, StampOf(j)) in h
  }

  lemma OneMoreIsOk(h: History, n: nat)
    requires EntriesOk(h, n) && n < INPUTS
    ensures EntriesOk(h[Key(FeedOf(n), StampOf(n)) := Input(n)], n + 1)
  {
    hide EntryOk, Input, StampOf;
    var key := Key(FeedOf(n), StampOf(n));
    var more := h[key := Input(n)];
    InputEntry(more, n);
    assert |more| <= |h| + 1;
    forall k | k in more
      ensures EntryOk(more, k) && (k.feed == Twap ==> n + 1 > 7 && k.stamp == ANCHOR_MS)
    {
      if k != key { OtherEntry(h, more, k); }
    }
    forall j: nat | j < n + 1 && FeedOf(j) == Spot
      ensures Key(Spot, StampOf(j)) in more
    {
      if j < n { assert Key(Spot, StampOf(j)) in h; }
    }
  }

  lemma InputEntry(h: History, n: nat)
    requires n < INPUTS && Key(FeedOf(n), StampOf(n)) in h && h[Key(FeedOf(n), StampOf(n))] == Input(n)
    ensures EntryOk(h, Key(FeedOf(n), StampOf(n)))
    ensures FeedOf(n) == Twap ==> n + 1 > 7 && StampOf(n) == ANCHOR_MS
  {
  }

  lemma OtherEntry(h: History, more: History, k: Key)
    requires k in h && k in more && more[k] == h[k] && EntryOk(h, k)
    ensures EntryOk(more, k)
  {
  }

  lemma {:induction false} EntriesAreSound(n: nat)
    requires n <= INPUTS
    ensures EntriesOk(Entries(n), n)
  {
    hide EntryOk, Input, StampOf;
    if n > 0 {
      hide EntriesOk;
      EntriesAreSound(n - 1);
      OneMoreIsOk(Entries(n - 1), n - 1);
    }
    assert n == 0 ==> EntriesOk(Entries(n), n);
  }

  lemma NothingIsPruned(n: nat, cutoff: int)
    requires n <= INPUTS && cutoff <= 0
    ensures PrunedHistory(Entries(n), cutoff, P.maxCarryMs) == Entries(n)
  {
    EntriesAreSound(n);
  }

  lemma InputIsAccepted(n: nat)
    requires n < INPUTS
    ensures AcceptOutcome(Engine(n), Input(n), Bounded) == (Engine(n + 1), Accepted)
  {
    hide AcceptOutcome, PrunedHistory, Entries, EntriesOk;
    EntriesFit(n);
    EntriesFit(n + 1);
    EntriesGrow(n);
    NothingIsPruned(n + 1, Input(n).ReceivedMs() - P.historyMs);
    PruneThreshold.PlainAccept(P, Entries(n), Currents(n), if n <= 7 then None else Some(ANCHOR_MS),
                               if n == 0 then None else Some(Input(n - 1)), Input(n), Entries(n + 1), Bounded);
  }

  lemma EntriesFit(n: nat)
    requires n <= INPUTS
    ensures |Entries(n)| <= n && (n <= 7 ==> Key(Twap, ANCHOR_MS) !in Entries(n))
  {
    hide Entries, EntryOk;
    EntriesAreSound(n);
  }

  lemma EntriesGrow(n: nat)
    ensures Entries(n + 1) == Entries(n)[Key(FeedOf(n), StampOf(n)) := Input(n)]
  {
  }

  // ---------------------------------------------------------------- the queue fills and drains

  function Waiting(n: nat): seq<Item> { if n == 0 then [] else Waiting(n - 1) + [PriceItem(Input(n - 1))] }

  function Filled(n: nat): Runtime {
    RuntimeModel.Start(P, 16).(sequence := n, queue := Waiting(n),
                               lastAdmitted := if n == 0 then None else Some(ReceiptOf(n - 1)))
  }

  lemma {:induction false} WaitingLength(n: nat)
    ensures |Waiting(n)| == n
  {
    if n > 0 { WaitingLength(n - 1); }
  }

  lemma NothingToSweep(rt: Runtime, sweep: Sweep)
    requires Formed(rt) && rt.records == map[]
    ensures SweepAll(rt, sweep) == rt
  {
    assert SweptRows(rt.records, sweep) == map[];
    assert SweptDirty(rt.records, rt.dirty, sweep) == rt.dirty;
  }

  lemma InputIsQueued(n: nat)
    requires n < INPUTS
    ensures Formed(Filled(n)) && ActOffer(Filled(n), InputOffer(n)) == Filled(n + 1)
  {
    hide SweepAll, Waiting;
    WaitingLength(n);
    var counted := Filled(n).(sequence := n + 1);
    var noted := counted.(lastAdmitted := Some(ReceiptOf(n)));
    NothingToSweep(noted, See(Input(n)));
    assert Input(n).Valid();
    assert !Backdated(counted, ReceiptOf(n));
    assert Waiting(n + 1) == Waiting(n) + [PriceItem(Input(n))] by { WaitingGrows(n); }
  }

  lemma WaitingGrows(n: nat)
    ensures Waiting(n + 1) == Waiting(n) + [PriceItem(Input(n))]
  {
  }

  function Rest(n: nat): seq<Item>
    decreases INPUTS - n
  {
    if n >= INPUTS then [] else [PriceItem(Input(n))] + Rest(n + 1)
  }

  lemma {:induction false} WaitingIsRest(m: nat, n: nat)
    requires m <= n <= INPUTS
    ensures Waiting(n) + Rest(n) == Waiting(m) + Rest(m)
  {
    hide Input;
    if m < n {
      WaitingIsRest(m, n - 1);
      assert Waiting(n) + Rest(n) == Waiting(n - 1) + ([PriceItem(Input(n - 1))] + Rest(n));
    }
  }

  lemma {:induction false} InputsAreDrained(rt: Runtime, n: nat, now: Stamp)
    requires Formed(rt) && n <= INPUTS && rt.engine == Engine(n) && rt.queue == Rest(n)
    ensures Drain(rt, now) == rt.(engine := Engine(INPUTS), queue := [])
    decreases INPUTS - n
  {
    hide AcceptOutcome, Engine, Input;
    if n < INPUTS {
      InputIsAccepted(n);
      assert rt.queue[0] == PriceItem(Input(n)) && rt.queue[1..] == Rest(n + 1);
      InputsAreDrained(rt.(queue := rt.queue[1..], engine := Engine(n + 1)), n + 1, now);
    }
  }

  // ---------------------------------------------------------------- the decision

  /** Priced at one second past the anchor, and valid for three. */
  predicate Decided(d: Decision) {
    && d.id == 1 && d.wallNs == DECIDED.wall && d.monoNs == DECIDED.mono && |d.forecasts| == 6
    && d.forecasts[0].price.Some? && d.validUntilNs == 105_000 * NS_PER_MS
    && forall i | 0 <= i < 6 :: d.forecasts[i].target == Some(ANCHOR_MS + HORIZONS[i] * 1000)
  }

  lemma SlotIsPriced(s: State, stamp: int, wall: int, mono: int)
    requires s.history == Entries(INPUTS) && s.policy == P && 39_000 <= stamp <= 98_000 && stamp * NS_PER_MS <= wall
    ensures SlotAt(s, stamp, wall, mono).value == Some(1) && SlotAt(s, stamp, wall, mono).category != MissingSlot
  {
    hide Entries;
    EntriesAreSound(INPUTS);
    var j := (stamp - 30_000) / 10_000;
    assert FeedOf(j) == Spot && Key(Spot, StampOf(j)) in s.history && stamp - StampOf(j) < 10_000;
    assert StampOf(j) in CausalStamps(s.history);
    var below := set t | t in CausalStamps(s.history) && t <= stamp;
    assert StampOf(j) in below;
  }

  lemma {:induction false} PricedSlotsSum(slots: seq<Slot>)
    requires forall x <- slots :: x.value == Some(1) && x.category != MissingSlot
    ensures SumOf(slots) == |slots| && CountOf(slots, MissingSlot) == 0
  {
    if slots != [] {
      var front := slots[..|slots| - 1];
      assert forall x <- front :: x in slots;
      assert slots[|slots| - 1] in slots;
      PricedSlotsSum(front);
    }
  }

  lemma FirstHorizonIsPriced(s: State, wall: int, mono: int)
    requires s.history == Entries(INPUTS) && s.policy == P && s.Current(Twap) == Some(Input(7))
    requires 102_000 * NS_PER_MS <= wall
    ensures var slots := Slots(s, Input(7), wall, mono); ForecastFor(s, slots, [], 1, wall).price.Some?
  {
    hide SlotAt, Entries;
    var slots := Slots(s, Input(7), wall, mono);
    var chosen := Selected(slots, 1);
    forall x | x in chosen
      ensures x.value == Some(1) && x.category != MissingSlot
    {
      var k :| 0 <= k < 60 && chosen[k] == x;
      SlotIsPriced(s, ANCHOR_MS + (k - 61) * 1000, wall, mono);
    }
    PricedSlotsSum(chosen);
    EntriesAreSound(INPUTS);
    TargetIsOpen(s, slots, chosen, wall);
  }

  lemma TargetIsOpen(s: State, slots: seq<Slot>, chosen: seq<Slot>, wall: int)
    requires |slots| == 89 && chosen == Selected(slots, 1) && s.Current(Twap) == Some(Input(7))
    requires SumOf(chosen) == 60 && CountOf(chosen, MissingSlot) == 0
    requires Key(Twap, ANCHOR_MS + 1000) !in s.history
    ensures ForecastFor(s, slots, [], 1, wall).price.Some?
  {
    hide SumOf, CountOf, Rounding.Mean60;
  }

  lemma TargetsAre(s: State, slots: seq<Slot>, reasons: seq<Reason>, i: int, wall: int)
    requires |slots| == 89 && s.Current(Twap) == Some(Input(7)) && 0 <= i < 6
    ensures ForecastFor(s, slots, reasons, HORIZONS[i], wall).target == Some(ANCHOR_MS + HORIZONS[i] * 1000)
  {
    hide Selected, SumOf, CountsOf, Rounding.Mean60;
  }

  lemma BothAreFresh()
    ensures CurrentReasons(P, Some(Input(8)), Spot, DECIDED.wall, DECIDED.mono) == []
    ensures CurrentReasons(P, Some(Input(7)), Twap, DECIDED.wall, DECIDED.mono) == []
  {
  }

  lemma CurrentsAre()
    ensures Currents(INPUTS) == map[Spot := Input(8), Twap := Input(7)]
  {
    assert Currents(7).Keys <= {Spot};
    assert Currents(9) == Currents(7)[Twap := Input(7)][Spot := Input(8)];
  }

  /** The engine decides, without reasons, on the inputs it was given. */
  lemma DecisionIsMade() returns (d: Decision)
    ensures Snapshot(Engine(INPUTS), 1, DECIDED.wall, DECIDED.mono, Bounded).1 == Some(d) && Decided(d)
  {
    hide PrunedHistory, CurrentReasons, Entries, Snapshot, GlobalReasons, SnapshotState, Decide, Input;
    var wall, mono := DECIDED.wall, DECIDED.mono;
    NothingIsPruned(INPUTS, Input(8).ReceivedMs() - P.historyMs) by { InputClock(); }
    BothAreFresh();
    CurrentsAre();
    InputClock();
    PruneThreshold.PlainDecides(P, Entries(INPUTS), Input(8), Input(7), Entries(INPUTS), Bounded);
    var s := SnapshotState(Engine(INPUTS), wall, mono, Bounded);
    d := Decide(s, 1, wall, mono);
    ReadyCurrents(wall, mono);
    CleanDecision(s, wall, mono);
  }

  lemma InputClock()
    ensures Input(8).wallNs == DECIDED.wall && Input(8).monoNs == DECIDED.mono && Input(7).sourceMs == ANCHOR_MS
    ensures Input(8).ReceivedMs() == 102_000 && Input(7).wallNs == DECIDED.wall && Input(7).monoNs == DECIDED.mono
    ensures Input(8).sourceMs == ANCHOR_MS
  {
  }

  lemma ReadyCurrents(wall: int, mono: int)
    ensures SnapshotState(Engine(INPUTS), wall, mono, Bounded).current == Currents(INPUTS)
  {
    hide PrunedHistory, Entries, Currents;
  }

  lemma CleanDecision(s: State, wall: int, mono: int)
    requires s.history == Entries(INPUTS) && s.policy == P && s.current == Currents(INPUTS)
    requires wall == DECIDED.wall && mono == DECIDED.mono && GlobalReasons(s, wall, mono) == []
    ensures Decided(Decide(s, 1, wall, mono))
  {
    hide GlobalReasons, Entries, Slots, Input, ForecastFor, Currents;
    InputClock();
    CurrentsAre();
    FirstHorizonIsPriced(s, wall, mono);
    var slots := Slots(s, Input(7), wall, mono);
    forall i | 0 <= i < 6
      ensures ForecastFor(s, slots, [], HORIZONS[i], wall).target == Some(ANCHOR_MS + HORIZONS[i] * 1000)
    {
      TargetsAre(s, slots, [], i, wall);
    }
    DeadlineIs(s, wall, mono);
  }

  lemma DeadlineIs(s: State, wall: int, mono: int)
    requires s.policy == P && s.Current(Spot) == Some(Input(8)) && s.Current(Twap) == Some(Input(7))
    requires wall == DECIDED.wall && mono == DECIDED.mono
    ensures Earliest(Deadlines(s, [], wall, mono), wall) == 105_000 * NS_PER_MS
  {
    hide Entries;
    var all := Deadlines(s, [], wall, mono);
    assert all[0] == all[1] == all[2] == all[3] == all[4] == all[5] == 105_000 * NS_PER_MS && |all| == 6;
    assert all[0] in all;
    forall x | x in all ensures x == 105_000 * NS_PER_MS { }
  }

  // ---------------------------------------------------------------- the run

  const LATE_MS: int := 104_000
  const LATE_OFFER: Offer := PriceOffer(Twap, 1, LATE_MS, "late", false, OVERTAKEN)
  const ISSUE: Step := Worked(IssueWork(Allowed, false, DECIDED, DECIDED))
  const BEGIN: Step := Worked(BeginWork(GuardFresh, DECIDED, DECIDED))
  const ATTEMPT: Step := Worked(AttemptWork(GuardFresh, OVERTAKEN, OVERTAKEN))

  /**
   The inputs arrive, the decision is issued and its intent saved; then a later TWAP event comes,
   then the attempt.
   */
  function Overtaking(): seq<Step> {
    seq(INPUTS, n requires 0 <= n => Offered(InputOffer(n)))
        + [ISSUE, BEGIN, Worked(OutboxWork), Offered(LATE_OFFER), ATTEMPT]
  }

  const START: World := RuntimeRuns.Init(P, 16, 512, Stamp(0, 0), map[])

  function InputWorld(n: nat): World {
    START.(rt := Filled(n), now := if n == 0 then Stamp(0, 0) else ReceiptOf(n - 1))
  }

  /** One more step of the run, in time. */
  lemma Advance(steps: seq<Step>, n: nat)
    requires Formed(START.rt) && n < |steps| && Timely(START, steps[..n])
    requires Ordered(At(START, steps, n).now, Readings(steps[n]))
    ensures Formed(At(START, steps, n).rt)
    ensures Timely(START, steps[..n + 1]) && At(START, steps, n + 1) == Apply(At(START, steps, n), steps[n])
  {
    hide Apply, Readings;
    assert steps[..n + 1][..n] == steps[..n];
  }

  lemma InputArrives(n: nat)
    requires n < INPUTS
    ensures Formed(InputWorld(n).rt) && Ordered(InputWorld(n).now, [ReceiptOf(n)])
    ensures Apply(InputWorld(n), Offered(InputOffer(n))) == InputWorld(n + 1)
  {
    hide ActOffer, Filled;
    InputIsQueued(n);
    assert [ReceiptOf(n)][1..] == [] && Ordered(ReceiptOf(n), []);
  }

  lemma {:induction false} InputsArrive(n: nat)
    requires n <= INPUTS
    ensures Formed(START.rt) && Timely(START, Overtaking()[..n]) && At(START, Overtaking(), n) == InputWorld(n)
  {
    hide Apply, InputWorld;
    var steps := Overtaking();
    if n == 0 {
      StartIsEmpty();
    } else {
      InputsArrive(n - 1);
      InputArrives(n - 1);
      assert steps[n - 1] == Offered(InputOffer(n - 1)) && Readings(steps[n - 1]) == [ReceiptOf(n - 1)];
      Advance(steps, n - 1);
    }
  }

  lemma StartIsEmpty()
    ensures Formed(START.rt) && InputWorld(0) == START
    ensures Timely(START, Overtaking()[..0]) && At(START, Overtaking(), 0) == START
  {
    assert Overtaking()[..0] == [];
  }

  predicate Open(rt: Runtime) {
    && !rt.closed && !rt.stopped && rt.suspended == {} && rt.epoch == 0 && rt.queue == [] && rt.queueMax == 16
    && rt.lastAdmitted == Some(DECIDED) && rt.lastFrozen == Some(DECIDED)
  }

  /** The decision's row still offers the first horizon. */
  predicate Offers(r: Row) {
    && Shaped(r) && Decided(r.decision) && !r.terminal && r.epoch == 0 && Exclusion(r, 0).None?
    && forall i | 0 <= i < 6 :: r.targets[i].stamp == r.decision.forecasts[i].target
  }

  predicate Stage(w: World, now: Stamp) {
    && Formed(w.rt) && Open(w.rt) && w.now == now && w.attempts == [] && w.spoolMax == 512
    && w.rt.records.Keys == {1} && Offers(w.rt.records[1])
    && 1 in w.issued && w.issued[1].decision == w.rt.records[1].decision
  }

  lemma StandingStill(at: Stamp)
    ensures Ordered(at, [at]) && Ordered(at, [at, at])
  {
    assert [at, at][1..] == [at] && [at][1..] == [];
  }

  lemma IssueHappens()
    ensures Formed(InputWorld(INPUTS).rt) && Ordered(InputWorld(INPUTS).now, Readings(ISSUE))
    ensures var w := Apply(InputWorld(INPUTS), ISSUE);
            Stage(w, DECIDED) && w.rt.pending == Some(1) && w.rt.publishing == Idle && w.outbox == map[]
  {
    hide Snapshot, Engine, Waiting, Drain, NewRow, Decided, Exclusion;
    var rt := Filled(INPUTS);
    var d := DecisionIsMade();
    WaitingIsRest(0, INPUTS);
    assert Waiting(INPUTS) == Rest(0) by { EmptyEnds(); }
    FilledStarts();
    InputsAreDrained(rt, 0, DECIDED);
    StandingStill(DECIDED);
    ReservedOffers(d);
  }

  lemma EmptyEnds()
    ensures Waiting(INPUTS) + Rest(INPUTS) == Waiting(INPUTS) && Waiting(0) + Rest(0) == Rest(0)
  {
    hide Waiting;
    assert Rest(INPUTS) == [];
    assert Waiting(0) == [] by { WaitingLength(0); }
  }

  lemma FilledStarts()
    ensures Formed(Filled(INPUTS)) && Filled(INPUTS).engine == Engine(0)
  {
    hide Waiting;
  }

  lemma ReservedOffers(d: Decision)
    requires Decided(d)
    ensures var r := NewRow(d, DECIDED, 0); Offers(r) && r.decision == d
  {
  }

  /** Whatever is offered is in the mask. */
  lemma FirstIsEligible(r: Row, live: Wire, at: Stamp)
    requires Offers(r) && |live.forecasts| == 6
    ensures 1 in Mask(r, live, at).eligible && WorthPublishing(r) && |Mask(r, live, at).forecasts| == 6
  {
    hide Exclusion, Decided, EligibleUpTo, ExcludedUpTo, MaskForecast;
    MaskShape(r, live, at);
    assert HORIZONS[0] in EligibleUpTo(r, 6);
  }

  lemma BeginHappens(w: World)
    requires Stage(w, DECIDED) && w.rt.pending == Some(1) && w.rt.publishing == Idle && w.outbox == map[]
    ensures Ordered(w.now, Readings(BEGIN))
    ensures var a := Apply(w, BEGIN);
            && Stage(a, DECIDED) && a.outbox == map[] && a.rt.publishing.Spooling? && a.rt.publishing.id == 1
            && a.rt.publishing.record.decision == a.rt.records[1].decision
  {
    hide Exclusion, BeginPublish, Ordered, Offers, Publishable;
    StandingStill(DECIDED);
    IntentIsMade(w.rt.records[1]);
    IsPublishable(w.rt, DECIDED);
  }

  lemma IntentIsMade(r: Row)
    requires Offers(r)
    ensures var (intended, live) := BeginPublish(r, true, DECIDED);
            && Offers(intended) && intended.decision == r.decision && live.Some? && |live.value.forecasts| == 6
  {
    hide Mask, WorthPublishing, Exclusion, LiveWire, Decided;
    LiveHasSix(r);
    FirstIsEligible(r, LiveWire(r, DECIDED), DECIDED);
    SameOffers(r, BeginPublish(r, true, DECIDED).0);
  }

  lemma IsPublishable(rt: Runtime, at: Stamp)
    requires Formed(rt) && 1 in rt.records && Offers(rt.records[1]) && (at == DECIDED || at == OVERTAKEN)
    requires !rt.closed && !rt.stopped && rt.suspended == {} && rt.epoch == 0
    ensures Publishable(rt, 1, at, GuardFresh) == (rt, true)
  {
    hide Exclusion, Stop, Suspend;
  }

  lemma LiveHasSix(r: Row)
    requires Shaped(r)
    ensures |LiveWire(r, DECIDED).forecasts| == 6
  {
  }

  lemma SameOffers(r: Row, n: Row)
    requires Offers(r) && n.decision == r.decision && n.targets == r.targets && n.terminal == r.terminal
    requires n.epoch == r.epoch
    ensures Offers(n)
  {
  }

  lemma OutboxHappens(w: World)
    requires Stage(w, DECIDED) && w.outbox == map[] && w.rt.publishing.Spooling? && w.rt.publishing.id == 1
    ensures Ordered(w.now, Readings(Worked(OutboxWork)))
    ensures var a := Apply(w, Worked(OutboxWork));
            Stage(a, DECIDED) && a.rt.publishing.Spooled? && a.rt.publishing.id == 1
  {
    hide Exclusion, Decided;
  }

  lemma LateOfferHappens(w: World)
    requires Stage(w, DECIDED) && w.rt.publishing.Spooled? && w.rt.publishing.id == 1
    ensures Ordered(w.now, Readings(Offered(LATE_OFFER))) && AdmitsCausal(w.rt, Offered(LATE_OFFER), LATE_MS)
    ensures !Overflows(w.rt, Offered(LATE_OFFER))
    ensures var a := Apply(w, Offered(LATE_OFFER));
            && Formed(a.rt) && a.now == OVERTAKEN && a.attempts == [] && a.rt.publishing == w.rt.publishing
            && !a.rt.closed && !a.rt.stopped && a.rt.suspended == {} && a.rt.epoch == 0 && a.issued == w.issued
            && 1 in a.rt.records && Offers(a.rt.records[1])
            && a.rt.records[1].decision == w.rt.records[1].decision
  {
    hide SweepAll, Exclusion, Decided, Observe;
    assert Ordered(DECIDED, [OVERTAKEN]) by { assert [OVERTAKEN][1..] == []; }
    var e := OfferedEvent(w.rt, LATE_OFFER);
    assert e.Valid();
    var noted := w.rt.(sequence := w.rt.sequence + 1, lastAdmitted := Some(OVERTAKEN));
    LateIsIgnored(w.rt.records[1], e);
    assert SweepAll(noted, See(e)).records[1] == Observe(w.rt.records[1], e) by { SweptIs(noted, See(e), 1); }
    SweepKeepsFlags(noted, See(e));
  }

  lemma SweptIs(rt: Runtime, sweep: Sweep, id: int)
    requires Formed(rt) && id in rt.records
    ensures id in SweepAll(rt, sweep).records && SweepAll(rt, sweep).records[id] == Swept(sweep, rt.records[id])
  {
    hide Swept;
  }

  /** The late stamp is none of the six targets. */
  lemma LateIsIgnored(r: Row, e: PriceEvent)
    requires Offers(r) && e.sourceMs == LATE_MS
    ensures Observe(r, e) == r
  {
    NoneIsHit(r, e, 6);
  }

  lemma {:induction false} NoneIsHit(r: Row, e: PriceEvent, n: nat)
    requires Offers(r) && e.sourceMs == LATE_MS && n <= 6
    ensures ObserveUpTo(r, n, e) == r
  {
    hide Exclusion;
    if n > 0 {
      NoneIsHit(r, e, n - 1);
      assert r.targets[n - 1].stamp == Some(ANCHOR_MS + HORIZONS[n - 1] * 1000) && HORIZONS[n - 1] * 1000 != 4000;
      assert r.targets[n - 1 := r.targets[n - 1]] == r.targets;
    }
  }

  lemma AttemptHappens(w: World)
    requires Formed(w.rt) && w.now == OVERTAKEN && w.attempts == []
    requires w.rt.publishing.Spooled? && w.rt.publishing.id == 1 && 1 in w.rt.records && Offers(w.rt.records[1])
    requires !w.rt.closed && !w.rt.stopped && w.rt.suspended == {} && w.rt.epoch == 0
    ensures Ordered(w.now, Readings(ATTEMPT))
    ensures var a := Apply(w, ATTEMPT);
            |a.attempts| == 1 && a.attempts[0].id == 1 && 1 in a.attempts[0].sent.eligible
  {
    hide Mask, WorthPublishing, Exclusion, ReceivedTargets;
    StandingStill(OVERTAKEN);
    FirstIsEligible(w.rt.records[1], w.rt.publishing.live, OVERTAKEN);
    IsPublishable(w.rt, OVERTAKEN);
  }

  lemma StepsAre()
    ensures var steps := Overtaking();
            && |steps| == 14 && steps[9] == ISSUE && steps[10] == BEGIN && steps[11] == Worked(OutboxWork)
            && steps[12] == Offered(LATE_OFFER) && steps[13] == ATTEMPT
            && forall n: nat :: n < INPUTS ==> steps[n] == Offered(InputOffer(n))
  {
  }

  lemma InputsFit(n: nat)
    requires n < INPUTS
    ensures Formed(InputWorld(n).rt) && !Overflows(InputWorld(n).rt, Offered(InputOffer(n)))
  {
    hide Waiting;
    WaitingLength(n);
  }

  /**
   The target of a handed-over horizon need not lead the feed: with no overflow and every
   clock in order, a TWAP event stamped three seconds past the target is admitted after the
   decision was issued, and the decision still goes out with that horizon.
   */
  lemma TargetIsOvertaken()
    ensures var steps := Overtaking();
            && Formed(START.rt) && Timely(START, steps) && NoOverflow(START, steps, 13)
            && AdmitsCausal(At(START, steps, 12).rt, steps[12], LATE_MS)
            && |At(START, steps, 13).attempts| == 0 && |At(START, steps, 14).attempts| == 1
            && (var entry := At(START, steps, 14).attempts[0];
                && 1 in entry.sent.eligible && entry.id in At(START, steps, 12).issued
                && (var d := At(START, steps, 12).issued[entry.id].decision;
                    |d.forecasts| == 6 && d.forecasts[0].target == Some(LATE_MS - 3000)))
            && !LeadsFeed(START, steps, 13, LATE_MS - 3000)
  {
    hide Apply, Overtaking, InputWorld, Stage, Offers, AdmitsCausal, Overflows, Readings, Ordered, At, Timely;
    var steps := Overtaking();
    StepsAre();
    InputsArrive(INPUTS);
    IssueHappens();
    Advance(steps, 9);
    BeginHappens(At(START, steps, 10)) by { StageParts(At(START, steps, 10)); }
    Advance(steps, 10);
    OutboxHappens(At(START, steps, 11));
    Advance(steps, 11);
    LateOfferHappens(At(START, steps, 12));
    Advance(steps, 12);
    AttemptHappens(At(START, steps, 13));
    Advance(steps, 13);
    assert steps[..14] == steps;
    forall k: nat | k < 13
      ensures Formed(At(START, steps, k).rt) && !Overflows(At(START, steps, k).rt, steps[k])
    {
      if k < INPUTS {
        InputsArrive(k);
        InputsFit(k);
      } else if k < 12 {
        OnlyOffersOverflow(At(START, steps, k).rt, steps[k]);
      }
    }
    StageParts(At(START, steps, 12));
  }

  lemma StageParts(w: World)
    requires Stage(w, DECIDED)
    ensures 1 in w.issued && |w.issued[1].decision.forecasts| == 6 && w.attempts == []
    ensures w.issued[1].decision.forecasts[0].target == Some(LATE_MS - 3000)
  {
    hide Exclusion;
    var r := w.rt.records[1];
    assert HORIZONS[0] == 1;
  }

  lemma OnlyOffersOverflow(rt: Runtime, step: Step)
    ensures !step.Offered? ==> !Overflows(rt, step)
  {
  }
}
