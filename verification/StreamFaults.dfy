/**
 What the hub can still show after a subscriber fault: over every reachable state, and
 with a run for each reading that fails.
 */
module StreamFaults {
  import opened Core
  import opened GhostTwap
  import opened GhostPayload
  import opened StreamHub
  import opened StreamExposure

  // ---------------------------------------------------------------- reachable states

  /** Without a confirmed producer the hub waits for an authoritative read. */
  predicate DoubtKnown(h: Hub) { h.producer.None? ==> h.needsAuthoritative }

  lemma AcceptKeepsDoubt(h: Hub, r: HubRead, authoritative: bool, resync: bool, now: Stamp)
    requires DoubtKnown(h)
    ensures DoubtKnown(Accept(h, r, authoritative, resync, now).0)
    ensures Accept(h, r, authoritative, resync, now).0.bufferSize == h.bufferSize
  {
    hide HubRead.IsFresh, OfferedAll;
  }

  lemma NextKeepsDoubt(h: Hub, c: int, first: Stamp, second: Stamp, third: Stamp)
    ensures var a := Next(h, c, first, second, third).0;
            a == h.(clients := a.clients, sequence := a.sequence, snapshot := a.snapshot)
  {
    hide HubRead.IsFresh, OfferedAll;
  }

  lemma StepKeepsDoubt(h: Hub, step: Step)
    requires DoubtKnown(h)
    ensures DoubtKnown(Apply(h, step)) && Apply(h, step).bufferSize == h.bufferSize
  {
    hide HubRead.IsFresh, OfferedAll, Accept, BoundPayload, Shortened, Next;
    match step
    case Replies(reply, end, at) =>
      if h.line.Fetching? && reply.Present? && BoundPayload(reply.payload, end).Some? {
        var reading := h.(line := Reading(h.line.queue, h.line.faulted));
        AcceptKeepsDoubt(reading, Shortened(BoundPayload(reply.payload, end).value,
                                            end.mono + Max(0, TtlLeft(reply.ttlMs, h.line.start, end))), true, true,
                         at);
      }
    case Take(at) =>
      if h.line.Reading? && h.line.queue != [] && h.line.queue[0].Message? {
        var rest := h.(line := Reading(h.line.queue[1..], h.line.faulted));
        var bound := BoundPayload(h.line.queue[0].payload, h.line.queue[0].at);
        if bound.Some? { AcceptKeepsDoubt(rest, bound.value, false, false, at); }
      }
    case NextCall(c, first, second, third) => NextKeepsDoubt(h, c, first, second, third);
    case _ =>
  }

  /** The invariants of the fence hold in every state the hub can reach. */
  lemma {:induction false} FenceIsReached(bufferSize: nat, steps: seq<Step>)
    ensures var w := Run(bufferSize, steps);
            WatchOk(w) && FenceOk(w) && DoubtKnown(w.hub) && w.hub.bufferSize == bufferSize
  {
    hide WatchOk, FenceOk, DoubtKnown, Apply, Confirmed;
    if steps == [] {
      BeginIsFenced(bufferSize);
    } else {
      var front, last := steps[..|steps| - 1], steps[|steps| - 1];
      FenceIsReached(bufferSize, front);
      StepKeepsWatch(Run(bufferSize, front), last);
      StepKeepsFence(Run(bufferSize, front), last);
      StepKeepsDoubt(Run(bufferSize, front).hub, last);
    }
  }

  lemma BeginIsFenced(bufferSize: nat)
    ensures var w := Begin(bufferSize);
            WatchOk(w) && FenceOk(w) && DoubtKnown(w.hub) && w.hub.bufferSize == bufferSize
  {
  }

  // ---------------------------------------------------------------- the monotonic clock

  /** The clock readings a step takes, in order. The wall clock may be set back; the monotonic one may not. */
  function StepReadings(step: Step): seq<Stamp> {
    match step
    case Subscribed(at) => [at]
    case PumpMessage(_, at) => [at]
    case Replies(_, end, at) => [end, at]
    case Take(at) => [at]
    case Heartbeat(at) => [at]
    case ExpireTick(at) => [at]
    case Register(_, at) => [at]
    case NextCall(_, first, second, third) => [first, second, third]
    case _ => []
  }

  predicate Rising(last: int, readings: seq<Stamp>)
    decreases |readings|
  {
    readings != [] ==> last <= readings[0].mono && Rising(readings[0].mono, readings[1..])
  }

  function LatestMono(last: int, readings: seq<Stamp>): int {
    if readings == [] then last else readings[|readings| - 1].mono
  }

  /** The newest monotonic reading after these steps. */
  function Elapsed(last: int, steps: seq<Step>): int {
    if steps == [] then last
    else LatestMono(Elapsed(last, steps[..|steps| - 1]), StepReadings(steps[|steps| - 1]))
  }

  /** No monotonic reading of these steps lies before the one taken before it. */
  predicate Steady(last: int, steps: seq<Step>) {
    steps != [] ==>
      && Steady(last, steps[..|steps| - 1])
      && Rising(Elapsed(last, steps[..|steps| - 1]), StepReadings(steps[|steps| - 1]))
  }

  lemma {:induction false} RisingEndsLater(last: int, readings: seq<Stamp>)
    requires Rising(last, readings)
    ensures last <= LatestMono(last, readings)
    decreases |readings|
  {
    if readings != [] { RisingEndsLater(readings[0].mono, readings[1..]); }
  }

  lemma {:induction false} ElapsedRises(last: int, steps: seq<Step>)
    requires Steady(last, steps)
    ensures last <= Elapsed(last, steps)
  {
    if steps != [] {
      var front := steps[..|steps| - 1];
      ElapsedRises(last, front);
      RisingEndsLater(Elapsed(last, front), StepReadings(steps[|steps| - 1]));
    }
  }

  /** Every clock of these steps stands at `at`. */
  predicate Standing(steps: seq<Step>, at: Stamp) {
    forall i | 0 <= i < |steps| :: forall r <- StepReadings(steps[i]) :: r == at
  }

  lemma {:induction false} RisesAt(last: int, readings: seq<Stamp>, at: Stamp)
    requires last <= at.mono && forall r <- readings :: r == at
    ensures Rising(last, readings) && last <= LatestMono(last, readings) <= at.mono
    decreases |readings|
  {
    if readings != [] {
      assert readings[0] in readings && readings[|readings| - 1] in readings;
      forall r | r in readings[1..]
        ensures r == at
      {
        assert r in readings;
      }
      RisesAt(at.mono, readings[1..], at);
    }
  }

  lemma {:induction false} StandingIsSteadyFrom(last: int, steps: seq<Step>, at: Stamp)
    requires Standing(steps, at) && last <= at.mono
    ensures Steady(last, steps) && last <= Elapsed(last, steps) <= at.mono
  {
    hide StepReadings;
    if steps != [] {
      var front := steps[..|steps| - 1];
      StandingIsSteadyFrom(last, front, at);
      RisesAt(Elapsed(last, front), StepReadings(steps[|steps| - 1]), at);
    }
  }

  lemma {:induction false} SteadyAppends(last: int, a: seq<Step>, b: seq<Step>)
    requires Steady(last, a) && Steady(Elapsed(last, a), b)
    ensures Steady(last, a + b) && Elapsed(last, a + b) == Elapsed(Elapsed(last, a), b)
  {
    hide StepReadings, Rising;
    if b == [] {
      assert a + b == a;
    } else {
      var front := b[..|b| - 1];
      SteadyAppends(last, a, front);
      assert (a + b)[..|a + b| - 1] == a + front && (a + b)[|a + b| - 1] == b[|b| - 1];
    }
  }

  /** Clocks standing at one moment, then at a later one. */
  lemma StandingTwice(last: int, a: seq<Step>, b: seq<Step>, soon: Stamp, later: Stamp)
    requires Standing(a, soon) && Standing(b, later) && last <= soon.mono <= later.mono
    ensures Steady(last, a + b)
  {
    hide Standing, Steady, Elapsed;
    StandingIsSteadyFrom(last, a, soon);
    StandingIsSteadyFrom(Elapsed(last, a), b, later);
    SteadyAppends(last, a, b);
  }

  lemma StandingAppends(a: seq<Step>, b: seq<Step>, at: Stamp)
    requires Standing(a, at) && Standing(b, at)
    ensures Standing(a + b, at)
  {
    hide StepReadings;
  }

  /** The read was bound before `last`, and before its wall bound. */
  predicate BoundBefore(read: Option<HubRead>, last: int) {
    read.Some? ==> read.value.read.at.wall < read.value.read.wire.validUntilNs && read.value.read.at.mono <= last
  }

  lemma AcceptShowsFresh(h: Hub, r: HubRead, authoritative: bool, resync: bool, now: Stamp)
    ensures var read := Accept(h, r, authoritative, resync, now).0.snapshot.read;
            read.Some? ==> read == h.snapshot.read || read.value.IsFresh(now)
  {
    hide HubRead.IsFresh, OfferedAll;
  }

  lemma FreshIsBound(r: HubRead, now: Stamp)
    requires r.IsFresh(now)
    ensures BoundBefore(Some(r), now.mono) && now.mono < r.read.deadlineMonoNs
  {
  }

  lemma StepKeepsBound(h: Hub, step: Step, last: int)
    requires BoundBefore(h.snapshot.read, last) && Rising(last, StepReadings(step))
    ensures BoundBefore(Apply(h, step).snapshot.read, LatestMono(last, StepReadings(step)))
  {
    hide HubRead.IsFresh, OfferedAll, Accept, BoundPayload, Shortened, BoundBefore, Next, Beat, Rising, LatestMono;
    RisingEndsLater(last, StepReadings(step));
    if step.Heartbeat? { BeatRepeats(h, step.at); }
    if step.NextCall? { NextShows(h, step.client, step.first, step.second, step.third); }
    if step.Replies? || step.Take? { AtIsLatest(step, last); }
    LaterBound(h.snapshot.read, last, LatestMono(last, StepReadings(step)));
    LaterBound(None, last, LatestMono(last, StepReadings(step)));
    match step
    case Replies(reply, end, at) =>
      if h.line.Fetching? && reply.Present? && BoundPayload(reply.payload, end).Some? {
        var reading := h.(line := Reading(h.line.queue, h.line.faulted));
        AcceptKeepsBound(reading, Shortened(BoundPayload(reply.payload, end).value,
                                            end.mono + Max(0, TtlLeft(reply.ttlMs, h.line.start, end))), true, true,
                         at, last);
      }
    case Take(at) =>
      if h.line.Reading? && h.line.queue != [] && h.line.queue[0].Message? {
        var rest := h.(line := Reading(h.line.queue[1..], h.line.faulted));
        var bound := BoundPayload(h.line.queue[0].payload, h.line.queue[0].at);
        if bound.Some? { AcceptKeepsBound(rest, bound.value, false, false, at, last); }
      }
    case _ =>
  }

  lemma AtIsLatest(step: Step, last: int)
    requires (step.Replies? || step.Take?) && Rising(last, StepReadings(step))
    ensures last <= step.at.mono == LatestMono(last, StepReadings(step))
  {
    RisingEndsLater(last, StepReadings(step));
  }

  lemma NextShows(h: Hub, c: int, first: Stamp, second: Stamp, third: Stamp)
    ensures var read := Next(h, c, first, second, third).0.snapshot.read; read.Some? ==> read == h.snapshot.read
  {
    hide HubRead.IsFresh, OfferedAll;
  }

  lemma LaterBound(read: Option<HubRead>, last: int, later: int)
    ensures last <= later && BoundBefore(read, last) ==> BoundBefore(read, later)
    ensures BoundBefore(None, later)
  {
  }

  lemma AcceptKeepsBound(h: Hub, r: HubRead, authoritative: bool, resync: bool, now: Stamp, last: int)
    requires BoundBefore(h.snapshot.read, last) && last <= now.mono
    ensures BoundBefore(Accept(h, r, authoritative, resync, now).0.snapshot.read, now.mono)
  {
    hide HubRead.IsFresh, Accept;
    AcceptShowsFresh(h, r, authoritative, resync, now);
    var read := Accept(h, r, authoritative, resync, now).0.snapshot.read;
    if read.Some? && read.value.IsFresh(now) { FreshIsBound(read.value, now); }
  }

  lemma {:induction false} RunKeepsBound(bufferSize: nat, begin: int, steps: seq<Step>)
    requires Steady(begin, steps)
    ensures BoundBefore(Run(bufferSize, steps).hub.snapshot.read, Elapsed(begin, steps))
  {
    if steps != [] {
      hide BoundBefore, Apply, Confirmed;
      var front := steps[..|steps| - 1];
      RunKeepsBound(bufferSize, begin, front);
      StepKeepsBound(Run(bufferSize, front).hub, steps[|steps| - 1], Elapsed(begin, front));
    }
    assert steps == [] ==> BoundBefore(Run(bufferSize, steps).hub.snapshot.read, Elapsed(begin, steps));
  }

  // ---------------------------------------------------------------- what a continuation emits

  predicate IsShown(x: Entry) { x.Shown? && x.update.read.Some? }

  predicate ShowsPayload(x: Entry, payload: Payload) { IsShown(x) && x.update.read.value.payload == payload }

  /** The log has grown beyond `from` and ends showing the payload. */
  predicate EndsShowing(log: seq<Entry>, from: nat, payload: Payload) {
    from < |log| && ShowsPayload(log[|log| - 1], payload)
  }

  /** The continuation emits some read. */
  ghost predicate Emits(w: Watch, steps: seq<Step>) {
    exists i :: |w.log| <= i < |RunFrom(w, steps).log| && IsShown(RunFrom(w, steps).log[i])
  }

  /** It emits a read other than the one shown at its start. */
  ghost predicate EmitsNew(w: Watch, steps: seq<Step>) {
    exists i :: |w.log| <= i < |RunFrom(w, steps).log| && IsShown(RunFrom(w, steps).log[i])
                && RunFrom(w, steps).log[i].update.read != w.hub.snapshot.read
  }

  /** What is logged beyond `from` shows nothing, or only `read`. */
  ghost predicate OnlyRepeats(log: seq<Entry>, from: nat, read: Option<HubRead>) {
    forall i :: from <= i < |log| && IsShown(log[i]) ==> log[i].update.read == read
  }

  lemma RepeatsStep(w: Watch, step: Step, from: nat, read: Option<HubRead>)
    requires from <= |w.log| && OnlyRepeats(w.log, from, read)
    requires HubOk(w.hub) && (w.hub.snapshot.read.Some? ==> w.hub.snapshot.read == read)
    requires Apply(w.hub, step).snapshot.read.Some? ==> Apply(w.hub, step).snapshot.read == w.hub.snapshot.read
    ensures var t := Watched(w, step);
            && from <= |t.log| && OnlyRepeats(t.log, from, read)
            && (t.hub.snapshot.read.Some? ==> t.hub.snapshot.read == read)
  {
    hide Apply, HubOk, Confirmed;
  }

  /** Until a usable authoritative read completes, everything emitted is empty or the read shown at the fault. */
  lemma {:induction false} LostOnlyRepeats(w: Watch, steps: seq<Step>)
    requires WatchOk(w) && FenceOk(w) && w.lost && Unconfirmed(w, steps)
    ensures var t := RunFrom(w, steps);
            && |w.log| <= |t.log| && OnlyRepeats(t.log, |w.log|, w.hub.snapshot.read)
            && (t.hub.snapshot.read.Some? ==> t.hub.snapshot.read == w.hub.snapshot.read)
  {
    hide WatchOk, FenceOk, Apply, Confirmed, HubOk, Watched;
    if steps != [] {
      var front, last := steps[..|steps| - 1], steps[|steps| - 1];
      LostOnlyRepeats(w, front);
      NothingNewAfterAFault(w, front);
      var mid := RunFrom(w, front);
      WatchHub(mid);
      LostStep(mid, last);
      RepeatsStep(mid, last, |w.log|, w.hub.snapshot.read);
    }
  }

  /** While the fault is unanswered, a read is emitted only before its monotonic deadline. */
  lemma {:induction false} LostNeedsTime(w: Watch, last: int, steps: seq<Step>)
    requires WatchOk(w) && FenceOk(w) && w.lost && Unconfirmed(w, steps) && Steady(last, steps) && Emits(w, steps)
    ensures w.hub.snapshot.read.Some? && last < w.hub.snapshot.read.value.read.deadlineMonoNs
  {
    hide WatchOk, FenceOk, Confirmed, HubOk, Watched, StepReadings, IsShown, HubRead.IsFresh;
    var i :| |w.log| <= i < |RunFrom(w, steps).log| && IsShown(RunFrom(w, steps).log[i]);
    assert steps != [];
    var front, step := steps[..|steps| - 1], steps[|steps| - 1];
    var mid := RunFrom(w, front);
    NothingNewAfterAFault(w, front);
    WatchHub(mid);
    LostStep(mid, step);
    ElapsedRises(last, front);
    StepEmits(mid, step, i);
    if i < |mid.log| {
      LostNeedsTime(w, last, front);
    } else {
      assert step.Heartbeat? && mid.hub.snapshot.read.value.IsFresh(step.at);
      assert StepReadings(step) == [step.at] by { BeatReads(step); }
      FreshIsBound(mid.hub.snapshot.read.value, step.at);
    }
  }

  lemma BeatReads(step: Step)
    requires step.Heartbeat?
    ensures StepReadings(step) == [step.at]
  {
  }

  /** A shown entry is an old one, or the step emitted its snapshot. */
  lemma StepEmits(w: Watch, step: Step, i: nat)
    requires i < |Watched(w, step).log| && IsShown(Watched(w, step).log[i])
    ensures i < |w.log| ==> IsShown(w.log[i])
    ensures i >= |w.log| ==>
              Apply(w.hub, step).sequence != w.hub.sequence && Apply(w.hub, step).snapshot.read.Some?
  {
    hide Apply, Confirmed;
  }

  /**
   In every reachable state after a subscriber fault: some continuation without a usable
   authoritative read, on a clock that never goes back, emits a read if and only if the
   snapshot still holds one whose monotonic deadline has not been reached; and whatever the
   clocks do it is that one.
   */
  lemma ShownAgainExactly(bufferSize: nat, begin: int, front: seq<Step>)
    requires Steady(begin, front) && Run(bufferSize, front).lost
    ensures var (w, last) := (Run(bufferSize, front), Elapsed(begin, front));
            && ((exists steps :: Steady(last, steps) && Unconfirmed(w, steps) && Emits(w, steps))
                <==> w.hub.snapshot.read.Some? && last < w.hub.snapshot.read.value.read.deadlineMonoNs)
            && forall steps :: Unconfirmed(w, steps) ==> !EmitsNew(w, steps)
  {
    hide WatchOk, FenceOk, DoubtKnown, Confirmed, Apply, Run, Steady, Elapsed, HubRead.IsFresh;
    FenceIsReached(bufferSize, front);
    var w, last := Run(bufferSize, front), Elapsed(begin, front);
    forall steps | Unconfirmed(w, steps)
      ensures !EmitsNew(w, steps)
    {
      LostOnlyRepeats(w, steps);
    }
    forall steps | Steady(last, steps) && Unconfirmed(w, steps) && Emits(w, steps)
      ensures w.hub.snapshot.read.Some? && last < w.hub.snapshot.read.value.read.deadlineMonoNs
    {
      LostNeedsTime(w, last, steps);
    }
    if w.hub.snapshot.read.Some? && last < w.hub.snapshot.read.value.read.deadlineMonoNs {
      RunKeepsBound(bufferSize, begin, front);
      var at := Stamp(w.hub.snapshot.read.value.read.at.wall, last);
      BeforeDeadlineIsFresh(w.hub.snapshot.read.value, last);
      HeartbeatRepeats(w, at);
      SteadyBeat(last, at);
    }
  }

  lemma BeforeDeadlineIsFresh(r: HubRead, last: int)
    requires BoundBefore(Some(r), last) && last < r.read.deadlineMonoNs
    ensures r.IsFresh(Stamp(r.read.at.wall, last))
  {
  }

  lemma SteadyBeat(last: int, at: Stamp)
    requires last <= at.mono
    ensures Steady(last, [Heartbeat(at)])
  {
    var steps := [Heartbeat(at)];
    assert steps[..0] == [] && Steady(last, []) && Elapsed(last, []) == last;
    assert [at][1..] == [] && Rising(last, [at]);
  }

  lemma HeartbeatRepeats(w: Watch, at: Stamp)
    requires w.hub.snapshot.read.Some? && w.hub.snapshot.read.value.IsFresh(at)
    ensures Unconfirmed(w, [Heartbeat(at)]) && Emits(w, [Heartbeat(at)])
  {
    hide OfferedAll, HubRead.IsFresh;
    assert [Heartbeat(at)][..0] == [];
    assert RunFrom(w, []) == w;
    var t := RunFrom(w, [Heartbeat(at)]);
    assert t == Watched(w, Heartbeat(at));
    assert IsShown(t.log[|w.log|]);
  }

  // ---------------------------------------------------------------- without an adopted reply

  /** An authoritative read completed and was adopted as the newest of its run. */
  predicate Adopted(h: Hub, step: Step) { Confirmed(h, step) && Adopts(h, ReadOf(h, step).value) }

  /** No authoritative read is adopted during these steps; usable ones may be refused. */
  predicate NoneAdopted(w: Watch, steps: seq<Step>) {
    steps != [] ==>
      && NoneAdopted(w, steps[..|steps| - 1])
      && !Adopted(RunFrom(w, steps[..|steps| - 1]).hub, steps[|steps| - 1])
  }

  lemma RefusedKeepsDoubt(h: Hub, r: HubRead, now: Stamp)
    requires h.needsAuthoritative && !Adopts(h, r)
    ensures var a := Accept(h, r, true, true, now).0;
            a.needsAuthoritative && (a.snapshot.read.Some? ==> a.snapshot.read == h.snapshot.read)
  {
    hide HubRead.IsFresh, OfferedAll, Adopt;
  }

  /** In doubt, no step but an adopted reply ends the doubt or shows anything new. */
  lemma DoubtStep(h: Hub, step: Step)
    requires HubOk(h) && h.needsAuthoritative && !Adopted(h, step)
    ensures var a := Apply(h, step);
            a.needsAuthoritative && (a.snapshot.read.Some? ==> a.snapshot.read == h.snapshot.read)
  {
    hide HubRead.IsFresh, OfferedAll, Accept, BoundPayload, Shortened, Next, Expire, Adopts, Beat;
    match step
    case Heartbeat(at) => BeatRepeats(h, at);
    case Replies(reply, end, at) =>
      if Confirmed(h, step) {
        var reading := h.(line := Reading(h.line.queue, h.line.faulted));
        SameAdoption(h, reading, ReadOf(h, step).value);
        RefusedKeepsDoubt(reading, ReadOf(h, step).value, at);
      }
    case ExpireTick(at) =>
      ExpireProgress(h, at);
      ExpireKeepsLine(h, at);
    case Register(_, at) =>
      ExpireProgress(h, at);
      ExpireKeepsLine(h, at);
    case NextCall(c, first, second, third) =>
      NextProgress(h, c, first, second, third);
      NextKeepsLine(h, c, first, second, third);
    case _ =>
  }

  lemma SameAdoption(h: Hub, a: Hub, r: HubRead)
    requires a == h.(line := a.line)
    ensures Adopts(h, r) <==> Adopts(a, r)
  {
  }

  lemma {:induction false} DoubtOnlyRepeats(w: Watch, steps: seq<Step>)
    requires WatchOk(w) && w.hub.needsAuthoritative && NoneAdopted(w, steps)
    ensures var t := RunFrom(w, steps);
            && WatchOk(t) && t.hub.needsAuthoritative
            && |w.log| <= |t.log| && OnlyRepeats(t.log, |w.log|, w.hub.snapshot.read)
            && (t.hub.snapshot.read.Some? ==> t.hub.snapshot.read == w.hub.snapshot.read)
  {
    hide WatchOk, Apply, Adopted, HubOk;
    if steps != [] {
      var front, last := steps[..|steps| - 1], steps[|steps| - 1];
      DoubtOnlyRepeats(w, front);
      var mid := RunFrom(w, front);
      WatchHub(mid);
      DoubtStep(mid.hub, last);
      StepKeepsWatch(mid, last);
      RepeatsStep(mid, last, |w.log|, w.hub.snapshot.read);
    }
  }

  // ---------------------------------------------------------------- sample payloads

  const SAMPLE_POLICY: Policy := Policy(true, 5000, 3000, 10_000, 120_000, 1_024, 10_000)

  function SampleInput(feed: Feed, at: Stamp): PriceEvent {
    PriceEvent(feed, 1, at.wall / NS_PER_SECOND * 1000, at.wall, at.mono, if feed == Spot then 1 else 2, "sample")
  }

  function SampleForecast(i: int, at: Stamp): WireForecast
    requires 0 <= i < 6
  {
    var anchor, h := SampleInput(Twap, at), HORIZONS[i];
    var target, eta := anchor.sourceMs + h * 1000, at.wall + h * NS_PER_SECOND;
    WireForecast(Forecast(h, Some(target), Some(MarketFor(target)), Some(h - 1), None, Unavailable, [MissingSlots],
                          SlotCounts(0, 0, 0, 0, 60), Some(eta), Some(eta - at.wall), eta < at.wall), 0)
  }

  /** A publication of both inputs whose forecasts still miss slots, made, sent and read at one moment. */
  function Sample(id: int, at: Stamp): Wire {
    Wire(id, id, at, at, at, Some(at), SAMPLE_POLICY, Some(SampleInput(Spot, at)), Some(SampleInput(Twap, at)),
         Some(2), [],
         0, [], at, [], map h | h in HORIZONS :: [MissingSlots],
         [SampleForecast(0, at), SampleForecast(1, at), SampleForecast(2, at),
          SampleForecast(3, at), SampleForecast(4, at), SampleForecast(5, at)],
         None, at.wall + NS_PER_SECOND)
  }

  /** The parser accepts it. */
  lemma SampleIsAccepted(id: int, at: Stamp)
    requires id >= 1 && at.wall >= 0 && at.mono >= 0
    ensures Accepts(Sample(id, at))
  {
    hide ForecastOk, InputDeadline, SampleInput;
    var w := Sample(id, at);
    forall i | 0 <= i < 6
      ensures ForecastOk(w, i)
    {
      SampleForecastIsOk(id, at, i);
    }
    SampleInputIsOk(id, at, Spot);
    SampleInputIsOk(id, at, Twap);
  }

  lemma SampleInputIsOk(id: int, at: Stamp, feed: Feed)
    requires at.wall >= 0 && at.mono >= 0
    ensures var e := SampleInput(feed, at);
            && e.feed == feed && e.Valid() && e.Causal() && e.wallNs == at.wall && e.monoNs == at.mono
            && e.sequence == (if feed == Spot then 1 else 2)
            && Sample(id, at).validUntilNs <= InputDeadline(Sample(id, at), e)
  {
  }

  lemma SampleForecastIsOk(id: int, at: Stamp, i: int)
    requires 0 <= i < 6 && at.wall >= 0 && at.mono >= 0
    ensures ForecastOk(Sample(id, at), i)
  {
  }

  // ---------------------------------------------------------------- from any line to a new read

  lemma {:induction false} RunFromSplits(w: Watch, a: seq<Step>, b: seq<Step>)
    ensures RunFrom(w, a + b) == RunFrom(RunFrom(w, a), b)
    ensures NoneAdopted(w, a + b) <==> NoneAdopted(w, a) && NoneAdopted(RunFrom(w, a), b)
  {
    hide Watched, Adopted;
    if b == [] {
      assert a + b == a;
    } else {
      var front := b[..|b| - 1];
      RunFromSplits(w, a, front);
      assert (a + b)[..|a + b| - 1] == a + front && (a + b)[|a + b| - 1] == b[|b| - 1];
    }
  }

  lemma RunOne(w: Watch, step: Step)
    ensures RunFrom(w, [step]) == Watched(w, step)
    ensures NoneAdopted(w, [step]) <==> !Adopted(w.hub, step)
  {
    hide Watched, Adopted;
    assert [step][..0] == [];
    assert RunFrom(w, []) == w && NoneAdopted(w, []);
  }

  /** What the way back to a fresh connection leaves alone. */
  predicate SameTrust(h: Hub, a: Hub) {
    && a.producer == h.producer && a.conflicted == h.conflicted && a.needsAuthoritative == h.needsAuthoritative
    && a.bufferSize == h.bufferSize
  }

  /** A step towards a lost connection, whatever the connection task is doing. */
  function Loses(line: Line, at: Stamp): Step
    requires !line.Down?
  {
    match line
    case Subscribing => SubscribeFailed("redis_unavailable")
    case Fetching(_, faulted, _) => if faulted then Replies(Unreachable("redis_unavailable"), at, at)
      else PumpFault("redis_unavailable")
    case Reading(_, faulted) => if faulted then Take(at) else PumpFault("redis_unavailable")
    case Failed(_) => FailOver
  }

  function Distance(line: Line): nat {
    match line
    case Down => 0
    case Failed(_) => 1
    case Subscribing => 2
    case Fetching(_, faulted, _) => if faulted then 2 else 3
    case Reading(_, faulted) => if faulted then 2 else 3
  }

  lemma LosesGround(w: Watch, at: Stamp)
    requires FenceOk(w) && !w.hub.line.Down?
    ensures var step := Loses(w.hub.line, at);
            var t := Watched(w, step);
            && FenceOk(t) && SameTrust(w.hub, t.hub) && Distance(t.hub.line) < Distance(w.hub.line)
            && !Adopted(w.hub, step) && w.log <= t.log && Standing([step], at)
  {
    hide OfferedAll, Adopts;
  }

  lemma {:induction false} ConnectionCanBeLost(w: Watch, at: Stamp) returns (steps: seq<Step>)
    requires FenceOk(w)
    ensures NoneAdopted(w, steps) && Standing(steps, at)
    ensures var t := RunFrom(w, steps);
            t.hub.line.Down? && SameTrust(w.hub, t.hub) && w.log <= t.log
    decreases Distance(w.hub.line)
  {
    hide Watched, FenceOk, Adopted;
    steps := [];
    if !w.hub.line.Down? {
      var step := Loses(w.hub.line, at);
      LosesGround(w, at);
      RunOne(w, step);
      var rest := ConnectionCanBeLost(Watched(w, step), at);
      RunFromSplits(w, [step], rest);
      steps := [step] + rest;
    }
  }

  /** The same bytes' identity with other bytes: a usable reply that is never adopted. */
  function Contradicting(p: Producer, at: Stamp): Payload { Payload(p.run, p.raw + 1, Sample(p.id, at)) }

  function Newer(p: Producer, at: Stamp): Payload { Payload(p.run, p.raw, Sample(p.id + 1, at)) }

  /** Reconnect, get a refused reply, then one newer message. */
  function Recovering(p: Producer, at: Stamp): seq<Step> {
    [Connect, Subscribed(at), Replies(Present(Some(Contradicting(p, at)), 1000), at, at),
     PumpMessage(Some(Newer(p, at)), at),
     Take(at)]
  }

  lemma SampleBinds(run: int, raw: int, id: int, at: Stamp)
    ensures var bound := BoundPayload(Some(Payload(run, raw, Sample(id, at))), at);
            && bound == Some(HubRead(Payload(run, raw, Sample(id, at)),
                                     Read(Sample(id, at), at, at.mono + NS_PER_SECOND)))
            && bound.value.IsFresh(at)
  {
  }

  lemma ReplyIsRefused(h: Hub, at: Stamp)
    requires h.line == Fetching([], false, at) && h.producer.Some?
    ensures var step := Replies(Present(Some(Contradicting(h.producer.value, at)), 1000), at, at);
            var a := Apply(h, step);
            && Confirmed(h, step) && !Adopted(h, step)
            && a.line == Reading([], false) && a.needsAuthoritative == h.needsAuthoritative
            && a.producer == h.producer && a.bufferSize == h.bufferSize
            && (a.conflicted == h.conflicted || a.conflicted == Some((h.producer.value.run, h.producer.value.id)))
  {
    hide OfferedAll, Sample, BoundPayload, Adopt, HubRead.IsFresh;
    SampleBinds(h.producer.value.run, h.producer.value.raw + 1, h.producer.value.id, at);
    SampleId(h.producer.value.id, at);
  }

  lemma SampleId(id: int, at: Stamp)
    ensures Sample(id, at).id == id && Sample(id, at).eligible == []
  {
  }

  lemma MessageIsShown(h: Hub, at: Stamp)
    requires h.producer.Some? && !h.needsAuthoritative
    requires h.line == Reading([Message(Some(Newer(h.producer.value, at)), at)], false)
    requires h.conflicted != Some((h.producer.value.run, h.producer.value.id + 1))
    ensures var a := Apply(h, Take(at));
            && a.snapshot.read.Some? && a.snapshot.read.value.payload == Newer(h.producer.value, at)
            && a.sequence == h.sequence + 1
  {
    hide OfferedAll, Sample, BoundPayload, HubRead.IsFresh;
    SampleBinds(h.producer.value.run, h.producer.value.raw, h.producer.value.id + 1, at);
    SampleId(h.producer.value.id + 1, at);
  }

  /** A stretch of steps, none of them an adopted reply, and where it leads. */
  ghost predicate Leads(w: Watch, steps: seq<Step>, t: Watch) {
    t == RunFrom(w, steps) && NoneAdopted(w, steps) && w.log <= t.log
  }

  lemma LeadsNowhere(w: Watch)
    ensures Leads(w, [], w)
  {
  }

  lemma LeadsOn(w: Watch, steps: seq<Step>, t: Watch, step: Step)
    requires Leads(w, steps, t) && !Adopted(t.hub, step)
    ensures Leads(w, steps + [step], Watched(t, step))
  {
    hide Adopted, Apply, Confirmed;
    assert (steps + [step])[..|steps|] == steps;
  }

  lemma ConnectingKeeps(w: Watch, at: Stamp)
    requires w.hub.line.Down?
    ensures var one := Watched(w, Connect);
            var two := Watched(one, Subscribed(at));
            two.hub.line == Fetching([], false, at) && SameTrust(w.hub, two.hub)
            && !Adopted(w.hub, Connect) && !Adopted(one.hub, Subscribed(at))
  {
    hide OfferedAll, Adopts;
  }

  lemma MessageIsQueued(w: Watch, payload: Option<Payload>, at: Stamp)
    requires w.hub.line == Reading([], false) && w.hub.bufferSize >= 1
    ensures var t := Watched(w, PumpMessage(payload, at));
            t.hub == w.hub.(line := Reading([Message(payload, at)], false)) && !Adopted(w.hub, PumpMessage(payload, at))
  {
    hide Adopts;
    assert [] + [Message(payload, at)] == [Message(payload, at)];
    assert Apply(w.hub, PumpMessage(payload, at)) == Pumped(w.hub, Message(payload, at));
  }

  lemma ShowsLast(w: Watch, at: Stamp, payload: Payload)
    requires var a := Apply(w.hub, Take(at));
             a.snapshot.read.Some? && a.snapshot.read.value.payload == payload && a.sequence == w.hub.sequence + 1
    ensures var t := Watched(w, Take(at));
            EndsShowing(t.log, |w.log|, payload) && !Adopted(w.hub, Take(at))
  {
    hide Apply, Adopts;
  }

  lemma RecoveringShowsNew(w: Watch, at: Stamp)
    requires w.hub.line.Down? && !w.hub.needsAuthoritative && w.hub.producer.Some? && w.hub.bufferSize >= 1
    requires w.hub.conflicted != Some((w.hub.producer.value.run, w.hub.producer.value.id + 1))
    ensures var p := w.hub.producer.value;
            var t := RunFrom(w, Recovering(p, at));
            NoneAdopted(w, Recovering(p, at)) && EndsShowing(t.log, |w.log|, Newer(p, at))
  {
    hide Apply, Leads, Adopted, ShowsPayload, Contradicting, Newer;
    var p := w.hub.producer.value;
    var reply, message := Replies(Present(Some(Contradicting(p, at)), 1000), at, at),
        PumpMessage(Some(Newer(p, at)), at);
    var one := Watched(w, Connect);
    var two := Watched(one, Subscribed(at));
    var three := Watched(two, reply);
    var four := Watched(three, message);
    ConnectingKeeps(w, at);
    ReplyIsRefused(two.hub, at);
    MessageIsQueued(three, Some(Newer(p, at)), at);
    MessageIsShown(four.hub, at);
    ShowsLast(four, at, Newer(p, at));
    LeadsFive(w, Connect, Subscribed(at), reply, message, Take(at));
    LeadsParts(w, Recovering(p, at), Watched(four, Take(at)));
  }

  lemma LeadsFive(w: Watch, a: Step, b: Step, c: Step, d: Step, e: Step)
    requires var one := Watched(w, a);
             var two := Watched(one, b);
             var three := Watched(two, c);
             var four := Watched(three, d);
             !Adopted(w.hub, a) && !Adopted(one.hub, b) && !Adopted(two.hub, c) && !Adopted(three.hub, d)
                 && !Adopted(four.hub, e)
    ensures Leads(w, [a, b, c, d, e], Watched(Watched(Watched(Watched(Watched(w, a), b), c), d), e))
  {
    hide Watched, Leads, Adopted;
    var one := Watched(w, a);
    var two := Watched(one, b);
    var three := Watched(two, c);
    var four := Watched(three, d);
    LeadsNowhere(w);
    LeadsOn(w, [], w, a);
    assert [] + [a] == [a];
    LeadsOn(w, [a], one, b);
    assert [a] + [b] == [a, b];
    LeadsOn(w, [a, b], two, c);
    assert [a, b] + [c] == [a, b, c];
    LeadsOn(w, [a, b, c], three, d);
    assert [a, b, c] + [d] == [a, b, c, d];
    LeadsOn(w, [a, b, c, d], four, e);
    assert [a, b, c, d] + [e] == [a, b, c, d, e];
  }

  lemma LeadsParts(w: Watch, steps: seq<Step>, t: Watch)
    requires Leads(w, steps, t)
    ensures t == RunFrom(w, steps) && NoneAdopted(w, steps) && w.log <= t.log
  {
  }

  lemma NewIsNotShown(w: Watch, at: Stamp)
    requires HubOk(w.hub) && w.hub.producer.Some?
    ensures w.hub.snapshot.read.Some? ==> w.hub.snapshot.read.value.payload != Newer(w.hub.producer.value, at)
    ensures w.hub.conflicted != Some((w.hub.producer.value.run, w.hub.producer.value.id + 1))
  {
    SampleId(w.hub.producer.value.id + 1, at);
  }

  /** A hub that is not in doubt can show something new with every clock standing at any one moment. */
  lemma TrustedShowsNew(w: Watch, at: Stamp) returns (steps: seq<Step>)
    requires WatchOk(w) && FenceOk(w) && !w.hub.needsAuthoritative && w.hub.producer.Some? && w.hub.bufferSize >= 1
    ensures NoneAdopted(w, steps) && EmitsNew(w, steps) && Standing(steps, at)
  {
    hide WatchOk, FenceOk, Recovering, Newer, RunFrom, NoneAdopted, HubOk, EndsShowing, EmitsNew, Standing;
    var lost := ConnectionCanBeLost(w, at);
    var down, p := RunFrom(w, lost), w.hub.producer.value;
    WatchHub(w);
    NewIsNotShown(w, at);
    RecoveringShowsNew(down, at);
    RunFromSplits(w, lost, Recovering(p, at));
    steps := lost + Recovering(p, at);
    EndsNew(w, steps, |down.log|, Newer(p, at));
    RecoveringStands(p, at);
    StandingAppends(lost, Recovering(p, at), at);
  }

  lemma RecoveringStands(p: Producer, at: Stamp)
    ensures Standing(Recovering(p, at), at)
  {
  }

  lemma EndsNew(w: Watch, steps: seq<Step>, from: nat, payload: Payload)
    requires |w.log| <= from && EndsShowing(RunFrom(w, steps).log, from, payload)
    requires w.hub.snapshot.read.Some? ==> w.hub.snapshot.read.value.payload != payload
    ensures EmitsNew(w, steps)
  {
    hide RunFrom;
    var log := RunFrom(w, steps).log;
    assert IsShown(log[|log| - 1]);
  }

  /**
   In every reachable state: while no authoritative reply is adopted nothing new is shown,
   whatever else happens and whatever the clocks do, if the hub is waiting for one, and only
   if it is, even on a clock that never goes back.
   */
  lemma NothingNewExactly(bufferSize: nat, begin: int, front: seq<Step>)
    requires bufferSize >= 1
    ensures var (w, last) := (Run(bufferSize, front), Elapsed(begin, front));
            && (w.hub.needsAuthoritative ==> forall steps :: NoneAdopted(w, steps) ==> !EmitsNew(w, steps))
            && ((forall steps :: Steady(last, steps) && NoneAdopted(w, steps) ==> !EmitsNew(w, steps))
                <==> w.hub.needsAuthoritative)
  {
    hide WatchOk, FenceOk, NoneAdopted, Run, EmitsNew, Steady, Elapsed, Standing;
    FenceIsReached(bufferSize, front);
    var w := Run(bufferSize, front);
    if w.hub.needsAuthoritative {
      forall steps | NoneAdopted(w, steps)
        ensures !EmitsNew(w, steps)
      {
        DoubtOnlyRepeats(w, steps);
        RepeatsAreNotNew(w, steps);
      }
    } else {
      var last := Elapsed(begin, front);
      var steps := TrustedShowsNew(w, Stamp(0, last));
      StandingIsSteadyFrom(last, steps, Stamp(0, last));
    }
  }

  lemma RepeatsAreNotNew(w: Watch, steps: seq<Step>)
    requires |w.log| <= |RunFrom(w, steps).log| && OnlyRepeats(RunFrom(w, steps).log, |w.log|, w.hub.snapshot.read)
    ensures !EmitsNew(w, steps)
  {
    hide RunFrom;
  }

  // ---------------------------------------------------------------- two runs

  const SOON: Stamp := Stamp(NS_PER_SECOND, NS_PER_SECOND)
  const LATER: Stamp := Stamp(3 * NS_PER_SECOND, 3 * NS_PER_SECOND)

  function SamplePayload(id: int, at: Stamp): Payload { Payload(1, id, Sample(id, at)) }

  function ReplyWith(id: int, at: Stamp): Step { Replies(Present(Some(SamplePayload(id, at)), 1000), at, at) }

  lemma {:induction false} RunIsFromBegin(bufferSize: nat, steps: seq<Step>)
    ensures Run(bufferSize, steps) == RunFrom(Begin(bufferSize), steps)
  {
    if steps != [] { RunIsFromBegin(bufferSize, steps[..|steps| - 1]); }
  }

  /** A hub in whose view the sample of that identity is the newest and shown. */
  predicate Showing(h: Hub, id: int, at: Stamp) {
    && h.line == Reading([], false) && !h.needsAuthoritative && h.conflicted.None?
    && h.producer.Some? && h.producer.value.run == 1 && h.producer.value.id == id && h.producer.value.raw == id
    && h.snapshot.read.Some? && h.snapshot.read.value.payload == SamplePayload(id, at)
    && h.snapshot.read.value.IsFresh(at) && !h.snapshot.read.value.IsFresh(LATER)
  }

  lemma FirstReplyIsShown(h: Hub, id: int)
    requires h.line == Fetching([], false, SOON) && h.producer.None? && h.conflicted.None?
    ensures Showing(Apply(h, ReplyWith(id, SOON)), id, SOON)
  {
    hide OfferedAll;
  }

  /** Connect for the first time and receive the sample. */
  function Opening(id: int): seq<Step> { [Connect, Subscribed(SOON), ReplyWith(id, SOON)] }

  lemma OpeningShows(bufferSize: nat, id: int)
    ensures var w := RunFrom(Begin(bufferSize), Opening(id)); Showing(w.hub, id, SOON) && w.hub.bufferSize == bufferSize
  {
    hide OfferedAll, Showing, ReplyWith, Accept;
    var b := Begin(bufferSize);
    var one := Watched(b, Connect);
    var two := Watched(one, Subscribed(SOON));
    FirstReplyIsShown(two.hub, id);
    FenceIsReached(bufferSize, Opening(id));
    RunIsFromBegin(bufferSize, Opening(id));
    assert Opening(id)[..2] == [Connect, Subscribed(SOON)] && Opening(id)[..2][..1] == [Connect];
    assert RunFrom(b, [Connect]) == one by { RunOne(b, Connect); }
    assert RunFrom(b, Opening(id)[..2]) == two;
  }

  /** The old read is repeated: an accepted payload, a fault of the pump, a heartbeat. */
  lemma OldReadIsRepeated(bufferSize: nat)
    ensures Accepts(SamplePayload(1, SOON).wire)
    ensures var front := Opening(1) + [PumpFault("redis_unavailable")];
            var w := Run(bufferSize, front);
            var again := [Heartbeat(SOON)];
            && w.lost && Unconfirmed(w, again) && Emits(w, again) && Steady(SOON.mono, front + again)
            && ShowsPayload(RunFrom(w, again).log[|RunFrom(w, again).log| - 1], SamplePayload(1, SOON))
  {
    hide Opening, Apply, Sample, Steady, Standing, HubRead.IsFresh, Watched;
    SampleIsAccepted(1, SOON);
    var front := Opening(1) + [PumpFault("redis_unavailable")];
    RunIsFromBegin(bufferSize, front);
    OpeningShows(bufferSize, 1);
    var shown := RunFrom(Begin(bufferSize), Opening(1));
    RunFromSplits(Begin(bufferSize), Opening(1), [PumpFault("redis_unavailable")]);
    RunOne(shown, PumpFault("redis_unavailable"));
    FaultKeepsShown(shown, 1, SOON);
    HeartbeatRepeats(Run(bufferSize, front), SOON);
    HeartbeatShows(Run(bufferSize, front), SOON);
    OpeningStands(1);
    StandingIsSteadyFrom(SOON.mono, front + [Heartbeat(SOON)], SOON);
  }

  lemma OpeningStands(id: int)
    ensures Standing(Opening(id) + [PumpFault("redis_unavailable")] + [Heartbeat(SOON)], SOON)
    ensures Standing(Opening(id), SOON)
    ensures Standing([ExpireTick(LATER)] + [PumpFault("redis_unavailable")] + Relapse(), LATER)
  {
    hide Sample;
  }

  lemma FaultKeepsShown(w: Watch, id: int, at: Stamp)
    requires Showing(w.hub, id, at)
    ensures var t := Watched(w, PumpFault("redis_unavailable"));
            && t.lost && t.hub == w.hub.(line := Reading([Fault("redis_unavailable")], true))
  {
    hide Sample;
  }

  lemma HeartbeatShows(w: Watch, at: Stamp)
    requires w.hub.snapshot.read.Some? && w.hub.snapshot.read.value.IsFresh(at)
    ensures var log := RunFrom(w, [Heartbeat(at)]).log;
            EndsShowing(log, |w.log|, w.hub.snapshot.read.value.payload)
  {
    hide OfferedAll, Adopts, HubRead.IsFresh;
    RunOne(w, Heartbeat(at));
    assert Apply(w.hub, Heartbeat(at)) == Emit(w.hub, w.hub.snapshot.read, w.hub.snapshot.reason, false);
  }

  /** The connection is lost and made again; the cache answers with an older publication, then a newer message comes. */
  function Relapse(): seq<Step> {
    [Take(LATER), FailOver, Connect, Subscribed(LATER), ReplyWith(1, LATER),
     PumpMessage(Some(SamplePayload(3, LATER)), LATER), Take(LATER)]
  }

  /** Trusted and empty: the sample with that identity was the newest, and has expired. */
  predicate Trusting(h: Hub, id: int) {
    && !h.needsAuthoritative && h.conflicted.None? && h.snapshot.read.None?
    && h.producer.Some? && h.producer.value.run == 1 && h.producer.value.id == id
  }

  lemma ExpiryEmpties(w: Watch, id: int)
    requires Showing(w.hub, id, SOON)
    ensures var t := Watched(w, ExpireTick(LATER));
            t.hub.line == Reading([], false) && Trusting(t.hub, id) && t.hub.bufferSize == w.hub.bufferSize
  {
    hide OfferedAll, Sample, HubRead.IsFresh;
  }

  lemma FaultIsTaken(w: Watch, id: int)
    requires w.hub.line == Reading([Fault("redis_unavailable")], true) && Trusting(w.hub, id)
    ensures var failed := Watched(w, Take(LATER));
            var down := Watched(failed, FailOver);
            var linked := Watched(down, Connect);
            var t := Watched(linked, Subscribed(LATER));
            && t.hub.line == Fetching([], false, LATER) && Trusting(t.hub, id) && t.hub.bufferSize == w.hub.bufferSize
            && !Adopted(w.hub, Take(LATER)) && !Adopted(failed.hub, FailOver) && !Adopted(down.hub, Connect)
            && !Adopted(linked.hub, Subscribed(LATER))
  {
    hide OfferedAll, Adopts;
  }

  lemma RegressionIsRefused(h: Hub)
    requires h.line == Fetching([], false, LATER) && Trusting(h, 2)
    ensures var step := ReplyWith(1, LATER);
            var a := Apply(h, step);
            Confirmed(h, step) && !Adopted(h, step) && a.line == Reading([], false) && Trusting(a, 2)
                && a.bufferSize == h.bufferSize
  {
    hide OfferedAll, Sample, BoundPayload, Adopt, HubRead.IsFresh;
    SampleBinds(1, 1, 1, LATER);
    SampleId(1, LATER);
  }

  lemma NewerIsShown(h: Hub)
    requires h.line == Reading([Message(Some(SamplePayload(3, LATER)), LATER)], false) && Trusting(h, 2)
    ensures var a := Apply(h, Take(LATER));
            && a.snapshot.read.Some? && a.snapshot.read.value.payload == SamplePayload(3, LATER)
            && a.sequence == h.sequence + 1
  {
    hide OfferedAll, Sample, BoundPayload, HubRead.IsFresh;
    SampleBinds(1, 3, 3, LATER);
    SampleId(3, LATER);
  }

  /**
   A new read without an adopted reply: the snapshot is empty at the fault and the cache answers
   with an older publication.
   */
  lemma RefusedReplyRestoresTrust(bufferSize: nat)
    requires bufferSize >= 1
    ensures forall id :: id >= 1 ==> Accepts(SamplePayload(id, SOON).wire) && Accepts(SamplePayload(id, LATER).wire)
    ensures var front := Opening(2) + [ExpireTick(LATER)] + [PumpFault("redis_unavailable")];
            var w := Run(bufferSize, front);
            && Steady(SOON.mono, front + Relapse())
            && w.lost && w.hub.snapshot.read.None? && NoneAdopted(w, Relapse()) && EmitsNew(w, Relapse())
            && EndsShowing(RunFrom(w, Relapse()).log, |w.log|, SamplePayload(3, LATER))
  {
    hide Opening, Apply, Sample, Confirmed, Adopted, EndsShowing, EmitsNew, ReplyWith, Steady, Relapse;
    forall id | id >= 1
      ensures Accepts(SamplePayload(id, SOON).wire) && Accepts(SamplePayload(id, LATER).wire)
    {
      SampleIsAccepted(id, SOON);
      SampleIsAccepted(id, LATER);
    }
    var w := FaultWhileEmpty(bufferSize);
    RelapseShows(w);
    RelapseIsSteady();
  }

  lemma RelapseIsSteady()
    ensures Steady(SOON.mono, Opening(2) + [ExpireTick(LATER)] + [PumpFault("redis_unavailable")] + Relapse())
  {
    hide Opening, Relapse, Standing, Steady;
    OpeningStands(2);
    var rest := [ExpireTick(LATER)] + [PumpFault("redis_unavailable")] + Relapse();
    StandingTwice(SOON.mono, Opening(2), rest, SOON, LATER);
    assert Opening(2) + [ExpireTick(LATER)] + [PumpFault("redis_unavailable")] + Relapse() == Opening(2) + rest;
  }

  lemma FaultWhileEmpty(bufferSize: nat) returns (w: Watch)
    ensures w == Run(bufferSize, Opening(2) + [ExpireTick(LATER)] + [PumpFault("redis_unavailable")])
    ensures w.lost && w.hub.line == Reading([Fault("redis_unavailable")], true) && Trusting(w.hub, 2)
    ensures w.hub.bufferSize == bufferSize
  {
    hide Opening, Apply, Sample, Adopted;
    var b, tick, fault := Begin(bufferSize), ExpireTick(LATER), PumpFault("redis_unavailable");
    var front := Opening(2) + [tick] + [fault];
    w := Run(bufferSize, front);
    RunIsFromBegin(bufferSize, front);
    OpeningShows(bufferSize, 2);
    var shown := RunFrom(b, Opening(2));
    var empty := Watched(shown, tick);
    ExpiryEmpties(shown, 2);
    RunFromSplits(b, Opening(2), [tick]);
    RunFromSplits(b, Opening(2) + [tick], [fault]);
    RunOne(shown, tick);
    RunOne(empty, fault);
    FaultIsQueued(empty);
  }

  lemma FaultIsQueued(w: Watch)
    requires w.hub.line == Reading([], false)
    ensures var t := Watched(w, PumpFault("redis_unavailable"));
            t.lost && t.hub == w.hub.(line := Reading([Fault("redis_unavailable")], true))
  {
  }

  lemma RelapseShows(w: Watch)
    requires w.hub.line == Reading([Fault("redis_unavailable")], true) && Trusting(w.hub, 2) && w.hub.bufferSize >= 1
    ensures NoneAdopted(w, Relapse()) && EmitsNew(w, Relapse())
    ensures EndsShowing(RunFrom(w, Relapse()).log, |w.log|, SamplePayload(3, LATER))
  {
    hide Apply, Sample, Leads, Adopted, ShowsPayload, ReplyWith, SamplePayload, EmitsNew;
    var failed := Watched(w, Take(LATER));
    var down := Watched(failed, FailOver);
    var linked := Watched(down, Connect);
    var fetching := Watched(linked, Subscribed(LATER));
    var refused := Watched(fetching, ReplyWith(1, LATER));
    var message := PumpMessage(Some(SamplePayload(3, LATER)), LATER);
    var queued := Watched(refused, message);
    FaultIsTaken(w, 2);
    RegressionIsRefused(fetching.hub);
    MessageIsQueued(refused, Some(SamplePayload(3, LATER)), LATER);
    NewerIsShown(queued.hub);
    ShowsLast(queued, LATER, SamplePayload(3, LATER));
    LeadsFive(w, Take(LATER), FailOver, Connect, Subscribed(LATER), ReplyWith(1, LATER));
    var five := [Take(LATER), FailOver, Connect, Subscribed(LATER), ReplyWith(1, LATER)];
    LeadsOn(w, five, refused, message);
    LeadsOn(w, five + [message], queued, Take(LATER));
    assert five + [message] + [Take(LATER)] == Relapse();
    LeadsParts(w, five + [message], queued);
    LeadsParts(w, Relapse(), Watched(queued, Take(LATER)));
    EndsNew(w, Relapse(), |queued.log|, SamplePayload(3, LATER));
  }
}
