/**
 What the hub can expose over any run of its steps, and what each client receives.
 */
module StreamExposure {
  import opened Core
  import opened GhostTwap
  import opened GhostPayload
  import opened StreamHub

  // ---------------------------------------------------------------- exposure log

  /** Everything ever emitted; eras are separated by the confirmation of another producer run. */
  datatype Entry = Shown(update: Update, era: nat) | Conflict(id: int, era: nat)

  /** `lost` holds from a subscriber fault until the next usable authoritative read, adopted or not. */
  datatype Watch = Watch(hub: Hub, era: nat, log: seq<Entry>, lost: bool)

  function Begin(bufferSize: nat): Watch { Watch(Start(bufferSize), 0, [], true) }

  function RunOf(h: Hub): Option<int> { if h.producer.Some? then Some(h.producer.value.run) else None }

  predicate FaultyLine(line: Line) {
    line.Down? || line.Subscribing? || line.Failed? || line.faulted
  }

  /** The read a reply carries, once parsed, bound and capped by its TTL. */
  function ReadOf(h: Hub, step: Step): Option<HubRead> {
    if step.Replies? && h.line.Fetching? && !h.line.faulted && step.reply.Present? && h.line.start.NotAfter(step.end)
       && step.reply.ttlMs > 0 && BoundPayload(step.reply.payload, step.end).Some?
    then Some(Shortened(BoundPayload(step.reply.payload, step.end).value,
                        step.end.mono + Max(0, TtlLeft(step.reply.ttlMs, h.line.start, step.end))))
    else None
  }

  /** A usable authoritative read completed. */
  predicate Confirmed(h: Hub, step: Step) { ReadOf(h, step).Some? }

  function Watched(w: Watch, step: Step): Watch {
    var a := Apply(w.hub, step);
    var era := if RunOf(a) != RunOf(w.hub) then w.era + 1 else w.era;
    var conflict := if a.conflicted != w.hub.conflicted && a.conflicted.Some?
      then [Conflict(a.conflicted.value.1, era)] else [];
    var shown := if a.sequence != w.hub.sequence then [Shown(a.snapshot, era)] else [];
    Watch(a, era, w.log + conflict + shown,
          if Confirmed(w.hub, step) then false else w.lost || FaultyLine(a.line))
  }

  function Run(bufferSize: nat, steps: seq<Step>): Watch {
    if steps == [] then Begin(bufferSize)
    else Watched(Run(bufferSize, steps[..|steps| - 1]), steps[|steps| - 1])
  }

  // ---------------------------------------------------------------- one step

  /** The snapshot shows the newest accepted identity with the bound it was accepted with. */
  predicate Anchored(h: Hub) {
    h.snapshot.read.Some? ==>
      && h.producer.Some?
      && (var p, r := h.producer.value, h.snapshot.read.value;
          p == Producer(r.payload.run, r.payload.wire.id, r.payload.raw, r.read.deadlineMonoNs)
          && h.conflicted != Some((p.run, p.id)))
  }

  /** A conflict concerns the confirmed run and is not newer than its newest identity. */
  predicate ConflictKnown(h: Hub) {
    h.conflicted.Some? ==> h.producer.Some? && h.conflicted.value.0 == h.producer.value.run
                           && h.conflicted.value.1 <= h.producer.value.id
  }

  predicate HubOk(h: Hub) {
    && Anchored(h) && ConflictKnown(h) && h.snapshot.sequence == h.sequence && h.snapshot.generation <= h.generation
  }

  /** How one step may change producer, conflict and snapshot. */
  predicate Progress(h: Hub, a: Hub) {
    && h.sequence <= a.sequence <= h.sequence + 1 && h.generation <= a.generation
    && (a.sequence == h.sequence ==> a.snapshot == h.snapshot)
    && (a.sequence != h.sequence ==> a.snapshot.sequence == a.sequence && a.snapshot.generation == a.generation)
    && (h.producer.Some? ==> a.producer.Some?)
    && (RunOf(a) == RunOf(h) && h.producer.Some? ==>
          && (a.producer.value.id > h.producer.value.id
              || (a.producer.value.id == h.producer.value.id && a.producer.value.raw == h.producer.value.raw
                  && a.producer.value.deadlineNs <= h.producer.value.deadlineNs))
          && (a.conflicted == h.conflicted
              || (a.conflicted == Some((h.producer.value.run, h.producer.value.id)) && a.snapshot.read.None?)))
    && (RunOf(a) != RunOf(h) ==> a.conflicted.None? && a.sequence != h.sequence
                                 && (h.producer.Some? ==> a.generation > h.generation))
    && (a.producer.None? ==> a.conflicted == h.conflicted)
  }

  lemma AdoptKeeps(h: Hub, r: HubRead, resync: bool, now: Stamp)
    requires h.conflicted != Some((r.payload.run, r.payload.wire.id))
    requires h.conflicted.Some? ==> h.conflicted.value.0 == r.payload.run && h.conflicted.value.1 <= r.payload.wire.id
    ensures var a := Adopt(h, r, resync, now);
            && HubOk(a) && a.sequence == h.sequence + 1 && a.generation == h.generation && a.conflicted == h.conflicted
            && a.snapshot.generation == a.generation
            && a.producer == Some(Producer(r.payload.run, r.payload.wire.id, r.payload.raw, r.read.deadlineMonoNs))
            && !a.needsAuthoritative && a.line == h.line
            && (a.snapshot.read.Some? ==> a.snapshot.read == Some(r))
  {
    hide HubRead.IsFresh, OfferedAll;
  }

  lemma AcceptProgress(h: Hub, r: HubRead, authoritative: bool, resync: bool, now: Stamp)
    requires HubOk(h)
    ensures var (a, raised) := Accept(h, r, authoritative, resync, now);
            HubOk(a) && Progress(h, a) && a.line == h.line && (raised ==> a == h && !authoritative)
  {
    hide HubRead.IsFresh, OfferedAll, Adopt;
    var p := r.payload;
    if h.conflicted != Some((p.run, p.wire.id)) {
      if h.producer.Some? && p.run == h.producer.value.run {
        if p.wire.id >= h.producer.value.id {
          AdoptKeeps(h, Shortened(r, h.producer.value.deadlineNs), resync, now);
          AdoptKeeps(h, r, resync, now);
        }
      } else {
        var generation := if h.producer.Some? then h.generation + 1 else h.generation;
        AdoptKeeps(h.(generation := generation, conflicted := None), r, resync, now);
      }
    }
  }

  lemma ExpireProgress(h: Hub, now: Stamp)
    requires HubOk(h)
    ensures HubOk(Expire(h, now)) && Progress(h, Expire(h, now)) && Expire(h, now).line == h.line
    ensures Expire(h, now).snapshot.read.Some? ==> Expire(h, now) == h
    ensures Expire(h, now).producer == h.producer
  {
    hide HubRead.IsFresh, OfferedAll;
  }

  /** Nothing but expiry happened: the same snapshot, or an empty one in place of a read. */
  predicate OnlyExpired(h: Hub, a: Hub) {
    && a == h.(clients := a.clients, sequence := a.sequence, snapshot := a.snapshot)
    && ((a.sequence == h.sequence && a.snapshot == h.snapshot)
        || (a.sequence == h.sequence + 1 && h.snapshot.read.Some? && a.snapshot.read.None?
            && a.snapshot.sequence == a.sequence && a.snapshot.generation == a.generation))
  }

  lemma ExpireOnly(h: Hub, now: Stamp)
    ensures OnlyExpired(h, Expire(h, now))
  {
    hide HubRead.IsFresh, OfferedAll;
  }

  lemma ExpiredThrough(h: Hub, mid: Hub, a: Hub)
    requires OnlyExpired(h, mid) && OnlyExpired(mid, a)
    ensures OnlyExpired(h, a)
  {
  }

  lemma ExpiredProgress(h: Hub, a: Hub)
    requires HubOk(h) && OnlyExpired(h, a)
    ensures HubOk(a) && Progress(h, a)
  {
  }

  lemma NextProgress(h: Hub, c: int, first: Stamp, second: Stamp, third: Stamp)
    requires HubOk(h)
    ensures var a := Next(h, c, first, second, third).0; HubOk(a) && Progress(h, a) && OnlyExpired(h, a)
  {
    hide Expire, HubOk, Progress, HubRead.IsFresh;
    var e := Expire(h, first);
    ExpireOnly(h, first);
    if c in e.clients && e.clients[c].slot.Some? {
      var taken := Expire(Emptied(e, c), second);
      ExpireOnly(Emptied(e, c), second);
      ExpiredThrough(h, e, Emptied(e, c));
      ExpiredThrough(h, Emptied(e, c), taken);
      var latest := Expire(taken, third);
      ExpireOnly(taken, third);
      ExpiredThrough(h, taken, latest);
    }
    ExpiredProgress(h, Next(h, c, first, second, third).0);
  }

  lemma SlotsDoNotMatter(h: Hub, a: Hub)
    requires a == h.(clients := a.clients)
    ensures HubOk(h) <==> HubOk(a)
  {
  }

  lemma LineKeeps(h: Hub, line: Line)
    requires HubOk(h)
    ensures HubOk(h.(line := line)) && Progress(h, h.(line := line))
  {
  }

  lemma ProgressFrom(h: Hub, mid: Hub, a: Hub)
    requires mid == h.(line := mid.line, needsAuthoritative := mid.needsAuthoritative) && Progress(mid, a)
    ensures Progress(h, a)
  {
  }

  lemma FetchedProgress(h: Hub, reply: Reply, end: Stamp, now: Stamp)
    requires HubOk(h) && h.line.Fetching?
    ensures HubOk(Fetched(h, reply, end, now)) && Progress(h, Fetched(h, reply, end, now))
  {
    hide HubRead.IsFresh, OfferedAll, Accept, BoundPayload, Shortened;
    var reading := h.(line := Reading(h.line.queue, h.line.faulted));
    LineKeeps(h, reading.line);
    if reply.Present? && reply.ttlMs > 0 && BoundPayload(reply.payload, end).Some? {
      var capped := Shortened(BoundPayload(reply.payload, end).value,
                              end.mono + Max(0, TtlLeft(reply.ttlMs, h.line.start, end)));
      AcceptProgress(reading, capped, true, true, now);
      ProgressFrom(h, reading, Accept(reading, capped, true, true, now).0);
    }
  }

  lemma TakenProgress(h: Hub, now: Stamp)
    requires HubOk(h)
    ensures HubOk(Taken(h, now)) && Progress(h, Taken(h, now))
  {
    hide HubRead.IsFresh, OfferedAll, Accept, BoundPayload;
    if h.line.Reading? && h.line.queue != [] {
      var rest := h.(line := Reading(h.line.queue[1..], h.line.faulted));
      LineKeeps(h, rest.line);
      if h.line.queue[0].Message? {
        var bound := BoundPayload(h.line.queue[0].payload, h.line.queue[0].at);
        if bound.Some? {
          AcceptProgress(rest, bound.value, false, false, now);
          ProgressFrom(h, rest, Accept(rest, bound.value, false, false, now).0);
        }
      }
    }
  }

  lemma BeatProgress(h: Hub, now: Stamp)
    requires HubOk(h)
    ensures HubOk(Beat(h, now)) && Progress(h, Beat(h, now))
  {
    hide HubRead.IsFresh, OfferedAll;
  }

  /** A heartbeat repeats a fresh read, and else shows nothing. */
  lemma BeatRepeats(h: Hub, now: Stamp)
    ensures var a := Beat(h, now);
            && a == h.(clients := a.clients, sequence := h.sequence + 1, snapshot := a.snapshot)
            && a.snapshot.read == if h.snapshot.read.Some? && h.snapshot.read.value.IsFresh(now) then h.snapshot.read
                                  else None
  {
    hide HubRead.IsFresh, OfferedAll;
  }

  lemma StepProgress(h: Hub, step: Step)
    requires HubOk(h)
    ensures HubOk(Apply(h, step)) && Progress(h, Apply(h, step))
  {
    hide HubRead.IsFresh, OfferedAll, Fetched, Taken, Next, Expire, Beat;
    match step
    case Replies(reply, end, at) => if h.line.Fetching? { FetchedProgress(h, reply, end, at); }
    case Take(at) => TakenProgress(h, at);
    case Heartbeat(at) => BeatProgress(h, at);
    case ExpireTick(at) => ExpireProgress(h, at);
    case Register(client, at) => ExpireProgress(h, at);
    case NextCall(client, first, second, third) => NextProgress(h, client, first, second, third);
    case _ =>
  }

  // ---------------------------------------------------------------- the log stays ordered

  /** Two log entries in order: one run per era, growing identities, one byte string each, no later bound. */
  predicate Related(x: Entry, y: Entry) {
    match (x, y)
    case (Shown(u, e), Shown(v, f)) =>
      (u.read.Some? && v.read.Some? ==>
         (var r, q := u.read.value, v.read.value;
          && (u.generation == v.generation ==> e == f)
          && (e == f ==>
                && q.payload.run == r.payload.run && r.payload.wire.id <= q.payload.wire.id
                && (r.payload.wire.id == q.payload.wire.id ==>
                      q.payload.raw == r.payload.raw && q.read.deadlineMonoNs <= r.read.deadlineMonoNs))))
    case (Conflict(id, e), Shown(v, f)) => e == f && v.read.Some? ==> v.read.value.payload.wire.id != id
    case _ => true
  }

  /** Where an entry stands against the hub's present state. */
  predicate Bounded(x: Entry, h: Hub, era: nat) {
    match x
    case Shown(u, e) =>
      u.read.Some? ==>
        && h.producer.Some? && e <= era && u.generation <= h.generation && (u.generation == h.generation ==> e == era)
        && (e == era ==>
              (var r, p := u.read.value, h.producer.value;
               && r.payload.run == p.run && r.payload.wire.id <= p.id
               && (r.payload.wire.id == p.id ==> r.payload.raw == p.raw && p.deadlineNs <= r.read.deadlineMonoNs)))
    case Conflict(id, e) =>
      && h.producer.Some? && e <= era
      && (e == era ==> id < h.producer.value.id
                       || (id == h.producer.value.id && h.conflicted == Some((h.producer.value.run, id))))
  }

  predicate WatchOk(w: Watch) {
    && HubOk(w.hub)
    && (forall i | 0 <= i < |w.log| :: Bounded(w.log[i], w.hub, w.era))
    && (forall i, j | 0 <= i < j < |w.log| :: Related(w.log[i], w.log[j]))
  }

  lemma BoundedStays(x: Entry, h: Hub, a: Hub, era: nat)
    requires HubOk(h) && HubOk(a) && Progress(h, a) && Bounded(x, h, era)
    ensures Bounded(x, a, if RunOf(a) != RunOf(h) then era + 1 else era)
  {
  }

  lemma NewIsBounded(h: Hub, a: Hub, era: nat)
    requires HubOk(h) && HubOk(a) && Progress(h, a)
    ensures a.conflicted != h.conflicted && a.conflicted.Some? ==> Bounded(Conflict(a.conflicted.value.1, era), a, era)
    ensures a.sequence != h.sequence ==> Bounded(Shown(a.snapshot, era), a, era)
  {
  }

  lemma NewGeneration(h: Hub, a: Hub)
    requires Progress(h, a) && a.sequence != h.sequence
    ensures a.snapshot.generation == a.generation
  {
  }

  lemma NewIsRelated(x: Entry, a: Hub, era: nat)
    requires HubOk(a) && Bounded(x, a, era)
    ensures a.snapshot.generation == a.generation ==> Related(x, Shown(a.snapshot, era))
    ensures forall id :: Related(x, Conflict(id, era))
  {
  }

  lemma AppendKeeps(log: seq<Entry>, x: Entry, h: Hub, era: nat)
    requires forall i | 0 <= i < |log| :: Bounded(log[i], h, era) && Related(log[i], x)
    requires forall i, j | 0 <= i < j < |log| :: Related(log[i], log[j])
    requires Bounded(x, h, era)
    ensures forall i | 0 <= i < |log + [x]| :: Bounded((log + [x])[i], h, era)
    ensures forall i, j | 0 <= i < j < |log + [x]| :: Related((log + [x])[i], (log + [x])[j])
  {
    hide Bounded, Related;
  }

  lemma StepKeepsWatch(w: Watch, step: Step)
    requires WatchOk(w)
    ensures WatchOk(Watched(w, step))
  {
    hide HubOk, Bounded, Related, Apply, Confirmed, Progress;
    var a, t := Apply(w.hub, step), Watched(w, step);
    StepProgress(w.hub, step);
    forall i | 0 <= i < |w.log| ensures Bounded(w.log[i], a, t.era) { BoundedStays(w.log[i], w.hub, a, w.era); }
    NewIsBounded(w.hub, a, t.era);
    var log := w.log;
    if a.conflicted != w.hub.conflicted && a.conflicted.Some? {
      var x := Conflict(a.conflicted.value.1, t.era);
      forall i | 0 <= i < |log| ensures Related(log[i], x) { NewIsRelated(log[i], a, t.era); }
      AppendKeeps(log, x, a, t.era);
      log := log + [x];
    }
    if a.sequence != w.hub.sequence {
      assert a.snapshot.generation == a.generation by { NewGeneration(w.hub, a); }
      forall i | 0 <= i < |log| ensures Related(log[i], Shown(a.snapshot, t.era)) { NewIsRelated(log[i], a, t.era); }
      AppendKeeps(log, Shown(a.snapshot, t.era), a, t.era);
      log := log + [Shown(a.snapshot, t.era)];
    }
    assert t.log == log;
  }

  /**
   Hub exposure: over every run of steps, entries of one generation show one producer run
   with growing decision identities and one byte string per identity; while that run
   stays confirmed a conflicted identity is never shown again and the bound of an
   identity never moves later.
   */
  lemma {:induction false} ExposureIsOrdered(bufferSize: nat, steps: seq<Step>)
    ensures WatchOk(Run(bufferSize, steps))
  {
    hide WatchOk, Watched;
    if steps == [] {
      assert WatchOk(Begin(bufferSize)) by { BeginIsOk(bufferSize); }
    } else {
      ExposureIsOrdered(bufferSize, steps[..|steps| - 1]);
      StepKeepsWatch(Run(bufferSize, steps[..|steps| - 1]), steps[|steps| - 1]);
    }
  }

  lemma BeginIsOk(bufferSize: nat)
    ensures WatchOk(Begin(bufferSize))
  {
  }

  // ---------------------------------------------------------------- after a fault

  /** A faulted queue holds the fault alone; without a confirmed read the line is not trusted. */
  predicate FenceOk(w: Watch) {
    && (w.hub.line.Fetching? || w.hub.line.Reading? ==>
          w.hub.line.faulted ==> |w.hub.line.queue| == 1 && w.hub.line.queue[0].Fault?)
    && (w.lost && w.hub.line.Reading? ==> w.hub.line.faulted || w.hub.needsAuthoritative)
  }

  lemma AcceptKeepsLine(h: Hub, r: HubRead, authoritative: bool, resync: bool, now: Stamp)
    ensures var a := Accept(h, r, authoritative, resync, now).0;
            a.line == h.line && (h.needsAuthoritative || !a.needsAuthoritative)
  {
    hide HubRead.IsFresh, OfferedAll;
  }

  lemma StepKeepsFence(w: Watch, step: Step)
    requires FenceOk(w)
    ensures FenceOk(Watched(w, step))
  {
    hide HubRead.IsFresh, OfferedAll, Accept, BoundPayload, Shortened, Next, Expire, Beat;
    var h := w.hub;
    match step
    case Heartbeat(at) => BeatRepeats(h, at);
    case Replies(reply, end, at) =>
      if h.line.Fetching? { FetchedKeepsFence(w, step); }
    case Take(at) => TakenKeepsFence(w, at);
    case ExpireTick(at) => ExpireKeepsLine(h, at);
    case Register(_, at) => ExpireKeepsLine(h, at);
    case NextCall(c, first, second, third) => NextKeepsLine(h, c, first, second, third);
    case _ =>
  }

  lemma ExpireKeepsLine(h: Hub, now: Stamp)
    ensures Expire(h, now).line == h.line && Expire(h, now).needsAuthoritative == h.needsAuthoritative
  {
    hide HubRead.IsFresh, OfferedAll;
  }

  lemma NextKeepsLine(h: Hub, c: int, first: Stamp, second: Stamp, third: Stamp)
    ensures var a := Next(h, c, first, second, third).0;
            a.line == h.line && a.needsAuthoritative == h.needsAuthoritative
  {
    hide HubRead.IsFresh, OfferedAll;
  }

  lemma FetchedKeepsFence(w: Watch, step: Step)
    requires FenceOk(w) && step.Replies? && w.hub.line.Fetching?
    ensures FenceOk(Watched(w, step))
  {
    hide HubRead.IsFresh, OfferedAll, Accept, BoundPayload, Shortened;
    var h := w.hub;
    var reading := h.(line := Reading(h.line.queue, h.line.faulted));
    if step.reply.Present? && BoundPayload(step.reply.payload, step.end).Some? {
      AcceptKeepsLine(reading, Shortened(BoundPayload(step.reply.payload, step.end).value,
                                         step.end.mono + Max(0, TtlLeft(step.reply.ttlMs, h.line.start, step.end))),
                      true, true, step.at);
    }
  }

  lemma TakenKeepsFence(w: Watch, now: Stamp)
    requires FenceOk(w)
    ensures FenceOk(Watched(w, Take(now)))
  {
    hide HubRead.IsFresh, OfferedAll, Accept, BoundPayload;
    var h := w.hub;
    if h.line.Reading? && h.line.queue != [] && h.line.queue[0].Message? {
      var rest := h.(line := Reading(h.line.queue[1..], h.line.faulted));
      var bound := BoundPayload(h.line.queue[0].payload, h.line.queue[0].at);
      if bound.Some? { AcceptKeepsLine(rest, bound.value, false, false, now); }
    }
  }

  /** One step between a fault and the next usable authoritative read. */
  lemma LostStep(w: Watch, step: Step)
    requires FenceOk(w) && HubOk(w.hub) && w.lost && !Confirmed(w.hub, step)
    ensures var a := Apply(w.hub, step);
            && (a.snapshot.read.Some? ==> a.snapshot.read == w.hub.snapshot.read)
            && (a.sequence != w.hub.sequence && a.snapshot.read.Some? <==>
                  step.Heartbeat? && w.hub.snapshot.read.Some? && w.hub.snapshot.read.value.IsFresh(step.at))
            && (step == PumpAck && Pumping(w.hub.line) ==> a.snapshot.read.None?)
            && (step == FailOver && w.hub.line.Failed? ==> a.snapshot.read.None?)
  {
    hide HubRead.IsFresh, OfferedAll, Accept, BoundPayload, Shortened, Next, Expire, Beat;
    var h := w.hub;
    match step
    case Heartbeat(at) => BeatRepeats(h, at);
    case ExpireTick(at) => ExpireProgress(h, at);
    case Register(_, at) => ExpireProgress(h, at);
    case NextCall(c, first, second, third) => NextProgress(h, c, first, second, third);
    case _ =>
  }

  function RunFrom(w: Watch, steps: seq<Step>): Watch {
    if steps == [] then w else Watched(RunFrom(w, steps[..|steps| - 1]), steps[|steps| - 1])
  }

  /** No usable authoritative read completes during these steps. */
  predicate Unconfirmed(w: Watch, steps: seq<Step>) {
    steps != [] ==>
      && Unconfirmed(w, steps[..|steps| - 1])
      && !Confirmed(RunFrom(w, steps[..|steps| - 1]).hub, steps[|steps| - 1])
  }

  /**
   After a subscriber fault, until a usable authoritative read completes, no new read is
   shown: whatever the hub emits is empty or repeats the read it was showing at the fault.
   */
  lemma {:induction false} NothingNewAfterAFault(w: Watch, steps: seq<Step>)
    requires WatchOk(w) && FenceOk(w) && w.lost && Unconfirmed(w, steps)
    ensures var t := RunFrom(w, steps);
            && WatchOk(t) && FenceOk(t) && t.lost
            && (t.hub.snapshot.read.Some? ==> t.hub.snapshot.read == w.hub.snapshot.read)
  {
    hide WatchOk, FenceOk, Apply, Confirmed, HubOk;
    if steps != [] {
      var front, last := steps[..|steps| - 1], steps[|steps| - 1];
      NothingNewAfterAFault(w, front);
      var mid := RunFrom(w, front);
      assert HubOk(mid.hub) by { WatchHub(mid); }
      LostStep(mid, last);
      StepKeepsWatch(mid, last);
      StepKeepsFence(mid, last);
    }
  }

  lemma WatchHub(w: Watch)
    requires WatchOk(w)
    ensures HubOk(w.hub)
  {
  }

  lemma AckEmpties(w: Watch)
    requires Pumping(w.hub.line)
    ensures Watched(w, PumpAck).hub.snapshot.read.None? && Watched(w, PumpAck).lost
  {
    hide OfferedAll;
  }

  /** A resubscription acknowledgement empties the snapshot at once, so nothing at all is shown. */
  lemma ResubscriptionShowsNothing(w: Watch, steps: seq<Step>)
    requires WatchOk(w) && FenceOk(w) && Pumping(w.hub.line) && Unconfirmed(Watched(w, PumpAck), steps)
    ensures RunFrom(Watched(w, PumpAck), steps).hub.snapshot.read.None?
  {
    hide WatchOk, FenceOk, Confirmed, Watched;
    AckEmpties(w);
    StepKeepsWatch(w, PumpAck);
    StepKeepsFence(w, PumpAck);
    NothingNewAfterAFault(Watched(w, PumpAck), steps);
  }

  predicate Adopts(h: Hub, r: HubRead) {
    && h.conflicted != Some((r.payload.run, r.payload.wire.id))
    && (h.producer.Some? && h.producer.value.run == r.payload.run ==>
          h.producer.value.id < r.payload.wire.id
          || (h.producer.value.id == r.payload.wire.id && h.producer.value.raw == r.payload.raw))
  }

  // ---------------------------------------------------------------- clients

  /** What a client last received lies before anything it can receive next. */
  predicate Behind(h: Hub, c: int, last: int) {
    c in h.clients ==>
      && last <= h.snapshot.sequence
      && (h.clients[c].slot.Some? ==> last < h.clients[c].slot.value.sequence <= h.snapshot.sequence)
  }

  /** Nothing new, or one newer update offered to every client. */
  predicate OffersNext(h: Hub, a: Hub) {
    || (a.snapshot == h.snapshot && a.clients == h.clients)
    || (a.snapshot.sequence == h.sequence + 1 && a.clients == OfferedAll(h.clients, a.snapshot))
  }

  lemma OfferKeepsBehind(h: Hub, a: Hub, c: int, last: int)
    requires HubOk(h) && Behind(h, c, last) && OffersNext(h, a)
    ensures Behind(a, c, last)
  {
  }

  lemma ExpireKeepsBehind(h: Hub, now: Stamp, c: int, last: int)
    requires HubOk(h) && Behind(h, c, last)
    ensures Behind(Expire(h, now), c, last) && Expire(h, now).clients.Keys == h.clients.Keys
  {
    hide HubRead.IsFresh;
    OfferKeepsBehind(h, Expire(h, now), c, last);
  }

  /** Each delivery carries a strictly larger sequence number than the one before it. */
  lemma DeliveriesIncrease(h: Hub, c: int, first: Stamp, second: Stamp, third: Stamp, last: int)
    requires HubOk(h) && Behind(h, c, last)
    ensures var (a, u) := Next(h, c, first, second, third);
            if u.Some? then last < u.value.sequence && Behind(a, c, u.value.sequence) else Behind(a, c, last)
  {
    hide Expire, HubRead.IsFresh;
    var e := Expire(h, first);
    ExpireProgress(h, first);
    ExpireKeepsBehind(h, first, c, last);
    if c in e.clients && e.clients[c].slot.Some? {
      var u := e.clients[c].slot.value;
      var emptied := Emptied(e, c);
      SlotsDoNotMatter(e, emptied);
      ExpireProgress(emptied, second);
      ExpireKeepsBehind(emptied, second, c, u.sequence);
      var taken := Expire(emptied, second);
      ExpireProgress(taken, third);
      ExpireKeepsBehind(taken, third, c, u.sequence);
    }
  }

  lemma AdoptOffers(h: Hub, r: HubRead, resync: bool, now: Stamp)
    ensures OffersNext(h, Adopt(h, r, resync, now))
  {
    hide HubRead.IsFresh, OfferedAll;
  }

  lemma AcceptOffers(h: Hub, r: HubRead, authoritative: bool, resync: bool, now: Stamp)
    ensures OffersNext(h, Accept(h, r, authoritative, resync, now).0)
  {
    hide HubRead.IsFresh, OfferedAll, Adopt, Shortened;
    AdoptOffers(h, r, resync, now);
    if h.producer.Some? {
      AdoptOffers(h, Shortened(r, h.producer.value.deadlineNs), resync, now);
      AdoptOffers(h.(generation := h.generation + 1, conflicted := None), r, resync, now);
    } else {
      AdoptOffers(h.(generation := h.generation, conflicted := None), r, resync, now);
    }
  }

  lemma AcceptKeepsBehind(h: Hub, r: HubRead, authoritative: bool, resync: bool, now: Stamp, c: int, last: int)
    requires HubOk(h) && Behind(h, c, last)
    ensures Behind(Accept(h, r, authoritative, resync, now).0, c, last)
  {
    hide Accept, OffersNext, Behind, HubOk;
    AcceptOffers(h, r, authoritative, resync, now);
    OfferKeepsBehind(h, Accept(h, r, authoritative, resync, now).0, c, last);
  }

  lemma BeatKeepsBehind(h: Hub, now: Stamp, c: int, last: int)
    requires HubOk(h) && Behind(h, c, last)
    ensures Behind(Beat(h, now), c, last)
  {
    hide HubRead.IsFresh, OfferedAll, Behind;
    OfferKeepsBehind(h, Beat(h, now), c, last);
  }

  /** No other step lets a client fall behind what it already received; a fresh client has received nothing. */
  lemma StepKeepsBehind(h: Hub, step: Step, c: int, last: int)
    requires HubOk(h) && Behind(h, c, last) && !(step.NextCall? && step.client == c)
    requires step.Register? && step.client == c ==> c in h.clients || last < h.snapshot.sequence
    ensures Behind(Apply(h, step), c, last)
  {
    hide HubRead.IsFresh, Accept, BoundPayload, Shortened, Expire, OfferedAll, Next, Beat;
    match step
    case Heartbeat(at) => BeatKeepsBehind(h, at, c, last);
    case Replies(_, _, _) => ReplyKeepsBehind(h, step, c, last);
    case Take(at) => TakeKeepsBehind(h, at, c, last);
    case ExpireTick(at) => ExpireKeepsBehind(h, at, c, last);
    case Register(_, at) => ExpireKeepsBehind(h, at, c, last); ExpireProgress(h, at);
    case NextCall(other, first, second, third) => OtherDelivery(h, other, first, second, third, c, last);
    case Unregister(_) =>
    case _ => OfferKeepsBehind(h, Apply(h, step), c, last);
  }

  lemma ReplyKeepsBehind(h: Hub, step: Step, c: int, last: int)
    requires HubOk(h) && Behind(h, c, last) && step.Replies?
    ensures Behind(Apply(h, step), c, last)
  {
    hide HubRead.IsFresh, Accept, BoundPayload, Shortened, OfferedAll, Behind;
    if Confirmed(h, step) {
      var reading := h.(line := Reading(h.line.queue, h.line.faulted));
      SameClients(h, reading, c, last);
      AcceptKeepsBehind(reading, ReadOf(h, step).value, true, true, step.at, c, last);
    } else {
      OfferKeepsBehind(h, Apply(h, step), c, last);
    }
  }

  lemma TakeKeepsBehind(h: Hub, at: Stamp, c: int, last: int)
    requires HubOk(h) && Behind(h, c, last)
    ensures Behind(Taken(h, at), c, last)
  {
    hide HubRead.IsFresh, Accept, BoundPayload, OfferedAll, Behind;
    if h.line.Reading? && h.line.queue != [] {
      var rest := h.(line := Reading(h.line.queue[1..], h.line.faulted));
      SameClients(h, rest, c, last);
      if h.line.queue[0].Message? && BoundPayload(h.line.queue[0].payload, h.line.queue[0].at).Some? {
        AcceptKeepsBehind(rest, BoundPayload(h.line.queue[0].payload, h.line.queue[0].at).value, false, false, at, c,
                          last);
        OfferKeepsBehind(h, Emit(rest.(line := Fetching(rest.line.queue, rest.line.faulted, at)), None, "resyncing",
                                 true),
                         c, last);
      } else {
        OfferKeepsBehind(h, Taken(h, at), c, last);
      }
    } else {
      OfferKeepsBehind(h, h, c, last);
    }
  }

  lemma SameClients(h: Hub, a: Hub, c: int, last: int)
    requires HubOk(h) && Behind(h, c, last) && a == h.(line := a.line)
    ensures HubOk(a) && Behind(a, c, last)
  {
  }

  lemma OtherDelivery(h: Hub, other: int, first: Stamp, second: Stamp, third: Stamp, c: int, last: int)
    requires HubOk(h) && Behind(h, c, last) && other != c
    ensures Behind(Next(h, other, first, second, third).0, c, last)
  {
    hide Expire, HubRead.IsFresh;
    var e := Expire(h, first);
    ExpireProgress(h, first);
    ExpireKeepsBehind(h, first, c, last);
    if other in e.clients && e.clients[other].slot.Some? {
      var emptied := Emptied(e, other);
      SlotsDoNotMatter(e, emptied);
      ExpireProgress(emptied, second);
      ExpireKeepsBehind(emptied, second, c, last);
      var taken := Expire(emptied, second);
      ExpireKeepsBehind(taken, third, c, last);
    }
  }

  function HubAfter(h: Hub, steps: seq<Step>): Hub {
    if steps == [] then h else Apply(HubAfter(h, steps[..|steps| - 1]), steps[|steps| - 1])
  }

  /** The sequence numbers one client is handed over these steps. */
  function Received(h: Hub, steps: seq<Step>, c: int): seq<int> {
    if steps == [] then []
    else
      var front, last := steps[..|steps| - 1], steps[|steps| - 1];
      var delivered := if last.NextCall? && last.client == c
                       then Next(HubAfter(h, front), c, last.first, last.second, last.third).1 else None;
      Received(h, front, c) + (if delivered.Some? then [delivered.value.sequence] else [])
  }

  function LastOf(numbers: seq<int>, before: int): int {
    if numbers == [] then before else numbers[|numbers| - 1]
  }

  predicate Rising(numbers: seq<int>, before: int) {
    && (forall i | 0 <= i < |numbers| :: before < numbers[i])
    && (forall i, j | 0 <= i < j < |numbers| :: numbers[i] < numbers[j])
  }

  lemma RisingAppend(numbers: seq<int>, before: int, next: int)
    requires Rising(numbers, before) && LastOf(numbers, before) < next
    ensures Rising(numbers + [next], before) && LastOf(numbers + [next], before) == next
  {
  }

  /** A client, once registered, receives strictly increasing sequence numbers whatever else happens. */
  lemma {:induction false} ClientSeesRisingNumbers(h: Hub, steps: seq<Step>, c: int, before: int)
    requires HubOk(h) && Behind(h, c, before)
    requires forall i :: 0 <= i < |steps| ==> !(steps[i].Register? && steps[i].client == c)
    ensures Rising(Received(h, steps, c), before)
    ensures HubOk(HubAfter(h, steps)) && Behind(HubAfter(h, steps), c, LastOf(Received(h, steps, c), before))
  {
    hide HubOk, Behind, Next, Rising, LastOf;
    if steps == [] {
      assert Rising([], before) && LastOf([], before) == before by { NothingRises(before); }
    } else {
      var front, last := steps[..|steps| - 1], steps[|steps| - 1];
      ClientSeesRisingNumbers(h, front, c, before);
      var mid, newest := HubAfter(h, front), LastOf(Received(h, front, c), before);
      StepProgress(mid, last);
      if last.NextCall? && last.client == c {
        DeliveriesIncrease(mid, c, last.first, last.second, last.third, newest);
        var delivered := Next(mid, c, last.first, last.second, last.third).1;
        if delivered.Some? {
          RisingAppend(Received(h, front, c), before, delivered.value.sequence);
        } else {
          assert Received(h, steps, c) == Received(h, front, c);
        }
      } else {
        StepKeepsBehind(mid, last, c, newest);
        assert Received(h, steps, c) == Received(h, front, c);
      }
    }
  }

  lemma NothingRises(before: int)
    ensures Rising([], before) && LastOf([], before) == before
  {
  }
}
