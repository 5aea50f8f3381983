/**
 The read-only fan-out hub and its one-slot clients (price_collector/ghost_twap_stream.py)
 as atomic steps between awaits: the connection task, its pump, expiry, heartbeats and
 clients in any interleaving.
 */
module StreamHub {
  import opened Core
  import opened GhostTwap
  import opened GhostPayload

  /** A parsed payload; `raw` stands for its original bytes. */
  datatype Payload = Payload(run: int, raw: int, wire: Wire)

  datatype HubRead = HubRead(payload: Payload, read: Read) {
    predicate IsFresh(now: Stamp) { Remaining(read, now) > 0 }
  }

  datatype Update = Update(read: Option<HubRead>, reason: string, generation: int, sequence: int, resync: bool)

  datatype Client = Client(slot: Option<Update>, skipped: nat)

  /** The newest accepted identity of the confirmed producer run. */
  datatype Producer = Producer(run: int, id: int, raw: int, deadlineNs: int)

  datatype Item = Message(payload: Option<Payload>, at: Stamp) | Fault(reason: string)

  /** The connection task; once `faulted` its queue holds only the fault. */
  datatype Line =
    | Down
    | Subscribing
    | Fetching(queue: seq<Item>, faulted: bool, start: Stamp)
    | Reading(queue: seq<Item>, faulted: bool)
    | Failed(reason: string)

  datatype Hub = Hub(bufferSize: nat, generation: int, sequence: int, producer: Option<Producer>,
                     needsAuthoritative: bool, conflicted: Option<(int, int)>, snapshot: Update,
                     clients: map<int, Client>, line: Line)

  function Start(bufferSize: nat): Hub {
    Hub(bufferSize, 0, 0, None, true, None, Update(None, "awaiting_data", 0, 0, true), map[], Down)
  }

  // ---------------------------------------------------------------- updates

  /** The newest update replaces an undelivered one. */
  function Offered(c: Client, u: Update): Client {
    Client(Some(u), if c.slot.Some? then c.skipped + 1 else c.skipped)
  }

  function OfferedAll(clients: map<int, Client>, u: Update): map<int, Client> {
    map c | c in clients :: Offered(clients[c], u)
  }

  function Emit(h: Hub, read: Option<HubRead>, reason: string, resync: bool): Hub {
    var u := Update(read, reason, h.generation, h.sequence + 1, resync);
    h.(sequence := h.sequence + 1, snapshot := u,
       clients := OfferedAll(h.clients, u))
  }

  function Expire(h: Hub, now: Stamp): Hub {
    if h.snapshot.read.Some? && !h.snapshot.read.value.IsFresh(now) then Emit(h, None, "expired", false) else h
  }

  /** A heartbeat repeats the snapshot under its original bound, after the expiry check. */
  function Beat(h: Hub, now: Stamp): Hub {
    if h.snapshot.read.Some? && !h.snapshot.read.value.IsFresh(now) then Expire(h, now)
    else Emit(h, h.snapshot.read, h.snapshot.reason, false)
  }

  // ---------------------------------------------------------------- acceptance

  function Shortened(r: HubRead, deadlineNs: int): HubRead {
    r.(read := r.read.(deadlineMonoNs := Min(r.read.deadlineMonoNs, deadlineNs)))
  }

  /** Accepted as the newest of the run; shown only while fresh. */
  function Adopt(h: Hub, r: HubRead, resync: bool, now: Stamp): Hub {
    var adopted := h.(producer := Some(Producer(r.payload.run, r.payload.wire.id, r.payload.raw,
                                                r.read.deadlineMonoNs)),
                      needsAuthoritative := false);
    if !r.IsFresh(now) then Emit(adopted, None, "expired", resync)
    else Emit(adopted, Some(r), if r.payload.wire.eligible != [] then "fresh" else "no_eligible_horizons", resync)
  }

  /** The flag is the resynchronisation a foreign run demands of an unconfirmed read. */
  function Accept(h: Hub, r: HubRead, authoritative: bool, resync: bool, now: Stamp): (Hub, bool) {
    var p := r.payload;
    var identity := (p.run, p.wire.id);
    if h.conflicted == Some(identity) then (Emit(h, None, "conflicting_payload", resync), false)
    else if h.producer.Some? && p.run == h.producer.value.run then
      var known := h.producer.value;
      if p.wire.id < known.id then
        (if authoritative then Emit(h, None, "regressed_snapshot", resync) else h, false)
      else if p.wire.id == known.id then
        if p.raw != known.raw then
          (Emit(h.(conflicted := Some(identity)), None, "conflicting_payload", resync), false)
        else if !authoritative then (h, false)
        else (Adopt(h, Shortened(r, known.deadlineNs), resync, now), false)
      else (Adopt(h, r, resync, now), false)
    else if !authoritative then (h, true)
    else
      var generation := if h.producer.Some? then h.generation + 1 else h.generation;
      (Adopt(h.(generation := generation, conflicted := None), r, resync, now), false)
  }

  // ---------------------------------------------------------------- the connection

  /** What the GET and PTTL brought back. */
  datatype Reply =
    | Unreachable(reason: string)
    | Absent(ttlMinusTwo: bool)
    | Present(payload: Option<Payload>, ttlMs: int)

  /** Subtract the whole request and one millisecond of TTL granularity. */
  function TtlLeft(ttlMs: int, start: Stamp, end: Stamp): int {
    ttlMs * NS_PER_MS - Max(end.wall - start.wall, end.mono - start.mono) - NS_PER_MS
  }

  function BoundPayload(p: Option<Payload>, at: Stamp): Option<HubRead> {
    if p.None? || p.value.wire.attempted.None? then None
    else
      var bound := Bind(p.value.wire, at);
      if bound.None? then None else Some(HubRead(p.value, bound.value))
  }

  function Unusable(h: Hub, reason: string): Hub {
    Emit(h.(needsAuthoritative := true), None, reason, true)
  }

  /** The authoritative read completes; a fault raised meanwhile fences its result. */
  function Fetched(h: Hub, reply: Reply, end: Stamp, now: Stamp): Hub
    requires h.line.Fetching?
  {
    var reading := h.(line := Reading(h.line.queue, h.line.faulted));
    if reply.Unreachable? then h.(line := Failed(reply.reason))
    else if h.line.faulted then h.(line := Failed(FirstFault(h.line.queue)))
    else if !h.line.start.NotAfter(end) then h.(line := Failed("api_clock_regression"))
    else
      match reply
      case Absent(gone) => Unusable(reading, if gone then "absent" else "inconsistent_cache")
      case Present(payload, ttlMs) =>
        if ttlMs <= 0 then Unusable(reading, "invalid_cache_ttl")
        else
          var bound := BoundPayload(payload, end);
          if bound.None? then Unusable(reading, "invalid_payload")
          else
            var capped := Shortened(bound.value, end.mono + Max(0, TtlLeft(ttlMs, h.line.start, end)));
            Accept(reading, capped, true, true, now).0
      case Unreachable(_) => reading
  }

  function FirstFault(queue: seq<Item>): string {
    if queue != [] && queue[0].Fault? then queue[0].reason else "redis_unavailable"
  }

  /** The pump stops: its queue is replaced by the fault. */
  function Faulted(line: Line, reason: string): Line {
    match line
    case Fetching(_, _, start) => Fetching([Fault(reason)], true, start)
    case Reading(_, _) => Reading([Fault(reason)], true)
    case _ => line
  }

  predicate Pumping(line: Line) { (line.Fetching? || line.Reading?) && !line.faulted }

  function Queued(line: Line, item: Item): Line {
    match line
    case Fetching(queue, faulted, start) => Fetching(queue + [item], faulted, start)
    case Reading(queue, faulted) => Reading(queue + [item], faulted)
    case _ => line
  }

  function Pumped(h: Hub, item: Item): Hub {
    if !Pumping(h.line) then h
    else if |h.line.queue| >= h.bufferSize then h.(line := Faulted(h.line, "subscriber_buffer_overflow"))
    else h.(line := Queued(h.line, item))
  }

  /** A later subscription acknowledgement is a loss boundary: invalidate at once. */
  function Resubscribed(h: Hub): Hub {
    if !Pumping(h.line) then h
    else Emit(h.(needsAuthoritative := true, line := Faulted(h.line, "subscriber_reconnected")), None,
              "subscriber_reconnected", true)
  }

  /** The connection task takes the next queued item. */
  function Taken(h: Hub, now: Stamp): Hub {
    if !h.line.Reading? || h.line.queue == [] then h
    else
      var item := h.line.queue[0];
      var rest := h.(line := Reading(h.line.queue[1..], h.line.faulted));
      match item
      case Fault(reason) => h.(line := Failed(reason))
      case Message(payload, at) =>
        var bound := BoundPayload(payload, at);
        if bound.None? then Emit(rest, None, "invalid_payload", false)
        else if h.needsAuthoritative || h.producer.None? || bound.value.payload.run != h.producer.value.run then
          Emit(rest.(line := Fetching(rest.line.queue, rest.line.faulted, now)), None, "resyncing", true)
        else Accept(rest, bound.value, false, false, now).0
  }

  // ---------------------------------------------------------------- clients

  function Emptied(h: Hub, c: int): Hub
    requires c in h.clients
  {
    h.(clients := h.clients[c := h.clients[c].(slot := None)])
  }

  /**
   What `next` hands over, and the hub after it; None while the slot is empty. The clocks
   are read before taking the slot, after it, and for the final freshness check.
   */
  function Next(h: Hub, c: int, first: Stamp, second: Stamp, third: Stamp): (Hub, Option<Update>) {
    var e := Expire(h, first);
    if c !in e.clients || e.clients[c].slot.None? then (e, None)
    else
      var u := e.clients[c].slot.value;
      var taken := Expire(Emptied(e, c), second);
      if u.read.Some? && !u.read.value.IsFresh(third) then
        var latest := Expire(taken, third);
        (if c in latest.clients then Emptied(latest, c) else latest, Some(latest.snapshot))
      else (taken, Some(u))
  }

  // ---------------------------------------------------------------- steps

  datatype Step =
    | Connect
    | Subscribed(at: Stamp)
    | SubscribeFailed(reason: string)
    | PumpMessage(payload: Option<Payload>, at: Stamp)
    | PumpAck
    | PumpFault(reason: string)
    | Replies(reply: Reply, end: Stamp, at: Stamp)
    | Take(at: Stamp)
    | FailOver
    | Heartbeat(at: Stamp)
    | ExpireTick(at: Stamp)
    | Register(client: int, at: Stamp)
    | Unregister(client: int)
    | NextCall(client: int, first: Stamp, second: Stamp, third: Stamp)

  function Apply(h: Hub, step: Step): Hub {
    match step
    case Connect =>
      if h.line.Down? then Emit(h.(generation := h.generation + 1, line := Subscribing), None, "connecting", true)
      else h
    case Subscribed(at) => if h.line.Subscribing? then h.(line := Fetching([], false, at)) else h
    case SubscribeFailed(reason) => if h.line.Subscribing? then h.(line := Failed(reason)) else h
    case PumpMessage(payload, at) => Pumped(h, Message(payload, at))
    case PumpAck => Resubscribed(h)
    case PumpFault(reason) => if Pumping(h.line) then h.(line := Faulted(h.line, reason)) else h
    case Replies(reply, end, at) => if h.line.Fetching? then Fetched(h, reply, end, at) else h
    case Take(at) => Taken(h, at)
    case FailOver => if h.line.Failed? then Emit(h.(line := Down), None, h.line.reason, true) else h
    case Heartbeat(at) => Beat(h, at)
    case ExpireTick(at) => Expire(h, at)
    case Register(client, at) =>
      var e := Expire(h, at);
      if client in e.clients then e else e.(clients := e.clients[client := Client(Some(e.snapshot), 0)])
    case Unregister(client) => h.(clients := h.clients - {client})
    case NextCall(client, first, second, third) => Next(h, client, first, second, third).0
  }

  // ---------------------------------------------------------------- in place

  class GhostStreamHub {
    const bufferSize: nat
    var generation: int
    var sequence: int
    var producer: Option<Producer>
    var needsAuthoritative: bool
    var conflicted: Option<(int, int)>
    var snapshot: Update
    var clients: map<int, Client>
    var line: Line

    function Model(): Hub
      reads this
    {
      Hub(bufferSize, generation, sequence, producer, needsAuthoritative, conflicted, snapshot, clients, line)
    }

    constructor (bufferSize: nat)
      ensures Model() == Start(bufferSize)
    {
      this.bufferSize := bufferSize;
      generation, sequence, producer, needsAuthoritative, conflicted := 0, 0, None, true, None;
      snapshot := Update(None, "awaiting_data", 0, 0, true);
      clients, line := map[], Down;
    }

    /** Publish a new snapshot and offer it to every client. */
    method EmitUpdate(read: Option<HubRead>, reason: string, resync: bool)
      modifies this`sequence, this`snapshot, this`clients
      ensures Model() == Emit(old(Model()), read, reason, resync)
    {
      sequence := sequence + 1;
      snapshot := Update(read, reason, generation, sequence, resync);
      var todo := clients.Keys;
      ghost var before := clients;
      while todo != {}
        invariant todo <= before.Keys && clients.Keys == before.Keys
        invariant sequence == old(sequence) + 1 && snapshot == Update(read, reason, generation, sequence, resync)
        invariant forall c :: c in before ==>
                    clients[c] == if c in todo then before[c] else Offered(before[c], snapshot)
        decreases |todo|
      {
        ghost var some := Core.Pick(todo);
        var c :| c in todo;
        var full := clients[c].slot.Some?;
        clients := clients[c := Client(Some(snapshot), if full then clients[c].skipped + 1 else clients[c].skipped)];
        todo := todo - {c};
      }
      assert forall c :: c in before ==> clients[c] == OfferedAll(before, snapshot)[c];
      assert clients == OfferedAll(before, snapshot);
    }

    method ExpireNow(now: Stamp) returns (expired: bool)
      modifies this`sequence, this`snapshot, this`clients
      ensures Model() == Expire(old(Model()), now)
      ensures expired <==> old(snapshot.read).Some? && !old(snapshot.read).value.IsFresh(now)
    {
      hide Emit;
      expired := snapshot.read.Some? && !snapshot.read.value.IsFresh(now);
      if expired { EmitUpdate(None, "expired", false); }
    }

    /** One turn of the health task at which a heartbeat is due. */
    method BeatNow(now: Stamp)
      modifies this`sequence, this`snapshot, this`clients
      ensures Model() == Beat(old(Model()), now)
    {
      hide Emit, HubRead.IsFresh;
      var expired := ExpireNow(now);
      if !expired { EmitUpdate(snapshot.read, snapshot.reason, false); }
    }

    method AdoptRead(r: HubRead, resync: bool, now: Stamp)
      modifies this`sequence, this`snapshot, this`clients, this`producer, this`needsAuthoritative
      ensures Model() == Adopt(old(Model()), r, resync, now)
    {
      hide Emit, HubRead.IsFresh;
      producer := Some(Producer(r.payload.run, r.payload.wire.id, r.payload.raw, r.read.deadlineMonoNs));
      needsAuthoritative := false;
      if !r.IsFresh(now) {
        EmitUpdate(None, "expired", resync);
      } else {
        EmitUpdate(Some(r), if r.payload.wire.eligible != [] then "fresh" else "no_eligible_horizons", resync);
      }
    }

    method AcceptRead(r: HubRead, authoritative: bool, resync: bool, now: Stamp) returns (raised: bool)
      modifies this
      ensures (Model(), raised) == Accept(old(Model()), r, authoritative, resync, now)
    {
      hide Emit, HubRead.IsFresh, Adopt, Shortened;
      raised := false;
      var p := r.payload;
      if conflicted == Some((p.run, p.wire.id)) {
        EmitUpdate(None, "conflicting_payload", resync);
        return;
      }
      if producer.Some? && p.run == producer.value.run {
        if p.wire.id < producer.value.id {
          if authoritative { EmitUpdate(None, "regressed_snapshot", resync); }
          return;
        }
        if p.wire.id == producer.value.id {
          if p.raw != producer.value.raw {
            conflicted := Some((p.run, p.wire.id));
            EmitUpdate(None, "conflicting_payload", resync);
            return;
          }
          if !authoritative { return; }
          AdoptRead(Shortened(r, producer.value.deadlineNs), resync, now);
          return;
        }
      } else {
        if !authoritative { return true; }
        if producer.Some? { generation := generation + 1; }
        conflicted := None;
      }
      AdoptRead(r, resync, now);
    }

    /** The next delivery of a client, or nothing while its slot is empty. */
    method NextDelivery(c: int, first: Stamp, second: Stamp, third: Stamp) returns (delivered: Option<Update>)
      modifies this
      ensures (Model(), delivered) == Next(old(Model()), c, first, second, third)
    {
      hide HubRead.IsFresh;
      var expired := ExpireNow(first);
      if c !in clients || clients[c].slot.None? { return None; }
      var update := clients[c].slot.value;
      clients := clients[c := clients[c].(slot := None)];
      expired := ExpireNow(second);
      if update.read.Some? && !update.read.value.IsFresh(third) {
        expired := ExpireNow(third);
        update := snapshot;
        if c in clients { clients := clients[c := clients[c].(slot := None)]; }
      }
      delivered := Some(update);
    }
  }
}
