/**
 The runtime as the single owner of its fields: loops over rows, targets and forecasts
 that update in place, each method proved to make the transition RuntimeModel.dfy
 specifies, so that everything proved of runs holds of the object.
 */
module RuntimeObject {
  import opened Core
  import opened GhostTwap
  import opened GhostPayload
  import opened AuditRow
  import opened AuditHistory
  import opened RuntimeModel
  import EngineObject

  /** Match one admitted TWAP event against the six targets of a row, one after the other. */
  method ObserveTargets(row: Row, e: PriceEvent) returns (r: Row)
    requires Shaped(row)
    ensures r == Observe(row, e)
  {
    r := row;
    for i := 0 to 6
      invariant Shaped(r) && r == ObserveUpTo(row, i, e)
    {
      var (t, changed) := ObserveTarget(r.decision, r.publication, r.causalityInvalid, r.targets[i], i, e);
      r := r.(targets := r.targets[i := t]);
      if changed { r := r.(version := r.version + 1); }
    }
  }

  /** Mask a live copy: walk the six horizons, collecting the eligible and the excluded. */
  method SelectPublication(row: Row, live: Wire, at: Stamp) returns (masked: Wire, worth: bool)
    requires Shaped(row) && |live.forecasts| == 6
    ensures masked == Mask(row, live, at) && worth == WorthPublishing(row)
  {
    hide Masking;
    var eligible: seq<int>, excluded: map<int, seq<Reason>>, forecasts := [], map[], live.forecasts;
    var unpriced := true;
    for i := 0 to 6
      invariant |forecasts| == 6 && eligible == EligibleUpTo(row, i) && excluded == ExcludedUpTo(row, i)
      invariant forall k :: 0 <= k < i ==> forecasts[k] == MaskForecast(row, k, live.forecasts[k])
      invariant forall k :: i <= k < 6 ==> forecasts[k] == live.forecasts[k]
      invariant unpriced <==> forall k | 0 <= k < i :: row.decision.forecasts[k].price.None?
    {
      var original, target := row.decision.forecasts[i], row.targets[i];
      var reasons := Masking(original, target);
      if original.price.Some? { unpriced := false; }
      if reasons.None? {
        eligible := eligible + [HORIZONS[i]];
      } else {
        excluded := excluded[HORIZONS[i] := reasons.value];
        if original.price.Some? {
          var f := forecasts[i].forecast.(price := None, quality := Unavailable, reasons := reasons.value);
          forecasts := forecasts[i := forecasts[i].(forecast := f)];
        }
      }
    }
    masked := live.(checked := at, eligible := eligible, excluded := excluded, forecasts := forecasts);
    worth := eligible != [] || unpriced;
    assert masked.forecasts == Mask(row, live, at).forecasts;
  }

  /** Mask the live copy and record the intent; the live copy is absent when nothing is left to say. */
  method PrepareIntent(row: Row, publishable: bool, now: Stamp) returns (r: Row, live: Option<Wire>)
    requires Shaped(row)
    ensures (r, live) == BeginPublish(row, publishable, now)
  {
    hide Mask, WorthPublishing, LiveWire;
    live := None;
    if !publishable {
      r := Changed(WithStatus(row, ExpiredOrReceived));
      return;
    }
    var masked, worth := SelectPublication(row, FreshLive(row, now), now);
    r := Changed(row.(publication := Publication(Intent, Some(now), Some(masked), None, None, None, false)));
    if worth { live := Some(masked); } else { r := Changed(WithStatus(r, NoEligible)); }
  }

  /** Mask once more and stamp the attempt; the bytes are absent when they must not be sent. */
  method PrepareAttempt(row: Row, live: Wire, publishable: bool, now: Stamp) returns (r: Row, sent: Option<Wire>)
    requires Shaped(row) && |live.forecasts| == 6
    ensures (r, sent) == AttemptPublish(row, live, publishable, now)
  {
    hide Mask, WorthPublishing, Stamped, TtlMs;
    sent := None;
    if !publishable {
      r := Changed(WithStatus(row, PreemptedAfterSpool));
      return;
    }
    var masked, worth := SelectPublication(row, live, now);
    if !worth {
      r := Changed(row.(publication := row.publication.(status := NoEligible, payload := Some(masked))));
      return;
    }
    var bytes := Stamped(masked, now);
    r := Changed(row.(publication := row.publication.(status := Attempting, attempt := Some(now),
                                                      payload := Some(bytes))));
    if TtlMs(row.decision, now) <= 0 {
      r := Changed(WithStatus(r, ExpiredBeforeAttempt));
    } else {
      sent := Some(bytes);
    }
  }

  function FreshLive(row: Row, now: Stamp): (live: Wire)
    requires Shaped(row)
    ensures |live.forecasts| == 6 && live == LiveWire(row, now)
  {
    LiveWire(row, now)
  }

  method SweepRow(sweep: Sweep, row: Row) returns (r: Row)
    requires Shaped(row)
    ensures r == Swept(sweep, row)
  {
    match sweep
    case See(e) => r := ObserveTargets(row, e);
    case _ => r := Swept(sweep, row);
  }

  /** Rows swept up to an identity, the later ones not yet. */
  ghost predicate SweptBelow(before: map<int, Row>, now: map<int, Row>, sweep: Sweep, bound: int)
    requires forall k :: k in before ==> Shaped(before[k])
  {
    && now.Keys == before.Keys
    && forall k :: k in before ==> now[k] == if k < bound then Swept(sweep, before[k]) else before[k]
  }

  function ChangedBelow(rows: map<int, Row>, sweep: Sweep, bound: int): set<int>
    requires forall k | k in rows :: Shaped(rows[k])
  {
    set k | k in rows && k < bound && Swept(sweep, rows[k]).version != rows[k].version
  }

  lemma ChangedAt(rows: map<int, Row>, sweep: Sweep, id: int)
    requires forall k | k in rows :: Shaped(rows[k])
    ensures ChangedBelow(rows, sweep, id + 1)
            == ChangedBelow(rows, sweep, id)
               + (if id in rows && Swept(sweep, rows[id]).version != rows[id].version then {id} else {})
  {
    hide Swept, Shaped;
  }

  lemma SweptAll(rows: map<int, Row>, decisions: int, marked: set<int>, sweep: Sweep, now: map<int, Row>)
    requires RowsFormed(rows, decisions) && SweptBelow(rows, now, sweep, decisions + 1)
    ensures now == SweptRows(rows, sweep)
    ensures marked + ChangedBelow(rows, sweep, decisions + 1) == SweptDirty(rows, marked, sweep)
  {
    hide Swept, Shaped;
    assert forall k :: k in rows ==> now[k] == SweptRows(rows, sweep)[k];
    assert now == SweptRows(rows, sweep);
  }

  /** Walk the rows in decision order. */
  method SweepRows(rows: map<int, Row>, decisions: int, marked: set<int>, sweep: Sweep)
    returns (records: map<int, Row>, dirty: set<int>)
    requires RowsFormed(rows, decisions) && decisions >= 0
    ensures records == SweptRows(rows, sweep) && dirty == SweptDirty(rows, marked, sweep)
  {
    hide Swept, Shaped, ChangedBelow, SweptRows, SweptDirty;
    records, dirty := rows, marked;
    assert ChangedBelow(rows, sweep, 1) == {} by { NoneBelow(rows, decisions, sweep); }
    for id := 1 to decisions + 1
      invariant SweptBelow(rows, records, sweep, id)
      invariant dirty == marked + ChangedBelow(rows, sweep, id)
    {
      ChangedAt(rows, sweep, id);
      if id in records {
        var after := SweepRow(sweep, records[id]);
        if after.version != records[id].version { dirty := dirty + {id}; }
        records := records[id := after];
      }
    }
    SweptAll(rows, decisions, marked, sweep, records);
  }

  lemma NoneBelow(rows: map<int, Row>, decisions: int, sweep: Sweep)
    requires RowsFormed(rows, decisions)
    ensures ChangedBelow(rows, sweep, 1) == {}
  {
    hide Swept, Shaped;
  }

  class GhostRuntime {
    const engine: EngineObject.GhostTwapEngine
    const queueMax: nat
    var queue: seq<Item>
    var sequence: nat
    var decisions: int
    var records: map<int, Row>
    var dirty: set<int>
    var pending: Option<int>
    var publishing: Publishing
    var auditing: Auditing
    var epoch: int
    var suspended: set<Scope>
    var stopped: bool
    var closed: bool
    var lastAdmitted: Option<Stamp>
    var lastFrozen: Option<Stamp>

    function Model(): Runtime
      reads this, engine
    {
      Runtime(engine.Model(), queueMax, queue, sequence, decisions, records, dirty, pending, publishing, auditing,
              epoch, suspended, stopped, closed, lastAdmitted, lastFrozen)
    }

    ghost predicate Valid()
      reads this, engine
    {
      Formed(Model())
    }

    constructor (policy: Policy, queueMax: nat)
      ensures Valid() && Model() == Start(policy, queueMax) && fresh(engine)
    {
      engine := new EngineObject.GhostTwapEngine(policy);
      this.queueMax := queueMax;
      queue, sequence, decisions := [], 0, 0;
      records, dirty, pending := map[], {}, None;
      publishing, auditing, epoch, suspended := Idle, Resting, 0, {};
      stopped, closed, lastAdmitted, lastFrozen := false, false, None, None;
    }

    /** Change every row in place and mark the changed ones dirty. */
    method ForEachRow(sweep: Sweep)
      requires Valid()
      modifies this`records, this`dirty
      ensures Valid() && Model() == SweepAll(old(Model()), sweep)
    {
      hide SweptRows, SweptDirty;
      records, dirty := SweepRows(records, decisions, dirty, sweep);
      assert Model() == SweepAll(old(Model()), sweep);
    }

    method Stop(causal: bool)
      requires Valid()
      modifies this`records, this`dirty, this`stopped
      ensures Valid() && Model() == RuntimeModel.Stop(old(Model()), causal)
    {
      hide SweptRows, SweptDirty;
      if !stopped {
        ForEachRow(Note(1));
        stopped := true;
      }
      if causal { ForEachRow(Void); }
    }

    method Suspend(scope: Scope)
      requires Valid()
      modifies this`records, this`dirty, this`epoch, this`suspended
      ensures Valid() && Model() == RuntimeModel.Suspend(old(Model()), scope)
    {
      hide SweptRows, SweptDirty;
      if stopped || scope in suspended { return; }
      epoch := epoch + 1;
      suspended := suspended + {scope};
      ForEachRow(Note(1));
    }

    method IoFailure(scope: Scope, integrity: bool)
      requires Valid()
      modifies this`records, this`dirty, this`epoch, this`suspended, this`stopped
      ensures Valid() && Model() == RuntimeModel.IoFailure(old(Model()), scope, integrity)
    {
      if closed { return; }
      if integrity { Stop(false); } else { Suspend(scope); }
    }

    method ResumeIfCaughtUp()
      requires Valid()
      modifies this`records, this`dirty, this`suspended
      ensures Valid() && Model() == Resume(old(Model()))
    {
      hide SweptRows, SweptDirty;
      if closed || suspended == {} || stopped || dirty != {} || !publishing.Idle? { return; }
      ForEachRow(Note(|suspended|));
      suspended := {};
    }

    // -------------------------------------------------------------- reader offers

    method OfferGap(feed: Feed, reason: string, at: Stamp)
      requires Valid()
      modifies this`epoch, this`queue
      ensures Valid() && Model() == RuntimeModel.OfferGap(old(Model()), feed, reason, at)
    {
      if closed { return; }
      epoch := epoch + 1;
      if |queue| >= queueMax { queue := OVERFLOW; }
      queue := queue + [GapItem(feed, reason, Some(at))];
    }

    method OfferPrice(feed: Feed, value: int, sourceMs: int, eventId: string, at: Stamp, lateFull: bool)
      requires Valid()
      modifies this
      ensures Valid() && Model() == RuntimeModel.OfferPrice(old(Model()), feed, value, sourceMs, eventId, at, lateFull)
    {
      hide SweepAll, PriceEvent.Valid, Admitted, RuntimeModel.Stop;
      if closed { return; }
      sequence := sequence + 1;
      var e := PriceEvent(feed, value, sourceMs, at.wall, at.mono, sequence, eventId);
      if !e.Valid() {
        OfferGap(feed, "invalid_ghost_input", at);
        return;
      }
      if (lastAdmitted.Some? && !lastAdmitted.value.NotAfter(at))
          || (lastFrozen.Some? && !lastFrozen.value.NotAfter(at)) {
        Stop(true);
        return;
      }
      AdmitPrice(e, lateFull);
    }

    /** Match a TWAP against the open rows at once, then queue the event. */
    method AdmitPrice(e: PriceEvent, lateFull: bool)
      requires Valid()
      modifies this
      ensures Valid() && Model() == Admitted(old(Model()), e, lateFull)
    {
      hide SweepAll;
      lastAdmitted := Some(Stamp(e.wallNs, e.monoNs));
      if e.feed == Twap {
        ForEachRow(See(e));
        if e.Causal() && lateFull { Stop(false); }
      }
      if |queue| >= queueMax {
        epoch := epoch + 1;
        queue := OVERFLOW;
      }
      queue := queue + [PriceItem(e)];
      assert Model() == Admitted(old(Model()), e, lateFull);
    }

    // -------------------------------------------------------------- decisions

    /** Feed the engine everything queued so far; a refusal stops the decisions. */
    method DrainInputs(now: Stamp)
      requires Valid() && engine.Model() == Model().engine
      modifies this, engine
      ensures Valid() && Model() == Drain(old(Model()), now)
    {
      hide SweepAll, GhostTwap.RecordGap, AcceptOutcome;
      while queue != []
        invariant Valid() && Drain(Model(), now) == Drain(old(Model()), now)
        decreases |queue|
      {
        ghost var before := Model();
        var item := queue[0];
        queue := queue[1..];
        DrainItem(item, now);
        assert Model() == DrainOne(before.(queue := before.queue[1..]), before.queue[0], now);
      }
    }

    method DrainItem(item: Item, now: Stamp)
      requires Valid()
      modifies this`records, this`dirty, this`stopped, engine
      ensures Valid() && Model() == DrainOne(old(Model()), item, now)
    {
      hide SweepAll, GhostTwap.RecordGap, AcceptOutcome;
      match item
      case GapItem(feed, reason, at) =>
        var clock := if at.Some? then at.value else now;
        var raised := engine.RecordGap(feed, reason, Some(clock.wall), Some(clock.mono));
        if raised { Stop(true); }
      case PriceItem(e) =>
        var outcome := engine.Accept(e);
        if outcome == Raised { Stop(true); }
    }

    method Issue(admission: Admission, oversized: bool, now: Stamp, completed: Stamp)
      requires Valid()
      modifies this, engine
      ensures Valid() && Model() == RuntimeModel.Issue(old(Model()), admission, oversized, now, completed)
    {
      hide SweepAll, GhostTwap.Snapshot, Drain;
      DrainInputs(now);
      if closed || stopped { return; }
      match admission
      case StopFor(causal) => Stop(causal);
      case SuspendFor(scope) => if scope == GuardScope || suspended == {} { Suspend(scope); }
      case Paused =>
      case Allowed => if suspended == {} { FreezeDecision(now, completed, oversized); }
    }

    method FreezeDecision(now: Stamp, completed: Stamp, oversized: bool)
      requires Valid()
      modifies this, engine
      ensures Valid() && Model() == Freeze(old(Model()), now, completed, oversized)
    {
      hide SweepAll, GhostTwap.Snapshot, Reserve, RuntimeModel.Stop;
      decisions := decisions + 1;
      SnapshotShape(engine.Model(), decisions, now);
      var decision := engine.Snapshot(decisions, now.wall, now.mono);
      if decision.None? {
        Stop(false);
        return;
      }
      lastFrozen := Some(now);
      if oversized {
        Stop(false);
        return;
      }
      ReserveDecision(decision.value, completed);
    }

    /** Take the place of a pending decision that was never published. */
    method ReserveDecision(d: Decision, completed: Stamp)
      requires Valid() && |d.forecasts| == 6 && d.id == decisions && d.id >= 1 && d.id !in records
      modifies this`records, this`dirty, this`pending
      ensures Valid() && Model() == Reserve(old(Model()), d, completed)
    {
      var row := NewRow(d, completed, epoch);
      if pending.Some? {
        records := records[pending.value := Changed(WithStatus(records[pending.value], Coalesced))];
        dirty := dirty + {pending.value};
      }
      records := records[d.id := row];
      dirty := dirty + {d.id};
      pending := Some(d.id);
      assert Model().dirty == Reserve(old(Model()), d, completed).dirty;
      assert Model() == Reserve(old(Model()), d, completed);
    }

    method FinalizeDue(mono: int)
      requires Valid()
      modifies this`records, this`dirty
      ensures Valid() && Model() == RuntimeModel.FinalizeDue(old(Model()), mono)
    {
      ForEachRow(Due(mono));
    }

    // -------------------------------------------------------------- publication

    method IsPublishable(id: int, now: Stamp, verdict: Verdict) returns (ok: bool)
      requires Valid() && id in records
      modifies this`records, this`dirty, this`epoch, this`suspended, this`stopped
      ensures Valid() && (Model(), ok) == Publishable(old(Model()), id, now, verdict)
    {
      hide SweepAll;
      var row := records[id];
      var d := row.decision;
      ok := false;
      if closed || stopped || row.terminal || suspended != {} || row.epoch != epoch { return; }
      if now.mono < d.monoNs || now.wall < d.wallNs {
        Stop(true);
        return;
      }
      if d.validUntilNs - now.wall <= 0 || d.validUntilNs - d.wallNs - (now.mono - d.monoNs) <= 0 { return; }
      match verdict
      case GuardStale => Suspend(GuardScope);
      case DeadlinePassed => Stop(false);
      case GuardFresh => ok := true;
    }

    /** Up to the hand-over of the intent to the outbox. */
    method BeginPublication(verdict: Verdict, checked: Stamp, now: Stamp)
      requires Valid() && pending.Some? && publishing.Idle?
      modifies this
      ensures Valid() && Model() == Begin(old(Model()), verdict, checked, now)
    {
      hide BeginPublish, Publishable;
      var id := pending.value;
      var ok := IsPublishable(id, checked, verdict);
      PublishableFrame(old(Model()), id, checked, verdict);
      var row, live := PrepareIntent(records[id], ok, now);
      records := records[id := row];
      dirty := dirty + {id};
      pending := None;
      if live.Some? { publishing := Spooling(id, live.value, row); }
      assert Model() == Begin(old(Model()), verdict, checked, now);
    }

    /** After the outbox write: check and mask once more, then hand the bytes to Redis. */
    method AttemptPublication(verdict: Verdict, checked: Stamp, now: Stamp) returns (sent: Option<Wire>)
      requires Valid() && publishing.Spooled?
      modifies this
      ensures Valid() && (Model(), sent) == TryAttempt(old(Model()), verdict, checked, now)
    {
      hide AttemptPublish, Publishable;
      var id, live := publishing.id, publishing.live;
      var ok := IsPublishable(id, checked, verdict);
      PublishableFrame(old(Model()), id, checked, verdict);
      var row;
      row, sent := PrepareAttempt(records[id], live, ok, now);
      records := records[id := row];
      dirty := dirty + {id};
      publishing := if sent.Some? then Sending(id) else Idle;
      assert (Model(), sent) == TryAttempt(old(Model()), verdict, checked, now);
    }

    method FinishPublication(outcome: RedisOutcome, now: Stamp)
      requires Valid() && publishing.Sending?
      modifies this`records, this`dirty, this`publishing
      ensures Valid() && Model() == Replied(old(Model()), outcome, now)
    {
      hide FinishPublish;
      var id := publishing.id;
      records := records[id := FinishPublish(records[id], outcome, now)];
      dirty := dirty + {id};
      publishing := Idle;
      assert Model() == Replied(old(Model()), outcome, now);
    }

    // -------------------------------------------------------------- audit

    /** The synchronous section after a store commit. */
    method SettleAudit()
      requires Valid() && auditing.Committed?
      modifies this`dirty, this`auditing
      ensures Valid() && Model() == Settle(old(Model()))
    {
      var id, record := auditing.id, auditing.record;
      auditing := Resting;
      if records[id].version == record.version {
        dirty := dirty - {id};
        if records[id].terminal && pending != Some(id) && (publishing.Idle? || publishing.id != id) {
          auditing := Removing(id, record);
        }
      }
    }

    /** The synchronous section after the outbox file is gone. */
    method PopAudited()
      requires Valid() && auditing.Unlinked?
      modifies this`records, this`auditing
      ensures Valid() && Model() == Pop(old(Model()))
    {
      var id, record := auditing.id, auditing.record;
      auditing := Resting;
      if records[id].version == record.version { records := records - {id}; }
    }

    // -------------------------------------------------------------- shutdown

    method CloseNow()
      requires Valid()
      modifies this`closed, this`epoch, this`pending
      ensures Valid() && Model() == Close(old(Model()))
    {
      if closed { return; }
      closed := true;
      epoch := epoch + 1;
      pending := None;
    }

    method ShutNow(now: Stamp)
      requires Valid() && closed && publishing.Idle? && auditing.Resting?
      modifies this, engine
      ensures Valid() && Model() == ShutDown(old(Model()), now)
    {
      hide SweepAll, Drain;
      DrainInputs(now);
      ForEachRow(End);
    }
  }

  lemma SnapshotShape(s: State, id: int, now: Stamp)
    ensures var d := GhostTwap.Snapshot(s, id, now.wall, now.mono, Bounded).1;
            d.Some? ==> |d.value.forecasts| == 6 && d.value.id == id
  {
    hide SnapshotState;
  }

  lemma PublishableFrame(rt: Runtime, id: int, now: Stamp, verdict: Verdict)
    requires Formed(rt) && id in rt.records
    ensures var c := Publishable(rt, id, now, verdict).0;
            && c.publishing == rt.publishing && c.pending == rt.pending && c.records.Keys == rt.records.Keys
  {
  }
}
