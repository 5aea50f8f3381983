/**
 Versions of one audit row. The store (price_collector/ghost_twap_store.py) refuses a new
 version that rewrites recorded evidence; every change the runtime makes is one it accepts,
 and a version number names one state of the row.
 */
module AuditHistory {
  import opened Core
  import opened GhostTwap
  import opened GhostPayload
  import opened DecisionFacts
  import opened AuditRow
  import opened CompactAgreement

  predicate Keeps<T(==)>(old_: Option<T>, new_: Option<T>) { old_.Some? ==> new_ == old_ }

  const OPEN_STATUSES: set<PublicationStatus> := {Reserved, Intent, Attempting}

  /** Recorded clocks, outcome and attempted bytes of a publication are never rewritten. */
  predicate PublicationMoves(o: Publication, n: Publication) {
    && Keeps(o.intent, n.intent) && Keeps(o.attempt, n.attempt) && Keeps(o.ack, n.ack) && Keeps(o.failure, n.failure)
    && (o.status !in OPEN_STATUSES ==> n.status == o.status)
    && (o.attempt.Some? && o.payload.Some? ==> n.payload == o.payload)
  }

  /** A first match, an ended wait and every recorded flag of a target stay. */
  predicate TargetMoves(o: Target, n: Target) {
    && n.stamp == o.stamp
    && (o.first.Some? ==> n.first == o.first && n.status == o.status && n.anomaly == o.anomaly)
    && (o.first.None? && o.status != AwaitingTarget ==> n.status == o.status)
    && Keeps(o.late, n.late) && Keeps(o.conflicting, n.conflicting) && Keeps(o.error, n.error)
    && Keeps(o.persistenceError, n.persistenceError) && Keeps(o.etaErrorNs, n.etaErrorNs)
    && (o.conflicted ==> n.conflicted) && (o.lateMissing ==> n.lateMissing)
  }

  /** What the store asks of a row that replaces another: the same frozen decision, legal moves. */
  predicate Moves(o: Row, n: Row) {
    && n.decision == o.decision && n.completed == o.completed && (o.terminal ==> n.terminal)
    && PublicationMoves(o.publication, n.publication)
    && |n.targets| == |o.targets| && forall i | 0 <= i < |o.targets| :: TargetMoves(o.targets[i], n.targets[i])
  }

  /** `n` is `o` or a later version of it. */
  predicate Evolves(o: Row, n: Row) {
    Moves(o, n) && n.epoch == o.epoch && o.version <= n.version && (o.version == n.version ==> o == n)
  }

  lemma EvolvesFromSelf(r: Row)
    ensures Evolves(r, r)
  {
  }

  lemma EvolvesThrough(a: Row, b: Row, c: Row)
    requires Evolves(a, b) && Evolves(b, c)
    ensures Evolves(a, c)
  {
    hide PublicationMoves, TargetMoves;
    PublicationMovesThrough(a.publication, b.publication, c.publication);
    forall i | 0 <= i < |a.targets| ensures TargetMoves(a.targets[i], c.targets[i]) {
      TargetMovesThrough(a.targets[i], b.targets[i], c.targets[i]);
    }
  }

  lemma PublicationMovesThrough(a: Publication, b: Publication, c: Publication)
    requires PublicationMoves(a, b) && PublicationMoves(b, c)
    ensures PublicationMoves(a, c)
  {
  }

  lemma TargetMovesThrough(a: Target, b: Target, c: Target)
    requires TargetMoves(a, b) && TargetMoves(b, c)
    ensures TargetMoves(a, c)
  {
  }

  // ---------------------------------------------------------------- changes to every row

  /** A change the runtime makes to all of its rows at once. */
  datatype Sweep =
    | Note(times: nat)             // a stop, suspension or resumption is noted on the row
    | Void                         // a clock-order stop voids its leads
    | See(event: PriceEvent)       // an admitted TWAP event is matched
    | Due(monoNs: int)             // its matching window may have closed
    | End                          // shutdown

  function Swept(sweep: Sweep, r: Row): Row
    requires Shaped(r)
  {
    match sweep
    case Note(times) => r.(version := r.version + times)
    case Void => Invalidate(r)
    case See(e) => Observe(r, e)
    case Due(mono) => Finalize(r, mono)
    case End => Shut(r)
  }

  lemma ObservedTargetMoves(d: Decision, p: Publication, invalid: bool, t: Target, i: int, e: PriceEvent, now: int)
    requires 0 <= i < 6 && |d.forecasts| == 6 && TargetInv(d, p, invalid, t, i, now)
    ensures var (after, changed) := ObserveTarget(d, p, invalid, t, i, e);
            TargetMoves(t, after) && (!changed ==> after == t)
  {
    hide EvidenceOk, FirstOk, ExpectedLead, AttemptedForecast;
  }

  lemma {:induction false} ObservedUpToMoves(r: Row, n: nat, e: PriceEvent, now: int)
    requires n <= 6 && TargetsInv(r, now)
    ensures var after := ObserveUpTo(r, n, e);
            && after == r.(targets := after.targets, version := after.version)
            && (forall i :: 0 <= i < n ==> TargetMoves(r.targets[i], after.targets[i]))
            && (forall i :: n <= i < 6 ==> after.targets[i] == r.targets[i])
            && r.version <= after.version && (r.version == after.version ==> after.targets == r.targets)
  {
    hide ObserveTarget, TargetMoves, TargetInv;
    if n > 0 {
      ObservedUpToMoves(r, n - 1, e, now);
      var before := ObserveUpTo(r, n - 1, e);
      assert TargetInv(r.decision, r.publication, r.causalityInvalid, r.targets[n - 1], n - 1, now);
      ObservedTargetMoves(r.decision, r.publication, r.causalityInvalid, before.targets[n - 1], n - 1, e, now);
    } else {
      assert r.targets == ObserveUpTo(r, 0, e).targets;
    }
  }

  predicate WaitsUnmatched(r: Row) {
    forall i | 0 <= i < |r.targets| :: r.targets[i].status == AwaitingTarget ==> r.targets[i].first.None?
  }

  lemma RowWaitsUnmatched(r: Row, now: int)
    requires TargetsInv(r, now)
    ensures WaitsUnmatched(r)
  {
    hide FirstOk, ExpectedLead, EvidenceOk;
    forall i | 0 <= i < 6 ensures r.targets[i].status == AwaitingTarget ==> r.targets[i].first.None? {
      assert TargetInv(r.decision, r.publication, r.causalityInvalid, r.targets[i], i, now);
    }
  }

  lemma ResolvedMoves(r: Row, status: TargetStatus)
    requires WaitsUnmatched(r)
    ensures var after := ResolveAll(r, status);
            |after.targets| == |r.targets| && forall i | 0 <= i < |r.targets| ::
                TargetMoves(r.targets[i], after.targets[i])
  {
  }

  lemma SweptEvolves(sweep: Sweep, r: Row, now: int)
    requires RowInv(r, now)
    ensures Evolves(r, Swept(sweep, r)) && Shaped(Swept(sweep, r))
    ensures Swept(sweep, r).publication == r.publication && Swept(sweep, r).epoch == r.epoch
  {
    hide DecisionSound, TargetInv, PublicationInv, ObserveUpTo, ResolveAll, TargetMoves, PublicationMoves;
    SamePublicationMoves(r.publication);
    RowWaitsUnmatched(r, now);
    ResolvedMoves(r, Missed);
    ResolvedMoves(r, RestartUnmatched);
    SameTargetsMove(r);
    match sweep
    case Note(times) =>
    case Void =>
    case See(e) => ObservedUpToMoves(r, 6, e, now);
    case Due(mono) => ResolvedKeepsFrame(r, Missed);
    case End => ResolvedKeepsFrame(r, RestartUnmatched);
  }

  lemma ResolvedKeepsFrame(r: Row, status: TargetStatus)
    ensures ResolveAll(r, status) == r.(targets := ResolveAll(r, status).targets)
  {
  }

  lemma SamePublicationMoves(p: Publication)
    ensures PublicationMoves(p, p)
  {
  }

  lemma SameTargetsMove(r: Row)
    ensures forall i | 0 <= i < |r.targets| :: TargetMoves(r.targets[i], r.targets[i])
    ensures forall i | 0 <= i < |r.targets| :: TargetMoves(r.targets[i], r.targets[i].(leadNs := None))
  {
  }

  // ---------------------------------------------------------------- publication steps

  lemma TargetsStay(r: Row, n: Row)
    requires n.targets == r.targets && n.decision == r.decision && n.completed == r.completed
    requires n.terminal == r.terminal && n.epoch == r.epoch && r.version < n.version
             && PublicationMoves(r.publication, n.publication)
    ensures Evolves(r, n)
  {
  }

  lemma StatusEvolves(r: Row, status: PublicationStatus)
    requires r.publication.status in OPEN_STATUSES
    ensures Evolves(r, Changed(WithStatus(r, status)))
  {
    TargetsStay(r, Changed(WithStatus(r, status)));
  }

  lemma BeginEvolves(r: Row, publishable: bool, now: Stamp)
    requires Shaped(r) && r.publication == Publication(Reserved, None, None, None, None, None, false)
    ensures Evolves(r, BeginPublish(r, publishable, now).0)
    ensures BeginPublish(r, publishable, now).0.epoch == r.epoch
  {
    hide Mask, LiveWire, WorthPublishing, Evolves;
    if publishable {
      TargetsStay(r, BeginPublish(r, publishable, now).0);
    } else {
      StatusEvolves(r, ExpiredOrReceived);
    }
  }

  lemma AttemptEvolves(r: Row, live: Wire, publishable: bool, now: Stamp)
    requires Shaped(r) && |live.forecasts| == 6 && r.publication.status == Intent && r.publication.attempt.None?
    ensures Evolves(r, AttemptPublish(r, live, publishable, now).0)
    ensures AttemptPublish(r, live, publishable, now).0.epoch == r.epoch
  {
    hide Mask, WorthPublishing, Moves, TtlMs;
    var after := AttemptPublish(r, live, publishable, now).0;
    AttemptFrame(r, live, publishable, now);
    TargetsStay(r, after);
  }

  lemma AttemptFrame(r: Row, live: Wire, publishable: bool, now: Stamp)
    requires Shaped(r) && |live.forecasts| == 6 && r.publication.status == Intent && r.publication.attempt.None?
    ensures var after := AttemptPublish(r, live, publishable, now).0;
            && after == r.(publication := after.publication, version := after.version) && r.version < after.version
            && PublicationMoves(r.publication, after.publication)
  {
    hide Mask, WorthPublishing, TtlMs, Stamped, Shaped;
  }

  lemma FinishEvolves(r: Row, outcome: RedisOutcome, now: Stamp)
    requires Shaped(r) && r.publication.status == Attempting && r.publication.ack.None? && r.publication.failure.None?
    ensures Evolves(r, FinishPublish(r, outcome, now))
    ensures FinishPublish(r, outcome, now).epoch == r.epoch
  {
    hide Lead;
    if outcome == Cancelled {
      TargetsStay(r, FinishPublish(r, outcome, now));
    }
  }

  lemma RecoveredEvolves(r: Row)
    requires Shaped(r) && WaitsUnmatched(r)
    ensures Evolves(r, Recovered(r)) && Shaped(Recovered(r))
  {
    hide ResolveAll, TargetMoves;
    EvolvesFromSelf(r);
    ResolvedMoves(r, RestartUnmatched);
    ResolvedKeepsFrame(r, RestartUnmatched);
  }
}
