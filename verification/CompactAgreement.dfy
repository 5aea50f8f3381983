/**
 Every audit row the runtime can end satisfies the compactor's independent checks,
 except for one: a decision issued before any accepted event has no included
 sequence, which the compactor demands.
 */
module CompactAgreement {
  import opened Core
  import opened GhostTwap
  import opened GhostPayload
  import opened DecisionFacts
  import opened AuditRow

  ghost predicate DecisionSound(d: Decision) {
    && |d.forecasts| == 6 && (forall i :: 0 <= i < 6 ==> ForecastSound(d, i))
    && RecordedInput(d.spot, Spot) && RecordedInput(d.twap, Twap)
  }

  /** The first match lies in the window, after the attempt that could have announced it. */
  predicate FirstOk(d: Decision, p: Publication, t: Target, i: int, now: int)
    requires 0 <= i < 6 && |d.forecasts| == 6 && t.first.Some?
  {
    var f, first := d.forecasts[i], t.first.value;
    && f.price.Some? && d.twap.Some? && EvidenceOk(t.first, t.stamp)
    && d.monoNs <= first.monoNs < d.monoNs + MATCH_NS && first.monoNs <= now && first.wallNs >= d.wallNs
    && (t.anomaly <==> !first.Causal())
    && t.error == Some(f.price.value - first.value) && t.persistenceError == Some(d.twap.value.value - first.value)
    && (AttemptedEligible(p, i) ==> first.monoNs >= p.attempt.value.mono)
  }

  predicate TargetInv(d: Decision, p: Publication, invalid: bool, t: Target, i: int, now: int)
    requires 0 <= i < 6 && |d.forecasts| == 6
  {
    var f := d.forecasts[i];
    && t.stamp == f.target && (t.status == NotForecast <==> f.price.None?)
    && (t.status == Matched <==> t.first.Some?)
    && (t.first.Some? ==> FirstOk(d, p, t, i, now))
    && (t.first.None? ==> t.error.None? && t.persistenceError.None? && t.etaErrorNs.None? && !t.conflicted)
    && (t.late.Some? ==> t.status in {Missed, RestartUnmatched})
    && (t.conflicting.Some? <==> t.conflicted)
    && (t.conflicting.Some? && t.first.Some? ==> t.conflicting.value.value != t.first.value.value)
    && EvidenceOk(t.conflicting, t.stamp) && EvidenceOk(t.late, t.stamp)
    && t.leadNs == ExpectedLead(p, invalid, t, i)
  }

  /** An eligible horizon carries the frozen forecast unchanged. */
  ghost predicate Carries(d: Decision, w: Wire)
    requires |d.forecasts| == 6
  {
    WireMatches(d, w)
    && forall i :: 0 <= i < 6 && HORIZONS[i] in w.eligible ==>
         d.forecasts[i].price.Some? && w.forecasts[i] == WireForecast(d.forecasts[i], MaxCarryAt(d, i))
  }

  ghost predicate PublicationInv(d: Decision, completed: Stamp, p: Publication, now: int)
    requires |d.forecasts| == 6
  {
    && (p.payload.Some? ==> Carries(d, p.payload.value))
    && (p.attempt.Some? ==>
          && p.payload.Some? && p.payload.value.attempted == p.attempt && p.payload.value.checked == p.attempt.value
          && p.intent.Some? && p.intent.value.mono <= p.attempt.value.mono <= now)
    && (p.intent.Some? ==> completed.mono <= p.intent.value.mono <= now)
    && (p.status in {Acknowledged, Uncertain} ==> p.attempt.Some? && TtlMs(d, p.attempt.value) >= 1)
    && (p.ack.Some? <==> p.status == Acknowledged)
    && (p.ack.Some? ==> p.attempt.Some? && p.attempt.value.mono <= p.ack.value.mono <= now)
  }

  ghost predicate TargetsInv(r: Row, now: int) {
    Shaped(r) && forall i :: 0 <= i < 6 ==>
      TargetInv(r.decision, r.publication, r.causalityInvalid, r.targets[i], i, now)
  }

  ghost predicate RowInv(r: Row, now: int) {
    && DecisionSound(r.decision) && r.decision.monoNs <= r.completed.mono <= now
    && TargetsInv(r, now) && PublicationInv(r.decision, r.completed, r.publication, now)
    && (r.terminal ==> forall i :: 0 <= i < 6 ==> r.targets[i].status != AwaitingTarget)
  }

  lemma LaterKeepsRow(r: Row, now: int, later: int)
    requires RowInv(r, now) && now <= later
    ensures RowInv(r, later)
  {
    hide ForecastSound, WireMatches, ExpectedLead;
  }

  lemma ChangedKeepsRow(r: Row, now: int)
    requires RowInv(r, now)
    ensures RowInv(Changed(r), now)
  {
    hide ForecastSound, TargetInv, PublicationInv;
  }

  lemma NewRowIsSound(d: Decision, completed: Stamp, epoch: int, now: int)
    requires DecisionSound(d) && d.monoNs <= completed.mono <= now
    ensures RowInv(NewRow(d, completed, epoch), now)
  {
    hide ForecastSound;
  }

  // ---------------------------------------------------------------- masks

  /** The live copy still shows every horizon that is unmasked now. */
  ghost predicate Staged(r: Row, live: Wire) {
    && Shaped(r) && |live.forecasts| == 6 && WireShared(r.decision, live) && Header(r, live)
    && forall i :: 0 <= i < 6 ==>
         && Derived(r.decision.forecasts[i], MaxCarryAt(r.decision, i), live.forecasts[i])
         && (Exclusion(r, i).None? || r.decision.forecasts[i].price.None? ==>
               live.forecasts[i].forecast == r.decision.forecasts[i])
  }

  /** Everything outside the mask is copied from the row. */
  predicate Header(r: Row, live: Wire)
    requires Shaped(r)
  {
    live == LiveWire(r, live.intended).(checked := live.checked, eligible := live.eligible,
                                        excluded := live.excluded, forecasts := live.forecasts)
  }

  /** A mask touches only price, quality and reasons. */
  predicate Derived(original: Forecast, carry: int, masked: WireForecast) {
    masked == WireForecast(original.(price := masked.forecast.price, quality := masked.forecast.quality,
                                     reasons := masked.forecast.reasons), carry)
  }

  predicate WireShared(d: Decision, w: Wire) {
    && w.id == d.id && w.decided == Stamp(d.wallNs, d.monoNs) && w.spot == d.spot && w.twap == d.twap
    && w.policy == d.policy && w.validUntilNs == d.validUntilNs
    && |w.forecasts| == 6 && forall i | 0 <= i < 6 :: w.forecasts[i].forecast.horizon == HORIZONS[i]
  }

  predicate AllBelow(known: seq<int>, h: int) { forall i :: 0 <= i < |known| ==> known[i] < h }

  lemma HorizonsRise(n: nat)
    requires 0 < n <= 6
    ensures HORIZONS[..n] == HORIZONS[..n - 1] + [HORIZONS[n - 1]]
    ensures AllBelow(HORIZONS[..n - 1], HORIZONS[n - 1])
  {
  }

  lemma AppendRises(known: seq<int>, before: seq<int>, h: int, keep: bool)
    requires AllBelow(known, h) && (forall k :: 0 <= k < |before| ==> before[k] in known)
    requires forall j, k :: 0 <= j < k < |before| ==> before[j] < before[k]
    ensures var after := before + (if keep then [h] else []);
            && (forall k :: 0 <= k < |after| ==> after[k] in known + [h])
            && (forall j, k :: 0 <= j < k < |after| ==> after[j] < after[k])
            && (h in after <==> keep) && forall x <- known :: x in after <==> x in before
  {
  }

  lemma {:induction false} EligibleShape(r: Row, n: nat)
    requires Shaped(r) && n <= 6
    ensures var eligible := EligibleUpTo(r, n);
            && (forall i :: 0 <= i < n ==> (HORIZONS[i] in eligible <==> Exclusion(r, i).None?))
            && (forall k :: 0 <= k < |eligible| ==> eligible[k] in HORIZONS[..n])
            && (forall j, k :: 0 <= j < k < |eligible| ==> eligible[j] < eligible[k])
  {
    hide Masking, Exclusion;
    if n > 0 {
      EligibleShape(r, n - 1);
      var known, h := HORIZONS[..n - 1], HORIZONS[n - 1];
      HorizonsRise(n);
      AppendRises(known, EligibleUpTo(r, n - 1), h, Exclusion(r, n - 1).None?);
      forall i | 0 <= i < n
        ensures HORIZONS[i] in EligibleUpTo(r, n) <==> Exclusion(r, i).None?
      {
        if i < n - 1 { assert known[i] == HORIZONS[i]; }
      }
    }
  }

  lemma {:induction false} ExcludedShape(r: Row, n: nat)
    requires Shaped(r) && n <= 6
    ensures var excluded := ExcludedUpTo(r, n);
            && (forall i :: 0 <= i < n ==> (HORIZONS[i] in excluded <==> Exclusion(r, i).Some?))
            && (forall i :: 0 <= i < n && Exclusion(r, i).Some? ==> excluded[HORIZONS[i]] == Exclusion(r, i).value)
            && (forall h :: h in excluded ==> h in HORIZONS[..n])
  {
    hide Masking;
    if n > 0 {
      ExcludedShape(r, n - 1);
      assert forall h :: h in HORIZONS[..n - 1] ==> h in HORIZONS[..n] && h < HORIZONS[n - 1];
      assert HORIZONS[n - 1] in HORIZONS[..n];
    }
  }

  lemma HorizonIndex(h: int) returns (i: int)
    requires h in HORIZONS
    ensures 0 <= i < 6 && HORIZONS[i] == h
  {
    i :| 0 <= i < 6 && HORIZONS[i] == h;
  }

  lemma MaskShape(r: Row, live: Wire, at: Stamp)
    requires Shaped(r) && |live.forecasts| == 6
    ensures MaskShapeOk(Mask(r, live, at))
    ensures forall i :: 0 <= i < 6 ==> (HORIZONS[i] in Mask(r, live, at).eligible <==> Exclusion(r, i).None?)
    ensures forall i :: 0 <= i < 6 && Exclusion(r, i).Some? ==>
              HORIZONS[i] in Mask(r, live, at).excluded
                  && Mask(r, live, at).excluded[HORIZONS[i]] == Exclusion(r, i).value
  {
    hide Masking, EligibleUpTo, ExcludedUpTo, MaskForecast;
    EligibleShape(r, 6);
    ExcludedShape(r, 6);
    assert HORIZONS[..6] == HORIZONS;
    forall h | h in ExcludedUpTo(r, 6) ensures h !in EligibleUpTo(r, 6) {
      var i := HorizonIndex(h);
    }
  }

  lemma MaskCarries(r: Row, live: Wire, at: Stamp)
    requires Staged(r, live)
    ensures Carries(r.decision, Mask(r, live, at)) && Staged(r, Mask(r, live, at))
  {
    hide EligibleUpTo, ExcludedUpTo, MaskShapeOk, MaxCarryAt, Masking;
    MaskShape(r, live, at);
    var masked := Mask(r, live, at);
    assert Header(r, masked);
    forall i | 0 <= i < 6
      ensures masked.forecasts[i].forecast.horizon == HORIZONS[i]
      ensures Exclusion(r, i).None? ==> masked.forecasts[i] == live.forecasts[i] && r.decision.forecasts[i].price.Some?
    {
      UnmaskedIsPriced(r, i);
      assert masked.forecasts[i] == MaskForecast(r, i, live.forecasts[i]);
    }
  }

  lemma UnmaskedIsPriced(r: Row, i: int)
    requires Shaped(r) && 0 <= i < 6
    ensures Exclusion(r, i).None? ==> r.decision.forecasts[i].price.Some? && r.targets[i].first.None?
  {
  }

  lemma LiveIsStaged(r: Row, now: Stamp)
    requires Shaped(r) && DecisionSound(r.decision)
    ensures |LiveWire(r, now).forecasts| == 6 && LiveWire(r, now).intended == now && Staged(r, LiveWire(r, now))
  {
    hide GeometryOk, CountsOk, LegalReasons, MaxCarryAt, Masking;
    forall i | 0 <= i < 6 ensures r.decision.forecasts[i].horizon == HORIZONS[i] {
      assert ForecastSound(r.decision, i);
    }
  }

  // ---------------------------------------------------------------- publication stages

  /** Targets do not notice a publication record that neither attempts nor acknowledges. */
  lemma SilentPublication(r: Row, p: Publication, now: int)
    requires TargetsInv(r, now) && r.publication.ack.None? && p.ack.None? && p.status != Acknowledged
    requires r.publication.status != Acknowledged
    requires p.attempt.None? || forall i :: 0 <= i < 6 && AttemptedEligible(p, i) ==> r.targets[i].first.None?
    ensures TargetsInv(r.(publication := p), now)
  {
    hide EvidenceOk, AttemptedEligible;
    forall i | 0 <= i < 6 ensures TargetInv(r.decision, p, r.causalityInvalid, r.targets[i], i, now) {
      assert TargetInv(r.decision, r.publication, r.causalityInvalid, r.targets[i], i, now);
      if p.attempt.None? { NoAttemptNoOffer(p, i); }
    }
  }

  lemma NoAttemptNoOffer(p: Publication, i: int)
    requires 0 <= i < 6 && p.attempt.None?
    ensures !AttemptedEligible(p, i)
  {
  }

  lemma StatusKeepsRow(r: Row, status: PublicationStatus, now: int)
    requires RowInv(r, now) && r.publication.ack.None? && r.publication.attempt.None?
    requires status !in {Acknowledged, Uncertain}
    ensures RowInv(WithStatus(r, status), now)
  {
    hide ForecastSound, TargetInv, Carries;
    SilentPublication(r, r.publication.(status := status), now);
  }

  lemma PublicationStep(r: Row, p: Publication, bumps: nat, now: int)
    requires RowInv(r, now) && TargetsInv(r.(publication := p), now)
    requires PublicationInv(r.decision, r.completed, p, now)
    ensures RowInv(r.(publication := p, version := r.version + bumps), now)
  {
    hide TargetInv, PublicationInv, ForecastSound;
  }

  lemma IntentStep(r: Row, live: Wire, status: PublicationStatus, bumps: nat, now: Stamp)
    requires RowInv(r, now.mono) && r.publication.attempt.None? && r.publication.ack.None?
    requires Carries(r.decision, live) && status in {Intent, NoEligible} && r.completed.mono <= now.mono
    ensures var p := Publication(status, Some(now), Some(live), None, None, None, false);
            RowInv(r.(publication := p, version := r.version + bumps), now.mono)
  {
    hide TargetInv, ForecastSound, Carries;
    var p := Publication(status, Some(now), Some(live), None, None, None, false);
    SilentPublication(r, p, now.mono);
    PublicationStep(r, p, bumps, now.mono);
  }

  lemma StagedFrame(r: Row, after: Row, live: Wire)
    requires Staged(r, live) && after.decision == r.decision && after.targets == r.targets
    requires after.completed == r.completed
    ensures Staged(after, live)
  {
    hide WireShared, Masking;
  }

  lemma BeginKeepsRow(r: Row, publishable: bool, now: Stamp, clock: int)
    requires RowInv(r, clock) && clock <= now.mono && r.publication.attempt.None? && r.publication.ack.None?
    ensures var (after, live) := BeginPublish(r, publishable, now);
            && RowInv(after, now.mono) && after.publication.attempt.None? && after.publication.ack.None?
            && after.targets == r.targets && after.decision == r.decision
            && (live.Some? ==> Staged(after, live.value) && after.publication.payload == live
                               && after.publication.status == Intent && after.publication.intent == Some(now)
                               && after.publication.failure.None? && live.value.intended == now
                               && MaskedBy(after, live.value))
  {
    hide RowInv, Carries, Mask, WorthPublishing, Staged, LiveWire, MaskedBy;
    LaterKeepsRow(r, clock, now.mono);
    assert Shaped(r) && DecisionSound(r.decision) && r.completed.mono <= now.mono by { RowShape(r, now.mono); }
    if publishable {
      LiveIsStaged(r, now);
      MaskCarries(r, LiveWire(r, now), now);
      var live := Mask(r, LiveWire(r, now), now);
      var after := BeginPublish(r, publishable, now).0;
      IntentStep(r, live, Intent, 1, now);
      IntentStep(r, live, NoEligible, 2, now);
      StagedFrame(r, after, live);
      MaskedFrame(r, after, LiveWire(r, now), now);
    } else {
      StatusKeepsRow(r, ExpiredOrReceived, now.mono);
      ChangedKeepsRow(WithStatus(r, ExpiredOrReceived), now.mono);
    }
  }

  /** The mask lets through exactly the horizons that nothing excludes. */
  ghost predicate MaskedBy(r: Row, w: Wire)
    requires Shaped(r)
  {
    forall i :: 0 <= i < 6 ==> (HORIZONS[i] in w.eligible <==> Exclusion(r, i).None?)
  }

  lemma MaskedFrame(r: Row, after: Row, live: Wire, at: Stamp)
    requires Shaped(r) && |live.forecasts| == 6 && after.decision == r.decision && after.targets == r.targets
    ensures MaskedBy(after, Mask(r, live, at)) && Mask(r, live, at).intended == live.intended
  {
    hide Masking, EligibleUpTo, ExcludedUpTo, MaskForecast;
    MaskShape(r, live, at);
  }

  lemma RowShape(r: Row, now: int)
    requires RowInv(r, now)
    ensures Shaped(r) && DecisionSound(r.decision) && r.decision.monoNs <= r.completed.mono <= now
  {
  }

  lemma UnmaskedAreUnmatched(r: Row, live: Wire, at: Stamp, p: Publication)
    requires Shaped(r) && |live.forecasts| == 6
    requires p.payload.Some? && p.payload.value.eligible == Mask(r, live, at).eligible
    ensures forall i :: 0 <= i < 6 && AttemptedEligible(p, i) ==> r.targets[i].first.None?
  {
    hide EligibleUpTo, ExcludedUpTo, MaskForecast, MaskShapeOk;
    MaskShape(r, live, at);
  }

  lemma SentCarries(d: Decision, masked: Wire, at: Stamp)
    requires |d.forecasts| == 6 && Carries(d, masked)
    ensures Carries(d, Stamped(masked, at))
  {
    hide MaxCarryAt;
  }

  /** What the final mask can leave behind, short of sending. */
  lemma QuietAttempt(r: Row, masked: Wire, now: int)
    requires RowInv(r, now) && r.publication.attempt.None? && r.publication.ack.None? && Carries(r.decision, masked)
    ensures RowInv(Changed(r.(publication := r.publication.(status := NoEligible, payload := Some(masked)))), now)
  {
    hide TargetInv, Carries, ForecastSound, TtlMs, AttemptedEligible;
    var quiet := r.publication.(status := NoEligible, payload := Some(masked));
    SilentPublication(r, quiet, now);
    PublicationStep(r, quiet, 1, now);
  }

  lemma LoudAttempt(r: Row, live: Wire, p: Publication, bumps: nat, now: Stamp)
    requires RowInv(r, now.mono) && r.publication.attempt.None? && r.publication.ack.None? && r.publication.intent.Some?
    requires Staged(r, live) && Carries(r.decision, Mask(r, live, now))
    requires p == r.publication.(status := p.status, attempt := Some(now),
                                 payload := Some(Stamped(Mask(r, live, now), now)))
    requires p.status in {Attempting, ExpiredBeforeAttempt}
    ensures RowInv(r.(publication := p, version := r.version + bumps), now.mono)
  {
    hide TargetInv, ForecastSound, TtlMs, AttemptedEligible, Carries, EligibleUpTo, ExcludedUpTo, MaskForecast,
         WireShared, Masking;
    SentCarries(r.decision, Mask(r, live, now), now);
    UnmaskedAreUnmatched(r, live, now, p);
    SilentPublication(r, p, now.mono);
    PublicationStep(r, p, bumps, now.mono);
  }

  lemma StampedMask(r: Row, w: Wire, at: Stamp)
    requires Shaped(r) && MaskedBy(r, w)
    ensures MaskedBy(r, Stamped(w, at))
  {
    hide Masking;
  }

  lemma AttemptKeepsRow(r: Row, live: Wire, publishable: bool, now: Stamp, clock: int)
    requires RowInv(r, clock) && clock <= now.mono && r.publication.attempt.None? && r.publication.ack.None?
    requires r.publication.intent.Some? && Staged(r, live)
    ensures var (after, sent) := AttemptPublish(r, live, publishable, now);
            && RowInv(after, now.mono) && after.publication.ack.None?
            && after.targets == r.targets && after.decision == r.decision
            && (sent.Some? ==> after.publication.status == Attempting && after.publication.attempt == Some(now)
                               && after.publication.payload == sent && TtlMs(r.decision, now) >= 1
                               && after.publication.intent == r.publication.intent
                               && after.publication.failure == r.publication.failure
                               && sent.value.attempted == Some(now) && MaskedBy(r, sent.value))
  {
    hide RowInv, Carries, Mask, TtlMs, WorthPublishing, WireShared, Exclusion, Header, Derived, MaskedBy;
    LaterKeepsRow(r, clock, now.mono);
    if publishable {
      MaskCarries(r, live, now);
      var sent := Stamped(Mask(r, live, now), now);
      var p := r.publication.(status := Attempting, attempt := Some(now), payload := Some(sent));
      QuietAttempt(r, Mask(r, live, now), now.mono);
      LoudAttempt(r, live, p, 1, now);
      MaskedFrame(r, r, live, now);
      StampedMask(r, Mask(r, live, now), now);
      LoudAttempt(r, live, p.(status := ExpiredBeforeAttempt), 2, now);
    } else {
      StatusKeepsRow(r, PreemptedAfterSpool, now.mono);
      ChangedKeepsRow(WithStatus(r, PreemptedAfterSpool), now.mono);
    }
  }

  /** An offered horizon is found in the attempted bytes, and only there. */
  lemma OfferIsFound(d: Decision, p: Publication, t: Target, i: int)
    requires 0 <= i < 6 && DecisionSound(d) && t.stamp == d.forecasts[i].target
    requires p.payload.Some? ==> Carries(d, p.payload.value)
    requires p.attempt.Some? ==> p.payload.Some? && p.payload.value.attempted.Some?
    ensures AttemptedForecast(d, p, t, i) <==> AttemptedEligible(p, i)
  {
    hide GeometryOk, CountsOk, LegalReasons, MaxCarryAt;
    assert ForecastSound(d, i);
    if AttemptedEligible(p, i) {
      var w := p.payload.value;
      assert SoleMatch(w.forecasts, HORIZONS[i], i);
      assert SameOffer(w.forecasts[i].forecast, d.forecasts[i], t.stamp);
      assert HORIZONS[i] !in w.excluded;
    }
  }

  lemma LeadIsExpected(d: Decision, p: Publication, invalid: bool, t: Target, i: int)
    requires 0 <= i < 6 && DecisionSound(d) && t.stamp == d.forecasts[i].target
    requires p.payload.Some? ==> Carries(d, p.payload.value)
    requires p.attempt.Some? ==> p.payload.Some? && p.payload.value.attempted.Some?
    ensures Lead(d, p, invalid, t, i) == ExpectedLead(p, invalid, t, i)
  {
    hide AttemptedForecast, AttemptedEligible, Carries, DecisionSound;
    OfferIsFound(d, p, t, i);
  }

  lemma ScoredIsExpected(r: Row, p: Publication, now: int)
    requires TargetsInv(r, now) && DecisionSound(r.decision)
    requires p.attempt == r.publication.attempt && p.payload == r.publication.payload
    requires p.payload.Some? ==> Carries(r.decision, p.payload.value)
    requires p.attempt.Some? ==> p.payload.Some? && p.payload.value.attempted.Some?
    ensures TargetsInv(ScoreAll(r.(publication := p)), now)
  {
    hide Lead, ForecastSound, EvidenceOk, Carries, ExpectedLead;
    var scored := ScoreAll(r.(publication := p));
    forall i | 0 <= i < 6 ensures TargetInv(r.decision, p, r.causalityInvalid, scored.targets[i], i, now) {
      assert TargetInv(r.decision, r.publication, r.causalityInvalid, r.targets[i], i, now);
      LeadIsExpected(r.decision, p, r.causalityInvalid, r.targets[i], i);
      LeadIgnoresLead(p, r.causalityInvalid, r.targets[i], scored.targets[i], i);
    }
  }

  lemma LeadIgnoresLead(p: Publication, invalid: bool, t: Target, u: Target, i: int)
    requires 0 <= i < 6 && u == t.(leadNs := u.leadNs)
    ensures ExpectedLead(p, invalid, t, i) == ExpectedLead(p, invalid, u, i)
  {
  }

  lemma FinishKeepsRow(r: Row, outcome: RedisOutcome, now: Stamp, clock: int)
    requires RowInv(r, clock) && clock <= now.mono
    requires r.publication.status == Attempting && r.publication.attempt.Some?
    requires TtlMs(r.decision, r.publication.attempt.value) >= 1
    ensures RowInv(FinishPublish(r, outcome, now), now.mono)
  {
    hide TargetInv, ForecastSound, TtlMs, Lead, AttemptedEligible;
    LaterKeepsRow(r, clock, now.mono);
    var acked := r.publication.(status := Acknowledged, ack := Some(now));
    var failed := r.publication.(status := Uncertain, failure := Some(now));
    ScoredIsExpected(r, acked, now.mono);
    ScoredIsExpected(r, failed, now.mono);
    ScoredKeepsFrame(r.(publication := acked));
    ScoredKeepsFrame(r.(publication := failed));
    CancelledKeepsTargets(r, failed, now.mono);
  }

  lemma ScoredKeepsFrame(r: Row)
    requires Shaped(r)
    ensures ScoreAll(r) == r.(targets := ScoreAll(r).targets)
    ensures forall i :: 0 <= i < 6 ==> ScoreAll(r).targets[i].status == r.targets[i].status
  {
  }

  lemma CancelledKeepsTargets(r: Row, p: Publication, now: int)
    requires TargetsInv(r, now) && r.publication.status == Attempting && p.status == Uncertain
    requires p.attempt == r.publication.attempt && p.payload == r.publication.payload
    ensures TargetsInv(r.(publication := p), now)
  {
    hide EvidenceOk;
    forall i | 0 <= i < 6 ensures TargetInv(r.decision, p, r.causalityInvalid, r.targets[i], i, now) {
      assert TargetInv(r.decision, r.publication, r.causalityInvalid, r.targets[i], i, now);
    }
  }

  // ---------------------------------------------------------------- targets

  predicate Observable(d: Decision, p: Publication, e: PriceEvent, clock: int) {
    && e.feed == Twap && e.Valid() && e.sequence >= 1 && clock <= e.monoNs && e.wallNs >= d.wallNs
    && (p.attempt.Some? ==> p.attempt.value.mono <= clock)
  }

  lemma ObserveKeepsTarget(d: Decision, p: Publication, invalid: bool, t: Target, i: int, e: PriceEvent, clock: int)
    requires 0 <= i < 6 && DecisionSound(d) && TargetInv(d, p, invalid, t, i, clock) && Observable(d, p, e, clock)
    requires p.payload.Some? ==> Carries(d, p.payload.value)
    requires p.attempt.Some? ==> p.payload.Some? && p.payload.value.attempted.Some?
    ensures var after := ObserveTarget(d, p, invalid, t, i, e).0;
            && TargetInv(d, p, invalid, after, i, e.monoNs)
            && (t.status != AwaitingTarget ==> after.status != AwaitingTarget)
            && (t.status != AwaitingTarget || t.conflicted || t.first.Some? ==>
                  after.status != AwaitingTarget || after.conflicted || after.first.Some?)
            && (t.first.Some? ==> after.first == t.first)
  {
    hide DecisionSound, Carries, Lead, ForecastSound, PriceEvent.Valid;
    if t.first.None? && t.stamp == Some(e.sourceMs) && t.status == AwaitingTarget && e.monoNs >= d.monoNs
       && e.monoNs < d.monoNs + MATCH_NS {
      MatchKeepsTarget(d, p, invalid, t, i, e, clock);
    }
  }

  lemma MatchKeepsTarget(d: Decision, p: Publication, invalid: bool, t: Target, i: int, e: PriceEvent, clock: int)
    requires 0 <= i < 6 && DecisionSound(d) && TargetInv(d, p, invalid, t, i, clock) && Observable(d, p, e, clock)
    requires p.payload.Some? ==> Carries(d, p.payload.value)
    requires p.attempt.Some? ==> p.payload.Some? && p.payload.value.attempted.Some?
    requires t.first.None? && t.stamp == Some(e.sourceMs) && t.status == AwaitingTarget
    requires d.monoNs <= e.monoNs < d.monoNs + MATCH_NS
    ensures TargetInv(d, p, invalid, FirstMatch(d, p, invalid, t, i, e), i, e.monoNs)
  {
    hide Carries, Lead, GeometryOk, CountsOk, LegalReasons;
    assert ForecastSound(d, i);
    var after := FirstMatch(d, p, invalid, t, i, e);
    LeadIsExpected(d, p, invalid, after.(leadNs := t.leadNs), i);
    LeadIgnoresLead(p, invalid, after.(leadNs := t.leadNs), after, i);
  }

  lemma ObserveOneFrame(r: Row, i: int, e: PriceEvent)
    requires Shaped(r) && 0 <= i < 6
    ensures var after := ObserveOne(r, i, e);
            var seen := ObserveTarget(r.decision, r.publication, r.causalityInvalid, r.targets[i], i, e).0;
            after == r.(targets := r.targets[i := seen], version := after.version) && after.version >= r.version
  {
    hide ObserveTarget;
  }

  lemma {:induction false} ObserveKeepsRow(r: Row, n: nat, e: PriceEvent)
    requires n <= 6 && Shaped(r)
    ensures var after := ObserveUpTo(r, n, e);
            && after == r.(targets := after.targets, version := after.version) && after.version >= r.version
            && (forall i :: 0 <= i < n ==>
                  after.targets[i] == ObserveTarget(r.decision, r.publication, r.causalityInvalid, r.targets[i],
                                                    i, e).0)
            && (forall i :: n <= i < 6 ==> after.targets[i] == r.targets[i])
  {
    hide ObserveTarget, ObserveOne;
    if n > 0 {
      ObserveKeepsRow(r, n - 1, e);
      ObserveOneFrame(ObserveUpTo(r, n - 1, e), n - 1, e);
    }
  }

  lemma ObserveKeepsInv(r: Row, e: PriceEvent, clock: int)
    requires RowInv(r, clock) && Observable(r.decision, r.publication, e, clock)
    ensures RowInv(Observe(r, e), e.monoNs)
    ensures Observe(r, e) == r.(targets := Observe(r, e).targets, version := Observe(r, e).version)
    ensures Observe(r, e).version >= r.version
    ensures forall live :: Staged(r, live) ==> Staged(Observe(r, e), live)
  {
    hide ObserveTarget, TargetInv, ForecastSound, Carries, ObserveUpTo, WireShared, EvidenceOk, ExpectedLead;
    ObserveKeepsRow(r, 6, e);
    LaterKeepsRow(r, clock, e.monoNs);
    var after := Observe(r, e);
    forall i | 0 <= i < 6
      ensures TargetInv(after.decision, after.publication, after.causalityInvalid, after.targets[i], i, e.monoNs)
      ensures r.targets[i].status != AwaitingTarget ==> after.targets[i].status != AwaitingTarget
      ensures Exclusion(after, i).None? ==> Exclusion(r, i).None?
    {
      assert TargetInv(r.decision, r.publication, r.causalityInvalid, r.targets[i], i, clock);
      ObserveKeepsTarget(r.decision, r.publication, r.causalityInvalid, r.targets[i], i, e, clock);
    }
  }

  // ---------------------------------------------------------------- ends of a row

  lemma ResolveKeepsTargets(r: Row, status: TargetStatus, now: int)
    requires TargetsInv(r, now) && status in {Missed, RestartUnmatched}
    ensures TargetsInv(ResolveAll(r, status), now)
    ensures forall i :: 0 <= i < 6 ==> ResolveAll(r, status).targets[i].status != AwaitingTarget
  {
    hide EvidenceOk, FirstOk;
    var after := ResolveAll(r, status);
    forall i | 0 <= i < 6
      ensures TargetInv(r.decision, r.publication, r.causalityInvalid, after.targets[i], i, now)
    {
      assert TargetInv(r.decision, r.publication, r.causalityInvalid, r.targets[i], i, now);
    }
  }

  lemma EndKeepsRow(r: Row, mono: int, now: int)
    requires RowInv(r, now)
    ensures RowInv(Finalize(r, mono), now) && RowInv(Shut(r), now)
    ensures Shut(r).terminal && (Finalize(r, mono).terminal <==> r.terminal || mono >= r.decision.monoNs + MATCH_NS)
  {
    hide TargetInv, ForecastSound, PublicationInv;
    ResolveKeepsTargets(r, Missed, now);
    ResolveKeepsTargets(r, RestartUnmatched, now);
  }

  lemma InvalidateKeepsRow(r: Row, now: int)
    requires RowInv(r, now)
    ensures RowInv(Invalidate(r), now)
  {
    hide EvidenceOk, DecisionSound, PublicationInv, AttemptedEligible;
    var after := Invalidate(r);
    forall i | 0 <= i < 6
      ensures TargetInv(r.decision, r.publication, after.causalityInvalid, after.targets[i], i, now)
      ensures after.targets[i].status == r.targets[i].status
    {
      assert TargetInv(r.decision, r.publication, r.causalityInvalid, r.targets[i], i, now);
    }
  }

  lemma RecoveredKeepsRow(r: Row, now: int)
    requires RowInv(r, now)
    ensures RowInv(Recovered(r), now) && Recovered(r).terminal && Recovered(r).decision == r.decision
    ensures Recovered(r).version >= r.version && (!r.terminal ==> Recovered(r).version == r.version + 1)
  {
    hide TargetInv, ForecastSound, Carries;
    ResolveKeepsTargets(r, RestartUnmatched, now);
    var resolved := ResolveAll(r, RestartUnmatched);
    var p := r.publication.(unconfirmedAfterRestart := true);
    forall i | 0 <= i < 6
      ensures TargetInv(r.decision, p, r.causalityInvalid, resolved.targets[i], i, now)
    {
      assert TargetInv(r.decision, r.publication, r.causalityInvalid, resolved.targets[i], i, now);
      RestartNoteIsSilent(r.decision, r.publication, r.causalityInvalid, resolved.targets[i], i, now);
    }
  }

  lemma RestartNoteIsSilent(d: Decision, p: Publication, invalid: bool, t: Target, i: int, now: int)
    requires 0 <= i < 6 && |d.forecasts| == 6 && TargetInv(d, p, invalid, t, i, now)
    ensures TargetInv(d, p.(unconfirmedAfterRestart := true), invalid, t, i, now)
  {
    hide EvidenceOk;
  }

  // ---------------------------------------------------------------- the theorem

  /** A finished row passes every check of the compactor exactly when it has an included sequence. */
  lemma TerminalRowsCompact(r: Row, now: int, asOfWallNs: int)
    requires RowInv(r, now) && r.terminal
    ensures Compactable(r, asOfWallNs)
            <==> r.decision.includedSequence.Some? && asOfWallNs >= r.decision.wallNs + 120 * NS_PER_SECOND
  {
    hide TargetInv, TargetCompacts, ForecastSound;
    forall i | 0 <= i < 6 ensures TargetCompacts(r, i) { TargetIsCompact(r, i, now); }
    PublicationIsCompact(r, now);
  }

  lemma TargetIsCompact(r: Row, i: int, now: int)
    requires RowInv(r, now) && r.terminal && 0 <= i < 6
    ensures TargetCompacts(r, i)
  {
    hide GeometryOk, LegalReasons, PriceEvent.Valid, MaskShapeOk, MaxCarryAt, ExpectedLead;
    assert TargetInv(r.decision, r.publication, r.causalityInvalid, r.targets[i], i, now);
    assert ForecastSound(r.decision, i);
  }

  lemma PublicationIsCompact(r: Row, now: int)
    requires RowInv(r, now)
    ensures PublicationCompacts(r)
  {
    hide TargetInv, ForecastSound, WireMatches;
    TtlLeavesOneMillisecond(r);
  }

  lemma TtlLeavesOneMillisecond(r: Row)
    ensures r.publication.attempt.Some? ==>
              (TtlMs(r.decision, r.publication.attempt.value) >= 1
               <==> Min(r.decision.validUntilNs - r.publication.attempt.value.wall,
                        r.decision.validUntilNs - r.decision.wallNs
                        - (r.publication.attempt.value.mono - r.decision.monoNs)) >= NS_PER_MS)
  {
  }
}
