/**
 Hourly accuracy aggregates (price_collector/ghost_twap_accuracy.py): compact records,
 late annotations, one record's reversible contribution, and the signed merge with its
 integrity checks.
 */
module Accuracy {
  import opened Core
  import opened GhostTwap
  import opened GhostPayload
  import opened DecisionFacts
  import opened AuditRow
  import Rounding

  // ---------------------------------------------------------------- compact records

  datatype Entry = Entry(horizon: int, stamp: Option<int>, price: Option<int>, quality: Quality, counts: SlotCounts,
                         maxCarryMs: int, reasons: seq<Reason>, attemptedEligible: bool, exclusions: seq<Reason>,
                         status: TargetStatus, first: Option<PriceEvent>, late: Option<PriceEvent>,
                         conflicting: Option<PriceEvent>, conflicted: bool, anomaly: bool, lateMissing: bool,
                         leadNs: Option<int>)

  datatype Compact = Compact(id: int, createdMs: int, wallNs: int, monoNs: int, policy: Policy, campaignStartMs: int,
                             spot: Option<PriceEvent>, twap: Option<PriceEvent>, status: PublicationStatus,
                             ack: Option<Stamp>, causalityInvalid: bool, horizons: seq<Entry>, revision: nat)

  function CompactEntry(r: Row, i: int): Entry
    requires Shaped(r) && 0 <= i < 6
  {
    var f, t, p := r.decision.forecasts[i], r.targets[i], r.publication;
    Entry(f.horizon, f.target, f.price, f.quality, f.counts, MaxCarryAt(r.decision, i), f.reasons,
          AttemptedEligible(p, i),
          if p.payload.Some? && f.horizon in p.payload.value.excluded then p.payload.value.excluded[f.horizon] else [],
          t.status, t.first, t.late, t.conflicting, t.conflicted, t.anomaly, t.lateMissing, t.leadNs)
  }

  /** The compact form of an audit row that passed the compactor's checks. */
  function CompactOf(r: Row, campaignStartMs: int): Compact
    requires Shaped(r)
  {
    var d := r.decision;
    Compact(d.id, d.wallNs / NS_PER_MS, d.wallNs, d.monoNs, d.policy, campaignStartMs, d.spot, d.twap,
            r.publication.status, r.publication.ack, r.causalityInvalid,
            seq(6, i requires 0 <= i < 6 => CompactEntry(r, i)), 0)
  }

  /** What compaction established of a record and the annotations keep. */
  predicate ValidCompact(c: Compact) {
    && |c.horizons| == 6
    && (forall i | 0 <= i < 6 :: c.horizons[i].horizon == HORIZONS[i] && CountsOk(c.horizons[i].counts))
    && (forall i | 0 <= i < 6 :: c.horizons[i].first.Some? ==>
          c.horizons[i].price.Some? && c.twap.Some? && c.horizons[i].first.value.value > 0)
  }

  lemma CompactedIsValid(r: Row, campaignStartMs: int, asOfWallNs: int)
    requires Compactable(r, asOfWallNs)
    ensures ValidCompact(CompactOf(r, campaignStartMs))
  {
    hide PublicationCompacts, ExpectedLead, MaxCarryAt;
    var c := CompactOf(r, campaignStartMs);
    forall i | 0 <= i < 6
      ensures c.horizons[i].horizon == HORIZONS[i] && CountsOk(c.horizons[i].counts)
      ensures c.horizons[i].first.Some? ==>
                c.horizons[i].price.Some? && c.twap.Some? && c.horizons[i].first.value.value > 0
    {
      assert TargetCompacts(r, i);
    }
  }

  function AnnotateEntry(t: Entry, e: PriceEvent): Entry {
    if t.stamp != Some(e.sourceMs) then t
    else if t.first.Some? && t.status == Matched then
      if t.first.value.value != e.value && t.conflicting.None?
      then t.(conflicted := true, conflicting := Some(e), leadNs := None) else t
    else if t.status in {Missed, RestartUnmatched} && t.late.None?
    then t.(late := Some(e), lateMissing := true) else t
  }

  /** First late or conflicting evidence; None when it changes nothing. */
  function Annotate(c: Compact, e: PriceEvent): Option<Compact> {
    var entries := seq(|c.horizons|, i requires 0 <= i < |c.horizons| => AnnotateEntry(c.horizons[i], e));
    if entries == c.horizons then None else Some(c.(horizons := entries, revision := c.revision + 1))
  }

  /** One horizon of the annotation, in place. */
  method AnnotateHorizon(t: Entry, e: PriceEvent) returns (target: Entry, changed: bool)
    ensures target == AnnotateEntry(t, e) && (changed <==> target != t)
  {
    target, changed := t, false;
    if target.stamp != Some(e.sourceMs) { return; }
    if target.first.Some? && target.status == Matched {
      if target.first.value.value != e.value && target.conflicting.None? {
        target, changed := target.(conflicted := true, conflicting := Some(e), leadNs := None), true;
      }
    } else if (target.status == Missed || target.status == RestartUnmatched) && target.late.None? {
      target, changed := target.(late := Some(e), lateMissing := true), true;
    }
  }

  /** Late evidence that names itself, comes from the TWAP feed and is not future-dated; anything else is refused. */
  predicate IsEvidence(e: PriceEvent) {
    e.feed == Twap && e.Valid() && e.sequence > 0 && e.eventId != "" && e.Causal()
  }

  method AnnotateTarget(c: Compact, e: PriceEvent) returns (raised: bool, result: Option<Compact>)
    ensures raised <==> !IsEvidence(e)
    ensures result == if raised then None else Annotate(c, e)
  {
    hide AnnotateEntry;
    if e.feed != Twap || e.value <= 0 || e.value >= Rounding.PRICE_LIMIT { return true, None; }
    if e.sourceMs < 0 || e.wallNs < 0 || e.monoNs < 0 || e.sequence < 0 { return true, None; }
    if e.sourceMs % 1000 != 0 || e.sequence == 0 || e.eventId == "" { return true, None; }
    if e.sourceMs * NS_PER_MS > e.wallNs { return true, None; }
    raised := false;
    var horizons, changed := c.horizons, false;
    for i := 0 to |horizons|
      invariant |horizons| == |c.horizons|
      invariant forall k :: 0 <= k < i ==> horizons[k] == AnnotateEntry(c.horizons[k], e)
      invariant forall k :: i <= k < |horizons| ==> horizons[k] == c.horizons[k]
      invariant changed <==> horizons != c.horizons
    {
      var target, here := AnnotateHorizon(horizons[i], e);
      ghost var before := horizons;
      horizons := horizons[i := target];
      StillChanged(c.horizons, before, i, target);
      changed := changed || here;
    }
    ghost var entries := seq(|c.horizons|, i requires 0 <= i < |c.horizons| => AnnotateEntry(c.horizons[i], e));
    assert horizons == entries;
    result := if changed then Some(c.(horizons := horizons, revision := c.revision + 1)) else None;
  }

  /** A horizon that still is what it was differs from the original after the write exactly if the write changes it. */
  lemma StillChanged(original: seq<Entry>, before: seq<Entry>, i: nat, target: Entry)
    requires i < |original| == |before| && before[i] == original[i]
    ensures before[i := target] != original <==> before != original || target != original[i]
  {
    if before != original {
      var k :| 0 <= k < |before| && before[k] != original[k];
      assert before[i := target][k] != original[k];
    } else if target != original[i] {
      assert before[i := target][i] != original[i];
    } else {
      assert before[i := target] == original;
    }
  }

  // ---------------------------------------------------------------- metrics

  datatype Count =
    | Issued | Calculated | UnavailableRows | AttemptedRows | PublishedEligible | Unpublished | UncertainRows
    | Withheld | MissingRows | RestartUnmatchedRows | ConflictedRows | ClockInvalid | LateMissing | LatePublication
    | EarlyRows | Scored | Better | EqualRows | Worse | Overpredicting | Underpredicting | Exact
    | QualityHealthy | QualityDegraded | QualityUnavailable
    | ObservedSlots | CarriedSlots | PendingSlots | FutureSlots | MissingSlotRows | InteriorCarryRows
    | SpotAges | TwapAges | SpotMissing | TwapMissing | SpotFutureClock | TwapFutureClock | PartialCampaignHour

  datatype SumName =
    | GhostAbsoluteUsd | HeldAbsoluteUsd | GhostSignedUsd | GhostAbsoluteBps | HeldAbsoluteBps | GhostSignedBps
    | PairedExcessBps | ConfirmedLeadNs
    | SpotSourceAge | SpotWallAge | SpotMonoAge | TwapSourceAge | TwapWallAge | TwapMonoAge

  datatype Metric = Metric(counts: map<Count, int>, reasons: map<Reason, int>, sums: map<SumName, real>,
                           ghostBins: seq<int>, heldBins: seq<int>)

  const BOUNDS_BPS: seq<real> := [0.0, 0.0001, 0.0003, 0.001, 0.003, 0.01, 0.03, 0.1, 0.3, 1.0, 3.0, 10.0, 30.0,
                                  100.0, 300.0, 1000.0]
  const BINS: nat := 17
  const HOUR_MS: int := 3_600_000

  predicate Whole(m: Metric) {
    && (forall c: Count :: c in m.counts) && (forall s: SumName :: s in m.sums)
    && |m.ghostBins| == BINS && |m.heldBins| == BINS
  }

  function SumInts(s: seq<int>): int {
    if s == [] then 0 else SumInts(s[..|s| - 1]) + s[|s| - 1]
  }

  function NoCount(c: Count): int { 0 }

  function NoSum(s: SumName): real { 0.0 }

  function EmptyMetric(): (m: Metric)
    ensures Whole(m)
  {
    Metric(map c: Count | true :: NoCount(c), map[], map s: SumName | true :: NoSum(s),
           seq(BINS, _ => 0), seq(BINS, _ => 0))
  }

  // ---------------------------------------------------------------- one record's contribution

  datatype Cohort = EarlyCohort | PublishedCohort

  datatype GroupKey = GroupKey(policy: Policy, horizon: int, cohort: Cohort)

  predicate Acked(c: Compact, t: Entry) { c.status == Acknowledged && t.attemptedEligible }

  predicate ValidMatch(c: Compact, t: Entry) {
    && Acked(c, t) && t.first.Some? && t.status == Matched && !(t.conflicted || t.anomaly || c.causalityInvalid)
  }

  predicate IsEarly(c: Compact, t: Entry) {
    ValidMatch(c, t) && c.ack.Some? && t.first.Some? && c.ack.value.mono < t.first.value.monoNs
  }

  /** The signed errors of the forecast and of the held TWAP, in price units and in basis points. */
  datatype Pair = Pair(error: int, held: int, errorBps: real, heldBps: real)

  function PairOf(c: Compact, t: Entry): Option<Pair> {
    if ValidMatch(c, t) && t.first.Some? && t.price.Some? && c.twap.Some? && t.first.value.value != 0 then
      var actual := t.first.value.value;
      var error, held := t.price.value - actual, c.twap.value.value - actual;
      Some(Pair(error, held, error as real / actual as real * 10000.0, held as real / actual as real * 10000.0))
    else None
  }

  function ScoredPair(c: Compact, t: Entry, cohort: Cohort): Option<Pair> {
    if cohort == EarlyCohort && !IsEarly(c, t) then None else PairOf(c, t)
  }

  function Abs(x: int): int { if x < 0 then -x else x }

  function AbsReal(x: real): real { if x < 0.0 then -x else x }

  /** How many bounds lie below the value: the bucket whose bound is the first not below it. */
  function BinOf(x: real): (b: nat)
    ensures b < BINS
  {
    BoundsBelow(x, |BOUNDS_BPS|)
  }

  function BoundsBelow(x: real, n: nat): (b: nat)
    requires n <= |BOUNDS_BPS|
    ensures b <= n
  {
    if n == 0 then 0 else BoundsBelow(x, n - 1) + (if BOUNDS_BPS[n - 1] < x then 1 else 0)
  }

  function Flag(b: bool): int { if b then 1 else 0 }

  predicate FutureInput(c: Compact, e: PriceEvent) {
    c.wallNs - e.sourceMs * NS_PER_MS < 0 || c.wallNs - e.wallNs < 0 || c.monoNs - e.monoNs < 0
  }

  predicate Aged(c: Compact, e: Option<PriceEvent>) { e.Some? && !FutureInput(c, e.value) }

  function CountIn(c: Compact, t: Entry, cohort: Cohort, count: Count): int {
    var pair := ScoredPair(c, t, cohort);
    match count
    case Issued => 1
    case Calculated => Flag(t.price.Some?)
    case UnavailableRows => Flag(t.price.None?)
    case AttemptedRows => Flag(t.attemptedEligible)
    case PublishedEligible => Flag(Acked(c, t))
    case Unpublished => Flag(c.status != Acknowledged)
    case UncertainRows => Flag(c.status == Uncertain)
    case Withheld => Flag(t.price.Some? && !t.attemptedEligible)
    case MissingRows => Flag(t.status == Missed)
    case RestartUnmatchedRows => Flag(t.status == RestartUnmatched)
    case ConflictedRows => Flag(t.conflicted)
    case ClockInvalid => Flag(t.anomaly || c.causalityInvalid)
    case LateMissing => Flag(t.lateMissing || t.late.Some?)
    case LatePublication => Flag(ValidMatch(c, t) && !IsEarly(c, t))
    case EarlyRows => Flag(IsEarly(c, t))
    case Scored => Flag(pair.Some?)
    case Better => Flag(pair.Some? && Abs(pair.value.error) < Abs(pair.value.held))
    case EqualRows => Flag(pair.Some? && Abs(pair.value.error) == Abs(pair.value.held))
    case Worse => Flag(pair.Some? && Abs(pair.value.error) > Abs(pair.value.held))
    case Overpredicting => Flag(pair.Some? && pair.value.error > 0)
    case Underpredicting => Flag(pair.Some? && pair.value.error < 0)
    case Exact => Flag(pair.Some? && pair.value.error == 0)
    case QualityHealthy => Flag(t.quality == Healthy)
    case QualityDegraded => Flag(t.quality == Degraded)
    case QualityUnavailable => Flag(t.quality == Unavailable)
    case ObservedSlots => t.counts.observed
    case CarriedSlots => t.counts.carried
    case PendingSlots => t.counts.pending
    case FutureSlots => t.counts.future
    case MissingSlotRows => t.counts.missing
    case InteriorCarryRows => Flag(t.maxCarryMs > 0)
    case SpotAges => Flag(Aged(c, c.spot))
    case TwapAges => Flag(Aged(c, c.twap))
    case SpotMissing => Flag(c.spot.None?)
    case TwapMissing => Flag(c.twap.None?)
    case SpotFutureClock => Flag(c.spot.Some? && FutureInput(c, c.spot.value))
    case TwapFutureClock => Flag(c.twap.Some? && FutureInput(c, c.twap.value))
    case PartialCampaignHour =>
      Flag(c.campaignStartMs % HOUR_MS != 0 && c.campaignStartMs / HOUR_MS == c.createdMs / HOUR_MS)
  }

  function AgeIn(c: Compact, e: Option<PriceEvent>, which: int): real {
    if !Aged(c, e) then 0.0
    else if which == 0 then (c.wallNs - e.value.sourceMs * NS_PER_MS) as real
    else if which == 1 then (c.wallNs - e.value.wallNs) as real
    else (c.monoNs - e.value.monoNs) as real
  }

  function SumIn(c: Compact, t: Entry, cohort: Cohort, name: SumName): real {
    var pair := ScoredPair(c, t, cohort);
    match name
    case ConfirmedLeadNs =>
      if IsEarly(c, t) && t.first.Some? && c.ack.Some? then (t.first.value.monoNs - c.ack.value.mono) as real else 0.0
    case SpotSourceAge => AgeIn(c, c.spot, 0)
    case SpotWallAge => AgeIn(c, c.spot, 1)
    case SpotMonoAge => AgeIn(c, c.spot, 2)
    case TwapSourceAge => AgeIn(c, c.twap, 0)
    case TwapWallAge => AgeIn(c, c.twap, 1)
    case TwapMonoAge => AgeIn(c, c.twap, 2)
    case _ => if pair.None? then 0.0 else PairSum(pair.value, name)
  }

  function PairSum(p: Pair, name: SumName): real {
    match name
    case GhostAbsoluteUsd => Abs(p.error) as real
    case HeldAbsoluteUsd => Abs(p.held) as real
    case GhostSignedUsd => p.error as real
    case GhostAbsoluteBps => AbsReal(p.errorBps)
    case HeldAbsoluteBps => AbsReal(p.heldBps)
    case GhostSignedBps => p.errorBps
    case PairedExcessBps => AbsReal(p.errorBps) - AbsReal(p.heldBps)
    case _ => 0.0
  }

  function OneHot(bin: Option<nat>): seq<int> {
    seq(BINS, i => if bin == Some(i) then 1 else 0)
  }

  function MetricOf(c: Compact, t: Entry, cohort: Cohort): (m: Metric)
    ensures Whole(m)
  {
    var pair := ScoredPair(c, t, cohort);
    Metric(map count: Count | true :: CountIn(c, t, cohort, count),
           map r | r in t.reasons + t.exclusions :: 1,
           map name: SumName | true :: SumIn(c, t, cohort, name),
           OneHot(if pair.None? then None else Some(BinOf(AbsReal(pair.value.errorBps)))),
           OneHot(if pair.None? then None else Some(BinOf(AbsReal(pair.value.heldBps)))))
  }

  datatype Group = Group(metrics: Metric, fixedWindow: Metric)

  datatype Aggregate = Aggregate(hourMs: int, groups: map<GroupKey, Group>)

  function EmptyGroup(): Group { Group(EmptyMetric(), EmptyMetric()) }

  function HourOf(c: Compact): int { c.createdMs / HOUR_MS * HOUR_MS }

  /** The decision fell in the first second of a minute. */
  predicate Sampled(c: Compact) { c.wallNs / NS_PER_SECOND % 60 == 0 }

  /** The last entry of a horizon; the records of the compactor have each horizon once. */
  function EntryFor(entries: seq<Entry>, horizon: int): Option<Entry> {
    if entries == [] then None
    else if entries[|entries| - 1].horizon == horizon then Some(entries[|entries| - 1])
    else EntryFor(entries[..|entries| - 1], horizon)
  }

  function GroupFor(c: Compact, k: GroupKey): Group {
    var t := EntryFor(c.horizons, k.horizon);
    if t.None? then EmptyGroup()
    else
      var m := MetricOf(c, t.value, k.cohort);
      Group(m, if Sampled(c) then m else EmptyMetric())
  }

  function KeysOf(c: Compact): set<GroupKey> {
    set i, cohort: Cohort | 0 <= i < |c.horizons| && cohort in {EarlyCohort, PublishedCohort}
      :: GroupKey(c.policy, c.horizons[i].horizon, cohort)
  }

  /** One decision's contribution to its hour. */
  function Contribution(c: Compact): Aggregate {
    Aggregate(HourOf(c), map k | k in KeysOf(c) :: GroupFor(c, k))
  }

  // ---------------------------------------------------------------- signed merge

  datatype Sign = Add | Subtract

  function Signed(x: int, sign: Sign, y: int): int { if sign == Add then x + y else x - y }

  function Count0<K>(m: map<K, int>, k: K): int { if k in m then m[k] else 0 }

  function SignedReasons(target: map<Reason, int>, source: map<Reason, int>, sign: Sign): map<Reason, int> {
    map r | r in target.Keys + source.Keys && (r in source ==> Signed(Count0(target, r), sign, source[r]) != 0)
      :: Signed(Count0(target, r), sign, Count0(source, r))
  }

  function Combined(target: Metric, source: Metric, sign: Sign): (m: Metric)
    requires Whole(target) && Whole(source)
    ensures Whole(m)
  {
    Metric(map c: Count | true :: Signed(target.counts[c], sign, source.counts[c]),
           SignedReasons(target.reasons, source.reasons, sign),
           map s: SumName | true ::
             if sign == Add then target.sums[s] + source.sums[s] else target.sums[s] - source.sums[s],
           seq(BINS, i requires 0 <= i < BINS => Signed(target.ghostBins[i], sign, source.ghostBins[i])),
           seq(BINS, i requires 0 <= i < BINS => Signed(target.heldBins[i], sign, source.heldBins[i])))
  }

  /** No count fell below zero and both histograms count the scored rows. */
  predicate Sound(m: Metric)
    requires Whole(m)
  {
    && (forall c: Count :: m.counts[c] >= 0) && (forall r | r in m.reasons :: m.reasons[r] >= 0)
    && (forall i | 0 <= i < BINS :: m.ghostBins[i] >= 0 && m.heldBins[i] >= 0)
    && SumInts(m.ghostBins) == m.counts[Scored] && SumInts(m.heldBins) == m.counts[Scored]
  }

  predicate AllZeroSums(m: Metric)
    requires Whole(m)
  {
    forall s: SumName :: m.sums[s] == 0.0
  }

  predicate Formed(a: Aggregate) {
    forall k | k in a.groups :: Whole(a.groups[k].metrics) && Whole(a.groups[k].fixedWindow)
  }

  function TargetGroup(a: Aggregate, k: GroupKey): (g: Group)
    requires Formed(a)
    ensures Whole(g.metrics) && Whole(g.fixedWindow)
  {
    if k in a.groups then a.groups[k] else EmptyGroup()
  }

  function MergedGroup(a: Aggregate, delta: Aggregate, k: GroupKey, sign: Sign): (g: Group)
    requires Formed(a) && Formed(delta) && k in delta.groups
    ensures Whole(g.metrics) && Whole(g.fixedWindow)
  {
    Group(Combined(TargetGroup(a, k).metrics, delta.groups[k].metrics, sign),
          Combined(TargetGroup(a, k).fixedWindow, delta.groups[k].fixedWindow, sign))
  }

  /** No count of a delta is negative; the loops refuse one that is. */
  predicate NonNegative(m: Metric)
    requires Whole(m)
  {
    && (forall c: Count :: m.counts[c] >= 0) && (forall r | r in m.reasons :: m.reasons[r] >= 0)
    && forall i | 0 <= i < BINS :: m.ghostBins[i] >= 0 && m.heldBins[i] >= 0
  }

  /** What the loops check of a merged metric; reasons of the target alone are not looked at. */
  predicate Checked(target: Metric, source: Metric, sign: Sign)
    requires Whole(target) && Whole(source)
  {
    var m := Combined(target, source, sign);
    && NonNegative(source) && (forall c: Count :: m.counts[c] >= 0)
    && (forall r | r in source.reasons :: Signed(Count0(target.reasons, r), sign, source.reasons[r]) >= 0)
    && (forall i | 0 <= i < BINS :: m.ghostBins[i] >= 0 && m.heldBins[i] >= 0)
    && SumInts(m.ghostBins) == m.counts[Scored] && SumInts(m.heldBins) == m.counts[Scored]
  }

  /** The integrity checks of one merged group. */
  predicate GroupMerges(a: Aggregate, delta: Aggregate, k: GroupKey, sign: Sign)
    requires Formed(a) && Formed(delta) && k in delta.groups
  {
    var target, source, g := TargetGroup(a, k), delta.groups[k], MergedGroup(a, delta, k, sign);
    && Checked(target.metrics, source.metrics, sign) && Checked(target.fixedWindow, source.fixedWindow, sign)
    && (g.metrics.counts[Issued] == 0 ==> AllZeroSums(g.metrics))
  }

  /** Add or subtract a contribution; None is any of the integrity errors. */
  function Merge(aggregate: Option<Aggregate>, delta: Aggregate, sign: Sign): Option<Aggregate>
    requires Formed(delta) && (aggregate.Some? ==> Formed(aggregate.value))
  {
    var a := if aggregate.None? then Aggregate(delta.hourMs, map[]) else aggregate.value;
    if a.hourMs != delta.hourMs || !forall k | k in delta.groups :: GroupMerges(a, delta, k, sign) then None
    else Some(Aggregate(a.hourMs, MergedGroups(a, delta, sign)))
  }

  function MergedGroups(a: Aggregate, delta: Aggregate, sign: Sign): map<GroupKey, Group>
    requires Formed(a) && Formed(delta)
  {
    map k | k in a.groups.Keys + delta.groups.Keys
            && (k in delta.groups ==> MergedGroup(a, delta, k, sign).metrics.counts[Issued] != 0)
      :: if k in delta.groups then MergedGroup(a, delta, k, sign) else a.groups[k]
  }
}
