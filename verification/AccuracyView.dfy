/**
 View maintenance: an hourly aggregate kept by adding, subtracting and replacing
 contributions equals the plain fold over the hour's current compact records, whatever
 the order, and none of the merge's integrity checks ever fails.
 */
module AccuracyView {
  import opened Core
  import opened GhostTwap
  import opened GhostPayload
  import opened AuditRow
  import opened Accuracy

  // ---------------------------------------------------------------- cells

  /** One number of a metric. */
  datatype Cell = CountCell(count: Count) | ReasonCell(reason: Reason) | SumCell(name: SumName)
                | GhostBin(i: nat) | HeldBin(i: nat)

  function CellOf(m: Metric, cell: Cell): real
    requires Whole(m)
  {
    match cell
    case CountCell(c) => m.counts[c] as real
    case ReasonCell(r) => Count0(m.reasons, r) as real
    case SumCell(s) => m.sums[s]
    case GhostBin(i) => if i < BINS then m.ghostBins[i] as real else 0.0
    case HeldBin(i) => if i < BINS then m.heldBins[i] as real else 0.0
  }

  function Half(g: Group, fixed: bool): Metric { if fixed then g.fixedWindow else g.metrics }

  function At(a: Aggregate, k: GroupKey, fixed: bool, cell: Cell): real
    requires Formed(a)
  {
    if k in a.groups then CellOf(Half(a.groups[k], fixed), cell) else 0.0
  }

  lemma EmptyCells(cell: Cell)
    ensures CellOf(EmptyMetric(), cell) == 0.0
  {
  }

  function SignedReal(x: real, sign: Sign, y: real): real { if sign == Add then x + y else x - y }

  lemma CombinedCell(t: Metric, s: Metric, sign: Sign, cell: Cell)
    requires Whole(t) && Whole(s)
    ensures CellOf(Combined(t, s, sign), cell) == SignedReal(CellOf(t, cell), sign, CellOf(s, cell))
  {
    if cell.ReasonCell? { SignedReasonAt(t.reasons, s.reasons, sign, cell.reason); }
  }

  lemma SignedReasonAt(t: map<Reason, int>, s: map<Reason, int>, sign: Sign, r: Reason)
    ensures Count0(SignedReasons(t, s, sign), r) == Signed(Count0(t, r), sign, Count0(s, r))
  {
  }

  lemma {:induction false} SumIntsLinear(t: seq<int>, s: seq<int>, sign: Sign, u: seq<int>)
    requires |t| == |s| == |u| && forall i :: 0 <= i < |u| ==> u[i] == Signed(t[i], sign, s[i])
    ensures SumInts(u) == Signed(SumInts(t), sign, SumInts(s))
  {
    if u != [] {
      var n := |u| - 1;
      SumIntsLinear(t[..n], s[..n], sign, u[..n]);
    }
  }

  // ---------------------------------------------------------------- what a contribution promises

  /** No reason is kept with a zero count. */
  predicate Tight(m: Metric) { forall r | r in m.reasons :: m.reasons[r] > 0 }

  lemma {:induction false} OneHotSum(bin: Option<nat>, n: nat)
    requires n <= BINS
    ensures SumInts(OneHot(bin)[..n]) == if bin.Some? && bin.value < n then 1 else 0
  {
    if n > 0 {
      OneHotSum(bin, n - 1);
      assert OneHot(bin)[..n][..n - 1] == OneHot(bin)[..n - 1];
    }
  }

  lemma OneHotTotal(bin: Option<nat>)
    requires bin.Some? ==> bin.value < BINS
    ensures SumInts(OneHot(bin)) == Flag(bin.Some?)
  {
    OneHotSum(bin, BINS);
    assert OneHot(bin)[..BINS] == OneHot(bin);
  }

  lemma {:induction false} ZeroSum(n: nat)
    ensures SumInts(seq(n, _ => 0)) == 0
  {
    if n > 0 {
      ZeroSum(n - 1);
      assert seq(n, _ => 0)[..n - 1] == seq(n - 1, _ => 0);
    }
  }

  lemma EmptyIsSound()
    ensures Sound(EmptyMetric()) && Tight(EmptyMetric()) && AllZeroSums(EmptyMetric())
  {
    ZeroSum(BINS);
  }

  lemma MetricIsSound(c: Compact, t: Entry, cohort: Cohort)
    requires CountsOk(t.counts)
    ensures Sound(MetricOf(c, t, cohort)) && Tight(MetricOf(c, t, cohort))
  {
    var m := MetricOf(c, t, cohort);
    var pair := ScoredPair(c, t, cohort);
    OneHotTotal(if pair.None? then None else Some(BinOf(AbsReal(pair.value.errorBps))));
    OneHotTotal(if pair.None? then None else Some(BinOf(AbsReal(pair.value.heldBps))));
    forall count: Count ensures m.counts[count] >= 0 { CountIsNonnegative(c, t, cohort, count); }
  }

  lemma CountIsNonnegative(c: Compact, t: Entry, cohort: Cohort, count: Count)
    requires CountsOk(t.counts)
    ensures CountIn(c, t, cohort, count) >= 0
  {
  }

  // ---------------------------------------------------------------- totals over records

  type Records = map<int, Compact>

  ghost predicate AllValid(recs: Records) { forall id :: id in recs ==> ValidCompact(recs[id]) }

  lemma ContributionIsFormed(c: Compact)
    ensures Formed(Contribution(c))
  {
  }

  /** The cell summed over every record. */
  function Total(recs: Records, k: GroupKey, fixed: bool, cell: Cell): real
    decreases |recs.Keys|
  {
    if recs == map[] then 0.0
    else
      var id := MaxOf(recs.Keys);
      ContributionIsFormed(recs[id]);
      assert (recs - {id}).Keys == recs.Keys - {id};
      At(Contribution(recs[id]), k, fixed, cell) + Total(recs - {id}, k, fixed, cell)
  }

  /** The order of summation does not matter: any record can be split off. */
  lemma {:induction false} TotalSplits(recs: Records, id: int, k: GroupKey, fixed: bool, cell: Cell)
    requires id in recs
    ensures Formed(Contribution(recs[id]))
    ensures Total(recs, k, fixed, cell)
            == At(Contribution(recs[id]), k, fixed, cell) + Total(recs - {id}, k, fixed, cell)
    decreases |recs.Keys|
  {
    hide At, Contribution;
    ContributionIsFormed(recs[id]);
    var top := MaxOf(recs.Keys);
    assert (recs - {id}).Keys == recs.Keys - {id};
    assert (recs - {top}).Keys == recs.Keys - {top};
    if id != top {
      TotalSplits(recs - {top}, id, k, fixed, cell);
      TotalSplits(recs - {id}, top, k, fixed, cell);
      assert recs - {top} - {id} == recs - {id} - {top};
    }
  }

  /** Counts, reasons and bins are never negative. */
  predicate Counted(cell: Cell) { !cell.SumCell? }

  lemma ContributedGroup(c: Compact, k: GroupKey)
    requires ValidCompact(c) && k in Contribution(c).groups
    ensures var g := Contribution(c).groups[k];
            && Whole(g.metrics) && Whole(g.fixedWindow)
            && Sound(g.metrics) && Tight(g.metrics) && Sound(g.fixedWindow) && Tight(g.fixedWindow)
            && g.metrics.counts[Issued] == 1
  {
    hide Sound, Tight, CountsOk, MetricOf;
    EmptyIsSound();
    var i: int, cohort: Cohort :| 0 <= i < |c.horizons| && cohort in {EarlyCohort, PublishedCohort}
                                  && k == GroupKey(c.policy, c.horizons[i].horizon, cohort);
    EntryIsFound(c.horizons, i);
    var t := EntryFor(c.horizons, k.horizon).value;
    assert CountsOk(t.counts);
    MetricIsSound(c, t, k.cohort);
    IssuedIsOne(c, t, k.cohort);
  }

  lemma IssuedIsOne(c: Compact, t: Entry, cohort: Cohort)
    ensures MetricOf(c, t, cohort).counts[Issued] == 1
  {
  }

  lemma {:induction false} EntryIsFound(entries: seq<Entry>, i: int)
    requires 0 <= i < |entries|
    ensures EntryFor(entries, entries[i].horizon).Some?
    ensures exists j :: 0 <= j < |entries| && EntryFor(entries, entries[i].horizon).value == entries[j]
  {
    var n := |entries| - 1;
    if entries[n].horizon != entries[i].horizon {
      EntryIsFound(entries[..n], i);
      var j :| 0 <= j < n && EntryFor(entries[..n], entries[i].horizon).value == entries[..n][j];
      assert entries[j] == entries[..n][j];
    }
  }

  lemma ContributedCell(c: Compact, k: GroupKey, fixed: bool, cell: Cell)
    requires ValidCompact(c)
    ensures Formed(Contribution(c))
    ensures Counted(cell) ==> At(Contribution(c), k, fixed, cell) >= 0.0
    ensures k !in Contribution(c).groups ==> At(Contribution(c), k, fixed, cell) == 0.0
    ensures k in Contribution(c).groups ==> At(Contribution(c), k, false, CountCell(Issued)) == 1.0
  {
    hide Contribution;
    ContributionIsFormed(c);
    if k in Contribution(c).groups { ContributedGroup(c, k); }
  }

  lemma {:induction false} TotalIsNonnegative(recs: Records, k: GroupKey, fixed: bool, cell: Cell)
    requires AllValid(recs) && Counted(cell)
    ensures Total(recs, k, fixed, cell) >= 0.0
    decreases |recs.Keys|
  {
    hide Contribution, At;
    if recs != map[] {
      var id := MaxOf(recs.Keys);
      assert (recs - {id}).Keys == recs.Keys - {id};
      ContributedCell(recs[id], k, fixed, cell);
      TotalIsNonnegative(recs - {id}, k, fixed, cell);
    }
  }

  /** A group without issued rows has no record, so every number of it is zero. */
  lemma {:induction false} NothingIssuedNothingSummed(recs: Records, k: GroupKey, fixed: bool, cell: Cell)
    requires AllValid(recs) && Total(recs, k, false, CountCell(Issued)) == 0.0
    ensures Total(recs, k, fixed, cell) == 0.0
    decreases |recs.Keys|
  {
    hide Contribution, At;
    if recs != map[] {
      var id := MaxOf(recs.Keys);
      assert (recs - {id}).Keys == recs.Keys - {id};
      ContributedCell(recs[id], k, fixed, cell);
      ContributedCell(recs[id], k, false, CountCell(Issued));
      TotalIsNonnegative(recs - {id}, k, false, CountCell(Issued));
      NothingIssuedNothingSummed(recs - {id}, k, fixed, cell);
    }
  }

  // ---------------------------------------------------------------- views

  ghost predicate SoundGroup(g: Group) {
    && Whole(g.metrics) && Whole(g.fixedWindow)
    && Sound(g.metrics) && Tight(g.metrics) && Sound(g.fixedWindow) && Tight(g.fixedWindow)
    && g.metrics.counts[Issued] > 0
  }

  ghost predicate Sums(a: Aggregate, recs: Records, k: GroupKey)
    requires Formed(a)
  {
    forall fixed: bool, cell: Cell :: At(a, k, fixed, cell) == Total(recs, k, fixed, cell)
  }

  /** The aggregate is the sum of exactly these records of its hour. */
  ghost predicate IsView(a: Aggregate, recs: Records) {
    && Formed(a) && AllValid(recs) && (forall id :: id in recs ==> HourOf(recs[id]) == a.hourMs)
    && (forall k :: k in a.groups ==> SoundGroup(a.groups[k]))
    && (forall k: GroupKey :: Sums(a, recs, k))
  }

  lemma EmptyView(hourMs: int)
    ensures IsView(Aggregate(hourMs, map[]), map[])
  {
  }

  /** The merged halves of a group sum what both sides summed. */
  lemma MergedCell(a: Aggregate, delta: Aggregate, k: GroupKey, sign: Sign, fixed: bool, cell: Cell)
    requires Formed(a) && Formed(delta) && k in delta.groups
    ensures CellOf(Half(MergedGroup(a, delta, k, sign), fixed), cell)
            == SignedReal(At(a, k, fixed, cell), sign, At(delta, k, fixed, cell))
  {
    hide CellOf, Combined;
    EmptyCells(cell);
    CombinedCell(Half(TargetGroup(a, k), fixed), Half(delta.groups[k], fixed), sign, cell);
  }

  lemma CombinedBins(t: Metric, s: Metric, sign: Sign)
    requires Whole(t) && Whole(s)
    ensures var m := Combined(t, s, sign);
            && SumInts(m.ghostBins) == Signed(SumInts(t.ghostBins), sign, SumInts(s.ghostBins))
            && SumInts(m.heldBins) == Signed(SumInts(t.heldBins), sign, SumInts(s.heldBins))
            && m.counts[Scored] == Signed(t.counts[Scored], sign, s.counts[Scored])
  {
    var m := Combined(t, s, sign);
    SumIntsLinear(t.ghostBins, s.ghostBins, sign, m.ghostBins);
    SumIntsLinear(t.heldBins, s.heldBins, sign, m.heldBins);
  }

  /** Adding sound halves, or subtracting one that leaves no cell negative, is sound. */
  lemma CombinedIsSound(t: Metric, s: Metric, sign: Sign)
    requires Whole(t) && Whole(s) && Sound(t) && Tight(t) && Sound(s) && Tight(s)
    requires sign == Subtract ==> forall cell: Cell :: Counted(cell) ==> CellOf(Combined(t, s, sign), cell) >= 0.0
    ensures Sound(Combined(t, s, sign)) && Tight(Combined(t, s, sign))
  {
    hide SumInts;
    CombinedBins(t, s, sign);
    var m := Combined(t, s, sign);
    if sign == Subtract {
      forall c: Count ensures m.counts[c] >= 0 { assert CellOf(m, CountCell(c)) >= 0.0; }
      forall r | r in m.reasons ensures m.reasons[r] > 0 {
        assert CellOf(m, ReasonCell(r)) >= 0.0;
        NoZeroReason(t.reasons, s.reasons, sign, r);
      }
      forall i | 0 <= i < BINS ensures m.ghostBins[i] >= 0 && m.heldBins[i] >= 0 {
        assert CellOf(m, GhostBin(i)) >= 0.0 && CellOf(m, HeldBin(i)) >= 0.0;
      }
    }
  }

  lemma NoZeroReason(t: map<Reason, int>, s: map<Reason, int>, sign: Sign, r: Reason)
    requires r in SignedReasons(t, s, sign) && forall x :: x in t ==> t[x] > 0
    ensures SignedReasons(t, s, sign)[r] != 0
  {
  }

  lemma TargetIsSound(a: Aggregate, k: GroupKey)
    requires Formed(a) && (k in a.groups ==> SoundGroup(a.groups[k]))
    ensures var g := TargetGroup(a, k);
            Sound(g.metrics) && Tight(g.metrics) && Sound(g.fixedWindow) && Tight(g.fixedWindow)
  {
    hide Sound, Tight;
    EmptyIsSound();
  }

  lemma AddedGroupIsSound(a: Aggregate, c: Compact, k: GroupKey)
    requires Formed(a) && (forall k :: k in a.groups ==> SoundGroup(a.groups[k])) && ValidCompact(c)
    requires Formed(Contribution(c)) && k in Contribution(c).groups
    ensures SoundGroup(MergedGroup(a, Contribution(c), k, Add)) && GroupMerges(a, Contribution(c), k, Add)
  {
    hide Sound, Tight, Checked, Contribution, ValidCompact, Combined;
    TargetIsSound(a, k);
    ContributedGroup(c, k);
    var t, s := TargetGroup(a, k), Contribution(c).groups[k];
    CombinedIsSound(t.metrics, s.metrics, Add);
    CombinedIsSound(t.fixedWindow, s.fixedWindow, Add);
    SoundMerges(t.metrics, s.metrics, Add);
    SoundMerges(t.fixedWindow, s.fixedWindow, Add);
    AddedIssued(t.metrics, s.metrics);
  }

  /** A merge of sound metrics that stays sound passes every check of the loops. */
  lemma SoundMerges(t: Metric, s: Metric, sign: Sign)
    requires Whole(t) && Whole(s) && Sound(t) && Sound(s) && Sound(Combined(t, s, sign))
    ensures Checked(t, s, sign)
  {
    hide SumInts;
    var m := Combined(t, s, sign);
    forall r | r in s.reasons
      ensures Signed(Count0(t.reasons, r), sign, s.reasons[r]) >= 0
    {
      if Signed(Count0(t.reasons, r), sign, s.reasons[r]) != 0 { assert r in m.reasons; }
    }
  }

  lemma AddedIssued(t: Metric, s: Metric)
    requires Whole(t) && Whole(s) && Sound(t) && s.counts[Issued] == 1
    ensures Combined(t, s, Add).counts[Issued] > 0
  {
  }

  lemma MergedAt(a: Aggregate, delta: Aggregate, sign: Sign, k: GroupKey, fixed: bool, cell: Cell)
    requires Formed(a) && Formed(delta)
    requires k in delta.groups && k !in MergedGroups(a, delta, sign) ==>
               SignedReal(At(a, k, fixed, cell), sign, At(delta, k, fixed, cell)) == 0.0
    ensures var r := Aggregate(a.hourMs, MergedGroups(a, delta, sign));
            Formed(r) && At(r, k, fixed, cell) == SignedReal(At(a, k, fixed, cell), sign, At(delta, k, fixed, cell))
  {
    hide CellOf, Combined;
    if k in delta.groups { MergedCell(a, delta, k, sign, fixed, cell); }
  }

  lemma MergesTo(a: Aggregate, delta: Aggregate, sign: Sign)
    requires Formed(a) && Formed(delta) && a.hourMs == delta.hourMs
    requires forall k :: k in delta.groups ==> GroupMerges(a, delta, k, sign)
    ensures Merge(Some(a), delta, sign) == Some(Aggregate(a.hourMs, MergedGroups(a, delta, sign)))
  {
    hide GroupMerges, MergedGroups;
  }

  lemma MergedIsFormed(a: Aggregate, delta: Aggregate, sign: Sign)
    requires Formed(a) && Formed(delta)
    ensures Formed(Aggregate(a.hourMs, MergedGroups(a, delta, sign)))
  {
    hide Combined;
  }

  lemma AddedGroupsAreSound(a: Aggregate, c: Compact)
    requires Formed(a) && (forall k :: k in a.groups ==> SoundGroup(a.groups[k])) && ValidCompact(c)
    requires Formed(Contribution(c))
    ensures forall k :: k in Contribution(c).groups ==>
              GroupMerges(a, Contribution(c), k, Add) && SoundGroup(MergedGroup(a, Contribution(c), k, Add))
    ensures forall k :: k in MergedGroups(a, Contribution(c), Add) ==>
              SoundGroup(MergedGroups(a, Contribution(c), Add)[k])
  {
    hide Contribution, SoundGroup, MergedGroup, ValidCompact, GroupMerges;
    forall k | k in Contribution(c).groups
      ensures GroupMerges(a, Contribution(c), k, Add) && SoundGroup(MergedGroup(a, Contribution(c), k, Add))
    {
      AddedGroupIsSound(a, c, k);
    }
  }

  /** Compaction: adding a new record's contribution succeeds and extends the view. */
  lemma AddKeepsView(a: Aggregate, recs: Records, id: int, c: Compact)
    requires IsView(a, recs) && id !in recs && ValidCompact(c) && HourOf(c) == a.hourMs
    ensures Formed(Contribution(c)) && Merge(Some(a), Contribution(c), Add).Some?
    ensures IsView(Merge(Some(a), Contribution(c), Add).value, recs[id := c])
  {
    hide Contribution, At, SoundGroup, MergedGroup, MergedGroups, Merge, ValidCompact, GroupMerges, HourOf, Total;
    ContributionIsFormed(c);
    ContributionHour(c);
    AddedGroupsAreSound(a, c);
    MergesTo(a, Contribution(c), Add);
    MergedIsFormed(a, Contribution(c), Add);
    var r, after := Merge(Some(a), Contribution(c), Add).value, recs[id := c];
    forall k: GroupKey, fixed: bool, cell: Cell ensures At(r, k, fixed, cell) == Total(after, k, fixed, cell) {
      AddedCell(a, recs, id, c, k, fixed, cell);
    }
    forall k: GroupKey ensures Sums(r, after, k) { }
  }

  lemma AddedCell(a: Aggregate, recs: Records, id: int, c: Compact, k: GroupKey, fixed: bool, cell: Cell)
    requires IsView(a, recs) && id !in recs && Formed(a) && Formed(Contribution(c))
    requires forall k :: k in Contribution(c).groups ==> SoundGroup(MergedGroup(a, Contribution(c), k, Add))
    ensures var r := Aggregate(a.hourMs, MergedGroups(a, Contribution(c), Add));
            Formed(r) && At(r, k, fixed, cell) == Total(recs[id := c], k, fixed, cell)
  {
    hide Contribution, At, SoundGroup, MergedGroup, ValidCompact, HourOf, Total;
    if k in Contribution(c).groups { SoundIssued(MergedGroup(a, Contribution(c), k, Add)); }
    MergedAt(a, Contribution(c), Add, k, fixed, cell);
    assert recs[id := c] - {id} == recs;
    TotalSplits(recs[id := c], id, k, fixed, cell);
    assert Sums(a, recs, k);
  }

  lemma SoundIssued(g: Group)
    requires SoundGroup(g)
    ensures Whole(g.metrics) && g.metrics.counts[Issued] != 0
  {
  }

  lemma ContributionHour(c: Compact)
    ensures Contribution(c).hourMs == HourOf(c)
  {
  }

  // ---------------------------------------------------------------- subtraction

  lemma RestCell(a: Aggregate, recs: Records, id: int, k: GroupKey, fixed: bool, cell: Cell)
    requires IsView(a, recs) && id in recs
    ensures Formed(Contribution(recs[id]))
    ensures At(a, k, fixed, cell) - At(Contribution(recs[id]), k, fixed, cell) == Total(recs - {id}, k, fixed, cell)
  {
    hide Contribution, At, SoundGroup, ValidCompact;
    TotalSplits(recs, id, k, fixed, cell);
    assert Sums(a, recs, k);
  }

  lemma RestIsValid(recs: Records, id: int)
    requires AllValid(recs)
    ensures AllValid(recs - {id})
  {
    hide ValidCompact;
  }

  /** What is left of a group after its record is taken out: sound, and empty only if nothing is left. */
  lemma SubtractedGroupIsSound(a: Aggregate, recs: Records, id: int, k: GroupKey)
    requires IsView(a, recs) && id in recs && Formed(Contribution(recs[id])) && k in Contribution(recs[id]).groups
    ensures GroupMerges(a, Contribution(recs[id]), k, Subtract)
    ensures var g := MergedGroup(a, Contribution(recs[id]), k, Subtract);
            && Sound(g.metrics) && Tight(g.metrics) && Sound(g.fixedWindow) && Tight(g.fixedWindow)
  {
    hide Sound, Tight, Checked, Contribution, ValidCompact, Combined, At, CellOf, IsView, AllZeroSums;
    ViewParts(a, recs);
    var delta := Contribution(recs[id]);
    var rest := recs - {id};
    RestIsValid(recs, id);
    TargetIsSound(a, k);
    assert ValidCompact(recs[id]) by { OneIsValid(recs, id); }
    ContributedGroup(recs[id], k);
    var g := MergedGroup(a, delta, k, Subtract);
    forall cell: Cell | Counted(cell)
      ensures CellOf(g.metrics, cell) >= 0.0 && CellOf(g.fixedWindow, cell) >= 0.0
    {
      LeftCell(a, recs, id, k, false, cell);
      LeftCell(a, recs, id, k, true, cell);
      TotalIsNonnegative(rest, k, false, cell);
      TotalIsNonnegative(rest, k, true, cell);
    }
    var t, s := TargetGroup(a, k), delta.groups[k];
    CombinedIsSound(t.metrics, s.metrics, Subtract);
    CombinedIsSound(t.fixedWindow, s.fixedWindow, Subtract);
    SoundMerges(t.metrics, s.metrics, Subtract);
    SoundMerges(t.fixedWindow, s.fixedWindow, Subtract);
    if g.metrics.counts[Issued] == 0 { EmptiedSums(a, recs, id, k, g.metrics); }
  }

  lemma ViewParts(a: Aggregate, recs: Records)
    requires IsView(a, recs)
    ensures Formed(a) && AllValid(recs) && (forall k :: k in a.groups ==> SoundGroup(a.groups[k]))
  {
    hide SoundGroup, Sums, ValidCompact;
  }

  lemma OneIsValid(recs: Records, id: int)
    requires AllValid(recs) && id in recs
    ensures ValidCompact(recs[id])
  {
    hide ValidCompact;
  }

  lemma LeftCell(a: Aggregate, recs: Records, id: int, k: GroupKey, fixed: bool, cell: Cell)
    requires IsView(a, recs) && id in recs && Formed(a)
    requires Formed(Contribution(recs[id])) && k in Contribution(recs[id]).groups
    ensures CellOf(Half(MergedGroup(a, Contribution(recs[id]), k, Subtract), fixed), cell)
            == Total(recs - {id}, k, fixed, cell)
  {
    hide Contribution, At, CellOf, IsView, Combined;
    MergedCell(a, Contribution(recs[id]), k, Subtract, fixed, cell);
    RestCell(a, recs, id, k, fixed, cell);
  }

  lemma EmptiedSums(a: Aggregate, recs: Records, id: int, k: GroupKey, m: Metric)
    requires IsView(a, recs) && id in recs && Formed(a)
    requires Formed(Contribution(recs[id])) && k in Contribution(recs[id]).groups
    requires m == MergedGroup(a, Contribution(recs[id]), k, Subtract).metrics && m.counts[Issued] == 0
    ensures AllZeroSums(m)
  {
    hide Contribution, At, IsView, Combined, ValidCompact;
    ViewParts(a, recs);
    RestIsValid(recs, id);
    LeftCell(a, recs, id, k, false, CountCell(Issued));
    forall s: SumName ensures m.sums[s] == 0.0 {
      LeftCell(a, recs, id, k, false, SumCell(s));
      NothingIssuedNothingSummed(recs - {id}, k, false, SumCell(s));
      assert CellOf(m, SumCell(s)) == m.sums[s];
    }
  }

  lemma IssuedLeft(a: Aggregate, recs: Records, id: int, k: GroupKey)
    requires IsView(a, recs) && id in recs && Formed(a)
    requires Formed(Contribution(recs[id])) && k in Contribution(recs[id]).groups
    ensures MergedGroup(a, Contribution(recs[id]), k, Subtract).metrics.counts[Issued] as real
            == Total(recs - {id}, k, false, CountCell(Issued))
  {
    hide Contribution, At, IsView, Combined;
    LeftCell(a, recs, id, k, false, CountCell(Issued));
  }

  /** Taking a present record out never underflows and leaves the view of the others. */
  lemma SubtractKeepsView(a: Aggregate, recs: Records, id: int)
    requires IsView(a, recs) && id in recs
    ensures Formed(Contribution(recs[id])) && Merge(Some(a), Contribution(recs[id]), Subtract).Some?
    ensures IsView(Merge(Some(a), Contribution(recs[id]), Subtract).value, recs - {id})
  {
    hide Contribution, At, MergedGroup, ValidCompact, GroupMerges, Sound, Tight;
    ContributionIsFormed(recs[id]);
    ContributionHour(recs[id]);
    ViewParts(a, recs);
    RestIsValid(recs, id);
    var delta, rest := Contribution(recs[id]), recs - {id};
    forall k | k in delta.groups ensures GroupMerges(a, delta, k, Subtract) {
      SubtractedGroupIsSound(a, recs, id, k);
    }
    var r := Merge(Some(a), delta, Subtract).value;
    forall k | k in r.groups ensures SoundGroup(r.groups[k]) {
      if k in delta.groups {
        SubtractedGroupIsSound(a, recs, id, k);
        IssuedLeft(a, recs, id, k);
        TotalIsNonnegative(rest, k, false, CountCell(Issued));
      }
    }
    forall k: GroupKey, fixed: bool, cell: Cell ensures At(r, k, fixed, cell) == Total(rest, k, fixed, cell) {
      RestCell(a, recs, id, k, fixed, cell);
      if k in delta.groups && k !in r.groups {
        IssuedLeft(a, recs, id, k);
        NothingIssuedNothingSummed(rest, k, fixed, cell);
      }
      MergedAt(a, delta, Subtract, k, fixed, cell);
    }
    forall k: GroupKey ensures Sums(r, rest, k) { }
  }

  // ---------------------------------------------------------------- one view per set of records

  lemma SameMetric(m: Metric, n: Metric)
    requires Whole(m) && Whole(n) && Tight(m) && Tight(n)
    requires forall cell: Cell :: CellOf(m, cell) == CellOf(n, cell)
    ensures m == n
  {
    forall c: Count ensures m.counts[c] == n.counts[c] { assert CellOf(m, CountCell(c)) == CellOf(n, CountCell(c)); }
    forall s: SumName ensures m.sums[s] == n.sums[s] { assert CellOf(m, SumCell(s)) == CellOf(n, SumCell(s)); }
    forall r: Reason ensures r in m.reasons <==> r in n.reasons
                     ensures r in m.reasons ==> m.reasons[r] == n.reasons[r]
    {
      assert CellOf(m, ReasonCell(r)) == CellOf(n, ReasonCell(r));
    }
    forall i | 0 <= i < BINS ensures m.ghostBins[i] == n.ghostBins[i] && m.heldBins[i] == n.heldBins[i] {
      assert CellOf(m, GhostBin(i)) == CellOf(n, GhostBin(i)) && CellOf(m, HeldBin(i)) == CellOf(n, HeldBin(i));
    }
    assert m.counts == n.counts && m.reasons == n.reasons && m.sums == n.sums;
    assert m.ghostBins == n.ghostBins && m.heldBins == n.heldBins;
  }

  lemma ViewGroup(a: Aggregate, recs: Records, k: GroupKey)
    requires IsView(a, recs)
    ensures k in a.groups <==> Total(recs, k, false, CountCell(Issued)) > 0.0
    ensures k in a.groups ==> SoundGroup(a.groups[k])
    ensures forall fixed: bool, cell: Cell :: k in a.groups ==>
              CellOf(Half(a.groups[k], fixed), cell) == Total(recs, k, fixed, cell)
  {
    hide ValidCompact, Sound, Tight, Total;
    assert Sums(a, recs, k);
    assert At(a, k, false, CountCell(Issued)) == Total(recs, k, false, CountCell(Issued));
    if k in a.groups { assert SoundGroup(a.groups[k]); }
    forall fixed: bool, cell: Cell | k in a.groups
      ensures CellOf(Half(a.groups[k], fixed), cell) == Total(recs, k, fixed, cell)
    {
      assert At(a, k, fixed, cell) == Total(recs, k, fixed, cell);
    }
  }

  /** Two aggregates of the same hour that sum the same records are the same aggregate. */
  lemma ViewIsUnique(a: Aggregate, b: Aggregate, recs: Records)
    requires IsView(a, recs) && IsView(b, recs) && a.hourMs == b.hourMs
    ensures a == b
  {
    hide IsView, CellOf, Total, Sound, Tight;
    forall k: GroupKey
      ensures k in a.groups <==> k in b.groups
      ensures k in a.groups && k in b.groups ==> a.groups[k] == b.groups[k]
    {
      ViewGroup(a, recs, k);
      ViewGroup(b, recs, k);
      if k in a.groups && k in b.groups { SameGroup(a.groups[k], b.groups[k], recs, k); }
    }
    assert a.groups == b.groups;
  }

  lemma SameGroup(g: Group, h: Group, recs: Records, k: GroupKey)
    requires SoundGroup(g) && SoundGroup(h)
    requires forall fixed: bool, cell: Cell :: CellOf(Half(g, fixed), cell) == Total(recs, k, fixed, cell)
    requires forall fixed: bool, cell: Cell :: CellOf(Half(h, fixed), cell) == Total(recs, k, fixed, cell)
    ensures g == h
  {
    hide CellOf, Total, Sound, Tight;
    forall cell: Cell
      ensures CellOf(g.metrics, cell) == CellOf(h.metrics, cell)
      ensures CellOf(g.fixedWindow, cell) == CellOf(h.fixedWindow, cell)
    {
      assert CellOf(Half(g, false), cell) == CellOf(Half(h, false), cell);
      assert CellOf(Half(g, true), cell) == CellOf(Half(h, true), cell);
    }
    SameMetric(g.metrics, h.metrics);
    SameMetric(g.fixedWindow, h.fixedWindow);
  }

  // ---------------------------------------------------------------- the plain fold

  /** Merge the contributions one after the other, starting from nothing. */
  function Fold(rs: seq<Compact>): (r: Option<Aggregate>)
    requires rs != []
    ensures r.Some? ==> Formed(r.value)
  {
    var last := rs[|rs| - 1];
    ContributionIsFormed(last);
    if |rs| == 1 then Merged(None, Contribution(last))
    else
      var before := Fold(rs[..|rs| - 1]);
      if before.None? then None else Merged(before, Contribution(last))
  }

  function Merged(aggregate: Option<Aggregate>, delta: Aggregate): (r: Option<Aggregate>)
    requires Formed(delta) && (aggregate.Some? ==> Formed(aggregate.value))
    ensures r.Some? ==> Formed(r.value)
  {
    Merge(aggregate, delta, Add)
  }

  function ById(rs: seq<Compact>): Records {
    if rs == [] then map[] else ById(rs[..|rs| - 1])[rs[|rs| - 1].id := rs[|rs| - 1]]
  }

  predicate Distinct(rs: seq<Compact>) {
    forall i, j | 0 <= i < j < |rs| :: rs[i].id != rs[j].id
  }

  lemma {:induction false} ByIdKeys(rs: seq<Compact>)
    ensures forall id :: id in ById(rs) ==> exists i :: 0 <= i < |rs| && rs[i].id == id && ById(rs)[id] == rs[i]
  {
    if rs != [] {
      var front := rs[..|rs| - 1];
      ByIdKeys(front);
      forall id | id in ById(rs) ensures exists i :: 0 <= i < |rs| && rs[i].id == id && ById(rs)[id] == rs[i] {
        if id == rs[|rs| - 1].id {
          assert ById(rs)[id] == rs[|rs| - 1];
        } else {
          var i :| 0 <= i < |front| && front[i].id == id && ById(front)[id] == front[i];
          assert rs[i] == front[i];
        }
      }
    }
  }

  /** In whatever order the records come, the fold succeeds and sums exactly them. */
  lemma {:induction false} FoldIsView(rs: seq<Compact>, hourMs: int)
    requires rs != [] && Distinct(rs)
    requires forall i :: 0 <= i < |rs| ==> ValidCompact(rs[i]) && HourOf(rs[i]) == hourMs
    ensures Fold(rs).Some? && IsView(Fold(rs).value, ById(rs)) && Fold(rs).value.hourMs == hourMs
  {
    hide IsView, ValidCompact, Contribution, HourOf;
    var n := |rs| - 1;
    var last := rs[n];
    ContributionIsFormed(last);
    ContributionHour(last);
    ByIdKeys(rs[..n]);
    assert last.id !in ById(rs[..n]);
    if n == 0 {
      EmptyView(hourMs);
      assert rs[..n] == [];
      AddKeepsView(Aggregate(hourMs, map[]), map[], last.id, last);
      assert Merge(None, Contribution(last), Add) == Merge(Some(Aggregate(hourMs, map[])), Contribution(last), Add);
    } else {
      FoldIsView(rs[..n], hourMs);
      AddKeepsView(Fold(rs[..n]).value, ById(rs[..n]), last.id, last);
    }
  }

  // ---------------------------------------------------------------- the store

  /** Compact records and hourly rows, changed together by atomic commits. */
  datatype Store = Store(compacts: Records, hours: map<int, Aggregate>)

  datatype Change = Take(record: Compact) | Late(id: int, event: PriceEvent)

  ghost predicate HoursFormed(s: Store) { forall h :: h in s.hours ==> Formed(s.hours[h]) }

  function HourRow(s: Store, h: int): Option<Aggregate> { if h in s.hours then Some(s.hours[h]) else None }

  /** One commit; the flag says that a check failed and nothing was committed. */
  function Commit(s: Store, change: Change): (Store, bool)
    requires HoursFormed(s)
  {
    match change
    case Take(c) =>
      if c.id in s.compacts then (s, false)
      else
        ContributionIsFormed(c);
        var combined := Merge(HourRow(s, HourOf(c)), Contribution(c), Add);
        if combined.None? then (s, true)
        else (Store(s.compacts[c.id := c], s.hours[HourOf(c) := combined.value]), false)
    case Late(id, e) =>
      if id !in s.compacts then (s, false)
      else
        var old_ := s.compacts[id];
        var new_ := Annotate(old_, e);
        if new_.None? then (s, false)
        else if HourOf(old_) !in s.hours then (s, true)
        else
          ContributionIsFormed(old_);
          ContributionIsFormed(new_.value);
          var less := Merge(Some(s.hours[HourOf(old_)]), Contribution(old_), Subtract);
          if less.None? then (s, true)
          else
            assert Formed(less.value);
            var replaced := Merge(less, Contribution(new_.value), Add);
            if replaced.None? then (s, true)
            else (Store(s.compacts[id := new_.value], s.hours[HourOf(old_) := replaced.value]), false)
  }

  function OfHour(recs: Records, h: int): Records { map id | id in recs && HourOf(recs[id]) == h :: recs[id] }

  ghost predicate ViewOf(s: Store, h: int) {
    if h in s.hours then IsView(s.hours[h], OfHour(s.compacts, h)) && s.hours[h].hourMs == h
    else OfHour(s.compacts, h) == map[]
  }

  ghost predicate Maintained(s: Store) {
    && AllValid(s.compacts) && (forall id :: id in s.compacts ==> s.compacts[id].id == id)
    && forall h: int :: ViewOf(s, h)
  }

  lemma MaintainedIsFormed(s: Store)
    requires Maintained(s)
    ensures HoursFormed(s)
  {
    hide AllValid, OfHour, Sums, SoundGroup;
    forall h | h in s.hours ensures Formed(s.hours[h]) { assert ViewOf(s, h); }
  }

  lemma OtherHours(s: Store, t: Store, id: int, h: int)
    requires Maintained(s) && t.hours.Keys == s.hours.Keys + {h}
    requires id in t.compacts && HourOf(t.compacts[id]) == h && (id in s.compacts ==> HourOf(s.compacts[id]) == h)
    requires t.compacts == s.compacts[id := t.compacts[id]]
    requires forall k :: k in s.hours && k != h ==> t.hours[k] == s.hours[k]
    ensures forall k: int :: k != h ==> ViewOf(t, k)
  {
    hide IsView, HourOf, AllValid;
    forall k: int | k != h ensures ViewOf(t, k) {
      assert OfHour(t.compacts, k) == OfHour(s.compacts, k);
      assert ViewOf(s, k);
    }
  }

  lemma TakeKeeps(s: Store, c: Compact)
    requires Maintained(s) && HoursFormed(s) && ValidCompact(c)
    ensures var (t, failed) := Commit(s, Take(c)); !failed && Maintained(t)
  {
    hide IsView, HourOf, ValidCompact, Contribution, Merge;
    var h := HourOf(c);
    assert ViewOf(s, h);
    if c.id !in s.compacts {
      ContributionIsFormed(c);
      var before := if h in s.hours then s.hours[h] else Aggregate(h, map[]);
      if h !in s.hours { EmptyView(h); }
      AddKeepsView(before, OfHour(s.compacts, h), c.id, c);
      MergeFromNothing(c, h);
      var t := Commit(s, Take(c)).0;
      assert OfHour(t.compacts, h) == OfHour(s.compacts, h)[c.id := c];
      OtherHours(s, t, c.id, h);
      MergeKeepsHour(before, Contribution(c), Add);
    }
  }

  lemma MergeFromNothing(c: Compact, h: int)
    requires h == HourOf(c) && Formed(Contribution(c))
    ensures Merge(None, Contribution(c), Add) == Merge(Some(Aggregate(h, map[])), Contribution(c), Add)
  {
    hide MergedGroups, GroupMerges;
  }

  lemma MergeKeepsHour(a: Aggregate, delta: Aggregate, sign: Sign)
    requires Formed(a) && Formed(delta)
    ensures Merge(Some(a), delta, sign).Some? ==> Merge(Some(a), delta, sign).value.hourMs == a.hourMs
  {
    hide MergedGroups, GroupMerges;
  }

  lemma AnnotatedStays(c: Compact, e: PriceEvent)
    requires ValidCompact(c) && Annotate(c, e).Some?
    ensures var n := Annotate(c, e).value; ValidCompact(n) && HourOf(n) == HourOf(c) && n.id == c.id
  {
    hide CountsOk, AnnotateEntry;
    var n := Annotate(c, e).value;
    forall i | 0 <= i < 6
      ensures n.horizons[i].horizon == HORIZONS[i] && CountsOk(n.horizons[i].counts)
      ensures n.horizons[i].first.Some? ==>
                n.horizons[i].price.Some? && n.twap.Some? && n.horizons[i].first.value.value > 0
    {
      EntryKeepsShape(c.horizons[i], e);
    }
  }

  lemma EntryKeepsShape(t: Entry, e: PriceEvent)
    ensures var n := AnnotateEntry(t, e);
            n.horizon == t.horizon && n.counts == t.counts && n.first == t.first && n.price == t.price
  {
  }

  lemma LateKeeps(s: Store, id: int, e: PriceEvent)
    requires Maintained(s) && HoursFormed(s)
    ensures var (t, failed) := Commit(s, Late(id, e)); !failed && Maintained(t)
  {
    hide IsView, HourOf, ValidCompact, Contribution, Merge, Annotate;
    if id in s.compacts && Annotate(s.compacts[id], e).Some? {
      var c := s.compacts[id];
      var n := Annotate(c, e).value;
      var h := HourOf(c);
      OneIsValid(s.compacts, id);
      AnnotatedStays(c, e);
      assert ViewOf(s, h);
      var recs := OfHour(s.compacts, h);
      assert id in recs;
      var a := s.hours[h];
      SubtractKeepsView(a, recs, id);
      var less := Merge(Some(a), Contribution(c), Subtract).value;
      MergeKeepsHour(a, Contribution(c), Subtract);
      ViewParts(less, recs - {id});
      AddKeepsView(less, recs - {id}, id, n);
      MergeKeepsHour(less, Contribution(n), Add);
      var t := Commit(s, Late(id, e)).0;
      assert OfHour(t.compacts, h) == (recs - {id})[id := n];
      OtherHours(s, t, id, h);
    }
  }

  function Commits(changes: seq<Change>): (s: Store)
    requires forall i :: 0 <= i < |changes| && changes[i].Take? ==> ValidCompact(changes[i].record)
    ensures Maintained(s) && HoursFormed(s)
  {
    if changes == [] then
      assert Maintained(Store(map[], map[]));
      Store(map[], map[])
    else
      var before := Commits(changes[..|changes| - 1]);
      ChangeKeeps(before, changes[|changes| - 1]);
      Commit(before, changes[|changes| - 1]).0
  }

  lemma ChangeKeeps(s: Store, change: Change)
    requires Maintained(s) && HoursFormed(s) && (change.Take? ==> ValidCompact(change.record))
    ensures var (t, failed) := Commit(s, change); !failed && Maintained(t) && HoursFormed(t)
  {
    hide Maintained, Commit, ValidCompact;
    if change.Take? { TakeKeeps(s, change.record); } else { LateKeeps(s, change.id, change.event); }
    MaintainedIsFormed(Commit(s, change).0);
  }

  /**
   View maintenance: after any sequence of compactions and late annotations, no integrity
   check has failed, and each hour's aggregate is the plain fold of the contributions of
   that hour's current records, listed in any order.
   */
  lemma AggregatesAreFolds(changes: seq<Change>, h: int, rs: seq<Compact>)
    requires forall i :: 0 <= i < |changes| && changes[i].Take? ==> ValidCompact(changes[i].record)
    requires rs != [] && Distinct(rs) && ById(rs) == OfHour(Commits(changes).compacts, h)
    ensures forall change: Change ::
              (change.Take? ==> ValidCompact(change.record)) ==> !Commit(Commits(changes), change).1
    ensures h in Commits(changes).hours && Fold(rs) == Some(Commits(changes).hours[h])
  {
    hide IsView, ValidCompact, Commit, Commits;
    var s := Commits(changes);
    forall change: Change | change.Take? ==> ValidCompact(change.record) ensures !Commit(s, change).1 {
      ChangeKeeps(s, change);
    }
    forall i | 0 <= i < |rs| ensures ValidCompact(rs[i]) && HourOf(rs[i]) == h {
      ById1(rs, i);
      OneIsValid(s.compacts, rs[i].id);
    }
    FoldIsView(rs, h);
    assert ViewOf(s, h);
    ById1(rs, 0);
    ViewIsUnique(Fold(rs).value, s.hours[h], ById(rs));
  }

  lemma {:induction false} ById1(rs: seq<Compact>, i: int)
    requires 0 <= i < |rs| && Distinct(rs)
    ensures rs[i].id in ById(rs) && ById(rs)[rs[i].id] == rs[i]
  {
    var n := |rs| - 1;
    if i < n { ById1(rs[..n], i); }
  }
}
