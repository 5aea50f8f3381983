/**
 The signed merge as the loops of price_collector/ghost_twap_accuracy.py run it, against
 the value `Accuracy.Merge` that the view maintenance is proved about.
 */
module AccuracyMerge {
  import opened Core
  import opened GhostTwap
  import opened Accuracy

  predicate KeyMerges<K>(target: map<K, int>, source: map<K, int>, sign: Sign, k: K)
    requires k in source
  {
    source[k] >= 0 && Signed(Count0(target, k), sign, source[k]) >= 0
  }

  predicate Remains<K>(target: map<K, int>, source: map<K, int>, sign: Sign, dropZero: bool, k: K) {
    && (k in target || k in source)
    && !(dropZero && k in source && Signed(Count0(target, k), sign, source[k]) == 0)
  }

  /** One dictionary of counts; reasons that reach zero are removed. */
  method MergeCounts<K(==)>(target: map<K, int>, source: map<K, int>, sign: Sign, dropZero: bool)
    returns (ok: bool, r: map<K, int>)
    ensures ok <==> forall k :: k in source ==> KeyMerges(target, source, sign, k)
    ensures ok ==> forall k :: k in r <==> Remains(target, source, sign, dropZero, k)
    ensures ok ==> forall k :: k in r ==>
              r[k] == if k in source then Signed(Count0(target, k), sign, source[k]) else Count0(target, k)
  {
    r, ok := target, true;
    var todo := source.Keys;
    while todo != {}
      invariant ok && todo <= source.Keys
      invariant forall k :: k in source && k !in todo ==> KeyMerges(target, source, sign, k)
      invariant forall k :: k in todo || k !in source ==> (k in r <==> k in target) && (k in r ==> r[k] == target[k])
      invariant forall k :: k in source && k !in todo ==>
                  && (k in r <==> !(dropZero && Signed(Count0(target, k), sign, source[k]) == 0))
                  && (k in r ==> r[k] == Signed(Count0(target, k), sign, source[k]))
      decreases |todo|
    {
      ghost var witness_ := Pick(todo);
      var k :| k in todo;
      var updated := Signed(Count0(r, k), sign, source[k]);
      if source[k] < 0 || updated < 0 {
        assert !KeyMerges(target, source, sign, k);
        return false, r;
      }
      r := if dropZero && updated == 0 then r - {k} else r[k := updated];
      todo := todo - {k};
    }
  }

  method MergeSums(target: map<SumName, real>, source: map<SumName, real>, sign: Sign) returns (r: map<SumName, real>)
    requires forall s: SumName :: s in target && s in source
    ensures r == map s: SumName | true :: if sign == Add then target[s] + source[s] else target[s] - source[s]
  {
    r := target;
    var todo := source.Keys;
    while todo != {}
      invariant todo <= source.Keys && forall s: SumName :: s in r
      invariant forall s :: s in todo ==> r[s] == target[s]
      invariant forall s: SumName :: s !in todo ==>
                  r[s] == if sign == Add then target[s] + source[s] else target[s] - source[s]
      decreases |todo|
    {
      ghost var witness_ := Pick(todo);
      var s :| s in todo;
      r := r[s := if sign == Add then r[s] + source[s] else r[s] - source[s]];
      todo := todo - {s};
    }
  }

  method MergeBins(target: seq<int>, source: seq<int>, sign: Sign) returns (ok: bool, r: seq<int>)
    requires |target| == |source|
    ensures ok <==> forall i | 0 <= i < |target| :: source[i] >= 0 && Signed(target[i], sign, source[i]) >= 0
    ensures ok ==> |r| == |target| && forall i | 0 <= i < |r| :: r[i] == Signed(target[i], sign, source[i])
  {
    r, ok := target, true;
    for i := 0 to |source|
      invariant ok && |r| == |target|
      invariant forall j | 0 <= j < i :: source[j] >= 0 && r[j] == Signed(target[j], sign, source[j]) >= 0
      invariant forall j | i <= j < |r| :: r[j] == target[j]
    {
      if source[i] < 0 { return false, r; }
      r := r[i := Signed(r[i], sign, source[i])];
      if r[i] < 0 { return false, r; }
    }
  }

  method MergeMetric(target: Metric, source: Metric, sign: Sign) returns (r: Option<Metric>)
    requires Whole(target) && Whole(source)
    ensures r == if Checked(target, source, sign) then Some(Combined(target, source, sign)) else None
  {
    hide SumInts, Checked, Combined;
    ghost var m := Combined(target, source, sign);
    CombinedParts(target, source, sign);
    var countsOk, counts := MergeCounts(target.counts, source.counts, sign, false);
    if !countsOk {
      CountsFail(target, source, sign);
      return None;
    }
    var reasonsOk, reasons := MergeCounts(target.reasons, source.reasons, sign, true);
    if !reasonsOk {
      ReasonsFail(target, source, sign);
      return None;
    }
    var sums := MergeSums(target.sums, source.sums, sign);
    assert counts == m.counts;
    SameReasons(target, source, sign, reasons);
    var ghostOk, ghostBins := MergeBins(target.ghostBins, source.ghostBins, sign);
    GhostBinsDecide(target, source, sign, ghostOk);
    assert ghostOk ==> ghostBins == m.ghostBins;
    if !ghostOk || SumInts(ghostBins) != counts[Scored] { return None; }
    var heldOk, heldBins := MergeBins(target.heldBins, source.heldBins, sign);
    HeldBinsDecide(target, source, sign, heldOk);
    assert heldOk ==> heldBins == m.heldBins;
    if !heldOk || SumInts(heldBins) != counts[Scored] { return None; }
    AllChecked(target, source, sign);
    assert sums == m.sums;
    r := Some(Metric(counts, reasons, sums, ghostBins, heldBins));
  }

  lemma CombinedParts(target: Metric, source: Metric, sign: Sign)
    requires Whole(target) && Whole(source)
    ensures var m := Combined(target, source, sign);
            && (forall c: Count :: c in m.counts && m.counts[c] == Signed(target.counts[c], sign, source.counts[c]))
            && m.sums == (map s: SumName | true ::
                            if sign == Add then target.sums[s] + source.sums[s] else target.sums[s] - source.sums[s])
            && |m.ghostBins| == |m.heldBins| == BINS
            && (forall i | 0 <= i < BINS :: m.ghostBins[i] == Signed(target.ghostBins[i], sign, source.ghostBins[i]))
            && (forall i | 0 <= i < BINS :: m.heldBins[i] == Signed(target.heldBins[i], sign, source.heldBins[i]))
    ensures Checked(target, source, sign) ==>
              var m := Combined(target, source, sign);
              SumInts(m.ghostBins) == m.counts[Scored] == SumInts(m.heldBins)
  {
    hide SumInts;
  }

  lemma GhostBinsDecide(target: Metric, source: Metric, sign: Sign, ok: bool)
    requires Whole(target) && Whole(source)
    requires ok <==> forall i | 0 <= i < BINS ::
                       source.ghostBins[i] >= 0 && Signed(target.ghostBins[i], sign, source.ghostBins[i]) >= 0
    ensures Checked(target, source, sign) ==> ok
  {
    hide SumInts;
    var m := Combined(target, source, sign);
    assert forall i | 0 <= i < BINS :: m.ghostBins[i] == Signed(target.ghostBins[i], sign, source.ghostBins[i]);
  }

  lemma HeldBinsDecide(target: Metric, source: Metric, sign: Sign, ok: bool)
    requires Whole(target) && Whole(source)
    requires ok <==> forall i | 0 <= i < BINS ::
                       source.heldBins[i] >= 0 && Signed(target.heldBins[i], sign, source.heldBins[i]) >= 0
    ensures Checked(target, source, sign) ==> ok
  {
    hide SumInts;
    var m := Combined(target, source, sign);
    assert forall i | 0 <= i < BINS :: m.heldBins[i] == Signed(target.heldBins[i], sign, source.heldBins[i]);
  }

  lemma CountsFail(target: Metric, source: Metric, sign: Sign)
    requires Whole(target) && Whole(source)
    requires !forall k :: k in source.counts ==> KeyMerges(target.counts, source.counts, sign, k)
    ensures !Checked(target, source, sign)
  {
    var k :| k in source.counts && !KeyMerges(target.counts, source.counts, sign, k);
    assert Combined(target, source, sign).counts[k] == Signed(target.counts[k], sign, source.counts[k]);
  }

  lemma ReasonsFail(target: Metric, source: Metric, sign: Sign)
    requires Whole(target) && Whole(source)
    requires !forall k :: k in source.reasons ==> KeyMerges(target.reasons, source.reasons, sign, k)
    ensures !Checked(target, source, sign)
  {
    var k :| k in source.reasons && !KeyMerges(target.reasons, source.reasons, sign, k);
  }

  lemma AllChecked(target: Metric, source: Metric, sign: Sign)
    requires Whole(target) && Whole(source)
    requires forall k :: k in source.counts ==> KeyMerges(target.counts, source.counts, sign, k)
    requires forall k :: k in source.reasons ==> KeyMerges(target.reasons, source.reasons, sign, k)
    requires var m := Combined(target, source, sign);
             && (forall i | 0 <= i < BINS :: source.ghostBins[i] >= 0 && m.ghostBins[i] >= 0)
             && (forall i | 0 <= i < BINS :: source.heldBins[i] >= 0 && m.heldBins[i] >= 0)
             && SumInts(m.ghostBins) == m.counts[Scored] && SumInts(m.heldBins) == m.counts[Scored]
    ensures Checked(target, source, sign)
  {
    hide SumInts;
    var m := Combined(target, source, sign);
    forall c: Count
      ensures source.counts[c] >= 0 && m.counts[c] >= 0
    {
      assert KeyMerges(target.counts, source.counts, sign, c);
    }
    forall r | r in source.reasons
      ensures source.reasons[r] >= 0 && Signed(Count0(target.reasons, r), sign, source.reasons[r]) >= 0
    {
      assert KeyMerges(target.reasons, source.reasons, sign, r);
    }
  }

  lemma SameReasons(target: Metric, source: Metric, sign: Sign, reasons: map<Reason, int>)
    requires Whole(target) && Whole(source)
    requires forall k :: k in reasons <==> Remains(target.reasons, source.reasons, sign, true, k)
    requires forall k :: k in reasons ==> reasons[k] == if k in source.reasons
                           then Signed(Count0(target.reasons, k), sign, source.reasons[k])
                           else Count0(target.reasons, k)
    ensures reasons == Combined(target, source, sign).reasons
  {
    var other := SignedReasons(target.reasons, source.reasons, sign);
    assert forall k :: k in reasons <==> k in other;
    assert forall k :: k in reasons ==> reasons[k] == other[k];
  }

  /** One group of the delta into the target's group. */
  method MergeGroup(a: Aggregate, delta: Aggregate, k: GroupKey, sign: Sign) returns (r: Option<Group>)
    requires Formed(a) && Formed(delta) && k in delta.groups
    ensures r == if GroupMerges(a, delta, k, sign) then Some(MergedGroup(a, delta, k, sign)) else None
  {
    hide Combined, Checked, EmptyMetric;
    var target, source := TargetGroup(a, k), delta.groups[k];
    var metrics := MergeMetric(target.metrics, source.metrics, sign);
    if metrics.None? { return None; }
    var fixedWindow := MergeMetric(target.fixedWindow, source.fixedWindow, sign);
    if fixedWindow.None? { return None; }
    if metrics.value.counts[Issued] == 0 && !AllZeroSums(metrics.value) { return None; }
    r := Some(Group(metrics.value, fixedWindow.value));
  }

  function GroupAt(groups: map<GroupKey, Group>, k: GroupKey): Option<Group> {
    if k in groups then Some(groups[k]) else None
  }

  /** A group is merged, or gone when nothing is left of it. */
  ghost predicate MergedTo(a: Aggregate, delta: Aggregate, sign: Sign, k: GroupKey, g: Option<Group>)
    requires Formed(a) && Formed(delta) && k in delta.groups
  {
    GroupMerges(a, delta, k, sign)
    && g == if MergedGroup(a, delta, k, sign).metrics.counts[Issued] != 0 then Some(MergedGroup(a, delta, k, sign))
         else None
  }

  /** Groups done so far are merged, the others are the target's. */
  ghost predicate MergedSoFar(a: Aggregate, delta: Aggregate, sign: Sign, todo: set<GroupKey>,
                              groups: map<GroupKey, Group>)
    requires Formed(a) && Formed(delta)
  {
    forall k: GroupKey ::
      if k in delta.groups && k !in todo then MergedTo(a, delta, sign, k, GroupAt(groups, k))
      else GroupAt(groups, k) == GroupAt(a.groups, k)
  }

  lemma MergedOne(a: Aggregate, delta: Aggregate, sign: Sign, todo: set<GroupKey>, groups: map<GroupKey, Group>,
                  k: GroupKey)
    requires Formed(a) && Formed(delta) && k in todo && todo <= delta.groups.Keys
    requires MergedSoFar(a, delta, sign, todo, groups) && GroupMerges(a, delta, k, sign)
    ensures var g := MergedGroup(a, delta, k, sign);
            MergedSoFar(a, delta, sign, todo - {k}, if g.metrics.counts[Issued] == 0 then groups - {k}
                        else groups[k := g])
  {
    hide MergedGroup, GroupMerges, MergedTo;
    var g := MergedGroup(a, delta, k, sign);
    var after := if g.metrics.counts[Issued] == 0 then groups - {k} else groups[k := g];
    ThisIsMerged(a, delta, sign, k);
    forall other: GroupKey
      ensures if other in delta.groups && other !in todo - {k}
                then MergedTo(a, delta, sign, other, GroupAt(after, other))
              else GroupAt(after, other) == GroupAt(a.groups, other)
    {
      if other != k { assert GroupAt(after, other) == GroupAt(groups, other); }
    }
  }

  lemma ThisIsMerged(a: Aggregate, delta: Aggregate, sign: Sign, k: GroupKey)
    requires Formed(a) && Formed(delta) && k in delta.groups && GroupMerges(a, delta, k, sign)
    ensures var g := MergedGroup(a, delta, k, sign);
            MergedTo(a, delta, sign, k, if g.metrics.counts[Issued] == 0 then None else Some(g))
  {
    hide MergedGroup, GroupMerges;
  }

  lemma MergedAll(a: Aggregate, delta: Aggregate, sign: Sign, groups: map<GroupKey, Group>)
    requires Formed(a) && Formed(delta) && a.hourMs == delta.hourMs && MergedSoFar(a, delta, sign, {}, groups)
    ensures Merge(Some(a), delta, sign) == Some(Aggregate(a.hourMs, groups))
  {
    hide MergedGroup, GroupMerges, MergedGroups, MergedSoFar, Formed;
    AllMerge(a, delta, sign, groups);
    SameGroups(a, delta, sign, groups);
  }

  lemma AllMerge(a: Aggregate, delta: Aggregate, sign: Sign, groups: map<GroupKey, Group>)
    requires Formed(a) && Formed(delta) && MergedSoFar(a, delta, sign, {}, groups)
    ensures forall k :: k in delta.groups ==> GroupMerges(a, delta, k, sign)
  {
    hide MergedGroup, GroupMerges;
    forall k | k in delta.groups
      ensures GroupMerges(a, delta, k, sign)
    {
      assert MergedTo(a, delta, sign, k, GroupAt(groups, k));
    }
  }

  lemma SameGroups(a: Aggregate, delta: Aggregate, sign: Sign, groups: map<GroupKey, Group>)
    requires Formed(a) && Formed(delta) && MergedSoFar(a, delta, sign, {}, groups)
    ensures groups == MergedGroups(a, delta, sign)
  {
    hide MergedGroup, GroupMerges, MergedTo, MergedGroups;
    var other := MergedGroups(a, delta, sign);
    forall k: GroupKey
      ensures GroupAt(groups, k) == GroupAt(other, k)
    {
      MergedGroupAt(a, delta, sign, k);
      if k in delta.groups { MergedEntry(a, delta, sign, k, GroupAt(groups, k)); }
    }
    SameEntries(groups, other);
  }

  lemma SameEntries(groups: map<GroupKey, Group>, other: map<GroupKey, Group>)
    requires forall k: GroupKey :: GroupAt(groups, k) == GroupAt(other, k)
    ensures groups == other
  {
    forall k | k in groups || k in other
      ensures k in groups && k in other && groups[k] == other[k]
    {
      assert GroupAt(groups, k) == GroupAt(other, k);
    }
  }

  lemma MergedEntry(a: Aggregate, delta: Aggregate, sign: Sign, k: GroupKey, g: Option<Group>)
    requires Formed(a) && Formed(delta) && k in delta.groups && MergedTo(a, delta, sign, k, g)
    ensures g == if MergedGroup(a, delta, k, sign).metrics.counts[Issued] != 0
              then Some(MergedGroup(a, delta, k, sign)) else None
  {
    hide MergedGroup, GroupMerges;
  }

  lemma MergedGroupAt(a: Aggregate, delta: Aggregate, sign: Sign, k: GroupKey)
    requires Formed(a) && Formed(delta)
    ensures GroupAt(MergedGroups(a, delta, sign), k)
         == if k !in delta.groups then GroupAt(a.groups, k)
            else if MergedGroup(a, delta, k, sign).metrics.counts[Issued] != 0
              then Some(MergedGroup(a, delta, k, sign)) else None
  {
    hide MergedGroup;
  }

  /** The whole merge: one failing check anywhere and nothing is merged. */
  method MergeAggregate(aggregate: Option<Aggregate>, delta: Aggregate, sign: Sign) returns (r: Option<Aggregate>)
    requires Formed(delta) && (aggregate.Some? ==> Formed(aggregate.value))
    ensures r == Merge(aggregate, delta, sign)
  {
    hide MergedGroup, GroupMerges, MergedSoFar, MergedGroups, Formed;
    var a := if aggregate.None? then Aggregate(delta.hourMs, map[]) else aggregate.value;
    NothingIsFormed(delta.hourMs);
    if a.hourMs != delta.hourMs { return None; }
    var groups, todo := a.groups, delta.groups.Keys;
    NothingMerged(a, delta, sign);
    while todo != {}
      invariant todo <= delta.groups.Keys && MergedSoFar(a, delta, sign, todo, groups)
      decreases |todo|
    {
      ghost var witness_ := Pick(todo);
      var k :| k in todo;
      var g := MergeGroup(a, delta, k, sign);
      if g.None? {
        OneFails(a, delta, sign, k);
        return None;
      }
      MergedOne(a, delta, sign, todo, groups, k);
      groups := if g.value.metrics.counts[Issued] == 0 then groups - {k} else groups[k := g.value];
      todo := todo - {k};
    }
    MergedAll(a, delta, sign, groups);
    r := Some(Aggregate(a.hourMs, groups));
  }

  lemma NothingIsFormed(hourMs: int)
    ensures Formed(Aggregate(hourMs, map[]))
  {
  }

  lemma NothingMerged(a: Aggregate, delta: Aggregate, sign: Sign)
    requires Formed(a) && Formed(delta)
    ensures MergedSoFar(a, delta, sign, delta.groups.Keys, a.groups)
  {
  }

  lemma OneFails(a: Aggregate, delta: Aggregate, sign: Sign, k: GroupKey)
    requires Formed(a) && Formed(delta) && k in delta.groups && !GroupMerges(a, delta, k, sign)
    ensures Merge(Some(a), delta, sign).None?
  {
    hide GroupMerges;
  }
}
