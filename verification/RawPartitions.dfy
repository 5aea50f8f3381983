/**
 Collection of raw capture intervals (price_collector/db.py): a retention pass, a byte budget
 pass, and the verdict on whether storage may go on.
 */
module RawPartitions {
  import opened Core

  const WIDTH_MS := 6 * 60 * 60 * 1000
  const HOUR_MS := 60 * 60 * 1000
  const MAX_RETENTION_HOURS := 240

  /** One table's partition of an interval; two tables may share an interval. */
  datatype Partition = Partition(startMs: int, bytes: nat)

  datatype Outcome =
    | Refused
    | NotOwner
    | Maintained(dropped: seq<int>, oldestRetainedMs: int, currentStartMs: int, bytes: int, permitted: bool)

  function CurrentStart(nowMs: int): int { nowMs / WIDTH_MS * WIDTH_MS }

  predicate Ascending(starts: seq<int>) { forall i, j :: 0 <= i < j < |starts| ==> starts[i] < starts[j] }

  predicate Known(starts: seq<int>, grouped: map<int, nat>) { forall i :: 0 <= i < |starts| ==> starts[i] in grouped }

  function Bytes(starts: seq<int>, grouped: map<int, nat>): nat
    requires Known(starts, grouped)
  {
    if starts == [] then 0 else grouped[starts[0]] + Bytes(starts[1..], grouped)
  }

  function Grouped(ps: seq<Partition>): map<int, nat> {
    if ps == [] then map[]
    else
      var before, p := Grouped(ps[..|ps| - 1]), ps[|ps| - 1];
      before[p.startMs := (if p.startMs in before then before[p.startMs] else 0) + p.bytes]
  }

  function TotalBytes(ps: seq<Partition>): nat {
    if ps == [] then 0 else TotalBytes(ps[..|ps| - 1]) + ps[|ps| - 1].bytes
  }

  predicate Ended(startMs: int, limitMs: int) { startMs + WIDTH_MS <= limitMs }

  /**
   The intervals from the oldest on are dropped up to `count`: everything past retention goes,
   nothing unfinished goes, and beyond retention only as much as the budget asks.
   */
  ghost predicate Plan(grouped: map<int, nat>, cutoffMs: int, currentMs: int, budget: int, count: nat) {
    var starts := Sorted(grouped.Keys);
    && count <= |starts|
    && (forall i :: 0 <= i < count ==> Ended(starts[i], currentMs))
    && (forall i :: count <= i < |starts| ==> !Ended(starts[i], cutoffMs))
    && (count > 0 && !Ended(starts[count - 1], cutoffMs) ==> Bytes(starts[count - 1..], grouped) > budget)
    && (Bytes(starts[count..], grouped) > budget ==> forall i :: count <= i < |starts| ==> !Ended(starts[i], currentMs))
  }

  lemma {:induction false} LaterHoldsLess(starts: seq<int>, grouped: map<int, nat>, a: nat, b: nat)
    requires a <= b <= |starts| && Known(starts, grouped)
    ensures Bytes(starts[b..], grouped) <= Bytes(starts[a..], grouped)
    decreases b - a
  {
    if a < b {
      LaterHoldsLess(starts, grouped, a + 1, b);
      assert starts[a..][1..] == starts[a + 1..];
    }
  }

  /** There is only one such amount to drop. */
  lemma PlanIsUnique(grouped: map<int, nat>, cutoffMs: int, currentMs: int, budget: int, m: nat, n: nat)
    requires Plan(grouped, cutoffMs, currentMs, budget, m) && Plan(grouped, cutoffMs, currentMs, budget, n)
    ensures m == n
  {
    hide Sorted, Bytes;
    if m < n {
      LaterHoldsLess(Sorted(grouped.Keys), grouped, m, n - 1);
    } else if n < m {
      LaterHoldsLess(Sorted(grouped.Keys), grouped, n, m - 1);
    }
  }

  lemma BytesLast(front: seq<int>, x: int, grouped: map<int, nat>)
    requires Known(front, grouped) && x in grouped
    ensures Known(front + [x], grouped)
    ensures Bytes(front + [x], grouped) == Bytes(front, grouped) + grouped[x]
  {
    var all := front + [x];
    BytesSplit(all, grouped, |front|);
    assert all[..|front|] == front && all[|front|..] == [x];
  }

  lemma TopOf(s: set<int>, x: int)
    requires x in s && x != MaxOf(s)
    ensures s - {x} != {}
    ensures MaxOf(s - {x}) == MaxOf(s) && s - {x} - {MaxOf(s)} == s - {MaxOf(s)} - {x}
  {
    assert MaxOf(s) in s - {x};
  }

  lemma SortedLast(s: set<int>)
    requires s != {}
    ensures Sorted(s) == Sorted(s - {MaxOf(s)}) + [MaxOf(s)]
  {
  }

  lemma SortedKnown(s: set<int>, grouped: map<int, nat>)
    requires s <= grouped.Keys
    ensures Known(Sorted(s), grouped)
  {
    forall i | 0 <= i < |Sorted(s)|
      ensures Sorted(s)[i] in grouped
    {
      assert Sorted(s)[i] in Sorted(s);
    }
  }

  lemma {:induction false} BytesWithout(s: set<int>, x: int, grouped: map<int, nat>)
    requires x in s && s <= grouped.Keys
    ensures Known(Sorted(s), grouped) && Known(Sorted(s - {x}), grouped)
    ensures Bytes(Sorted(s), grouped) == Bytes(Sorted(s - {x}), grouped) + grouped[x]
    decreases |s|
  {
    hide Sorted, MaxOf, Bytes;
    var top := MaxOf(s);
    SortedKnown(s, grouped);
    SortedKnown(s - {x}, grouped);
    SortedKnown(s - {top}, grouped);
    SortedLast(s);
    BytesLast(Sorted(s - {top}), top, grouped);
    if x != top {
      TopOf(s, x);
      BytesWithout(s - {top}, x, grouped);
      SortedLast(s - {x});
      SortedKnown(s - {x} - {top}, grouped);
      BytesLast(Sorted(s - {x} - {top}), top, grouped);
    }
  }

  lemma {:induction false} BytesChange(starts: seq<int>, grouped: map<int, nat>, x: int, v: nat)
    requires Known(starts, grouped)
    requires forall i, j :: 0 <= i < j < |starts| ==> starts[i] < starts[j]
    ensures Bytes(starts, grouped[x := v]) == Bytes(starts, grouped) + if x in starts then v - grouped[x] else 0
  {
    if starts != [] { BytesChange(starts[1..], grouped, x, v); }
  }

  /** Grouping loses no bytes: the intervals together weigh what the tables weigh. */
  lemma {:induction false} GroupingKeepsBytes(ps: seq<Partition>)
    ensures Bytes(Sorted(Grouped(ps).Keys), Grouped(ps)) == TotalBytes(ps)
  {
    hide Sorted, Bytes;
    if ps == [] {
      NoBytes();
    } else {
      var front, p := ps[..|ps| - 1], ps[|ps| - 1];
      GroupingKeepsBytes(front);
      var before, after := Grouped(front), Grouped(ps);
      if p.startMs in before {
        assert after.Keys == before.Keys;
        BytesChange(Sorted(before.Keys), before, p.startMs, after[p.startMs]);
      } else {
        assert after.Keys == before.Keys + {p.startMs};
        BytesWithout(after.Keys, p.startMs, after);
        assert after.Keys - {p.startMs} == before.Keys;
        BytesChange(Sorted(before.Keys), before, p.startMs, p.bytes);
      }
    }
  }

  lemma NoBytes()
    ensures Bytes(Sorted(Grouped([]).Keys), Grouped([])) == 0
  {
  }

  // ---------------------------------------------------------------- the passes

  method Group(ps: seq<Partition>) returns (grouped: map<int, nat>)
    ensures grouped == Grouped(ps)
  {
    grouped := map[];
    for i := 0 to |ps|
      invariant grouped == Grouped(ps[..i])
    {
      assert ps[..i + 1][..i] == ps[..i];
      if ps[i].startMs !in grouped { grouped := grouped[ps[i].startMs := 0]; }
      grouped := grouped[ps[i].startMs := grouped[ps[i].startMs] + ps[i].bytes];
      assert grouped == Grouped(ps[..i + 1]);
    }
    assert ps[..|ps|] == ps;
  }

  /** The intervals dropped so far are the oldest ones, and `bytes` is what the others weigh. */
  ghost predicate Holds(dropped: seq<int>, bytes: int, starts: seq<int>, grouped: map<int, nat>)
    requires Known(starts, grouped)
  {
    dropped <= starts && bytes == Bytes(starts[|dropped|..], grouped)
  }

  lemma DropNext(dropped: seq<int>, bytes: int, starts: seq<int>, grouped: map<int, nat>)
    requires Known(starts, grouped) && Holds(dropped, bytes, starts, grouped) && |dropped| < |starts|
    ensures Holds(dropped + [starts[|dropped|]], bytes - grouped[starts[|dropped|]], starts, grouped)
  {
    assert starts[|dropped|..][1..] == starts[|dropped| + 1..];
  }

  lemma NothingDropped(starts: seq<int>, grouped: map<int, nat>)
    requires Known(starts, grouped)
    ensures Holds([], Bytes(starts, grouped), starts, grouped)
  {
    assert starts[0..] == starts;
  }

  lemma DroppedIsOlder(dropped: seq<int>, bytes: int, starts: seq<int>, grouped: map<int, nat>, i: nat)
    requires Known(starts, grouped) && Holds(dropped, bytes, starts, grouped) && i < |starts|
    requires Ascending(starts)
    ensures |dropped| <= |starts| && (starts[i] in dropped <==> i < |dropped|)
  {
    if i < |dropped| {
      assert dropped[i] == starts[i];
    } else {
      assert forall j :: 0 <= j < |dropped| ==> dropped[j] == starts[j];
    }
  }

  method RetentionPass(starts: seq<int>, grouped: map<int, nat>, cutoffMs: int) returns (dropped: seq<int>, bytes: int)
    requires Known(starts, grouped) && Ascending(starts)
    ensures Holds(dropped, bytes, starts, grouped) && |dropped| <= |starts|
    ensures forall i :: 0 <= i < |starts| ==> (i < |dropped| <==> Ended(starts[i], cutoffMs))
  {
    hide Sorted, Bytes, Holds;
    NothingDropped(starts, grouped);
    dropped, bytes := [], Bytes(starts, grouped);
    for i := 0 to |starts|
      invariant Holds(dropped, bytes, starts, grouped) && |dropped| <= i
      invariant forall j :: 0 <= j < i ==> (j < |dropped| <==> Ended(starts[j], cutoffMs))
    {
      if Ended(starts[i], cutoffMs) {
        DropNext(dropped, bytes, starts, grouped);
        bytes := bytes - grouped[starts[i]];
        dropped := dropped + [starts[i]];
      }
    }
  }

  ghost predicate Needed(starts: seq<int>, grouped: map<int, nat>, already: nat, count: nat, currentMs: int,
                         budget: int)
    requires already <= count <= |starts| && Known(starts, grouped)
  {
    && (forall i :: already <= i < count ==> Ended(starts[i], currentMs))
    && (already < count ==> Bytes(starts[count - 1..], grouped) > budget)
  }

  method BudgetPass(starts: seq<int>, grouped: map<int, nat>, already: seq<int>, held: int, currentMs: int, budget: int)
    returns (dropped: seq<int>, bytes: int)
    requires Known(starts, grouped) && Ascending(starts) && Holds(already, held, starts, grouped)
    ensures Holds(dropped, bytes, starts, grouped) && |already| <= |dropped| <= |starts|
    ensures Needed(starts, grouped, |already|, |dropped|, currentMs, budget)
    ensures bytes > budget ==> forall i :: |dropped| <= i < |starts| ==> !Ended(starts[i], currentMs)
  {
    hide Sorted, Bytes, Holds, Ascending;
    HoldsIsBound(already, held, starts, grouped);
    dropped, bytes := already, held;
    for i := 0 to |starts|
      invariant Holds(dropped, bytes, starts, grouped) && |already| <= |dropped| <= Max(i, |already|) <= |starts|
      invariant Needed(starts, grouped, |already|, |dropped|, currentMs, budget)
      invariant forall j :: |dropped| <= j < i ==> !Ended(starts[j], currentMs)
    {
      if bytes <= budget { break; }
      DroppedIsOlder(dropped, bytes, starts, grouped, i);
      if starts[i] in dropped || !Ended(starts[i], currentMs) { continue; }
      if |dropped| < i { AscendingAt(starts, |dropped|, i); }
      DropNext(dropped, bytes, starts, grouped);
      HoldsIsBound(dropped, bytes, starts, grouped);
      bytes := bytes - grouped[starts[i]];
      dropped := dropped + [starts[i]];
    }
  }

  lemma AscendingAt(starts: seq<int>, i: nat, j: nat)
    requires Ascending(starts) && i < j < |starts|
    ensures starts[i] < starts[j]
  {
  }

  lemma HoldsIsBound(dropped: seq<int>, bytes: int, starts: seq<int>, grouped: map<int, nat>)
    requires Known(starts, grouped) && Holds(dropped, bytes, starts, grouped)
    ensures dropped <= starts && bytes == Bytes(starts[|dropped|..], grouped)
  {
  }

  lemma PassesPlan(grouped: map<int, nat>, cutoffMs: int, currentMs: int, budget: int, expired: nat, count: nat)
    requires cutoffMs <= currentMs && expired <= count <= |Sorted(grouped.Keys)|
    requires forall i :: 0 <= i < |Sorted(grouped.Keys)| ==> (i < expired <==> Ended(Sorted(grouped.Keys)[i], cutoffMs))
    requires Needed(Sorted(grouped.Keys), grouped, expired, count, currentMs, budget)
    requires Bytes(Sorted(grouped.Keys)[count..], grouped) > budget ==>
               forall i :: count <= i < |Sorted(grouped.Keys)| ==> !Ended(Sorted(grouped.Keys)[i], currentMs)
    ensures Plan(grouped, cutoffMs, currentMs, budget, count)
  {
    hide Sorted, Bytes;
  }

  lemma PlanEnds(grouped: map<int, nat>, cutoffMs: int, currentMs: int, budget: int, dropped: seq<int>)
    requires Plan(grouped, cutoffMs, currentMs, budget, |dropped|) && dropped <= Sorted(grouped.Keys)
    ensures forall s <- dropped :: s + WIDTH_MS <= currentMs
  {
    hide Sorted, Bytes;
  }

  /**
   What is dropped is the one planned oldest-first prefix, what is reported is the weight of
   the rest, and storage stops only when every finished interval is already gone.
   */
  method MaintainRawCapturePartitions(ps: seq<Partition>, retentionHours: int, maxRelationMb: int, nowMs: int,
                                      lockAcquired: bool)
    returns (o: Outcome)
    ensures o.Refused? <==> retentionHours < 6 || maxRelationMb <= 0 || (lockAcquired && nowMs < 0)
    ensures o.NotOwner? <==> retentionHours >= 6 && maxRelationMb > 0 && !lockAcquired
    ensures o.Maintained? ==>
              var grouped := Grouped(ps);
              var starts, budget := Sorted(grouped.Keys), maxRelationMb * 1024 * 1024;
              && o.dropped <= starts
              && Plan(grouped, nowMs - Min(retentionHours, MAX_RETENTION_HOURS) * HOUR_MS, CurrentStart(nowMs), budget,
                      |o.dropped|)
              && o.bytes == Bytes(starts[|o.dropped|..], grouped)
              && o.bytes == TotalBytes(ps) - Bytes(o.dropped, grouped)
              && (o.permitted <==> o.bytes <= budget)
              && (forall s <- o.dropped :: s + WIDTH_MS <= CurrentStart(nowMs) == o.currentStartMs)
              && o.oldestRetainedMs == (if |o.dropped| < |starts| then starts[|o.dropped|] else CurrentStart(nowMs))
  {
    hide Sorted, Bytes, Grouped, Holds, Needed, Plan;
    if retentionHours < 6 || maxRelationMb <= 0 { return Refused; }
    if !lockAcquired { return NotOwner; }
    if nowMs < 0 { return Refused; }
    var hours := Min(retentionHours, MAX_RETENTION_HOURS);
    var grouped := Group(ps);
    var starts := Sorted(grouped.Keys);
    SortedKnown(grouped.Keys, grouped);
    var currentMs, cutoffMs, budget := CurrentStart(nowMs), nowMs - hours * HOUR_MS, maxRelationMb * 1024 * 1024;
    var expired, held := RetentionPass(starts, grouped, cutoffMs);
    var dropped, bytes := BudgetPass(starts, grouped, expired, held, currentMs, budget);
    HoldsIsBound(dropped, bytes, starts, grouped);
    PassesPlan(grouped, cutoffMs, currentMs, budget, |expired|, |dropped|);
    PlanEnds(grouped, cutoffMs, currentMs, budget, dropped);
    GroupingKeepsBytes(ps);
    BytesSplit(starts, grouped, |dropped|);
    assert starts[..|dropped|] == dropped;
    o := Maintained(dropped, if |dropped| < |starts| then starts[|dropped|] else currentMs, currentMs, bytes,
                    bytes <= budget);
  }

  lemma {:induction false} BytesSplit(starts: seq<int>, grouped: map<int, nat>, k: nat)
    requires k <= |starts| && Known(starts, grouped)
    ensures Bytes(starts, grouped) == Bytes(starts[..k], grouped) + Bytes(starts[k..], grouped)
  {
    if k > 0 {
      BytesSplit(starts[1..], grouped, k - 1);
      assert starts[1..][..k - 1] == starts[..k][1..] && starts[1..][k - 1..] == starts[k..];
    }
  }
}
