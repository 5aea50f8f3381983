/**
 The maintenance sweep (price_collector/ghost_twap_retention.py): batches of terminal rows
 behind a moving cursor, rows still owned by the runtime left out, and bounded memory of
 the rows that failed to compact.
 */
module Retention {
  import opened Core
  import Identity

  const MAX_FAILED := 128

  /** Creation time, process and the decision's text, in the order the table is swept. */
  datatype Key = Key(createdMs: int, run: int, id: int) {
    predicate Less(k: Key) {
      createdMs < k.createdMs
          || (createdMs == k.createdMs && (run < k.run || (run == k.run && Identity.Before(id, k.id))))
    }
  }

  datatype Failure = Failure(key: Key, attempts: nat, retryAfter: int)

  /** One row's fate: compacted, no longer eligible, a fault of the row (and when), or of the whole pass. */
  datatype Outcome = Compacted | NotEligible | RowFault(atNs: int) | GlobalFault

  /** What one pass meets: the eligible rows in order, the excluded ones, its clock, and how each row fares. */
  datatype Pass = Pass(table: seq<Key>, excluded: set<Key>, nowNs: int, limit: nat, affordable: nat,
                       outcomes: map<Key, Outcome>)

  datatype Sweep = Sweep(after: Option<Key>, failed: seq<Failure>, evictions: nat)

  datatype Report = Report(examined: seq<Key>, compacted: nat, failures: nat, raised: bool)

  const RETRY_NS := 60 * NS_PER_SECOND

  predicate Beyond(after: Option<Key>, k: Key) { after.None? || after.value.Less(k) }

  predicate Ascending(table: seq<Key>) { forall i, j :: 0 <= i < j < |table| ==> table[i].Less(table[j]) }

  function Deferred(failed: seq<Failure>, nowNs: int): set<Key> {
    set f | f in failed && f.retryAfter > nowNs :: f.key
  }

  predicate Wanted(k: Key, after: Option<Key>, skip: set<Key>) { Beyond(after, k) && k !in skip }

  /** The query: eligible rows beyond the cursor that nobody owns and that are not deferred. */
  function Candidates(table: seq<Key>, after: Option<Key>, skip: set<Key>): seq<Key> {
    if table == [] then []
    else (if Wanted(table[0], after, skip) then [table[0]] else []) + Candidates(table[1..], after, skip)
  }

  function Limited(ks: seq<Key>, limit: nat): seq<Key> { if |ks| > limit then ks[..limit] else ks }

  function WithoutKey(failed: seq<Failure>, k: Key): seq<Failure> {
    if failed == [] then []
    else (if failed[0].key == k then [] else [failed[0]]) + WithoutKey(failed[1..], k)
  }

  function AttemptsOf(failed: seq<Failure>, k: Key): nat {
    if failed == [] then 0 else if failed[0].key == k then failed[0].attempts else AttemptsOf(failed[1..], k)
  }

  /** The newest failures, oldest given up first. */
  function Noted(s: Sweep, k: Key, nowNs: int): Sweep {
    var more := WithoutKey(s.failed, k) + [Failure(k, AttemptsOf(s.failed, k) + 1, nowNs + RETRY_NS)];
    if |more| > MAX_FAILED then s.(failed := more[1..], evictions := s.evictions + 1) else s.(failed := more)
  }

  function OutcomeOf(p: Pass, k: Key): Outcome { if k in p.outcomes then p.outcomes[k] else GlobalFault }

  /** Row by row until the batch, the time or the pass itself gives out. */
  function Swept(p: Pass, s: Sweep, r: Report, batch: seq<Key>): (Sweep, Report)
    decreases |batch|
  {
    if batch == [] || r.raised || |r.examined| >= p.affordable then (s, r)
    else
      var k := batch[0];
      var here, seen := s.(after := Some(k)), r.(examined := r.examined + [k]);
      match OutcomeOf(p, k)
      case Compacted => Swept(p, here.(failed := WithoutKey(s.failed, k)), seen.(compacted := r.compacted + 1),
                              batch[1..])
      case NotEligible => Swept(p, here.(failed := WithoutKey(s.failed, k)), seen, batch[1..])
      case RowFault(at) => Swept(p, Noted(here, k, at), seen.(failures := r.failures + 1), batch[1..])
      case GlobalFault => (here, seen.(raised := true))
  }

  const NOTHING: Report := Report([], 0, 0, false)

  function BatchOf(p: Pass, s: Sweep): seq<Key> {
    Limited(Candidates(p.table, s.after, p.excluded + Deferred(s.failed, p.nowNs)), p.limit)
  }

  /** The pass reached the end of the table. */
  predicate Completes(p: Pass, s: Sweep) {
    var batch, r := BatchOf(p, s), Swept(p, s, NOTHING, BatchOf(p, s)).1;
    !r.raised && |r.examined| == |batch| && |batch| < p.limit
  }

  function Passed(p: Pass, s: Sweep): (Sweep, Report) {
    var (t, r) := Swept(p, s, NOTHING, BatchOf(p, s));
    (if Completes(p, s) then t.(after := None) else t, r)
  }

  // ---------------------------------------------------------------- in place

  class GhostRetention {
    var after: Option<Key>
    var failed: seq<Failure>
    var evictions: nat

    function Model(): Sweep
      reads this
    {
      Sweep(after, failed, evictions)
    }

    constructor ()
      ensures Model() == Sweep(None, [], 0)
    {
      after, failed, evictions := None, [], 0;
    }

    method NoteFailure(k: Key, nowNs: int)
      modifies this`failed, this`evictions
      ensures Model() == Noted(old(Model()), k, nowNs)
    {
      var attempts := AttemptsOf(failed, k) + 1;
      failed := WithoutKey(failed, k) + [Failure(k, attempts, nowNs + RETRY_NS)];
      if |failed| > MAX_FAILED {
        failed := failed[1..];
        evictions := evictions + 1;
      }
    }

    method Maintenance(p: Pass) returns (r: Report)
      modifies this
      ensures (Model(), r) == Passed(p, old(Model()))
    {
      hide Noted, WithoutKey, BatchOf;
      var batch := BatchOf(p, Model());
      var i := 0;
      r := NOTHING;
      while i < |batch| && !r.raised && |r.examined| < p.affordable
        invariant 0 <= i <= |batch| && (r.raised || |r.examined| == i)
        invariant Swept(p, Model(), r, batch[i..]) == Swept(p, old(Model()), NOTHING, batch)
        decreases |batch| - i
      {
        var k := batch[i];
        assert batch[i..][1..] == batch[i + 1..];
        after := Some(k);
        r := r.(examined := r.examined + [k]);
        match OutcomeOf(p, k) {
          case Compacted =>
            r := r.(compacted := r.compacted + 1);
            failed := WithoutKey(failed, k);
          case NotEligible => failed := WithoutKey(failed, k);
          case RowFault(at) =>
            NoteFailure(k, at);
            r := r.(failures := r.failures + 1);
          case GlobalFault => r := r.(raised := true);
        }
        i := i + 1;
      }
      if !r.raised && |r.examined| == |batch| && |batch| < p.limit { after := None; }
    }
  }

  // ---------------------------------------------------------------- a pass passes nothing over

  lemma {:induction false} CandidatesAre(table: seq<Key>, after: Option<Key>, skip: set<Key>)
    requires Ascending(table)
    ensures forall k :: k in Candidates(table, after, skip) <==> k in table && Wanted(k, after, skip)
    ensures Ascending(Candidates(table, after, skip))
  {
    if table != [] {
      CandidatesAre(table[1..], after, skip);
      var rest := Candidates(table[1..], after, skip);
      forall j | 0 <= j < |rest|
        ensures table[0].Less(rest[j])
      {
        assert rest[j] in table[1..];
      }
    }
  }

  /** The sweep works through a prefix of its batch and leaves the cursor on its last row. */
  lemma {:induction false} SweptIsPrefix(p: Pass, s: Sweep, r: Report, batch: seq<Key>)
    ensures var (t, q) := Swept(p, s, r, batch);
            var n := |q.examined| - |r.examined|;
            && 0 <= n <= |batch| && q.examined == r.examined + batch[..n]
            && t.after == (if n == 0 then s.after else Some(batch[n - 1]))
    decreases |batch|
  {
    hide Noted, WithoutKey;
    if batch != [] && !r.raised && |r.examined| < p.affordable {
      var k := batch[0];
      var here, seen := s.(after := Some(k)), r.(examined := r.examined + [k]);
      match OutcomeOf(p, k)
      case Compacted =>
        SweptIsPrefix(p, here.(failed := WithoutKey(s.failed, k)), seen.(compacted := r.compacted + 1), batch[1..]);
        PrefixStep(r.examined, batch, |Swept(p, s, r, batch).1.examined| - |r.examined|);
      case NotEligible =>
        SweptIsPrefix(p, here.(failed := WithoutKey(s.failed, k)), seen, batch[1..]);
        PrefixStep(r.examined, batch, |Swept(p, s, r, batch).1.examined| - |r.examined|);
      case RowFault(at) =>
        NotedKeepsCursor(here, k, at);
        SweptIsPrefix(p, Noted(here, k, at), seen.(failures := r.failures + 1), batch[1..]);
        PrefixStep(r.examined, batch, |Swept(p, s, r, batch).1.examined| - |r.examined|);
      case GlobalFault => PrefixStep(r.examined, batch, 1);
    } else {
      assert batch[..0] == [];
    }
  }

  lemma NotedKeepsCursor(s: Sweep, k: Key, nowNs: int)
    ensures Noted(s, k, nowNs).after == s.after
  {
  }

  lemma PrefixStep(examined: seq<Key>, batch: seq<Key>, n: int)
    requires 1 <= n <= |batch|
    ensures examined + [batch[0]] + batch[1..][..n - 1] == examined + batch[..n]
  {
  }

  /**
   One pass examines, in order and within its limit, wanted rows only, and it examines every
   wanted row up to the cursor it leaves, or every one when it completes.
   */
  lemma NothingIsPassedOver(p: Pass, s: Sweep)
    requires Ascending(p.table)
    ensures var (t, r) := Passed(p, s);
            var skip := p.excluded + Deferred(s.failed, p.nowNs);
            && |r.examined| <= p.limit && Ascending(r.examined)
            && (forall k <- r.examined :: k in p.table && Wanted(k, s.after, skip))
            && (forall k <- p.table :: Wanted(k, s.after, skip) ==>
                  k in r.examined || (!Completes(p, s) && Beyond(t.after, k)))
  {
    hide Swept, Candidates, Deferred;
    var skip := p.excluded + Deferred(s.failed, p.nowNs);
    var all, batch := Candidates(p.table, s.after, skip), BatchOf(p, s);
    var (t, r) := Passed(p, s);
    CandidatesAre(p.table, s.after, skip);
    SweptIsPrefix(p, s, NOTHING, batch);
    var n := |r.examined|;
    assert r.examined == all[..n];
    forall k | k in p.table && Wanted(k, s.after, skip)
      ensures k in r.examined || (!Completes(p, s) && Beyond(t.after, k))
    {
      var i :| 0 <= i < |all| && all[i] == k;
      if i < n {
        assert r.examined[i] == k;
      }
    }
    forall k | k in r.examined
      ensures k in p.table && Wanted(k, s.after, skip)
    {
      assert k in all;
    }
  }

  // ---------------------------------------------------------------- rounds

  function After(passes: seq<Pass>, s: Sweep): Sweep {
    if passes == [] then s else Passed(passes[|passes| - 1], After(passes[..|passes| - 1], s)).0
  }

  /** The row is in the table, owned by nobody and not deferred, at every pass. */
  ghost predicate AlwaysWanted(passes: seq<Pass>, s: Sweep, k: Key) {
    forall i :: 0 <= i < |passes| ==>
      k in passes[i].table && k !in passes[i].excluded && k !in Deferred(After(passes[..i], s).failed, passes[i].nowNs)
  }

  ghost predicate ExaminedIn(passes: seq<Pass>, s: Sweep, k: Key) {
    exists i :: 0 <= i < |passes| && k in Passed(passes[i], After(passes[..i], s)).1.examined
  }

  lemma {:induction false} BehindMeansExamined(passes: seq<Pass>, s: Sweep, k: Key)
    requires forall i :: 0 <= i < |passes| ==> Ascending(passes[i].table)
    requires s.after.None? && AlwaysWanted(passes, s, k)
    ensures ExaminedIn(passes, s, k) || Beyond(After(passes, s).after, k)
    ensures passes != [] && Completes(passes[|passes| - 1], After(passes[..|passes| - 1], s)) ==>
              ExaminedIn(passes, s, k)
  {
    hide Passed, Completes, Ascending;
    if passes != [] {
      var n := |passes| - 1;
      var front, p, mid := passes[..n], passes[n], After(passes[..n], s);
      forall i | 0 <= i < n
        ensures front[i] == passes[i] && front[..i] == passes[..i]
      {
      }
      BehindMeansExamined(front, s, k);
      if ExaminedIn(front, s, k) {
        var i :| 0 <= i < n && k in Passed(front[i], After(front[..i], s)).1.examined;
        assert k in Passed(passes[i], After(passes[..i], s)).1.examined;
      } else {
        NothingIsPassedOver(p, mid);
        if k in Passed(p, mid).1.examined { assert passes[..n] == front; }
      }
    }
  }

  /**
   Over any run of passes from the start of a round to one that completes it, whatever is
   inserted, finished, timed out or failed meanwhile, no row that stays eligible is missed.
   */
  lemma EveryRoundExaminesAll(passes: seq<Pass>, s: Sweep, k: Key)
    requires forall i :: 0 <= i < |passes| ==> Ascending(passes[i].table)
    requires s.after.None? && AlwaysWanted(passes, s, k)
    requires passes != [] && Completes(passes[|passes| - 1], After(passes[..|passes| - 1], s))
    ensures ExaminedIn(passes, s, k)
  {
    BehindMeansExamined(passes, s, k);
  }

  // ---------------------------------------------------------------- failure memory

  ghost predicate Tracked(failed: seq<Failure>) {
    && |failed| <= MAX_FAILED && (forall i :: 0 <= i < |failed| ==> failed[i].attempts > 0)
    && forall i, j :: 0 <= i < j < |failed| ==> failed[i].key != failed[j].key
  }

  lemma {:induction false} WithoutKeyIs(failed: seq<Failure>, k: Key)
    requires forall i, j :: 0 <= i < j < |failed| ==> failed[i].key != failed[j].key
    ensures var less := WithoutKey(failed, k);
            && |less| <= |failed| && (forall f :: f in less <==> f in failed && f.key != k)
            && (forall i, j :: 0 <= i < j < |less| ==> less[i].key != less[j].key)
  {
    if failed != [] {
      WithoutKeyIs(failed[1..], k);
      var rest := WithoutKey(failed[1..], k);
      forall j | 0 <= j < |rest|
        ensures rest[j].key != failed[0].key
      {
        assert rest[j] in failed[1..];
      }
      assert failed == [failed[0]] + failed[1..];
    }
  }

  lemma ForgottenStaysTracked(failed: seq<Failure>, k: Key)
    requires Tracked(failed)
    ensures Tracked(WithoutKey(failed, k)) && k !in Deferred(WithoutKey(failed, k), 0)
    ensures forall f <- WithoutKey(failed, k) :: f.key != k
  {
    WithoutKeyIs(failed, k);
    var less := WithoutKey(failed, k);
    forall i | 0 <= i < |less|
      ensures less[i].attempts > 0
    {
      assert less[i] in failed;
    }
  }

  /** A failed row is remembered last, and deferred for the retry time. */
  lemma NotedStaysTracked(s: Sweep, k: Key, nowNs: int)
    requires Tracked(s.failed)
    ensures Tracked(Noted(s, k, nowNs).failed)
    ensures forall at :: at < nowNs + RETRY_NS ==> k in Deferred(Noted(s, k, nowNs).failed, at)
  {
    hide WithoutKey, AttemptsOf;
    ForgottenStaysTracked(s.failed, k);
    var more := WithoutKey(s.failed, k) + [Failure(k, AttemptsOf(s.failed, k) + 1, nowNs + RETRY_NS)];
    var kept := Noted(s, k, nowNs).failed;
    assert forall i :: 0 <= i < |WithoutKey(s.failed, k)| ==> WithoutKey(s.failed, k)[i] in WithoutKey(s.failed, k);
    assert kept[|kept| - 1] == more[|more| - 1] && kept[|kept| - 1] in kept;
  }

  lemma {:induction false} SweptStaysTracked(p: Pass, s: Sweep, r: Report, batch: seq<Key>)
    requires Tracked(s.failed)
    ensures Tracked(Swept(p, s, r, batch).0.failed)
    decreases |batch|
  {
    hide Noted, WithoutKey, Tracked;
    if batch != [] && !r.raised && |r.examined| < p.affordable {
      var k := batch[0];
      var here, seen := s.(after := Some(k)), r.(examined := r.examined + [k]);
      match OutcomeOf(p, k)
      case Compacted =>
        ForgottenStaysTracked(s.failed, k);
        SweptStaysTracked(p, here.(failed := WithoutKey(s.failed, k)), seen.(compacted := r.compacted + 1), batch[1..]);
      case NotEligible =>
        ForgottenStaysTracked(s.failed, k);
        SweptStaysTracked(p, here.(failed := WithoutKey(s.failed, k)), seen, batch[1..]);
      case RowFault(at) =>
        NotedStaysTracked(here, k, at);
        SweptStaysTracked(p, Noted(here, k, at), seen.(failures := r.failures + 1), batch[1..]);
      case GlobalFault =>
    }
  }

  /** The memory of failures stays bounded, one entry a row, over any run of passes. */
  lemma {:induction false} FailuresStayBounded(passes: seq<Pass>, s: Sweep)
    requires Tracked(s.failed)
    ensures Tracked(After(passes, s).failed)
  {
    hide Swept, Tracked, BatchOf;
    if passes != [] {
      var n := |passes| - 1;
      FailuresStayBounded(passes[..n], s);
      var mid := After(passes[..n], s);
      SweptStaysTracked(passes[n], mid, NOTHING, BatchOf(passes[n], mid));
    }
  }
}
