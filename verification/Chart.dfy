/**
 Frozen first-publication comparisons (price_collector/ghost_twap_chart.py): for each horizon
 and target the first acknowledged eligible publication, chosen before any outcome is looked at.
 */
module Chart {
  import opened Core
  import Identity
  import opened GhostTwap
  import opened GhostPayload
  import opened AuditRow
  import opened Accuracy

  const CHARTED: seq<int> := [3, 5, 10, 30]

  /** A stored compact record with its process and the clocks of its one attempt. */
  datatype Record = Record(run: int, compact: Compact, attempt: Stamp)

  datatype TargetKey = TargetKey(horizon: int, stamp: int)

  /** Acknowledgement time, then process, then the decision's text. */
  datatype Order = Order(ackWall: int, run: int, id: int) {
    predicate Less(o: Order) {
      ackWall < o.ackWall || (ackWall == o.ackWall && (run < o.run || (run == o.run && Identity.Before(id, o.id))))
    }
  }

  datatype Pick = Pick(order: Order, record: Record, entry: Entry)

  predicate Ordered(r: Record) { r.compact.status == Acknowledged && r.compact.ack.Some? }

  function OrderOf(r: Record): Order
    requires Ordered(r)
  {
    Order(r.compact.ack.value.wall, r.run, r.compact.id)
  }

  predicate Qualifies(t: Entry, startMs: int, endMs: int) {
    && t.horizon in CHARTED && t.stamp.Some? && startMs <= t.stamp.value < endMs
    && t.attemptedEligible && t.price.Some? && t.quality in {Healthy, Degraded}
  }

  function KeyOf(t: Entry): TargetKey
    requires t.stamp.Some?
  {
    TargetKey(t.horizon, t.stamp.value)
  }

  function WithEntry(chosen: map<TargetKey, Pick>, r: Record, t: Entry, startMs: int,
                     endMs: int): map<TargetKey, Pick> {
    if !Ordered(r) || !Qualifies(t, startMs, endMs) then chosen
    else
      var k := KeyOf(t);
      if k !in chosen || OrderOf(r).Less(chosen[k].order) then chosen[k := Pick(OrderOf(r), r, t)] else chosen
  }

  function WithEntries(chosen: map<TargetKey, Pick>, r: Record, n: nat, startMs: int, endMs: int): map<TargetKey, Pick>
    requires n <= |r.compact.horizons|
  {
    if n == 0 then chosen
    else WithEntry(WithEntries(chosen, r, n - 1, startMs, endMs), r, r.compact.horizons[n - 1], startMs, endMs)
  }

  function Chosen(rows: seq<Record>, startMs: int, endMs: int): map<TargetKey, Pick> {
    if rows == [] then map[]
    else
      var r := rows[|rows| - 1];
      WithEntries(Chosen(rows[..|rows| - 1], startMs, endMs), r, |r.compact.horizons|, startMs, endMs)
  }

  // ---------------------------------------------------------------- points

  datatype Exclusion = MissingOfficial | UnmatchedByRestart | ConflictedTarget | InvalidClock | LateAck

  predicate CleanInput(c: Compact, e: Option<PriceEvent>) {
    e.Some? && e.value.sourceMs * NS_PER_MS <= c.wallNs && e.value.wallNs <= c.wallNs && e.value.monoNs <= c.monoNs
  }

  predicate CleanClocks(r: Record, t: Entry)
    requires Ordered(r)
  {
    var c, ack := r.compact, r.compact.ack.value;
    && !c.causalityInvalid && !t.anomaly
    && Stamp(c.wallNs, c.monoNs).NotAfter(r.attempt) && r.attempt.NotAfter(ack)
    && CleanInput(c, c.spot) && CleanInput(c, c.twap)
    && (t.first.Some? ==>
          var f := t.first.value;
          && t.status == Matched && Some(f.sourceMs) == t.stamp && f.sourceMs * NS_PER_MS <= f.wallNs
          && c.wallNs <= f.wallNs && c.monoNs <= f.monoNs
          && (ack.mono < f.monoNs ==> ack.wall <= f.wallNs))
  }

  function FlagsOf(r: Record, t: Entry): set<Exclusion>
    requires Ordered(r)
  {
    (if t.first.None? then {MissingOfficial} else {})
    + (if t.status == RestartUnmatched then {UnmatchedByRestart} else {})
    + (if t.conflicted then {ConflictedTarget} else {})
    + (if t.first.Some? && r.compact.ack.value.mono >= t.first.value.monoNs then {LateAck} else {})
    + (if CleanClocks(r, t) then {} else {InvalidClock})
  }

  datatype Point = Point(stamp: int, run: int, id: int, flags: set<Exclusion>, error: Option<int>, held: Option<int>)

  function PointOf(p: Pick): Point
    requires Ordered(p.record) && p.entry.stamp.Some?
  {
    var r, t, flags := p.record, p.entry, FlagsOf(p.record, p.entry);
    if flags == {} && t.first.Some? && t.price.Some? && r.compact.twap.Some? then
      Point(t.stamp.value, r.run, r.compact.id, flags, Some(t.price.value - t.first.value.value),
            Some(r.compact.twap.value.value - t.first.value.value))
    else Point(t.stamp.value, r.run, r.compact.id, flags, None, None)
  }

  /** A paired point is one the hourly accuracy scores as early, with the same two errors. */
  lemma PairedIsScored(r: Record, t: Entry, startMs: int, endMs: int)
    requires Ordered(r) && Qualifies(t, startMs, endMs) && FlagsOf(r, t) == {}
    requires t.first.Some? ==> t.first.value.value > 0
    ensures IsEarly(r.compact, t) && ScoredPair(r.compact, t, EarlyCohort).Some?
    ensures var (p, s) := (PointOf(Pick(OrderOf(r), r, t)), ScoredPair(r.compact, t, EarlyCohort).value);
            p.error == Some(s.error) && p.held == Some(s.held)
  {
    assert MissingOfficial !in FlagsOf(r, t) && ConflictedTarget !in FlagsOf(r, t);
    assert LateAck !in FlagsOf(r, t) && InvalidClock !in FlagsOf(r, t);
  }

  // ---------------------------------------------------------------- groups

  datatype Panel = Panel(horizon: int, selected: int, paired: int, unpaired: int, flags: map<Exclusion, int>,
                         ghostSum: int, heldSum: int, points: seq<Point>)

  function NoneYet(x: Exclusion): int { 0 }

  function Bump(flags: map<Exclusion, int>, on: set<Exclusion>): map<Exclusion, int> {
    map x | x in flags :: flags[x] + (if x in on then 1 else 0)
  }

  function EmptyPanel(horizon: int): Panel {
    Panel(horizon, 0, 0, 0, map x: Exclusion | true :: NoneYet(x), 0, 0, [])
  }

  function WithPoint(g: Panel, p: Point): Panel {
    var counted := g.(selected := g.selected + 1, flags := Bump(g.flags, p.flags), points := g.points + [p]);
    if p.flags == {} && p.error.Some? && p.held.Some? then
      counted.(paired := g.paired + 1, ghostSum := g.ghostSum + Abs(p.error.value),
               heldSum := g.heldSum + Abs(p.held.value))
    else counted.(unpaired := g.unpaired + 1)
  }

  predicate Charted(chosen: map<TargetKey, Pick>) {
    forall k <- chosen :: Ordered(chosen[k].record) && chosen[k].entry.stamp.Some?
  }

  function StampsAt(chosen: map<TargetKey, Pick>, horizon: int): set<int> {
    set k | k in chosen && k.horizon == horizon :: k.stamp
  }

  lemma StampsAreKeys(chosen: map<TargetKey, Pick>, horizon: int, stamp: int)
    ensures stamp in StampsAt(chosen, horizon) <==> TargetKey(horizon, stamp) in chosen
  {
  }

  function PanelUpTo(chosen: map<TargetKey, Pick>, horizon: int, stamps: seq<int>): Panel
    requires Charted(chosen) && forall s <- stamps :: TargetKey(horizon, s) in chosen
  {
    if stamps == [] then EmptyPanel(horizon)
    else
      var last := stamps[|stamps| - 1];
      WithPoint(PanelUpTo(chosen, horizon, stamps[..|stamps| - 1]), PointOf(chosen[TargetKey(horizon, last)]))
  }

  // ---------------------------------------------------------------- the composition

  method Select(rows: seq<Record>, startMs: int, endMs: int) returns (chosen: map<TargetKey, Pick>)
    ensures chosen == Chosen(rows, startMs, endMs)
  {
    hide WithEntry;
    chosen := map[];
    assert rows[..0] == [];
    for i := 0 to |rows|
      invariant chosen == Chosen(rows[..i], startMs, endMs)
    {
      ghost var before := chosen;
      var r := rows[i];
      for j := 0 to |r.compact.horizons|
        invariant chosen == WithEntries(before, r, j, startMs, endMs)
      {
        chosen := Considered(chosen, r, r.compact.horizons[j], startMs, endMs);
      }
      assert rows[..i + 1][..i] == rows[..i];
    }
    assert rows[..|rows|] == rows;
  }

  method Considered(chosen: map<TargetKey, Pick>, r: Record, t: Entry, startMs: int, endMs: int)
    returns (result: map<TargetKey, Pick>)
    ensures result == WithEntry(chosen, r, t, startMs, endMs)
  {
    result := chosen;
    if r.compact.status != Acknowledged || r.compact.ack.None? { return; }
    if t.horizon !in CHARTED || t.stamp.None? || !(startMs <= t.stamp.value < endMs) || !t.attemptedEligible
       || t.price.None? || !(t.quality == Healthy || t.quality == Degraded) { return; }
    var key, order := KeyOf(t), OrderOf(r);
    if key !in result || order.Less(result[key].order) { result := result[key := Pick(order, r, t)]; }
  }

  /** Acknowledged rows carry their acknowledgement clocks, as the compactor checked. */
  predicate Stamped(rows: seq<Record>) {
    forall i :: 0 <= i < |rows| ==> (rows[i].compact.status == Acknowledged ==> rows[i].compact.ack.Some?)
  }

  method ComposeComparison(rows: seq<Record>, startMs: int, endMs: int) returns (panels: seq<Panel>)
    requires Stamped(rows)
    ensures Charted(Chosen(rows, startMs, endMs)) && |panels| == |CHARTED|
    ensures forall i :: 0 <= i < |panels| ==> panels[i] == PanelFor(Chosen(rows, startMs, endMs), CHARTED[i])
  {
    hide Chosen, FlagsOf, PointOf;
    var chosen := Select(rows, startMs, endMs);
    ChosenAreCharted(rows, startMs, endMs);
    panels := [];
    for i := 0 to |CHARTED|
      invariant |panels| == i
      invariant forall j :: 0 <= j < i ==> panels[j] == PanelFor(chosen, CHARTED[j])
    {
      var panel := Compose(chosen, CHARTED[i]);
      panels := panels + [panel];
    }
  }

  lemma StampsAreChosen(chosen: map<TargetKey, Pick>, horizon: int)
    ensures forall s <- Sorted(StampsAt(chosen, horizon)) :: TargetKey(horizon, s) in chosen
  {
    forall s | s in Sorted(StampsAt(chosen, horizon))
      ensures TargetKey(horizon, s) in chosen
    {
      StampsAreKeys(chosen, horizon, s);
    }
  }

  function PanelFor(chosen: map<TargetKey, Pick>, horizon: int): Panel
    requires Charted(chosen)
  {
    StampsAreChosen(chosen, horizon);
    PanelUpTo(chosen, horizon, Sorted(StampsAt(chosen, horizon)))
  }

  method Compose(chosen: map<TargetKey, Pick>, horizon: int) returns (g: Panel)
    requires Charted(chosen)
    ensures g == PanelFor(chosen, horizon)
  {
    hide FlagsOf, PointOf, Sorted;
    StampsAreChosen(chosen, horizon);
    var stamps := Sorted(StampsAt(chosen, horizon));
    g := EmptyPanel(horizon);
    assert stamps[..0] == [];
    for i := 0 to |stamps|
      invariant g == PanelUpTo(chosen, horizon, stamps[..i])
    {
      assert stamps[..i + 1][..i] == stamps[..i];
      assert stamps[i] in stamps;
      var p := PointOf(chosen[TargetKey(horizon, stamps[i])]);
      g := g.(selected := g.selected + 1, flags := Bump(g.flags, p.flags), points := g.points + [p]);
      if p.flags == {} && p.error.Some? && p.held.Some? {
        g := g.(paired := g.paired + 1, ghostSum := g.ghostSum + Abs(p.error.value),
                heldSum := g.heldSum + Abs(p.held.value));
      } else {
        g := g.(unpaired := g.unpaired + 1);
      }
    }
    assert stamps[..|stamps|] == stamps;
  }

  // ---------------------------------------------------------------- selection is the first publication

  /** Some stored row offers this target at this place in the order. */
  ghost predicate Offers(rows: seq<Record>, startMs: int, endMs: int, k: TargetKey, o: Order) {
    exists i, j :: OffersAt(rows, startMs, endMs, k, o, i, j)
  }

  predicate OffersAt(rows: seq<Record>, startMs: int, endMs: int, k: TargetKey, o: Order, i: int, j: int) {
    && 0 <= i < |rows| && 0 <= j < |rows[i].compact.horizons|
    && OffersIn(rows[i], rows[i].compact.horizons[j], startMs, endMs, k, o)
  }

  predicate OffersIn(r: Record, t: Entry, startMs: int, endMs: int, k: TargetKey, o: Order) {
    Ordered(r) && Qualifies(t, startMs, endMs) && KeyOf(t) == k && OrderOf(r) == o
  }

  /** What a selection is: for each offered target one pick, and none before it. */
  ghost predicate IsFirst(chosen: map<TargetKey, Pick>, offers: iset<(TargetKey, Order)>) {
    && (forall k, o :: (k, o) in offers ==> k in chosen && !o.Less(chosen[k].order))
    && (forall k :: k in chosen ==> (k, chosen[k].order) in offers)
  }

  lemma OrderIsStrict(a: Order)
    ensures !a.Less(a)
  {
    Identity.BeforeIsStrict(a.id);
  }

  lemma OrderIsTransitive(a: Order, b: Order, c: Order)
    requires a.Less(b) && b.Less(c)
    ensures a.Less(c)
  {
    if a.ackWall == b.ackWall == c.ackWall && a.run == b.run == c.run { Identity.BeforeIsTransitive(a.id, b.id, c.id); }
  }

  lemma OrderIsTotal(a: Order, b: Order)
    ensures a == b || a.Less(b) || b.Less(a)
  {
    Identity.BeforeIsTotal(a.id, b.id);
  }

  lemma EntryKeepsFirst(chosen: map<TargetKey, Pick>, offers: iset<(TargetKey, Order)>, r: Record, t: Entry,
                        startMs: int, endMs: int)
    requires IsFirst(chosen, offers)
    ensures IsFirst(WithEntry(chosen, r, t, startMs, endMs),
                    offers + iset k, o | OffersIn(r, t, startMs, endMs, k, o) :: (k, o))
  {
    hide Order.Less;
    var more := offers + iset k, o | OffersIn(r, t, startMs, endMs, k, o) :: (k, o);
    var after := WithEntry(chosen, r, t, startMs, endMs);
    if Ordered(r) && Qualifies(t, startMs, endMs) {
      var key, order := KeyOf(t), OrderOf(r);
      assert OffersIn(r, t, startMs, endMs, key, order);
      assert (key, order) in more;
      OrderIsStrict(order);
      forall k: TargetKey, o: Order | (k, o) in more
        ensures k in after && !o.Less(after[k].order)
      {
        if k == key && key in chosen && order.Less(chosen[key].order) && o.Less(order) {
          OrderIsTransitive(o, order, chosen[key].order);
        }
      }
    }
  }

  ghost function OffersOf(rows: seq<Record>, startMs: int, endMs: int): iset<(TargetKey, Order)> {
    iset k, o | Offers(rows, startMs, endMs, k, o) :: (k, o)
  }

  ghost function OffersUpTo(rows: seq<Record>, r: Record, n: nat, startMs: int, endMs: int): iset<(TargetKey, Order)>
    requires n <= |r.compact.horizons|
  {
    OffersOf(rows, startMs, endMs)
    + iset k, o, j | 0 <= j < n && OffersIn(r, r.compact.horizons[j], startMs, endMs, k, o) :: (k, o)
  }

  lemma {:induction false} EntriesKeepFirst(rows: seq<Record>, r: Record, n: nat, startMs: int, endMs: int)
    requires n <= |r.compact.horizons| && IsFirst(Chosen(rows, startMs, endMs), OffersOf(rows, startMs, endMs))
    ensures IsFirst(WithEntries(Chosen(rows, startMs, endMs), r, n, startMs, endMs),
                    OffersUpTo(rows, r, n, startMs, endMs))
  {
    hide WithEntry, OffersIn, IsFirst, Offers, Chosen;
    var base := OffersOf(rows, startMs, endMs);
    if n == 0 {
      assert OffersUpTo(rows, r, 0, startMs, endMs) == base;
    } else {
      EntriesKeepFirst(rows, r, n - 1, startMs, endMs);
      var t, before := r.compact.horizons[n - 1], OffersUpTo(rows, r, n - 1, startMs, endMs);
      EntryKeepsFirst(WithEntries(Chosen(rows, startMs, endMs), r, n - 1, startMs, endMs), before, r, t, startMs,
                      endMs);
      assert OffersUpTo(rows, r, n, startMs, endMs)
          == before + iset k, o | OffersIn(r, t, startMs, endMs, k, o) :: (k, o);
    }
  }

  lemma OffersGrow(rows: seq<Record>, startMs: int, endMs: int)
    requires rows != []
    ensures OffersOf(rows, startMs, endMs)
         == OffersUpTo(rows[..|rows| - 1], rows[|rows| - 1], |rows[|rows| - 1].compact.horizons|, startMs, endMs)
  {
    hide OffersIn;
    var n := |rows| - 1;
    var front, r := rows[..n], rows[n];
    var grown := OffersUpTo(front, r, |r.compact.horizons|, startMs, endMs);
    forall k, o | Offers(rows, startMs, endMs, k, o)
      ensures (k, o) in grown
    {
      var i, j :| OffersAt(rows, startMs, endMs, k, o, i, j);
      if i < n { assert OffersAt(front, startMs, endMs, k, o, i, j); }
    }
    forall k, o | Offers(front, startMs, endMs, k, o)
      ensures Offers(rows, startMs, endMs, k, o)
    {
      var i, j :| OffersAt(front, startMs, endMs, k, o, i, j);
      assert OffersAt(rows, startMs, endMs, k, o, i, j);
    }
    forall k, o, j | 0 <= j < |r.compact.horizons| && OffersIn(r, r.compact.horizons[j], startMs, endMs, k, o)
      ensures Offers(rows, startMs, endMs, k, o)
    {
      assert OffersAt(rows, startMs, endMs, k, o, n, j);
    }
  }

  /** For any rows in any order, the pick of a target is the earliest acknowledged offer of it. */
  lemma {:induction false} SelectionIsFirst(rows: seq<Record>, startMs: int, endMs: int)
    ensures IsFirst(Chosen(rows, startMs, endMs), OffersOf(rows, startMs, endMs))
  {
    hide WithEntry, OffersOf;
    if rows == [] {
      NothingIsFirst(startMs, endMs);
    } else {
      var r := rows[|rows| - 1];
      SelectionIsFirst(rows[..|rows| - 1], startMs, endMs);
      EntriesKeepFirst(rows[..|rows| - 1], r, |r.compact.horizons|, startMs, endMs);
      OffersGrow(rows, startMs, endMs);
    }
  }

  lemma NothingIsFirst(startMs: int, endMs: int)
    ensures IsFirst(Chosen([], startMs, endMs), OffersOf([], startMs, endMs))
  {
  }

  /** The order is total, so two first selections from the same offers name the same publications. */
  lemma FirstIsUnique(a: map<TargetKey, Pick>, b: map<TargetKey, Pick>, offers: iset<(TargetKey, Order)>)
    requires IsFirst(a, offers) && IsFirst(b, offers)
    ensures a.Keys == b.Keys && forall k <- a :: a[k].order == b[k].order
  {
    hide Order.Less;
    forall k | k in a || k in b
      ensures k in a && k in b && a[k].order == b[k].order
    {
      if k in a { assert (k, a[k].order) in offers; }
      if k in b { assert (k, b[k].order) in offers; }
      OrderIsTotal(a[k].order, b[k].order);
    }
  }

  /** A record as the selection sees it: nothing that happened to its targets. */
  predicate SameOffer(a: Record, b: Record) {
    && a.run == b.run && a.compact.id == b.compact.id && a.compact.status == b.compact.status
    && a.compact.ack == b.compact.ack
    && |a.compact.horizons| == |b.compact.horizons|
    && forall j :: 0 <= j < |a.compact.horizons| ==> SameEntry(a.compact.horizons[j], b.compact.horizons[j])
  }

  predicate SameEntry(a: Entry, b: Entry) {
    && a.horizon == b.horizon && a.stamp == b.stamp && a.price == b.price && a.quality == b.quality
    && a.attemptedEligible == b.attemptedEligible
  }

  /** Every record of one collection has a counterpart making the same offer in the other. */
  ghost predicate Covers(rows: seq<Record>, others: seq<Record>) {
    forall i :: 0 <= i < |rows| ==> exists i' :: 0 <= i' < |others| && SameOffer(rows[i], others[i'])
  }

  lemma CoveredOffers(rows: seq<Record>, others: seq<Record>, startMs: int, endMs: int)
    requires Covers(rows, others)
    ensures OffersOf(rows, startMs, endMs) <= OffersOf(others, startMs, endMs)
  {
    forall k, o | Offers(rows, startMs, endMs, k, o)
      ensures Offers(others, startMs, endMs, k, o)
    {
      var i, j :| OffersAt(rows, startMs, endMs, k, o, i, j);
      var i' :| 0 <= i' < |others| && SameOffer(rows[i], others[i']);
      assert SameEntry(rows[i].compact.horizons[j], others[i'].compact.horizons[j]);
      assert OffersAt(others, startMs, endMs, k, o, i', j);
    }
  }

  /**
   Outcome-blind and independent of row order: reorder the rows, and change anything that
   happened to their targets, and the same publications are chosen for the same targets.
   */
  lemma SelectionIsOutcomeBlind(rows: seq<Record>, others: seq<Record>, startMs: int, endMs: int)
    requires Covers(rows, others) && Covers(others, rows)
    ensures var (a, b) := (Chosen(rows, startMs, endMs), Chosen(others, startMs, endMs));
            a.Keys == b.Keys && forall k <- a :: a[k].order == b[k].order
  {
    hide Chosen, OffersOf, IsFirst, Covers;
    SelectionIsFirst(rows, startMs, endMs);
    SelectionIsFirst(others, startMs, endMs);
    CoveredOffers(rows, others, startMs, endMs);
    CoveredOffers(others, rows, startMs, endMs);
    assert OffersOf(rows, startMs, endMs) == OffersOf(others, startMs, endMs);
    FirstIsUnique(Chosen(rows, startMs, endMs), Chosen(others, startMs, endMs), OffersOf(rows, startMs, endMs));
  }

  /** Late and conflicting evidence never changes an offer. */
  lemma AnnotationsKeepOffers(r: Record, e: PriceEvent)
    requires Annotate(r.compact, e).Some?
    ensures SameOffer(r, r.(compact := Annotate(r.compact, e).value))
    ensures SameOffer(r.(compact := Annotate(r.compact, e).value), r)
  {
  }

  // ---------------------------------------------------------------- counts

  lemma {:induction false} EntriesStayCharted(chosen: map<TargetKey, Pick>, r: Record, n: nat, startMs: int, endMs: int)
    requires n <= |r.compact.horizons| && Charted(chosen)
    ensures Charted(WithEntries(chosen, r, n, startMs, endMs))
  {
    if n > 0 { EntriesStayCharted(chosen, r, n - 1, startMs, endMs); }
  }

  lemma {:induction false} ChosenAreCharted(rows: seq<Record>, startMs: int, endMs: int)
    ensures Charted(Chosen(rows, startMs, endMs))
  {
    hide Charted;
    if rows == [] {
      NothingIsCharted();
    } else {
      var r := rows[|rows| - 1];
      ChosenAreCharted(rows[..|rows| - 1], startMs, endMs);
      EntriesStayCharted(Chosen(rows[..|rows| - 1], startMs, endMs), r, |r.compact.horizons|, startMs, endMs);
    }
  }

  lemma NothingIsCharted()
    ensures Charted(map[])
  {
  }

  function ErrorSum(ps: seq<Point>): int {
    if ps == [] then 0
    else ErrorSum(ps[..|ps| - 1]) + (if ps[|ps| - 1].error.Some? then Abs(ps[|ps| - 1].error.value) else 0)
  }

  function PairedIn(ps: seq<Point>): nat {
    if ps == [] then 0 else PairedIn(ps[..|ps| - 1]) + (if ps[|ps| - 1].error.Some? then 1 else 0)
  }

  function FlaggedIn(ps: seq<Point>, x: Exclusion): nat {
    if ps == [] then 0 else FlaggedIn(ps[..|ps| - 1], x) + (if x in ps[|ps| - 1].flags then 1 else 0)
  }

  ghost predicate Balanced(g: Panel) {
    && g.selected == |g.points| == g.paired + g.unpaired && g.paired == PairedIn(g.points)
    && g.ghostSum == ErrorSum(g.points)
    && forall x: Exclusion :: x in g.flags && g.flags[x] == FlaggedIn(g.points, x)
  }

  lemma PointStaysBalanced(g: Panel, p: Point)
    requires Balanced(g) && (p.error.Some? <==> p.held.Some?) && (p.error.Some? ==> p.flags == {})
    ensures Balanced(WithPoint(g, p))
  {
    var more := WithPoint(g, p);
    assert more.points[..|g.points|] == g.points;
    forall x: Exclusion
      ensures x in more.flags && more.flags[x] == FlaggedIn(more.points, x)
    {
      assert x in g.flags;
    }
  }

  lemma PointsPairCleanly(p: Pick)
    requires Ordered(p.record) && p.entry.stamp.Some?
    ensures var q := PointOf(p);
            (q.error.Some? <==> q.held.Some?) && (q.error.Some? ==> q.flags == {}) && q.stamp == p.entry.stamp.value
  {
  }

  /** Selection precedes exclusion: every chosen target is counted once, paired or not, and sums run over the pairs. */
  lemma {:induction false} PanelsBalance(chosen: map<TargetKey, Pick>, horizon: int, stamps: seq<int>)
    requires Charted(chosen) && forall s <- stamps :: TargetKey(horizon, s) in chosen
    ensures Balanced(PanelUpTo(chosen, horizon, stamps)) && PanelUpTo(chosen, horizon, stamps).selected == |stamps|
  {
    hide PointOf, WithPoint, Balanced;
    if stamps == [] {
      EmptyBalances(horizon);
    } else {
      var front, last := stamps[..|stamps| - 1], stamps[|stamps| - 1];
      PanelsBalance(chosen, horizon, front);
      var p := chosen[TargetKey(horizon, last)];
      PointsPairCleanly(p);
      PointStaysBalanced(PanelUpTo(chosen, horizon, front), PointOf(p));
      CountsOne(PanelUpTo(chosen, horizon, front), PointOf(p));
    }
  }

  lemma CountsOne(g: Panel, p: Point)
    ensures WithPoint(g, p).selected == g.selected + 1
  {
  }

  lemma EmptyBalances(horizon: int)
    ensures Balanced(EmptyPanel(horizon)) && EmptyPanel(horizon).selected == 0
  {
  }
}
