/**
 The independent sampler (price_collector/ghost_twap_observer.py): a fixed grid of 100 ms
 bins, one bounded read per bin, and the checker that recomputes every claim in the files.
 A digest is its payload, and the payload classifier is a parameter shared by both sides.
 */
module Observer {
  import opened Core

  const INTERVAL_MS := 100
  const MAX_PAYLOAD_BYTES := 65_536
  const CLOCK_STEP_NS := 5 * NS_PER_MS
  const WARM_MS := 65_000
  const MAX_CLOCK := 9_223_372_036_854_775_807

  type Bytes = seq<int>

  datatype Clock = Clock(wall: int, mono: int)

  datatype Step = Step(before: Clock, after: Clock)

  datatype Verdict = Verdict(valid: bool, qualified: bool, eligible: set<int>, usable: set<int>, oversized: bool,
                             ambiguous: bool)

  const NO_VERDICT: Verdict := Verdict(false, false, {}, {}, false, false)

  /** What the classifier is given: the window, the reply and the two clock pairs around the read. */
  datatype Evidence = Evidence(startMs: int, endMs: int, raw: Bytes, ttl: int, begun: Clock, ended: Clock)

  datatype Status = Present | Absent | Error | Missed | Unrecorded

  datatype Timing = Timing(plannedMs: int, begun: Clock, ended: Clock, grid: Clock, prior: Clock, lagNs: int,
                           durationNs: int, crossesBin: bool, crossesEnd: bool, anomaly: bool)

  datatype Row = Row(index: int, count: int, status: Status, step: Option<Step>, timing: Option<Timing>,
                     ttl: Option<int>, digest: Option<Bytes>, size: nat, verdict: Verdict)

  datatype Window = Window(startMs: int, bins: nat) {
    function EndMs(): int { startMs + bins * INTERVAL_MS }

    function GridNs(i: int): int { (startMs + i * INTERVAL_MS) * NS_PER_MS }
  }

  function Abs(x: int): int { if x < 0 then -x else x }

  predicate Jumps(a: Clock, b: Clock) { Abs((b.wall - a.wall) - (b.mono - a.mono)) > CLOCK_STEP_NS }

  predicate Sound(c: Clock) { 0 <= c.wall <= MAX_CLOCK && 0 <= c.mono <= MAX_CLOCK }

  function Judged(classify: Evidence -> Verdict, e: Evidence): Verdict {
    if |e.raw| > MAX_PAYLOAD_BYTES then NO_VERDICT.(oversized := true) else classify(e).(oversized := false)
  }

  // ---------------------------------------------------------------- the writer

  datatype Reply = Bytes(raw: Bytes, ttl: int) | Nothing(ttl: int) | Failed

  /** One turn of the loop: its clock readings, the reply it may get, and whether the files still have room. */
  datatype Turn = Turn(now: Clock, begun: Clock, reply: Reply, ended: Clock, roomForMissed: bool, roomForRead: bool)

  datatype State = State(index: int, pending: Option<Step>, previous: Clock, rows: seq<Row>, seen: set<Bytes>,
                         halted: bool)

  function TimingOf(w: Window, index: int, now: Clock, prior: Clock, step: Option<Step>, begun: Clock,
                    ended: Clock): Timing {
    Timing(w.startMs + index * INTERVAL_MS, begun, ended, now, prior, begun.wall - w.GridNs(index),
           ended.mono - begun.mono,
           ended.wall >= w.GridNs(index + 1), ended.wall >= w.EndMs() * NS_PER_MS,
           Jumps(prior, now) || step.Some? || ended.wall < begun.wall || ended.mono < begun.mono || Jumps(begun, ended))
  }

  predicate Confined(t: Timing) { !t.crossesBin && !t.crossesEnd && !t.anomaly }

  function ReadRow(classify: Evidence -> Verdict, w: Window, index: int, now: Clock, prior: Clock, step: Option<Step>,
                   turn: Turn)
    : Row
  {
    var timing := TimingOf(w, index, now, prior, step, turn.begun, turn.ended);
    match turn.reply
    case Failed => Row(index, 1, Error, step, Some(timing), None, None, 0, NO_VERDICT)
    case Nothing(ttl) =>
      Row(index, 1, if ttl == -2 then Absent else Error, step, Some(timing), Some(ttl), None, 0, NO_VERDICT)
    case Bytes(raw, ttl) =>
      var v := Judged(classify, Evidence(w.startMs, w.EndMs(), raw, ttl, turn.begun, turn.ended));
      Row(index, 1, Present, step, Some(timing), Some(ttl), Some(raw), |raw|,
          if Confined(timing) then v else v.(usable := {}))
  }

  function MissedRow(index: int, current: int, step: Option<Step>): Row {
    Row(index, current - index, Missed, step, None, None, None, 0, NO_VERDICT)
  }

  function WithPayload(seen: set<Bytes>, reply: Reply): set<Bytes> {
    if reply.Bytes? && |reply.raw| <= MAX_PAYLOAD_BYTES then seen + {reply.raw} else seen
  }

  /** The tail of a turn: one read, unless the bin has already gone by. */
  function ReadTurn(classify: Evidence -> Verdict, w: Window, s: State, prior: Clock, turn: Turn): State {
    if s.index >= w.bins || turn.begun.wall >= w.GridNs(s.index + 1) then s
    else if !turn.roomForRead then s.(halted := true)
    else
      s.(rows := s.rows + [ReadRow(classify, w, s.index, turn.now, prior, s.pending, turn)],
         seen := WithPayload(s.seen, turn.reply), pending := None, index := s.index + 1)
  }

  function Current(w: Window, now: Clock): int { Min(w.bins, (now.wall / NS_PER_MS - w.startMs) / INTERVAL_MS) }

  function OneTurn(classify: Evidence -> Verdict, w: Window, monoEnd: int, s: State, turn: Turn): State {
    var prior, now := s.previous, turn.now;
    var stepped := s.(pending := if Jumps(prior, now) then Some(Step(prior, now)) else s.pending);
    if now.wall < prior.wall || now.mono < prior.mono then stepped.(halted := true)
    else
      var seen := stepped.(previous := now);
      if now.mono >= monoEnd && now.wall < w.EndMs() * NS_PER_MS then seen.(halted := true)
      else if now.wall < w.GridNs(s.index) then seen
      else if Current(w, now) <= s.index then ReadTurn(classify, w, seen, prior, turn)
      else if !turn.roomForMissed then seen.(halted := true)
      else
        ReadTurn(classify, w,
                 seen.(rows := s.rows + [MissedRow(s.index, Current(w, now), seen.pending)], pending := None,
                                    index := Current(w, now)), prior, turn)
  }

  function Turns(classify: Evidence -> Verdict, w: Window, monoEnd: int, first: Clock, turns: seq<Turn>): State {
    if turns == [] then State(0, None, first, [], {}, false)
    else
      var s := Turns(classify, w, monoEnd, first, turns[..|turns| - 1]);
      if s.halted || s.index >= w.bins then s else OneTurn(classify, w, monoEnd, s, turns[|turns| - 1])
  }

  datatype Manifest = Manifest(window: Window, plannedBins: int, recordedBins: int, unrecordedBins: int, complete: bool,
                               sampleRecords: int, uniquePayloads: nat)

  function ManifestOf(w: Window, s: State, reachedEnd: bool): Manifest {
    Manifest(w, w.bins, s.index, w.bins - s.index, s.index == w.bins && reachedEnd, |s.rows|, |s.seen|)
  }

  // ---------------------------------------------------------------- the checker

  predicate GridOk(m: Manifest, row: Row, cursor: int) {
    && row.index == cursor && row.count > 0 && cursor + row.count <= m.plannedBins
    && row.status != Unrecorded && (row.status != Missed ==> row.count == 1)
  }

  predicate ClaimsOk(row: Row, ledger: set<Bytes>) {
    && (row.status != Present ==> !row.verdict.valid && !row.verdict.qualified && row.verdict.eligible == {}
                                  && row.verdict.usable == {} && row.digest.None?)
    && (row.status == Present ==> row.digest.Some?)
    && (row.digest.Some? && row.digest.value !in ledger ==> row.verdict.oversized)
    && (row.step.Some? ==> Sound(row.step.value.before) && Sound(row.step.value.after)
                           && Jumps(row.step.value.before, row.step.value.after))
  }

  /** Every recorded clock flag, recomputed from the recorded clocks alone. */
  predicate ClocksOk(w: Window, row: Row) {
    row.timing.Some? &&
    (var t := row.timing.value;
     && Sound(t.begun) && Sound(t.ended) && Sound(t.grid) && Sound(t.prior)
     && w.GridNs(row.index) <= t.begun.wall < w.GridNs(row.index + 1)
     && t.plannedMs == w.startMs + row.index * INTERVAL_MS
     && t.durationNs == t.ended.mono - t.begun.mono
     && t.lagNs == t.begun.wall - t.plannedMs * NS_PER_MS
     && (t.anomaly <==> row.step.Some? || t.ended.wall < t.begun.wall || t.ended.mono < t.begun.mono
                        || Jumps(t.begun, t.ended) || Jumps(t.prior, t.grid))
     && (t.crossesBin <==> t.ended.wall >= (t.plannedMs + INTERVAL_MS) * NS_PER_MS)
     && (t.crossesEnd <==> t.ended.wall >= w.EndMs() * NS_PER_MS))
  }

  predicate PayloadOk(classify: Evidence -> Verdict, w: Window, row: Row, ledger: set<Bytes>)
    requires row.timing.Some?
  {
    match row.status
    case Present =>
      row.digest.Some? && row.ttl.Some? &&
      (if row.digest.value in ledger then
         var t, raw := row.timing.value, row.digest.value;
         var v := Judged(classify, Evidence(w.startMs, w.EndMs(), raw, row.ttl.value, t.begun, t.ended));
         row.size == |raw| && row.verdict == (if Confined(t) then v else v.(usable := {}))
       else
         row.size > MAX_PAYLOAD_BYTES && !row.verdict.valid && row.verdict.eligible == {} && row.verdict.usable == {})
    case Absent => row.ttl == Some(-2) && row.digest.None?
    case _ => true
  }

  predicate RowOk(classify: Evidence -> Verdict, m: Manifest, row: Row, cursor: int, ledger: set<Bytes>) {
    && GridOk(m, row, cursor) && ClaimsOk(row, ledger)
    && (row.status != Missed ==> ClocksOk(m.window, row) && PayloadOk(classify, m.window, row, ledger))
  }

  predicate ManifestOk(m: Manifest) {
    && m.window.bins > 0 && m.plannedBins == m.window.bins && 0 <= m.recordedBins <= m.plannedBins
    && m.unrecordedBins == m.plannedBins - m.recordedBins
    && (m.complete ==> m.recordedBins == m.plannedBins)
  }

  /** Where a row starts: after all bins of the rows before it. */
  function BinsOf(rows: seq<Row>): int {
    if rows == [] then 0 else BinsOf(rows[..|rows| - 1]) + rows[|rows| - 1].count
  }

  ghost predicate Accepts(classify: Evidence -> Verdict, m: Manifest, rows: seq<Row>, ledger: set<Bytes>) {
    && ManifestOk(m)
    && SmallLedger(ledger)
    && CheckedTo(classify, m, rows, |rows|, ledger)
    && BinsOf(rows) == m.recordedBins && |rows| == m.sampleRecords && |ledger| == m.uniquePayloads
  }

  datatype Tally = Tally(planned: int, present: int, absent: int, error: int, missed: int, unrecorded: int, usable: int,
                         unknown: int)

  const NOTHING_COUNTED: Tally := Tally(0, 0, 0, 0, 0, 0, 0, 0)

  predicate Unknown(row: Row) {
    || row.status in {Error, Missed, Unrecorded}
    || (row.timing.Some? && !Confined(row.timing.value))
    || row.verdict.ambiguous
  }

  function Counted(t: Tally, row: Row, n: int): Tally {
    Tally(t.planned + n, t.present + (if row.status == Present then n else 0),
          t.absent + (if row.status == Absent then n else 0),
          t.error + (if row.status == Error then n else 0), t.missed + (if row.status == Missed then n else 0),
          t.unrecorded + (if row.status == Unrecorded then n else 0), t.usable + n * |row.verdict.usable|,
          t.unknown + (if Unknown(row) then n else 0))
  }

  const UNRECORDED_ROW: Row := Row(0, 1, Unrecorded, None, None, None, None, 0, NO_VERDICT)

  /** Bins of a stretch that lie past the warm-up. */
  function WarmPart(first: int, n: int): int { Max(0, first + n - Max(first, WARM_MS / INTERVAL_MS)) }

  function FullTally(rows: seq<Row>): Tally {
    if rows == [] then NOTHING_COUNTED
    else Counted(FullTally(rows[..|rows| - 1]), rows[|rows| - 1], rows[|rows| - 1].count)
  }

  function WarmTally(rows: seq<Row>): Tally {
    if rows == [] then NOTHING_COUNTED
    else
      var front, last := rows[..|rows| - 1], rows[|rows| - 1];
      Counted(WarmTally(front), last, WarmPart(BinsOf(front), last.count))
  }

  datatype Report = Report(full: Tally, warm: Tally)

  function ReportOf(m: Manifest, rows: seq<Row>): Report {
    Report(Counted(FullTally(rows), UNRECORDED_ROW, m.plannedBins - BinsOf(rows)),
           Counted(WarmTally(rows), UNRECORDED_ROW, WarmPart(BinsOf(rows), m.plannedBins - BinsOf(rows))))
  }

  // ---------------------------------------------------------------- in place

  class ObservationFiles {
    var rows: seq<Row>
    var seen: set<Bytes>

    constructor ()
      ensures rows == [] && seen == {}
    {
      rows, seen := [], {};
    }

    /** A record that no longer fits is refused before anything is written. */
    method Append(row: Row, reply: Reply, room: bool) returns (written: bool)
      modifies this
      ensures written == room
      ensures rows == if room then old(rows) + [row] else old(rows)
      ensures seen == if room then WithPayload(old(seen), reply) else old(seen)
    {
      if !room { return false; }
      if reply.Bytes? && |reply.raw| <= MAX_PAYLOAD_BYTES && reply.raw !in seen { seen := seen + {reply.raw}; }
      rows := rows + [row];
      written := true;
    }
  }

  method Observe(classify: Evidence -> Verdict, w: Window, monoEnd: int, first: Clock, turns: seq<Turn>,
                 reachedEnd: bool)
    returns (m: Manifest, rows: seq<Row>, ledger: set<Bytes>)
    ensures var s := Turns(classify, w, monoEnd, first, turns);
            rows == s.rows && ledger == s.seen && m == ManifestOf(w, s, reachedEnd)
  {
    hide Turns, ReadRow, MissedRow, Jumps, Current;
    var files := new ObservationFiles();
    var index, pending: Option<Step>, previous, halted := 0, None, first, false;
    var i := 0;
    NoTurns(classify, w, monoEnd, first, turns);
    while i < |turns| && index < w.bins && !halted
      invariant 0 <= i <= |turns|
      invariant State(index, pending, previous, files.rows, files.seen, halted)
                  == Turns(classify, w, monoEnd, first, turns[..i])
    {
      var turn := turns[i];
      AnotherTurn(classify, w, monoEnd, first, turns, i);
      i := i + 1;
      var now, prior := turn.now, previous;
      if Jumps(prior, now) { pending := Some(Step(prior, now)); }
      if now.wall < prior.wall || now.mono < prior.mono {
        halted := true;
        continue;
      }
      previous := now;
      if now.mono >= monoEnd && now.wall < w.EndMs() * NS_PER_MS {
        halted := true;
        continue;
      }
      if now.wall < w.GridNs(index) { continue; }
      var current := Current(w, now);
      if current > index {
        var written := files.Append(MissedRow(index, current, pending), Failed, turn.roomForMissed);
        if !written {
          halted := true;
          continue;
        }
        pending, index := None, current;
      }
      if index >= w.bins || turn.begun.wall >= w.GridNs(index + 1) { continue; }
      var written := files.Append(ReadRow(classify, w, index, now, prior, pending, turn), turn.reply, turn.roomForRead);
      if !written {
        halted := true;
        continue;
      }
      pending, index := None, index + 1;
    }
    rows, ledger := files.rows, files.seen;
    m := Manifest(w, w.bins, index, w.bins - index, index == w.bins && reachedEnd, |rows|, |ledger|);
    StoppedStays(classify, w, monoEnd, first, turns, i);
  }

  lemma NoTurns(classify: Evidence -> Verdict, w: Window, monoEnd: int, first: Clock, turns: seq<Turn>)
    ensures Turns(classify, w, monoEnd, first, turns[..0]) == State(0, None, first, [], {}, false)
  {
  }

  lemma AnotherTurn(classify: Evidence -> Verdict, w: Window, monoEnd: int, first: Clock, turns: seq<Turn>, i: nat)
    requires i < |turns|
    ensures var s := Turns(classify, w, monoEnd, first, turns[..i]);
            var t := Turns(classify, w, monoEnd, first, turns[..i + 1]);
            t == if s.halted || s.index >= w.bins then s else OneTurn(classify, w, monoEnd, s, turns[i])
  {
    hide OneTurn;
    assert turns[..i + 1][..i] == turns[..i];
  }

  /** Once halted or full, later turns change nothing. */
  lemma {:induction false} StoppedStays(classify: Evidence -> Verdict, w: Window, monoEnd: int, first: Clock,
                                        turns: seq<Turn>, i: nat)
    requires i <= |turns|
    requires i == |turns| || Turns(classify, w, monoEnd, first, turns[..i]).halted
             || Turns(classify, w, monoEnd, first, turns[..i]).index >= w.bins
    ensures Turns(classify, w, monoEnd, first, turns) == Turns(classify, w, monoEnd, first, turns[..i])
  {
    if i < |turns| {
      var front := turns[..|turns| - 1];
      assert front[..i] == turns[..i];
      StoppedStays(classify, w, monoEnd, first, front, i);
    } else {
      assert turns[..i] == turns;
    }
  }

  ghost predicate CheckedTo(classify: Evidence -> Verdict, m: Manifest, rows: seq<Row>, n: nat, ledger: set<Bytes>)
    requires n <= |rows|
  {
    forall j :: 0 <= j < n ==> RowOk(classify, m, rows[j], BinsOf(rows[..j]), ledger)
  }

  lemma NoRows(classify: Evidence -> Verdict, m: Manifest, rows: seq<Row>, ledger: set<Bytes>)
    ensures BinsOf(rows[..0]) == 0 && FullTally(rows[..0]) == WarmTally(rows[..0]) == NOTHING_COUNTED
    ensures CheckedTo(classify, m, rows, 0, ledger)
  {
  }

  lemma OneMoreRow(classify: Evidence -> Verdict, m: Manifest, rows: seq<Row>, i: nat, ledger: set<Bytes>)
    requires i < |rows| && CheckedTo(classify, m, rows, i, ledger)
    ensures BinsOf(rows[..i + 1]) == BinsOf(rows[..i]) + rows[i].count
    ensures FullTally(rows[..i + 1]) == Counted(FullTally(rows[..i]), rows[i], rows[i].count)
    ensures WarmTally(rows[..i + 1])
         == Counted(WarmTally(rows[..i]), rows[i], WarmPart(BinsOf(rows[..i]), rows[i].count))
    ensures CheckedTo(classify, m, rows, i + 1, ledger) <==> RowOk(classify, m, rows[i], BinsOf(rows[..i]), ledger)
  {
    hide RowOk, Counted;
    assert rows[..i + 1][..i] == rows[..i];
  }

  lemma NotChecked(classify: Evidence -> Verdict, m: Manifest, rows: seq<Row>, n: nat, ledger: set<Bytes>)
    requires n <= |rows| && !CheckedTo(classify, m, rows, n, ledger)
    ensures !Accepts(classify, m, rows, ledger)
  {
    hide RowOk, ManifestOk;
  }

  predicate SmallLedger(ledger: set<Bytes>) { forall raw <- ledger :: |raw| <= MAX_PAYLOAD_BYTES }

  /** Reject, or report the counts of a set of files whose every claim was recomputed. */
  method Analyze(classify: Evidence -> Verdict, m: Manifest, rows: seq<Row>, ledger: set<Bytes>)
    returns (r: Option<Report>)
    ensures r.Some? <==> Accepts(classify, m, rows, ledger)
    ensures r.Some? ==> r.value == ReportOf(m, rows)
  {
    hide RowOk, Counted, ManifestOk, BinsOf, FullTally, WarmTally, WarmPart, CheckedTo;
    if !ManifestOk(m) || !SmallLedger(ledger) { return None; }
    var cursor, full, warm := 0, NOTHING_COUNTED, NOTHING_COUNTED;
    var i := 0;
    NoRows(classify, m, rows, ledger);
    while i < |rows|
      invariant 0 <= i <= |rows| && cursor == BinsOf(rows[..i])
      invariant full == FullTally(rows[..i]) && warm == WarmTally(rows[..i])
      invariant CheckedTo(classify, m, rows, i, ledger)
    {
      OneMoreRow(classify, m, rows, i, ledger);
      if !RowOk(classify, m, rows[i], cursor, ledger) {
        NotChecked(classify, m, rows, i + 1, ledger);
        return None;
      }
      full := Counted(full, rows[i], rows[i].count);
      warm := Counted(warm, rows[i], WarmPart(cursor, rows[i].count));
      cursor := cursor + rows[i].count;
      i := i + 1;
    }
    assert rows[..|rows|] == rows;
    if cursor != m.recordedBins || |rows| != m.sampleRecords || |ledger| != m.uniquePayloads { return None; }
    r := Some(Report(Counted(full, UNRECORDED_ROW, m.plannedBins - cursor),
                     Counted(warm, UNRECORDED_ROW, WarmPart(cursor, m.plannedBins - cursor))));
  }
}
