/** Whatever the sampler wrote, the checker accepts, and its counts cover the grid exactly once. */
module ObserverAgreement {
  import opened Core
  import opened Observer

  /** The clock readings of one turn are representable, and a read does not start before its turn. */
  predicate Readable(t: Turn) {
    Sound(t.now) && Sound(t.begun) && Sound(t.ended) && t.now.wall <= t.begun.wall
  }

  ghost predicate AllReadable(turns: seq<Turn>) { forall i :: 0 <= i < |turns| ==> Readable(turns[i]) }

  function Planned(w: Window): Manifest { Manifest(w, w.bins, 0, 0, false, 0, 0) }

  ghost predicate RowsOk(classify: Evidence -> Verdict, w: Window, rows: seq<Row>, ledger: set<Bytes>) {
    forall i :: 0 <= i < |rows| ==> RowOk(classify, Planned(w), rows[i], BinsOf(rows[..i]), ledger)
  }

  predicate Proven(step: Option<Step>) {
    step.Some? ==> Sound(step.value.before) && Sound(step.value.after) && Jumps(step.value.before, step.value.after)
  }

  ghost predicate Inv(classify: Evidence -> Verdict, w: Window, s: State) {
    && 0 <= s.index <= w.bins && BinsOf(s.rows) == s.index && Sound(s.previous) && Proven(s.pending)
    && SmallLedger(s.seen)
    && RowsOk(classify, w, s.rows, s.seen) && Sized(s.rows)
  }

  lemma LedgerGrows(classify: Evidence -> Verdict, m: Manifest, row: Row, cursor: int, ledger: set<Bytes>,
                    more: set<Bytes>)
    requires RowOk(classify, m, row, cursor, ledger) && ledger <= more && SmallLedger(more)
    requires row.digest.Some? ==> row.size == |row.digest.value|
    ensures RowOk(classify, m, row, cursor, more)
  {
    hide ClocksOk, GridOk, Judged;
  }

  ghost predicate Sized(rows: seq<Row>) {
    forall i :: 0 <= i < |rows| ==> (rows[i].digest.Some? ==> rows[i].size == |rows[i].digest.value|)
  }

  lemma AppendKeepsRows(classify: Evidence -> Verdict, w: Window, rows: seq<Row>, row: Row, ledger: set<Bytes>,
                        more: set<Bytes>)
    requires RowsOk(classify, w, rows, ledger) && Sized(rows) && ledger <= more && SmallLedger(more)
    requires RowOk(classify, Planned(w), row, BinsOf(rows), more)
    ensures RowsOk(classify, w, rows + [row], more) && BinsOf(rows + [row]) == BinsOf(rows) + row.count
  {
    hide RowOk;
    var all := rows + [row];
    assert all[..|rows|] == rows;
    forall i | 0 <= i < |all|
      ensures RowOk(classify, Planned(w), all[i], BinsOf(all[..i]), more)
    {
      if i < |rows| {
        assert all[..i] == rows[..i];
        LedgerGrows(classify, Planned(w), rows[i], BinsOf(rows[..i]), ledger, more);
      }
    }
  }

  lemma MissedRowOk(classify: Evidence -> Verdict, w: Window, index: int, current: int, step: Option<Step>,
                    ledger: set<Bytes>)
    requires 0 <= index < current <= w.bins && Proven(step)
    ensures RowOk(classify, Planned(w), MissedRow(index, current, step), index, ledger)
  {
  }

  lemma ReadClocksOk(classify: Evidence -> Verdict, w: Window, index: int, prior: Clock, step: Option<Step>, turn: Turn)
    requires Readable(turn) && Sound(prior)
    requires w.GridNs(index) <= turn.now.wall && turn.begun.wall < w.GridNs(index + 1)
    ensures ClocksOk(w, ReadRow(classify, w, index, turn.now, prior, step, turn))
  {
  }

  lemma ReadPayloadOk(classify: Evidence -> Verdict, w: Window, index: int, prior: Clock, step: Option<Step>,
                      turn: Turn,
                      ledger: set<Bytes>)
    requires Proven(step) && SmallLedger(ledger)
    requires turn.reply.Bytes? && |turn.reply.raw| <= MAX_PAYLOAD_BYTES ==> turn.reply.raw in ledger
    ensures var row := ReadRow(classify, w, index, turn.now, prior, step, turn);
            row.timing.Some? && ClaimsOk(row, ledger) && PayloadOk(classify, w, row, ledger)
            && (row.digest.Some? ==> row.size == |row.digest.value|)
  {
    hide TimingOf, Confined, Jumps;
    TimingClocks(w, index, turn.now, prior, step, turn.begun, turn.ended);
  }

  lemma TimingClocks(w: Window, index: int, now: Clock, prior: Clock, step: Option<Step>, begun: Clock, ended: Clock)
    ensures TimingOf(w, index, now, prior, step, begun, ended).begun == begun
    ensures TimingOf(w, index, now, prior, step, begun, ended).ended == ended
  {
  }

  lemma CurrentIsStarted(w: Window, now: Clock, index: int)
    requires index <= (now.wall / NS_PER_MS - w.startMs) / INTERVAL_MS
    ensures w.GridNs(index) <= now.wall
  {
    assert index * INTERVAL_MS <= now.wall / NS_PER_MS - w.startMs;
    assert now.wall / NS_PER_MS * NS_PER_MS <= now.wall;
  }

  lemma PayloadsStaySmall(seen: set<Bytes>, reply: Reply)
    requires SmallLedger(seen)
    ensures SmallLedger(WithPayload(seen, reply)) && seen <= WithPayload(seen, reply)
    ensures reply.Bytes? && |reply.raw| <= MAX_PAYLOAD_BYTES ==> reply.raw in WithPayload(seen, reply)
  {
  }

  lemma RowsStaySized(rows: seq<Row>, row: Row)
    requires Sized(rows) && (row.digest.Some? ==> row.size == |row.digest.value|)
    ensures Sized(rows + [row])
  {
  }

  lemma ReadRowOk(classify: Evidence -> Verdict, w: Window, index: int, prior: Clock, step: Option<Step>, turn: Turn,
                  more: set<Bytes>)
    requires 0 <= index < w.bins
    requires var row := ReadRow(classify, w, index, turn.now, prior, step, turn);
             row.timing.Some? && ClocksOk(w, row) && ClaimsOk(row, more) && PayloadOk(classify, w, row, more)
    ensures var row := ReadRow(classify, w, index, turn.now, prior, step, turn);
            RowOk(classify, Planned(w), row, index, more) && row.count == 1
  {
    hide TimingOf, Judged, ClocksOk, ClaimsOk, PayloadOk;
  }

  lemma ReadTurnKeepsInv(classify: Evidence -> Verdict, w: Window, s: State, prior: Clock, turn: Turn)
    requires Inv(classify, w, s) && Readable(turn) && Sound(prior)
    requires s.index < w.bins ==> w.GridNs(s.index) <= turn.now.wall
    ensures Inv(classify, w, ReadTurn(classify, w, s, prior, turn))
  {
    hide ReadRow, RowsOk, RowOk, ClaimsOk, ClocksOk, PayloadOk, SmallLedger, Sized, BinsOf, WithPayload, Readable,
         Sound;
    if s.index < w.bins && turn.begun.wall < w.GridNs(s.index + 1) && turn.roomForRead {
      var row := ReadRow(classify, w, s.index, turn.now, prior, s.pending, turn);
      var more := WithPayload(s.seen, turn.reply);
      PayloadsStaySmall(s.seen, turn.reply);
      ReadClocksOk(classify, w, s.index, prior, s.pending, turn);
      ReadPayloadOk(classify, w, s.index, prior, s.pending, turn, more);
      ReadRowOk(classify, w, s.index, prior, s.pending, turn, more);
      AppendKeepsRows(classify, w, s.rows, row, s.seen, more);
      RowsStaySized(s.rows, row);
    }
  }

  lemma MissedKeepsInv(classify: Evidence -> Verdict, w: Window, s: State, current: int)
    requires Inv(classify, w, s) && s.index < current <= w.bins
    ensures Inv(classify, w,
                s.(rows := s.rows + [MissedRow(s.index, current, s.pending)], pending := None, index := current))
  {
    hide RowsOk, RowOk, SmallLedger, Sized, BinsOf, Sound;
    var row := MissedRow(s.index, current, s.pending);
    MissedRowOk(classify, w, s.index, current, s.pending, s.seen);
    AppendKeepsRows(classify, w, s.rows, row, s.seen, s.seen);
    RowsStaySized(s.rows, row);
  }

  /** The clock bookkeeping at the head of a turn. */
  function Stepped(s: State, now: Clock): State {
    s.(pending := if Jumps(s.previous, now) then Some(Step(s.previous, now)) else s.pending)
  }

  lemma HeadKeepsInv(classify: Evidence -> Verdict, w: Window, s: State, now: Clock)
    requires Inv(classify, w, s) && Sound(now)
    ensures Inv(classify, w, Stepped(s, now)) && Inv(classify, w, Stepped(s, now).(previous := now))
  {
    hide RowsOk, SmallLedger, Sized, BinsOf;
  }

  lemma HaltKeepsInv(classify: Evidence -> Verdict, w: Window, s: State)
    requires Inv(classify, w, s)
    ensures Inv(classify, w, s.(halted := true))
  {
    hide RowsOk, SmallLedger, Sized, BinsOf;
  }

  lemma InvFacts(classify: Evidence -> Verdict, w: Window, s: State)
    requires Inv(classify, w, s)
    ensures Sound(s.previous)
  {
  }

  lemma TurnKeepsInv(classify: Evidence -> Verdict, w: Window, monoEnd: int, s: State, turn: Turn)
    requires Inv(classify, w, s) && Readable(turn) && s.index < w.bins
    ensures Inv(classify, w, OneTurn(classify, w, monoEnd, s, turn))
  {
    hide ReadTurn, Inv, Jumps, MissedRow;
    var prior, now := s.previous, turn.now;
    InvFacts(classify, w, s);
    HeadKeepsInv(classify, w, s, now);
    var seen := Stepped(s, now).(previous := now);
    HaltKeepsInv(classify, w, Stepped(s, now));
    HaltKeepsInv(classify, w, seen);
    if now.wall >= w.GridNs(s.index) {
      var current := Current(w, now);
      if current <= s.index {
        ReadTurnKeepsInv(classify, w, seen, prior, turn);
      } else {
        MissedKeepsInv(classify, w, seen, current);
        CurrentIsStarted(w, now, current);
        ReadTurnKeepsInv(classify, w,
                         seen.(rows := s.rows + [MissedRow(s.index, current, seen.pending)], pending := None,
                                            index := current), prior, turn);
      }
    }
  }

  lemma {:induction false} TurnsKeepInv(classify: Evidence -> Verdict, w: Window, monoEnd: int, first: Clock,
                                        turns: seq<Turn>)
    requires Sound(first) && AllReadable(turns)
    ensures var s := Turns(classify, w, monoEnd, first, turns); Inv(classify, w, s)
  {
    hide OneTurn, RowOk;
    if turns != [] {
      var front := turns[..|turns| - 1];
      TurnsKeepInv(classify, w, monoEnd, first, front);
      var s := Turns(classify, w, monoEnd, first, front);
      if !s.halted && s.index < w.bins { TurnKeepsInv(classify, w, monoEnd, s, turns[|turns| - 1]); }
    }
  }

  /**
   For any clock readings and any replies or read errors, the checker accepts what was written:
   the rows partition the recorded bins and every recomputed claim matches.
   */
  lemma CheckerAcceptsWriter(classify: Evidence -> Verdict, w: Window, monoEnd: int, first: Clock, turns: seq<Turn>,
                             reachedEnd: bool)
    requires w.bins > 0 && Sound(first) && AllReadable(turns)
    ensures var s := Turns(classify, w, monoEnd, first, turns);
            Accepts(classify, ManifestOf(w, s, reachedEnd), s.rows, s.seen)
  {
    hide Turns, ClaimsOk, ClocksOk, PayloadOk;
    TurnsKeepInv(classify, w, monoEnd, first, turns);
    var s := Turns(classify, w, monoEnd, first, turns);
    var m := ManifestOf(w, s, reachedEnd);
    forall i | 0 <= i < |s.rows|
      ensures RowOk(classify, m, s.rows[i], BinsOf(s.rows[..i]), s.seen)
    {
      assert RowOk(classify, Planned(w), s.rows[i], BinsOf(s.rows[..i]), s.seen);
    }
  }

  // ---------------------------------------------------------------- what acceptance means

  predicate Whole(t: Tally, planned: int) {
    t.planned == planned == t.present + t.absent + t.error + t.missed + t.unrecorded
  }

  lemma CountedStaysWhole(t: Tally, row: Row, n: int, planned: int)
    requires Whole(t, planned)
    ensures Whole(Counted(t, row, n), planned + n)
  {
  }

  lemma {:induction false} TalliesAreWhole(rows: seq<Row>)
    requires forall i :: 0 <= i < |rows| ==> rows[i].count > 0
    ensures BinsOf(rows) >= 0 && Whole(FullTally(rows), BinsOf(rows))
    ensures Whole(WarmTally(rows), Max(0, BinsOf(rows) - WARM_MS / INTERVAL_MS))
  {
    hide Counted, Whole;
    if rows == [] {
      NothingIsWhole();
    } else {
      var front, last := rows[..|rows| - 1], rows[|rows| - 1];
      TalliesAreWhole(front);
      CountedStaysWhole(FullTally(front), last, last.count, BinsOf(front));
      CountedStaysWhole(WarmTally(front), last, WarmPart(BinsOf(front), last.count),
                        Max(0, BinsOf(front) - WARM_MS / INTERVAL_MS));
    }
  }

  lemma NothingIsWhole()
    ensures Whole(NOTHING_COUNTED, 0)
  {
  }

  /** An accepted set of files counts each planned bin exactly once, over the hour and past the warm-up. */
  lemma EveryBinIsCounted(classify: Evidence -> Verdict, m: Manifest, rows: seq<Row>, ledger: set<Bytes>)
    requires Accepts(classify, m, rows, ledger)
    ensures var r := ReportOf(m, rows);
            && Whole(r.full, m.plannedBins) && r.full.unrecorded == FullTally(rows).unrecorded + m.unrecordedBins
            && Whole(r.warm, Max(0, m.plannedBins - WARM_MS / INTERVAL_MS))
  {
    hide FullTally, WarmTally, ClaimsOk, ClocksOk, PayloadOk, Whole, BinsOf;
    assert CheckedTo(classify, m, rows, |rows|, ledger);
    forall i | 0 <= i < |rows|
      ensures rows[i].count > 0
    {
      assert RowOk(classify, m, rows[i], BinsOf(rows[..i]), ledger);
    }
    TalliesAreWhole(rows);
    var rest := m.plannedBins - BinsOf(rows);
    CountedStaysWhole(FullTally(rows), UNRECORDED_ROW, rest, BinsOf(rows));
    CountedStaysWhole(WarmTally(rows), UNRECORDED_ROW, WarmPart(BinsOf(rows), rest),
                      Max(0, BinsOf(rows) - WARM_MS / INTERVAL_MS));
  }

  /**
   A horizon an accepted row calls usable was read inside its own bin on steady clocks, and
   is what the classifier says of exactly those bytes.
   */
  lemma UsableIsConfined(classify: Evidence -> Verdict, m: Manifest, row: Row, cursor: int, ledger: set<Bytes>, h: int)
    requires RowOk(classify, m, row, cursor, ledger) && SmallLedger(ledger) && h in row.verdict.usable
    ensures row.status == Present && row.timing.Some? && row.digest.Some? && row.digest.value in ledger && row.ttl.Some?
    ensures var t := row.timing.value;
            && m.window.GridNs(cursor) <= t.begun.wall <= t.ended.wall < m.window.GridNs(cursor + 1)
            && t.ended.wall < m.window.EndMs() * NS_PER_MS
            && t.begun.mono <= t.ended.mono && !Jumps(t.begun, t.ended) && !Jumps(t.prior, t.grid) && row.step.None?
            && h in Judged(classify,
                           Evidence(m.window.startMs, m.window.EndMs(), row.digest.value, row.ttl.value, t.begun,
                                    t.ended)).usable
  {
    hide Judged, Jumps;
    var t := row.timing.value;
    assert ClocksOk(m.window, row);
    assert !t.anomaly && !t.crossesBin && !t.crossesEnd;
  }
}
