/**
 The publication epoch as a fence: a decision issued before a gap, a suspension or the
 close of the runtime is never handed to Redis after it.
 */
module EpochFence {
  import opened Core
  import opened GhostTwap
  import opened GhostPayload
  import opened AuditRow
  import opened AuditHistory
  import opened RuntimeModel
  import opened GhostSpool
  import opened RuntimeRuns
  import opened RuntimeSteps
  import opened PublicationSteps
  import opened RuntimeSafety
  import opened PublicationSafety

  lemma FencesRaise(rt: Runtime, feed: Feed, reason: string, at: Stamp, scope: Scope)
    requires Formed(rt)
    ensures !rt.closed ==> OfferGap(rt, feed, reason, at).epoch > rt.epoch
    ensures !rt.stopped && scope !in rt.suspended ==> Suspend(rt, scope).epoch > rt.epoch
    ensures !rt.closed ==> Close(rt).epoch > rt.epoch
  {
    hide SweptRows, SweptDirty;
  }

  /** One entry more, made in the epoch the step began and ended in. */
  ghost predicate LogsOne(w: World, a: World) {
    && |a.attempts| == |w.attempts| + 1 && a.attempts[..|w.attempts|] == w.attempts
    && a.attempts[|w.attempts|].epoch == w.rt.epoch && a.rt.epoch == w.rt.epoch
  }

  /** Origins are never rewritten, and a new log entry carries the epoch it was made in. */
  lemma StepHistory(w: World, step: Step)
    requires WorldOk(w) && Ordered(w.now, Readings(step))
    ensures Formed(w.rt)
    ensures var a := Apply(w, step);
            && w.rt.epoch <= a.rt.epoch
            && (forall id :: id in w.issued ==> id in a.issued && a.issued[id] == w.issued[id])
            && (a.attempts == w.attempts || LogsOne(w, a))
  {
    hide RtOk, LogOk, StepShape, PublicationMovesOn, ActOffer, ActWork, ActAudit;
    OkIsFormed(w.rt, w.now);
    StepKeepsOk(w, step);
    ShapeEpoch(w.rt, Apply(w, step).rt);
    match step
    case Offered(_) =>
    case Worked(work) =>
      assert OriginsOk(w.rt, w.issued) by { LogParts(w); }
      WorkHistory(w, work);
    case Audited(audit) => AuditorMoves(w, audit);
  }

  lemma LogParts(w: World)
    requires LogOk(w)
    ensures OriginsOk(w.rt, w.issued)
    ensures forall i :: 0 <= i < |w.attempts| ==> SafeAttempt(w.attempts[i], w.issued)
  {
    hide SafeAttempt;
  }

  lemma ShapeEpoch(rt: Runtime, after: Runtime)
    requires StepShape(rt, after)
    ensures rt.epoch <= after.epoch
  {
    hide Evolves;
  }

  lemma WorkHistory(w: World, work: Work)
    requires RtOk(w.rt, w.now) && Ordered(w.now, WorkReadings(work)) && OriginsOk(w.rt, w.issued)
    ensures Formed(w.rt)
    ensures var a := ActWork(w, work);
            && (forall id :: id in w.issued ==> id in a.issued && a.issued[id] == w.issued[id])
            && (a.attempts == w.attempts || LogsOne(w, a))
  {
    hide RtOk, OriginsOk, Moved, TryAttempt, PublicationMovesOn;
    OkIsFormed(w.rt, w.now);
    WorkKeepsOk(w, work);
    if work.AttemptWork? {
      AttemptIsAttempted(w, work);
      AttemptEntry(w, work.verdict, work.checked, work.at);
    } else {
      WorkOrigins(w, work);
    }
  }

  lemma AttemptEntry(w: World, verdict: Verdict, checked: Stamp, at: Stamp)
    requires RtOk(w.rt, w.now) && w.now.NotAfter(checked) && checked.NotAfter(at)
    ensures Formed(w.rt)
    ensures var a := Attempted(w, verdict, checked, at);
            a.issued == w.issued && (a.attempts == w.attempts || LogsOne(w, a))
  {
    hide TryAttempt, ReceivedTargets, RtOk;
    OkIsFormed(w.rt, w.now);
    SendingKeepsEpoch(w.rt, verdict, w.now, checked, at);
  }

  lemma SendingKeepsEpoch(rt: Runtime, verdict: Verdict, now: Stamp, checked: Stamp, at: Stamp)
    requires RtOk(rt, now) && now.NotAfter(checked)
    ensures Formed(rt)
    ensures TryAttempt(rt, verdict, checked, at).1.Some? ==> TryAttempt(rt, verdict, checked, at).0.epoch == rt.epoch
  {
    hide RtOk, Publishable, Mask, WorthPublishing, TtlMs, Quiet;
    OkIsFormed(rt, now);
    LaterOk(rt, now, checked);
    if rt.publishing.Spooled? { PublishableKeeps(rt, rt.publishing.id, checked, verdict); }
  }

  predicate HandedOver(attempts: seq<Attempt>, id: int) {
    exists i | 0 <= i < |attempts| :: attempts[i].id == id
  }

  /** The run is at `n` of its steps. */
  function At(start: World, steps: seq<Step>, n: nat): World
    requires Formed(start.rt) && n <= |steps|
  {
    Run(start, steps[..n])
  }

  lemma AtStep(start: World, steps: seq<Step>, n: nat)
    requires Formed(start.rt) && n < |steps| && Timely(start, steps) && WorldOk(start)
    ensures Formed(At(start, steps, n).rt) && WorldOk(At(start, steps, n))
    ensures Ordered(At(start, steps, n).now, Readings(steps[n]))
    ensures At(start, steps, n + 1) == Apply(At(start, steps, n), steps[n])
  {
    hide WorldOk, Apply;
    TimelyPrefix(start, steps, n + 1);
    assert steps[..n + 1][..n] == steps[..n];
    RunKeepsWorld(start, steps[..n]);
  }

  lemma {:induction false} TimelyPrefix(start: World, steps: seq<Step>, n: nat)
    requires Formed(start.rt) && n <= |steps| && Timely(start, steps)
    ensures Timely(start, steps[..n])
    decreases |steps|
  {
    hide Apply;
    if n < |steps| {
      assert steps[..|steps| - 1][..n] == steps[..n];
      TimelyPrefix(start, steps[..|steps| - 1], n);
    } else {
      assert steps[..n] == steps;
    }
  }

  lemma {:induction false} HistoryGrows(start: World, steps: seq<Step>, m: nat, n: nat)
    requires Formed(start.rt) && m <= n <= |steps| && Timely(start, steps) && WorldOk(start)
    ensures At(start, steps, m).rt.epoch <= At(start, steps, n).rt.epoch
    ensures forall id :: id in At(start, steps, m).issued ==>
              id in At(start, steps, n).issued && At(start, steps, n).issued[id] == At(start, steps, m).issued[id]
    decreases n
  {
    hide WorldOk, Apply, At;
    if m < n {
      HistoryGrows(start, steps, m, n - 1);
      AtStep(start, steps, n - 1);
      StepHistory(At(start, steps, n - 1), steps[n - 1]);
    }
  }

  lemma OriginEpoch(w: World, id: int)
    requires WorldOk(w) && id in w.issued
    ensures w.issued[id].epoch <= w.rt.epoch
  {
    hide RtOk, SafeAttempt;
  }

  lemma EntryEpoch(w: World, i: int)
    requires WorldOk(w) && 0 <= i < |w.attempts|
    ensures w.attempts[i].id in w.issued && w.attempts[i].epoch == w.issued[w.attempts[i].id].epoch
  {
    hide RtOk, Accepts, WireMatches;
    assert SafeAttempt(w.attempts[i], w.issued);
  }

  /**
   A decision issued by step `issued` and not handed over when step `fence` raises the
   epoch (a gap offer, a new suspension or the close) is not handed over by any later step.
   */
  lemma {:induction false} NeverAcrossAFence(start: World, steps: seq<Step>, issued: nat, fence: nat, n: nat, id: int)
    requires Formed(start.rt) && Timely(start, steps) && WorldOk(start)
    requires issued <= fence < n <= |steps|
    requires id in At(start, steps, issued).issued && !HandedOver(At(start, steps, fence).attempts, id)
    requires At(start, steps, fence).rt.epoch < At(start, steps, fence + 1).rt.epoch
    ensures !HandedOver(At(start, steps, n).attempts, id)
    decreases n
  {
    hide WorldOk, Apply, At, Formed, Timely;
    if fence + 1 < n { NeverAcrossAFence(start, steps, issued, fence, n - 1, id); }
    var w, a := At(start, steps, n - 1), At(start, steps, n);
    AtStep(start, steps, n - 1);
    StepHistory(w, steps[n - 1]);
    if fence + 1 < n && LogsOne(w, a) {
      assert WorldOk(a) by { StepKeepsWorld(w, steps[n - 1]); }
      assert issued <= n && fence + 1 <= n - 1;
      HistoryGrows(start, steps, issued, fence);
      HistoryGrows(start, steps, issued, n);
      HistoryGrows(start, steps, fence + 1, n - 1);
      WorldAt(start, steps, issued);
      OriginEpoch(At(start, steps, issued), id);
      EntryEpoch(a, |w.attempts|);
      AnotherDecision(w, a, id);
    }
  }

  lemma AnotherDecision(w: World, a: World, id: int)
    requires LogsOne(w, a) && !HandedOver(w.attempts, id) && a.attempts[|w.attempts|].id != id
    ensures !HandedOver(a.attempts, id)
  {
    forall i | 0 <= i < |a.attempts| ensures a.attempts[i].id != id {
      if i < |w.attempts| { assert a.attempts[i] == w.attempts[i]; }
    }
  }

  lemma WorldAt(start: World, steps: seq<Step>, n: nat)
    requires Formed(start.rt) && n <= |steps| && Timely(start, steps) && WorldOk(start)
    ensures WorldOk(At(start, steps, n))
  {
    hide WorldOk, Apply;
    TimelyPrefix(start, steps, n);
    RunKeepsWorld(start, steps[..n]);
  }
}
