# Ghost TWAP verification

A Dafny 4.11 model of the forecasting and monitoring pipeline of the price collector, with
proofs of the properties its parts rely on from each other. `dafny verify dfyconfig.toml`
checks everything.

What is modelled, file by file:

| files | what they model |
|---|---|
| `Core`, `Rounding` | shared vocabulary; the two-stage decimal mean |
| `GhostTwap`, `GhostTwapEngine` | the forecast engine, as values and as the class that updates its fields |
| `EngineRuns`, `EngineInvariants`, `DecisionFacts` | what every engine run and every decision keeps |
| `PruneTransparency`, `PrunedDecisions`, `PruneThreshold` | pruning changes no forecast, and the exact policy for which that holds |
| `GhostPayload`, `PayloadAgreement` | the independent parser, read clocks, and producer/parser agreement |
| `AuditRow`, `AuditHistory`, `CompactAgreement` | audit rows, their versions, and agreement with the compactor |
| `RuntimeModel`, `GhostRuntimeObject`, `GhostSpool` | the runtime and the outbox, as values and as classes |
| `RuntimeRuns`, `RuntimeSteps`, `PublicationSteps`, `RuntimeSafety` | atomic steps of reader, calculation, publication and audit workers, and their invariant |
| `PublicationSafety`, `HeardTargets`, `EpochFence`, `CrashSafety`, `Recovery` | the publish/audit protocol over whole runs, crashes and restarts |
| `StaleTargets`, `FeedOvertakes` | what an offered target is newer than, and what it need not be newer than |
| `Accuracy`, `AccuracyMerge`, `AccuracyView`, `Quantiles` | compact records, reversible hourly aggregates, their maintenance and their quantile brackets |
| `Retention`, `Watermark` | the maintenance sweep; runtime, late notes, compaction and monitor reads interleaved |
| `LateTargets`, `LateEvidence` | late evidence on rows the runtime has released, and its safety in those interleavings |
| `Identity`, `Chart` | the order of decision identities; first-publication comparisons |
| `StreamHub`, `StreamExposure`, `StreamFaults` | the fan-out hub, what its clients can ever see, and exactly what they can see after a fault |
| `FlowAggregator`, `FlowRefinement`, `FuturesTrades` | one-second trade flow and the futures last-price feed |
| `Microstructure`, `MicrostructureRuns`, `EventSink` | receipt-ordered one-second rows, loss markers and bounded queues |
| `FeedHealth` | hourly receipt diagnostics |
| `Observer`, `ObserverAgreement` | the bin-grid sampler and the checker of its files |
| `RawPartitions` | collection of raw capture intervals |

Objects of the source are classes whose methods are proved equal to a function of the old
state; the properties are lemmas about those functions and about runs of them. Tasks that
interleave at their suspension points are one atomic step each between those points; clock
readings are an arbitrary sequence that never goes back where a lemma says so.

## Where the code and a plain reading of it differ

Each of these is settled by a pair of lemmas, one with a run that shows the failure and one
with the exact condition.

- Pruning keeps every forecast for all runs of a policy exactly when the history is at least
  60000 ms plus the source age cap plus the carry limit rounded down to whole seconds, unless the
  policy is disabled or holds fewer than three events (`PruneThreshold.ShortHistoryDiverges`,
  `PruneThreshold.ThresholdIsExact`). The default policy satisfies it.
- The compactor insists on an included sequence, so a decision issued before the first
  accepted event can never be compacted; every other finished row can
  (`Recovery.EarlyDecisionNeverCompacts`, `Recovery.EveryEndCompacts`). Such a row keeps every
  later completed window at or before its own hour (`Watermark.StuckRowHoldsTheWindow`).
- After a fault of the hub's pump other than a resubscription the old read can be shown again
  before a usable authoritative reply (`StreamFaults.OldReadIsRepeated`), exactly if the snapshot
  still holds one whose monotonic deadline is not reached, and nothing else can be
  (`StreamFaults.ShownAgainExactly`).
- A usable reply that the hub refuses still ends the doubt after a fault: a new read can follow
  although no reply was adopted (`StreamFaults.RefusedReplyRestoresTrust`), exactly if the hub was
  not already demanding an authoritative read (`StreamFaults.NothingNewExactly`).
- The target of a horizon that is handed over is never the stamp of a causal TWAP event admitted
  before (`StaleTargets.OfferedTargetIsNew`), but it need not lie ahead of the feed: the
  reader may jump past it after the decision was issued (`FeedOvertakes.TargetIsOvertaken`). A running
  runtime tells the two apart by its engine and its queue (`StaleTargets.LeadsFeedExactly`).

## Model

| member | source | states |
|---|---|---|
| Rounding.MeanIsExact | price_collector/ghost_twap.py:494-497 | the 80-digit divide followed by the 18-digit quantize is one half-even rounding of the exact sum over sixty: no double rounding, and within half a quantum of the true mean |
| Rounding.MeanIsBetween | price_collector/ghost_twap.py:494-497 | the mean never leaves the range of the sixty slot values |
| Rounding.NoDoubleRounding | price_collector/ghost_twap.py:494-497 | rounding first to 80 significant digits and then to the price quantum agrees with rounding once, at every scale the sum can have |
| EngineObject.GhostTwapEngine.Accept | price_collector/ghost_twap.py:356-401 | the in-place acceptance leaves exactly the state the run lemmas speak of, including the faulted and rejected outcomes |
| EngineObject.GhostTwapEngine.RecordGap | price_collector/ghost_twap.py:280-322 | a gap's effect on histories, current inputs and reconnect state, and when it raises |
| EngineObject.GhostTwapEngine.ResolveSpotReconnect | price_collector/ghost_twap.py:333-354 | the first spot after a transport gap resumes or clears the retained history exactly as the bounded-resume rule says |
| EngineObject.GhostTwapEngine.PruneAt | price_collector/ghost_twap.py:403-410 | the loop keeps the recent history and the one seed spot before it |
| EngineObject.GhostTwapEngine.Snapshot | price_collector/ghost_twap.py:425-517 | the slot and forecast loops build the decision the agreement lemmas speak of, or refuse on a regressed clock |
| EngineObject.SeedIsNewest | price_collector/ghost_twap.py:403-410 | the seed kept by pruning is the newest spot at or before the cutoff that can still be carried |
| EngineRuns.RunKeepsHighWater | price_collector/ghost_twap.py:380-394 | over every run the high water is the largest causal TWAP stamp ever accepted, across gaps that clear the history, and an unregressed anchor equals it |
| EngineRuns.NoStaleTarget | price_collector/ghost_twap.py:381-392 | every priced forecast aims strictly above every causal TWAP stamp the run ever accepted, and its target was not received |
| EngineInvariants.RunKeepsInv | price_collector/ghost_twap.py:239-423 | inputs, gap markers and retained reconnect evidence stay within the bounds the independent parser will check, over every run |
| DecisionFacts.ForecastIsSound | price_collector/ghost_twap.py:443-505 | a forecast's counts cover its sixty stamps, its price is a legal mean of its slots, its carries are bounded and its reasons fit its quality |
| PruneTransparency.AcceptKeepsRelation | price_collector/ghost_twap.py:356-410 | a pruning engine and one that never prunes stay related through every acceptance |
| PrunedDecisions.SlotsAgree | price_collector/ghost_twap.py:443-462 | related engines give each needed stamp the same slot value, category and carry |
| PrunedDecisions.RunsStayRelated | price_collector/ghost_twap.py:403-410 | the relation holds after any run without capacity loss |
| PrunedDecisions.PruningIsTransparent | price_collector/ghost_twap.py:403-505 | a decision without global reasons has the same slots, inputs, forecasts and deadline as without pruning, for a long history, when no spot was future-dated, or when the capacity leaves no room for a seed beside the two inputs |
| PruneThreshold.ShortHistoryDiverges | price_collector/ghost_twap.py:403-410 | for every shorter history a four-event run prices differently with and without pruning |
| PruneThreshold.ThresholdIsExact | price_collector/ghost_twap.py:403-410 | for every valid policy: transparency for all runs holds if and only if the history reaches the threshold, or the policy is disabled, or it holds fewer than three events |
| GhostPayload.DeadlineCovers | price_collector/ghost_twap_payload.py:184-187 | an input fresh at the decision is within its caps until the deadline |
| GhostPayload.FreshEndToEnd | price_collector/ghost_twap_payload.py:152-161 | a fresh bound read of an accepted payload means both inputs within their source and receipt caps on every clock and an unspent producer budget |
| GhostPayload.FreshExactly | price_collector/ghost_twap_payload.py:152-161 | a read is fresh exactly until the first of its four limits |
| PayloadAgreement.DecisionsAreReadable | price_collector/ghost_twap.py:425-517 | every decision of every run with ordered clocks meets what the parser demands of inputs, gaps and reconnects |
| PayloadAgreement.SentPayloadIsAccepted | price_collector/ghost_twap_payload.py:190-347 | every payload that reaches the Redis attempt passes every structural, mask, reconnect and deadline check of the independent parser |
| CompactAgreement.MaskShape | price_collector/ghost_twap_runtime.py:765-790 | a horizon is eligible exactly if no exclusion reason applies, and eligible and excluded partition the horizons in order |
| CompactAgreement.BeginKeepsRow | price_collector/ghost_twap_runtime.py:805-832 | taking up a decision for publication keeps the row's evidence consistent |
| CompactAgreement.AttemptKeepsRow | price_collector/ghost_twap_runtime.py:833-868 | a payload is handed over only with a millisecond to live, stamped with the attempt and masked against the targets received meanwhile |
| CompactAgreement.FinishKeepsRow | price_collector/ghost_twap_runtime.py:868-885 | whatever the reply, recorded leads are the ones the compactor recomputes |
| CompactAgreement.ObserveKeepsInv | price_collector/ghost_twap_runtime.py:452-529 | observing a target changes targets and version only and keeps first match, window, conflict and lead evidence consistent |
| CompactAgreement.TerminalRowsCompact | price_collector/ghost_twap_accuracy.py:89-217 | a finished row passes every compactor check exactly when it has an included sequence and 120 seconds have passed |
| AuditHistory.ObservedTargetMoves | price_collector/ghost_twap_store.py:134-186 | a target's first match, ended wait and recorded flags never change again |
| AuditHistory.SweptEvolves | price_collector/ghost_twap_runtime.py:721-730 | timeouts, shutdown and restart marks only move rows forward |
| RuntimeObject.ObserveTargets | price_collector/ghost_twap_runtime.py:452-529 | the loop over six targets is the observation the invariants speak of |
| RuntimeObject.SelectPublication | price_collector/ghost_twap_runtime.py:765-790 | the masking loop yields the wire and the verdict of the mask lemmas |
| RuntimeObject.PrepareAttempt | price_collector/ghost_twap_runtime.py:833-868 | the code between the outbox write and the Redis call, branch by branch |
| RuntimeObject.GhostRuntime.OfferGap | price_collector/ghost_twap_runtime.py:385-402 | a gap offer ends waits, raises the epoch and leaves a well-formed runtime |
| RuntimeObject.GhostRuntime.OfferPrice | price_collector/ghost_twap_runtime.py:404-446 | a price offer observes targets, refuses regressed clocks and overflows with an explicit gap |
| RuntimeObject.GhostRuntime.DrainInputs | price_collector/ghost_twap_runtime.py:531-563 | the loop empties the queue into the engine in order, or stops on its fault |
| RuntimeObject.GhostRuntime.Issue | price_collector/ghost_twap_runtime.py:659-719 | issuing coalesces the previous pending decision and reserves the new one, or stops |
| RuntimeObject.GhostRuntime.BeginPublication | price_collector/ghost_twap_runtime.py:805-832 | up to the outbox write, with every guard that preempts |
| RuntimeObject.GhostRuntime.AttemptPublication | price_collector/ghost_twap_runtime.py:833-868 | after the outbox write: guards again, mask again, then the bytes |
| RuntimeObject.GhostRuntime.FinishPublication | price_collector/ghost_twap_runtime.py:868-885 | acknowledgement, failure and cancellation each leave their own status and leads |
| RuntimeObject.GhostRuntime.PopAudited | price_collector/ghost_twap_runtime.py:900-945 | which row leaves memory, and only when its saved version is its latest |
| RuntimeObject.GhostRuntime.ResumeIfCaughtUp | price_collector/ghost_twap_runtime.py:363-384 | all suspensions end together, once nothing is dirty or being published |
| RuntimeObject.GhostRuntime.CloseNow | price_collector/ghost_twap_runtime.py:1021-1024 | closing raises the epoch and withdraws the pending publication |
| RuntimeObject.GhostRuntime.ShutNow | price_collector/ghost_twap_runtime.py:1039-1053 | once the workers are quiet the inputs are drained and every row ends unmatched |
| GhostSpool.Spool.Write | price_collector/ghost_twap_spool.py:75-90 | a newer version replaces, an older is ignored, a different row of the same version is refused, and a full outbox refuses new rows only |
| GhostSpool.Spool.Remove | price_collector/ghost_twap_spool.py:108-115 | only the exact version is unlinked |
| GhostSpool.LaterWritesSucceed | price_collector/ghost_twap_store.py:134-186 | writing any version of one row's history never conflicts in outbox or store |
| RuntimeSteps.OfferPriceKeeps | price_collector/ghost_twap_runtime.py:404-446 | price offers keep the runtime invariant at any clock |
| RuntimeSteps.DrainKeeps | price_collector/ghost_twap_runtime.py:531-563 | draining keeps engine order and row invariants |
| RuntimeSteps.IssueKeeps | price_collector/ghost_twap_runtime.py:659-719 | issuing keeps the invariant and only readable decisions become rows |
| PublicationSteps.BeginKeeps | price_collector/ghost_twap_runtime.py:805-832 | an intent is staged with the bytes its row records |
| PublicationSteps.AttemptKeeps | price_collector/ghost_twap_runtime.py:833-868 | an attempt keeps the invariant whatever gap or suspension came between |
| PublicationSteps.ReplyKeeps | price_collector/ghost_twap_runtime.py:868-885 | so does its reply |
| RuntimeSafety.StepKeepsOk | price_collector/ghost_twap_runtime.py:150-163 | every atomic step of every worker keeps the runtime invariant, and only the attempt step hands anything over |
| PublicationSafety.PublicationIsSafe | price_collector/ghost_twap_runtime.py:744-885 | after any run: hand-overs in strictly rising decision order, each accepted by the parser, after its outbox write, in its own epoch, and offering only horizons of the recorded intent with no target received |
| HeardTargets.NothingHeardIsOffered | price_collector/ghost_twap_runtime.py:404-446 | when a decision is handed over, no step since it was issued offered the runtime a TWAP event with the target stamp of a horizon the payload offers, whether that event was admitted, refused or overflowed |
| HeardTargets.OfferBars | price_collector/ghost_twap_runtime.py:404-446 | a TWAP offer with a target stamp leaves each held row with that target masked at the horizon, or fenced for good by the epoch, a stop or the close |
| StaleTargets.OfferedTargetIsNew | price_collector/ghost_twap_runtime.py:404-446 | in a run without input overflow the target of an offered horizon is the stamp of no causal TWAP event admitted at any earlier step, and lies above every one admitted before the decision was issued |
| StaleTargets.LeadsFeedExactly | price_collector/ghost_twap.py:380-394 | a target lies above every causal TWAP stamp admitted so far if and only if neither the engine nor the queue holds one at or beyond it |
| FeedOvertakes.TargetIsOvertaken | price_collector/ghost_twap_runtime.py:833-868 | a concrete run without overflow hands over a horizon although an event stamped past its target was admitted after the issue |
| EpochFence.FencesRaise | price_collector/ghost_twap_runtime.py:335-402 | a gap offer, a new suspension and the close each raise the epoch |
| EpochFence.NeverAcrossAFence | price_collector/ghost_twap_runtime.py:744-764 | a decision not yet handed over when the epoch rises is never handed over |
| CrashSafety.PoppedIsStored | price_collector/ghost_twap_runtime.py:900-945 | a row leaves memory only when the store holds its final terminal version |
| CrashSafety.StepKeepsDurable | price_collector/ghost_twap_runtime.py:900-945 | in every interleaving outbox, store and memory hold versions of one history per decision |
| CrashSafety.CrashLosesNothing | price_collector/ghost_twap_spool.py:60-90 | stop any run anywhere: every decision ever handed over is in the outbox or the store as issued, and every issued decision is in memory or finished |
| Recovery.Start | price_collector/ghost_twap_runtime.py:225-267 | the two recovery loops empty the outbox and end in the recovered store |
| Recovery.RecoveredRowsAreDone | price_collector/ghost_twap_runtime.py:269-293 | recovery makes every surviving row terminal and never lowers a version |
| Recovery.RecoveryIsIdempotent | price_collector/ghost_twap_runtime.py:225-293 | crash recovery part-way, any number of times and in any order, and a complete pass still ends in the same store |
| Recovery.EveryEndCompacts | price_collector/ghost_twap_accuracy.py:89-217 | after any run or crash, every finished or recovered row passes the compactor exactly if it had an included sequence |
| Recovery.EarlyDecisionNeverCompacts | price_collector/ghost_twap_accuracy.py:141 | a run whose finished decision the compactor refuses for good |
| LateTargets.NoteTargets | price_collector/ghost_twap_store.py:447-475 | the loop notes first late or conflicting evidence on a stored row and raises its version once if anything was noted |
| LateTargets.NoteIsIdempotent | price_collector/ghost_twap_runtime.py:946-965 | forwarding the same event again changes nothing |
| LateTargets.NoteKeepsRow | price_collector/ghost_twap_store.py:447-475 | the noted row still meets everything the compactor checks |
| LateTargets.NoteCommutesWithCompaction | price_collector/ghost_twap_retention.py:269-309 | noting on the stored row before compaction and annotating the compact record after it end in the same record |
| LateTargets.StepKeepsOwned | price_collector/ghost_twap_runtime.py:900-945 | over every step each outbox file belongs to a row in memory, so a released row has no file left |
| LateEvidence.LateNotesAreSafe | price_collector/ghost_twap_runtime.py:946-971 | in every interleaving of runtime, late notes, compaction and monitor: the next persist succeeds, a restart conflicts with nothing and finds no file of a compacted row, and each released row is finished and passes the compactor exactly if it had an included sequence and 120 seconds have passed |
| LateEvidence.LateEvidenceStays | price_collector/ghost_twap_store.py:447-475 | a row that left memory stays out of it, and what the store holds of it only gains evidence |
| LateEvidence.NotedEndCompacts | price_collector/ghost_twap_retention.py:231-311 | what a restart recovers after a crash at any point still passes the compactor under the same condition, whatever late events are noted on it |
| Accuracy.CompactedIsValid | price_collector/ghost_twap_accuracy.py:89-217 | what passed the compactor satisfies all that the aggregates need |
| Accuracy.AnnotateTarget | price_collector/ghost_twap_accuracy.py:229-257 | anything but a legal, causal TWAP event is refused; the loop records first late or conflicting evidence only, and reports None exactly when nothing changed |
| AccuracyMerge.MergeMetric | price_collector/ghost_twap_accuracy.py:389-415 | the loops return the signed combination exactly if no count, reason or bin underflows and both histograms match the scored count |
| AccuracyMerge.MergeAggregate | price_collector/ghost_twap_accuracy.py:417-433 | the group loop merges all groups or, on one failed check, nothing; the result is the merge the view lemmas are about |
| AccuracyView.AddKeepsView | price_collector/ghost_twap_accuracy.py:417-433 | adding a record's contribution extends the hour's sums by exactly that record |
| AccuracyView.SubtractKeepsView | price_collector/ghost_twap_accuracy.py:417-433 | subtracting a present record never trips an underflow, histogram or empty-group check and leaves the sums of the others |
| AccuracyView.ViewIsUnique | price_collector/ghost_twap_accuracy.py:417-433 | two aggregates that sum the same records are equal, groups and histograms included |
| AccuracyView.FoldIsView | price_collector/ghost_twap_accuracy.py:301-386 | folding contributions in any order succeeds and sums exactly the records |
| AccuracyView.AggregatesAreFolds | price_collector/ghost_twap_retention.py:274-289 | after any sequence of compactions and late annotations no check has failed and each hour equals the plain fold over its current records, in any order |
| Quantiles.QuantileBracket | price_collector/ghost_twap_accuracy.py:436-447 | the bucket returned is the first whose running total reaches the nearest rank, and a proportion of at most one finds one exactly if the histogram is not empty |
| Quantiles.TotalsCount | price_collector/ghost_twap_accuracy.py:384-385 | running totals of the histogram count the values of the buckets so far |
| Quantiles.QuantileIsBracketed | price_collector/ghost_twap_accuracy.py:436-447 | the rank-th smallest value lies within the bounds reported for that bucket |
| Retention.GhostRetention.Maintenance | price_collector/ghost_twap_retention.py:173-229 | the sweep over one batch, with its cursor, failures and early ends |
| Retention.NothingIsPassedOver | price_collector/ghost_twap_retention.py:186-229 | a pass examines no owned or deferred row, and every wanted row up to the cursor it leaves |
| Retention.EveryRoundExaminesAll | price_collector/ghost_twap_retention.py:173-229 | over a round of passes, whatever is inserted, fails or times out meanwhile, no row that stays eligible is missed |
| Retention.FailuresStayBounded | price_collector/ghost_twap_retention.py:205-224 | the memory of failures holds one entry a row and never more than its cap |
| Watermark.CompletedWindowIsComplete | price_collector/ghost_twap_monitor.py:145-208 | in every interleaving of runtime, late notes, compaction and monitor reads each decision created before the reported window end is counted in the hourly rows read, and no row the runtime holds may be compacted or noted on |
| Watermark.StuckRowHoldsTheWindow | price_collector/ghost_twap_monitor.py:145-208 | a stored decision without an included sequence is never compacted, and no window the monitor completes from then on reaches past the hour it was created in |
| Chart.ComposeComparison | price_collector/ghost_twap_chart.py:90-159 | the loops yield, for each horizon, the panel of the first publications |
| Chart.SelectionIsFirst | price_collector/ghost_twap_chart.py:105-131 | the chosen publication of a target is the earliest acknowledged offer of it, by acknowledgement time and identity |
| Identity.BeforeIsTotal | price_collector/ghost_twap_chart.py:120-131 | decision identities are ordered by their decimal text, and different ones always one way |
| Identity.TenComesBeforeNine | price_collector/ghost_twap_runtime.py:666 | that order is not the numeric one |
| Chart.SelectionIsOutcomeBlind | price_collector/ghost_twap_chart.py:105-131 | reorder the rows and change anything that happened to their targets, and the same publications are chosen |
| Chart.AnnotationsKeepOffers | price_collector/ghost_twap_accuracy.py:229-257 | late and conflicting evidence never changes what a record offers to the selection |
| Chart.PairedIsScored | price_collector/ghost_twap_chart.py:36-87 | a paired point is one the hourly accuracy scores as early, with the same two errors |
| Chart.PanelsBalance | price_collector/ghost_twap_chart.py:133-151 | every selected target is paired or unpaired, flags and error sums run over exactly the points |
| StreamHub.GhostStreamHub.AcceptRead | price_collector/ghost_twap_stream.py:237-273 | identity, conflict and freshness rules of an offered read, and when it raises |
| StreamHub.GhostStreamHub.ExpireNow | price_collector/ghost_twap_stream.py:167-172 | an expired read is withdrawn with a new generation of nothing |
| StreamHub.GhostStreamHub.BeatNow | price_collector/ghost_twap_stream.py:195-208 | a heartbeat first expires the snapshot, and repeats it under its original bound only if it did not expire |
| StreamHub.GhostStreamHub.NextDelivery | price_collector/ghost_twap_stream.py:80-95 | a client's one-slot queue, its skip counter and the re-check on delivery |
| StreamExposure.ExposureIsOrdered | price_collector/ghost_twap_stream.py:159-273 | each generation shows one producer run with growing identities and one byte string per identity; a conflicted identity is not shown again and a deadline never moves later while the run is unchanged |
| StreamExposure.NothingNewAfterAFault | price_collector/ghost_twap_stream.py:204-374 | after a subscriber fault nothing new is shown before a usable authoritative read |
| StreamExposure.ResubscriptionShowsNothing | price_collector/ghost_twap_stream.py:275-316 | after a resubscription acknowledgement nothing at all is shown until then |
| StreamFaults.FenceIsReached | price_collector/ghost_twap_stream.py:159-374 | the conditions the fault lemmas start from hold after every run from the start |
| StreamFaults.LostOnlyRepeats | price_collector/ghost_twap_stream.py:204-374 | while no usable reply has come since the fault every update repeats the read held then, or shows none |
| StreamFaults.ShownAgainExactly | price_collector/ghost_twap_stream.py:195-374 | after any run that leaves a fault unanswered, some continuation without a usable reply, on a clock that never goes back, shows a read if and only if the snapshot still holds one whose monotonic deadline is not reached, and none shows a new one |
| StreamFaults.OldReadIsRepeated | price_collector/ghost_twap_stream.py:318-374 | a run from the start, with a payload the parser accepts, that shows the old read after a fault and before any reply |
| StreamFaults.NothingNewExactly | price_collector/ghost_twap_stream.py:237-374 | in every reachable state, no continuation without an adopted reply shows a new read if and only if the hub already demands an authoritative one, on steady clocks as on arbitrary ones |
| StreamFaults.RefusedReplyRestoresTrust | price_collector/ghost_twap_stream.py:237-273 | a run from the start that shows a new read after a fault although the only reply since was refused as older |
| StreamFaults.SampleIsAccepted | price_collector/ghost_twap_payload.py:190-347 | the payloads of those two runs pass the parser |
| StreamExposure.ClientSeesRisingNumbers | price_collector/ghost_twap_stream.py:59-95 | a client receives strictly increasing sequence numbers whatever else happens |
| FlowAggregator.Aggregator.Offer | price_collector/binance_futures_streams.py:713-731 | a trade enters its own second's bucket unless that second was already flushed |
| FlowAggregator.Aggregator.Flush | price_collector/binance_futures_streams.py:733-774 | the flush loop emits every second up to the last ready one, empty seconds included |
| FlowRefinement.FoldSummarises | price_collector/binance_futures_streams.py:364-415 | a folded bucket's counts, sums and extremes are those of its second's trades, and extremes are attained |
| FlowRefinement.FoldTotals | price_collector/binance_futures_streams.py:380-415 | its base volumes and trade count are the sums over the trades of its second, and its latest times are attained maxima |
| FlowRefinement.AggregationIsFold | price_collector/binance_futures_streams.py:703-838 | emitted seconds are consecutive, no bucket at or before the last flushed one survives, and the cumulative, ten- and thirty-second deltas are the sums over all, ten and thirty samples |
| FlowRefinement.EachTradeOnce | price_collector/binance_futures_streams.py:713-774 | each accepted trade is counted in one place only |
| FuturesTrades.FuturesTradeState.UpdateWs | price_collector/binance_futures_streams.py:130-179 | accept, duplicate, regression and identifier gap, each with its own counters |
| FuturesTrades.FuturesTradeState.FreshCurrent | price_collector/binance_futures_streams.py:181-196 | the latest item is given out only while its own connection is current and its receipt recent |
| FuturesTrades.FuturesTradeState.ConnectionClosed | price_collector/binance_futures_streams.py:117-121 | only the end of the current connection ends it |
| FuturesTrades.IdsAddUp | price_collector/binance_futures_streams.py:130-179 | accepted plus missing is the span of identifiers, missing is the number never accepted of it, and messages are accepted, duplicates and regressions |
| Microstructure.FinalizeBoundary | price_collector/binance_microstructure.py:1240-1279 | the two popping loops, the stale mark and the snapshot of one boundary |
| Microstructure.StagePendingEvent | price_collector/binance_microstructure_collector.py:870-894 | a late event is dropped with a gap at the moment it was seen, any other joins the pending order |
| Microstructure.CollectorState.ApplyEvent | price_collector/binance_microstructure.py:932-955 | trades, sockets and errors on totals and health |
| MicrostructureRuns.SortedIsPermutation | price_collector/binance_microstructure_collector.py:870-894 | the pending order is the accepted events rearranged by receipt |
| MicrostructureRuns.RunsAreCausal | price_collector/binance_microstructure_collector.py:919-998 | rows are consecutive seconds, each holds exactly the trades received within it, and a dropped event keeps the next five rows unhealthy |
| MicrostructureRuns.EachEventOnce | price_collector/binance_microstructure_collector.py:919-998 | an accepted event is in the window of exactly one second, as often as it was accepted |
| MicrostructureRuns.NothingVanishes | price_collector/binance_microstructure_collector.py:870-917 | what was staged is what was accepted and what was dropped |
| MicrostructureRuns.GapsAreVisible | price_collector/binance_microstructure.py:805-811 | a loss marker or closed socket keeps every row ending within five seconds of it unhealthy |
| MicrostructureRuns.FirstRowIsUnhealthy | price_collector/binance_microstructure.py:1068-1074 | a first, partial second is never called healthy |
| MicrostructureRuns.TalliesSummarise | price_collector/binance_microstructure.py:389-461 | the interval's average price lies between its attained extremes, flows sum to the turnover, hidden flow is part of its side and the mean lag is below the largest |
| MicrostructureRuns.TalliesRemember | price_collector/binance_microstructure.py:446-461 | the remembered price and receipt are those of the newest trade, the largest lag is attained, and hidden flow is known exactly if every trade reports it |
| EventSink.MicrostructureEventSink.Offer | price_collector/binance_microstructure.py:1164-1177 | an owed marker first, then the event, each only if the queue has room |
| EventSink.LossesAreMarked | price_collector/binance_microstructure.py:1145-1177 | no ordinary event enters after a loss before its marker, markers carry the first loss's receipt, and the worker receives everything that entered in rising sequence |
| EventSink.HistoryIsNewest | price_collector/binance_microstructure_collector.py:606-637 | the history queue always holds the newest rows without a hole, and while it has room the row being written is the one before them |
| EventSink.EnqueueFinalizedRow | price_collector/binance_microstructure_collector.py:606-637 | at capacity the oldest queued row makes room, and is the one returned |
| EventSink.RequeueInflightRow | price_collector/binance_microstructure_collector.py:640-658 | a cancelled row goes behind the others unless the queue is full |
| EventSink.CancelledRowLosesNothingNewer | price_collector/binance_microstructure_collector.py:1126-1159 | once no row is finished any more, giving a cancelled row back leaves exactly the newest rows in the queue, and it is dropped only if the queue is full |
| FeedHealth.GhostFeedHealth.Hour | price_collector/ghost_twap_health.py:20-37 | the filling and evicting loops of one roll |
| FeedHealth.GhostFeedHealth.Observe | price_collector/ghost_twap_health.py:46-76 | gap, hole, late, duplicate and future counters of one receipt |
| FeedHealth.HoursAreAccounted | price_collector/ghost_twap_health.py:20-37 | retained hours are one unbroken block of at most 49, and evicted, skipped and retained add up to all hours since the first, whatever the clock does |
| FeedHealth.GapTimeFits | price_collector/ghost_twap_health.py:46-61 | gap time charged to all retained hours fits into the time that passed between receipts |
| Observer.Observe | price_collector/ghost_twap_observer.py:362-449 | the sampling loop, with every missed, skipped, failed and refused bin |
| Observer.Analyze | price_collector/ghost_twap_observer.py:454-580 | the checking loop accepts exactly the files whose every claim recomputes, and reports their counts |
| ObserverAgreement.CheckerAcceptsWriter | price_collector/ghost_twap_observer.py:362-570 | for any clocks and any replies or errors the checker accepts what the sampler wrote: rows partition the recorded bins and every flag recomputes |
| ObserverAgreement.EveryBinIsCounted | price_collector/ghost_twap_observer.py:487-580 | an accepted set of files counts each planned bin exactly once, over the hour and past the warm-up |
| ObserverAgreement.UsableIsConfined | price_collector/ghost_twap_observer.py:540-566 | a usable horizon was read within its own bin on steady clocks and is what the classifier says of exactly those bytes |
| RawPartitions.GroupingKeepsBytes | price_collector/db.py:374-383 | grouping tables by interval loses no bytes |
| RawPartitions.MaintainRawCapturePartitions | price_collector/db.py:325-428 | what is dropped is an oldest-first prefix of finished intervals, what is reported is the weight of the rest, and storage is refused only when every finished interval is gone |
| RawPartitions.PlanIsUnique | price_collector/db.py:384-416 | retention and budget determine one amount to drop: not one interval fewer or more |

## Left out

- PayloadAgreement.SentPayloadIsAccepted: does not model JSON text, regular expressions, 63-bit
  integer bounds or text lengths; identifiers are printable and bounded, digests are identities.
- Rounding.MeanIsExact: prices are positive integers below the price limit on the 1e-18 grid.
- PublicationSafety.PublicationIsSafe: assumes clock readings that never go back, as do the other
  lemmas that take a `Timely` run; regressed readings are handled by the engine and the guards,
  whose branches are modelled, but not by these theorems.
- HeardTargets.NothingHeardIsOffered: speaks of offers since the decision was issued;
  `StaleTargets.OfferedTargetIsNew` covers the earlier ones.
- StaleTargets.OfferedTargetIsNew: speaks of runs without an input overflow, which discards queued
  events; a future-dated stamp is not a target that was met. That an offered target lies above stamps
  admitted after the issue is false (`FeedOvertakes.TargetIsOvertaken`).
- RuntimeObject.GhostRuntime.OfferPrice: 63-bit and ascii admission bounds, feed health and the
  queue of late target events are left out; a full queue is a given fact, and what forwarding an event
  does is modelled in `LateTargets` and `Watermark`.
- RuntimeObject.GhostRuntime.ResumeIfCaughtUp: guard age and capacity, pending late events and the
  campaign file, which also hold a resumption back, are left out.
- CrashSafety.CrashLosesNothing: one process from an empty store; `Recovery` covers the next
  start. Outbox writes are atomic replacements; fsync, directory locks and disk errors inside one
  write are one success-or-failure step.
- Recovery.Start: the checks of campaign clocks are left out, and the branch that reconciles a file
  with an already compacted row; by `LateEvidence.LateNotesAreSafe` no crash leaves such a file.
- Recovery.EveryEndCompacts: late-target updates are not steps of its runs; the same condition is
  proved with them in `LateEvidence.LateNotesAreSafe` and `LateEvidence.NotedEndCompacts`.
- Recovery.RecoveryIsIdempotent: the branch that reconciles a file with an already compacted row
  is not modelled.
- LateEvidence.LateNotesAreSafe: one process, and rows of its own; any event may be forwarded at any
  time the audit task rests, as often as it likes.
- Accuracy.AnnotateTarget: the hash of the record is not modelled.
- AccuracyView.AggregatesAreFolds: sums and basis-point ratios are exact reals; the source rounds
  each ratio at 80 digits before adding at 256. Hash compare-and-set commits are atomic steps.
- Watermark.CompletedWindowIsComplete: expiry of compact records and hourly rows is not a move,
  and all decisions belong to one process.
- Retention.GhostRetention.Maintenance: the expiry call is left out and the time budget is the number
  of rows that fit into it.
- Retention.EveryRoundExaminesAll: the candidate query is its ordered result; rows in it are
  whatever the table holds at that pass.
- Chart.ComposeComparison: takes rows whose hashes, sizes and identities were already checked;
  means are kept as a sum and a count.
- StreamExposure.NothingNewAfterAFault: the stronger reading, nothing at all, is false for faults
  other than a resubscription; `StreamFaults.ShownAgainExactly` gives the exact condition.
- MicrostructureRuns.RunsAreCausal: one worker without restart; an event that fails to parse
  restarts the worker and is not modelled.
- MicrostructureRuns.TalliesSummarise: prices and quantities are exact reals; the decimal context's
  28 digits are not modelled.
- Microstructure.CollectorState.ApplyEvent: depth, liquidation and context events change nothing.
- Microstructure.FinalizeBoundary: books, liquidations and context enter as one verdict per row.
- Observer.Observe: the readiness read, the byte-cap arithmetic and the final wait are inputs.
- Observer.Analyze: minute buckets, per-horizon counters, latencies and file hashes are left out.
- ObserverAgreement.CheckerAcceptsWriter: a read does not begin before its own turn's first
  reading and readings fit 63 bits; the classifier of payloads is any function of the bytes, the
  time-to-live and the clocks. Replies are bytes or absent, or the read fails.
- RawPartitions.MaintainRawCapturePartitions: creation of partitions and the statements that drop
  them are steps that succeed.
- Operational warnings, baselines and status composition of the accuracy report.
- Campaign checkpoints, disk and process guards, and supervision of the runtime's tasks; stops and
  suspensions are modelled by their effect on admission, epoch and publication.
- The queue of late target events with its bound, cursors and time budget.
- Book ticker samples and rolling-window display fields of the futures streams.
- Merge rules of market resolutions and all display serialisers in `db.py`.
- Network, database, file and HTTP calls themselves, and liveness: nothing says that a step is
  eventually taken.
