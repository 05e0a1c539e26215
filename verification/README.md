# Verified model of the collection pipeline

A collector on an operator's machine watches a recommendation feed, inspects authors, judges them with a three-valued
hard filter and sends what it observed to a server, which stores it once, judges it again and keeps candidates, runs,
screenshots, members and devices. These modules model that pipeline in Dafny and prove what it is supposed to guarantee.

| area | modules |
|---|---|
| Exactly-once delivery of observations, honest progress, conservation | `Delivery` (the steps), `ExactlyOnce` (the invariant), `ServerSteps`, `CollectorSteps`, `DeliveryTheorems`, `UnsyncedRuns`, `CollectionLimits`, `Collecting`, `Continuations`, `Progress`, `SpentRuns`, `UncleanStarts`, `FlushLoop` |
| Local queue, collect loop, server tables, runs | `IngestionQueue`, `CollectLoop`, `Ingestion`, `DerivedTables`, `RowOwners`, `RunLifecycle` |
| Hard filter and its three evaluations | `HardFilter`, `FilterByNumbers`, `ProfileEvidence`, `ObservedCreators`, `RuleEvaluations`, `Agreement` |
| Page recovery | `RecoveryController`, `Recovery`, `RecoveryEscalation`, `RecoveryLoop` |
| Screenshots | `Media`, `MediaWorkers` |
| Sequential cores | `Csv`, `Pagination`, `CandidateWorkflow`, `RotatingLog`, `Members` |
| Shared facts about sequences and filters | `Basics` |

Delivery, recovery and screenshots are state machines with one step per disk write, message, statement or storage call,
because what they guarantee is about crashes and interleavings; the loops that drive them (`FlushLoop`, `RecoveryLoop`,
`MediaWorkers`) are methods proved to be runs of those machines, with everybody else free to act between two statements.
Everything that updates fields or rows in place is a class whose methods are proved against a function of the old state.
What the code leaves to the outside (a page check, an inspection, a reply, a random number, the clock, a crash) is a
parameter or an arbitrary step.

How to read some of the results:

- In `Delivery`, all messages ever sent stay in the world's message sets: delivering one late, twice or never is loss,
  delay and repetition. Expired idempotency keys may vanish at any time.
- A batch that a server rejects, or that its run no longer accepts, stays pending; that is what "still in the checkpoint
  or stored once" allows.
- A start checks the queue and the memory, not the other runs' files. When the writes of a cleared checkpoint fail, the
  file of that run still holds a batch the server has, and another run may be started over it. Then two runs can come to
  have batches the server has neither of, and a kill can leave a collector that refuses to start anything
  (`UncleanStarts`). A start is safe from that if and only if no other file has a pending batch, or the run started is
  one that cannot go on, so that the loop ends at its first report. `ExactlyOnceDelivery` holds either way.
- A report and its answer are one step: the loop does nothing while it waits. An answer that never arrives is a report
  that failed and may still be delivered later.
- The clock does not run backwards while a run is collecting. The last two steps of a start, the server's and the
  file's, commute with what others do in between, so a start needs a run that is running here at that moment.
- Progress statements are about runs that no other device owns, since another device may report what it likes.
- The third restart attempt within an hour opens the circuit (apps/collector/src/recovery-controller.ts:132), so at
  most two restarts per hour are admitted; refused attempts count too. The recovery state belongs to one run's
  checkpoint, and so does the guarantee.
- The metadata of a signed upload is fixed by its signature (packages/domain/src/media/object-storage.ts:164-179).
- The exporter prefixes cells that could be formulas, so the CSV round trip returns the sanitised cells.

## Model

| member | source | states |
|---|---|---|
| `DeliveryTheorems.ExactlyOnceDelivery` | apps/collector/src/runtime.ts:1260-1319 | In every reachable state, under lost, late and repeated messages, retries and kills between any two writes, the observation of any batch ever written to a checkpoint file is stored at most once; it is still pending in that file or stored exactly once, and its row and posts hold what was saved. |
| `DeliveryTheorems.SavedIsStoredOnce` | packages/domain/src/ingestion/collector-ingestion.ts:182-202 | The same in any single state that keeps the invariant. |
| `DeliveryTheorems.NothingInvented` | packages/domain/src/ingestion/collector-ingestion.ts:211-297 | A row under an id this collector generated reproduces a batch that some checkpoint file held. |
| `DeliveryTheorems.QueueHoldsThePendingBatch` | apps/collector/src/ingestion-queue.ts:60-84 | The queue directory never holds more than one record, and that record is the pending batch of a checkpoint file. |
| `DeliveryTheorems.FlushNeverFindsQueueEmpty` | apps/collector/src/runtime.ts:1260-1282 | The `empty` answer of the queue cannot occur during a flush, so an unsent batch is never taken for delivered. |
| `DeliveryTheorems.ClearedIsStored` | apps/collector/src/runtime.ts:1315-1318 | When the collector forgets its pending batch, the observation is stored exactly once. |
| `UnsyncedRuns.AtMostOneRunUnsynced` | apps/collector/src/runtime.ts:329-335 | If every start was taken while no other run's checkpoint file had a pending batch, then at all times, whatever writes failed, at most one run has unsynchronised data on disk. |
| `UncleanStarts.StartIsSafeExactlyWhenClean` | apps/collector/src/runtime.ts:329-335 | The exact condition at the call: after clean starts only, and for a run running on this device that may be started now, at most one run stays unsynchronised in every continuation with clean starts if and only if no other run's file has a pending batch at this start, or the run cannot go on: its next report is bound to be refused or to complete it. |
| `UncleanStarts.UncleanStartBreaks` | apps/collector/src/runtime.ts:329-335 | A start over another run's leftover, of a run that can go on, can be continued to two pending files. |
| `SpentRuns.StaysAtMostOne` | apps/collector/src/runtime.ts:452-466 | A start over a leftover of a run that cannot go on keeps at most one run unsynchronised for as long as later starts are clean: the loop ends at its first report with nothing built. |
| `SpentRuns.SpentForGood` | packages/domain/src/campaigns/run-service.ts:212-239 | A run that cannot go on from some progress never can again, whatever anybody does on the server and however long one waits. |
| `UncleanStarts.UncleanStartLosesTrack` | apps/collector/src/runtime.ts:329-335 | When both runs are running on this device and can go on, such a start can be continued to two files whose batches the server has neither of. |
| `UncleanStarts.FailedClearing` | apps/collector/src/runtime.ts:371-384 | Such a start is reachable: it is enough that the writes of a cleared checkpoint fail. |
| `UncleanStarts.TwoRunsCanBeUnsynced` | apps/collector/src/runtime.ts:329-335 | A behaviour that ends with unsynchronised data of two runs, none of it stored. |
| `UncleanStarts.UncleanStartCanWedge` | apps/collector/src/runtime.ts:329-335 | A start over a leftover, of a run that can go on, can be continued to a collector that can start nothing: a killed process comes back with one run while the queue holds the other one's batch. |
| `UncleanStarts.CollectorCanWedge` | apps/collector/src/runtime.ts:188-206 | A behaviour that ends there, with no run at all that may be started. |
| `UncleanStarts.WedgeHolds` | apps/collector/src/runtime.ts:188-206 | As long as each restart picks up the same run, that lasts whatever else happens, and the queued batch is never stored. |
| `DeliveryTheorems.LoopNeverOverwritesUnsynced` | apps/collector/src/runtime.ts:1315-1318 | Whenever the loop moved past the pending batch in its run's file, the server has that batch already; failed writes included. |
| `DeliveryTheorems.HonestProgress` | apps/collector/src/runtime.ts:448-466 | At all times a run no other device owns has committed at most as many candidates as it has stored observations the server itself passes, and the creator of each of those is a passing candidate of the campaign. |
| `DeliveryTheorems.CompletedRunsReachedTheirTarget` | packages/domain/src/campaigns/run-service.ts:505-553 | A run completed with `target_candidates` really has at least that many stored passing observations. |
| `DeliveryTheorems.ReportsClaimStoredPasses` | apps/collector/src/runtime.ts:448-466 | A report is sent only with nothing pending, and no report, however late it arrives, claims more passes than are stored. |
| `CollectionLimits.NeverCollectsPastStop` | apps/collector/src/runtime.ts:452-466 | In every reachable state, in memory and in every file, no counter has gone past its limit, and while the loop looks for an item the progress meets no stop condition: nothing is built for a run that the server's answer completed. |
| `CollectionLimits.CompletedRunsHitTheirLimit` | packages/domain/src/campaigns/run-service.ts:505-553 | A run no other device owns that completed on its candidates, feed items or creator profiles committed exactly the limit, never more. |
| `Collecting.OnlyStartableRunsStart` | apps/collector/src/runtime.ts:322-397 | A start is tried only for a run that is not over and is this device's or nobody's, while nothing of another run waits in the queue or in memory; the loop begins only if it is running here, and goes on where the run's file left off. |
| `Collecting.StartableRunsStart` | apps/collector/src/runtime.ts:322-397 | Conversely each such run can be tried, and one that is running here set going. |
| `Collecting.CollectsForItsOwnRun` | apps/collector/src/runtime.ts:329-397 | At every moment of collecting the run at hand belongs to this device. |
| `Collecting.ReportDecides` | apps/collector/src/runtime.ts:452-466 | A report below every limit lets the loop go on; one that reaches a limit completes the run for the first limit reached and ends the loop. |
| `Collecting.TimeIsUp` | apps/collector/src/runtime.ts:440-466 | Once the clock shows sixty seconds for each of the run's minutes, three steps complete it at that time. |
| `Collecting.SkipIsSaved` | apps/collector/src/runtime.ts:548-629 | An item without a batch is saved with its counters, and the loop is at its top again. |
| `DeliveryTheorems.CheckpointsConserve` | apps/collector/src/runtime.ts:509-709 | In every checkpoint file of every reachable state seen lists have no repeats, counters move with them, and counted creators are transient skips plus low-confidence skips plus batches ever saved for the run. |
| `DeliveryTheorems.RepliesAreProcessed` | apps/collector/src/ingestion-queue.ts:129-137 | The per-result writes of an acknowledgement add up to recording all its results. |
| `DeliveryTheorems.RecordRemovedLikeProcessNext` | apps/collector/src/ingestion-queue.ts:103-148 | The separate disk writes of the delivery system end in the queue that one undisturbed `processNext` leaves, with success in the same cases. |
| `DeliveryTheorems.MemoryConserves` | apps/collector/src/runtime.ts:509-709 | The same conservation law for the checkpoint in memory at every point where the process can be suspended or killed; a batch built but not yet saved counts as one more. |
| `Progress.DeliveryCanFinish` | apps/collector/src/runtime.ts:1260-1319 | After clean starts, from every phase, idle or killed: if the server would take the outstanding batch now, at most fourteen steps store it and free the checkpoint, in memory and on disk. |
| `Progress.FromSending` | apps/collector/src/runtime.ts:1260-1319 | From a queued batch about to be sent, eight steps of an undisturbed exchange do that, clean starts or not. |
| `Progress.TakenNow` | packages/domain/src/ingestion/collector-ingestion.ts:91-140 | A run that is running on the device and an observation that is stored already, or well addressed under a free id, are all the server asks for; a stored one is stored no second time. |
| `FlushLoop.Collector.FlushPending` | apps/collector/src/runtime.ts:1260-1319 | The flush loop, screenshot upload with its retries included, with everybody else acting between its statements, is a run of the delivery system; on success the batch is stored exactly once and only the pending batch left the checkpoint, on a stop the checkpoint is unchanged; unanswered attempts alone never end it. |
| `FlushLoop.Collector.UploadScreenshot` | apps/collector/src/runtime.ts:1288-1314 | The upload is tried until it is up, refused, or the run is stopped; the pending batch stays until then. |
| `FlushLoop.Collector.TakeIn` | apps/collector/src/ingestion-queue.ts:129-148 | Result by result recording, removal, the rejection check and clearing end in success only with the batch stored, and otherwise leave the checkpoint as it was. |
| `ServerSteps.ServerStepKeeps` | packages/domain/src/ingestion/collector-ingestion.ts:82-141 | Deliveries, late reports, other devices, other users, key expiry and other workspaces all keep the delivery invariant. |
| `ServerSteps.SameVerdict` | apps/collector/src/runtime.ts:662-671 | Collector and server reach the same outcome on the same observation. |
| `CollectorSteps.ProcessStepKeeps` | apps/collector/src/runtime.ts:314-397 | Start, failed start, stop, kill, restart, and successful or failed checkpoint writes keep the delivery invariant. |
| `CollectorSteps.LoopStepKeeps` | apps/collector/src/runtime.ts:434-710 | Elapsed time, reports, skips and new batches keep the delivery invariant. |
| `CollectorSteps.FlushStepKeeps` | apps/collector/src/runtime.ts:1260-1319 | Every step of a flush keeps the delivery invariant. |
| `IngestionQueue.PersistentIngestionQueue.Enqueue` | apps/collector/src/ingestion-queue.ts:60-84 | Adds a record in creation order unless one with the key exists; the same batch returns the old id, another batch under the key is an error and changes nothing. |
| `IngestionQueue.PersistentIngestionQueue.ProcessNext` | apps/collector/src/ingestion-queue.ts:103-148 | Only the oldest record is tried, and only when due. A network failure or a 5xx answer reschedules it, one attempt more, by the delay in seconds of its attempts; any other error, and a reply about another batch or observation, ends the flush with the record as it was; a reply that covers its batch removes it. |
| `IngestionQueue.RetryDelayDoubles` | apps/collector/src/ingestion-queue.ts:115-122 | The wait starts at 1 000 ms, doubles per failed attempt and stays capped at 60 000 ms. |
| `IngestionQueue.RetryDelayByNumbers` | apps/collector/src/ingestion-queue.ts:115-122 | 1, 2, 4, 8, 16, 32 and from then on 60 seconds. |
| `IngestionQueue.RecordLeavesOnlyWhenAnswered` | apps/collector/src/ingestion-queue.ts:126-148 | A record is removed when its reply answers all of its batch, otherwise only if earlier partial replies were recorded; nothing behind it is touched. |
| `IngestionQueue.EnqueueIsIdempotent` | apps/collector/src/ingestion-queue.ts:60-84 | Handing in a queued batch again leaves one record in order; a key never names two batches. |
| `IngestionQueue.InsertedKeepsOrder` | apps/collector/src/ingestion-queue.ts:163-177 | Records stay listed by creation time. |
| `Ingestion.IngestionStore.IngestCollectorBatch` | packages/domain/src/ingestion/collector-ingestion.ts:82-141 | Row by row the transaction computes `Ingest`; said on the fields as well: another protocol major version, another device's batch, a run the device does not own and one that is not running are refused in this order, and whatever is refused changes nothing. Otherwise the new rows are of that run and device, the key row keeps the acknowledgement, and a repeated key gets it back or is refused for another batch. |
| `RowOwners.RowsComeFromOwners` | packages/domain/src/ingestion/collector-ingestion.ts:143-164 | In every reachable state, whoever sent what and when: each stored observation came from the device that owns its run. |
| `RowOwners.OnlyTheOwnerIsTaken` | packages/domain/src/ingestion/collector-ingestion.ts:82-141 | A batch is taken only for a running run, from the device that owns it, and adds rows of that device and run only. |
| `Ingestion.IngestionStore.IngestCreatorObservation` | packages/domain/src/ingestion/collector-ingestion.ts:182-338 | One observation: duplicate and rejected ids store nothing, others update creator, source, posts and candidate in order, and the rule evaluations of a candidate get one row per rule. |
| `Ingestion.IngestionStore.FindOrCreateCandidate` | packages/domain/src/ingestion/collector-ingestion.ts:340-392 | A pass creates the row, a later observation re-points it and bumps its version, and the stored status never changes. |
| `Ingestion.IngestionStore.FindOrCreateCreator` | packages/domain/src/ingestion/collector-ingestion.ts:394-436 | A new creator gets the address and the time of the observation; of a known one the times widen to include it and the address becomes its address, and no other creator changes. |
| `Ingestion.IngestionStore.FindOrCreatePost` | packages/domain/src/ingestion/collector-ingestion.ts:438-481 | Post times widen likewise, the address follows and the author stays; one row with the likes and dates of this observation is added; a foreign address is refused. |
| `DerivedTables.IngestKeepsInvariant` | packages/domain/src/ingestion/collector-ingestion.ts:91-140 | Every committed batch keeps the derived tables equal to functions of the base rows (times are minima and maxima, a creator's address is that of the last row, source counts are row counts, candidates exist exactly for passing pairs, point at the last one and have one version per observation since), only adds, and is answered truthfully. |
| `DerivedTables.IngestObservationKeeps` | packages/domain/src/ingestion/collector-ingestion.ts:182-338 | The same for one observation, which is stored or foreign afterwards. |
| `DerivedTables.ResendChangesNothing` | packages/domain/src/ingestion/collector-ingestion.ts:94-106 | Sending a committed batch again, with its key row kept or long expired, changes no table but the key table and accepts nothing twice. |
| `ServerSteps.ForgottenKeyStoresNothing` | packages/domain/src/ingestion/collector-ingestion.ts:94-106 | A stored batch delivered again after its key was forgotten changes nothing but the key table. |
| `DerivedTables.CountStoredIsOne` | packages/domain/src/ingestion/collector-ingestion.ts:189-202 | An observation id has exactly one row if it is stored, none otherwise. |
| `DerivedTables.StoredPostsOfNew` | packages/domain/src/ingestion/collector-ingestion.ts:253-297 | The posts of an accepted observation read back as they were evaluated. |
| `RunLifecycle.RunLifecycleInvariant` | packages/domain/src/campaigns/run-service.ts:24-33 | From creation on, after any operations: progress never decreases, terminal states absorb and freeze it, at most one device ever owns the run. A live run is below each of its limits, a minute being sixty seconds; a completed one records the first limit its frozen progress reached, in the order candidates, feed items, profiles, minutes. |
| `RunLifecycle.StopReasonByNumbers` | packages/domain/src/campaigns/run-service.ts:212-239 | No stop reason means that each counter is below its limit and the seconds below sixty times the minutes; a reason is the first of the four whose number was reached. |
| `RunLifecycle.CompletedOnTarget` | packages/domain/src/campaigns/run-service.ts:212-239 | Completion on the candidate target implies that many committed candidates. |
| `RunLifecycle.StartedOnlyByDevice` | packages/domain/src/campaigns/run-service.ts:452-479 | A start time is recorded if and only if some device start succeeded. |
| `RunLifecycle.UserResumeSkipsStart` | packages/domain/src/campaigns/run-service.ts:555-581 | A claimed run that a user resumes runs without a start time. |
| `RunLifecycle.RunTable.Create` | packages/domain/src/campaigns/run-service.ts:241-321 | Refused for a missing or inactive campaign; otherwise a snapshot of its rules is added under the next version number of the campaign, from one on, and the run is ready, unowned and without progress. |
| `RunLifecycle.RunTable.ClaimRun` | packages/domain/src/campaigns/run-service.ts:425-450 | A ready run becomes claimed and is owned by the device; any other is refused; no other row changes. |
| `RunLifecycle.RunTable.StartRun` | packages/domain/src/campaigns/run-service.ts:452-479 | A claimed or paused run of the device becomes running with a start time, any other is refused; no other row changes. |
| `RunLifecycle.RunTable.ChangeRunStatus` | packages/domain/src/campaigns/run-service.ts:555-610 | Pause, resume and terminate, by user or owning device, likewise, with the states each is allowed from. |
| `RunLifecycle.RunTable.ReportProgress` | packages/domain/src/campaigns/run-service.ts:505-553 | On the fields: refused for an unknown run, a device that does not own it, a run that is not running or a counter that went back, in this order; otherwise the progress is stored, and the run goes on if it is below every limit and is completed with the first limit reached if not. Nothing else changes. |
| `CollectLoop.CollectState.HandleItem` | apps/collector/src/runtime.ts:548-702 | The branches of one feed item change the checkpoint exactly as its outcome says, and the run is paused exactly when as many profiles in a row as the policy allows could not be read with confidence. |
| `CollectLoop.CountersTellTheHistory` | apps/collector/src/runtime.ts:548-702 | After any history of items every counter is the number of items with its outcomes, and the count that pauses the run is that of the unreadable profiles since the last readable one. |
| `CollectLoop.ItemConserves` | apps/collector/src/runtime.ts:548-702 | Each outcome keeps the conservation law, counting one more batch exactly when one was built. |
| `HardFilter.EvaluateHardFilters` | packages/domain/src/screening/hard-filter.ts:43-135 | The loop over rules equals the functional verdict, which the rows of `FilterByNumbers` say in numbers. |
| `FilterByNumbers.RecentPostsByNumbers` | packages/domain/src/screening/hard-filter.ts:80-104 | A rule about recent posts passes if and only if at least the required number of posts have a date from `windowDays` times 86 400 000 ms ago to now and enough likes; short of that it fails if and only if no post has an unknown date, or unknown likes within those days, and the window was not incomplete. The evidence lists are those posts in order. |
| `FilterByNumbers.FollowersByNumbers` | packages/domain/src/screening/hard-filter.ts:50-77 | A follower rule passes within its bounds, fails outside and stays undecided without a count. |
| `FilterByNumbers.VerdictByRules` | packages/domain/src/screening/hard-filter.ts:137-141 | The verdict has one evaluation per rule in order; it fails if some rule fails, passes if all pass and is undecided otherwise. |
| `FilterByNumbers.SelectionByNumbers` | packages/platform-douyin/src/authors.ts:220-234 | Selected for the longest window are exactly the undated posts and those of its days, counted in milliseconds. |
| `FilterByNumbers.SentByNumbers` | apps/collector/src/runtime.ts:634-638 | Sent are the first 199 of these as they are, and the feed post, last and without a date unless it is among them. |
| `HardFilter.ClassifyPosts` | packages/domain/src/screening/hard-filter.ts:81-99 | The classification loop fills exactly the matching and the uncertain posts, in order. |
| `HardFilter.HardFilterIsSound` | packages/domain/src/screening/hard-filter.ts:43-141 | Filling in missing facts, reordering posts and, in an incomplete window, adding posts never turns pass or fail into another outcome, per rule and combined. |
| `HardFilter.RuleIsSound` | packages/domain/src/screening/hard-filter.ts:81-104 | The same for one rule. |
| `HardFilter.CombineIsMonotone` | packages/domain/src/screening/hard-filter.ts:137-141 | The combined verdict is monotone in the rule outcomes. |
| `HardFilter.IncompleteWindowCanPass` | packages/domain/src/screening/hard-filter.ts:99-104 | A rule about posts in an incomplete window can always still be learnt into a pass. |
| `HardFilter.IncompleteWindowCanFail` | packages/domain/src/screening/hard-filter.ts:81-104 | An undecided one can be learnt into a fail if and only if likes are asked for, or the matching posts and those in the window with missing likes are together too few. |
| `HardFilter.ZeroLikesNeverFail` | packages/domain/src/screening/hard-filter.ts:81-104 | An input with a minimum of zero likes that is undecided although nothing still to be learnt fails it. |
| `HardFilter.PruningPreservesVerdict` | packages/platform-douyin/src/authors.ts:220-234 | Evaluating on the posts selected for the longest rule window gives the same outcome and evidence, rule by rule. |
| `HardFilter.CollectorVerdictIsSafe` | apps/collector/src/runtime.ts:634-671 | Truncating to 199 posts and appending the undated feed post can only turn pass into unknown, and changes nothing when at most 199 were selected. |
| `HardFilter.VerdictIgnoresOrderAndIds` | packages/domain/src/screening/hard-filter.ts:81-104 | Outcomes depend on the facts about posts, not on their order or generated ids. |
| `HardFilter.PassIgnoresWindowFlag` | packages/domain/src/screening/hard-filter.ts:99-104 | Whether a verdict is a pass does not depend on the completeness flag. |
| `HardFilter.AssumingIncompleteAgrees` | packages/domain/src/screening/run-observed-creators.ts:110-122 | Re-evaluating with the window taken as incomplete agrees with the original if and only if the original was incomplete, a known follower count is out of range, or every rule about posts has enough matching or some uncertain posts. |
| `HardFilter.AssumingIncompleteCanDisagree` | packages/domain/src/screening/run-observed-creators.ts:110-122 | An observation sent as complete, without posts, is received as a fail and shown as unknown. |
| `ProfileEvidence.MergeProfilePostEvidence` | packages/platform-douyin/src/authors.ts:194-218 | The merge has one entry per post id of either list, in the order of first occurrence, and it is the combination of what both say. |
| `ProfileEvidence.MergedFromBoth` | packages/platform-douyin/src/authors.ts:194-218 | An entry that both lists have takes the caption of the page where it has one, likes with their raw text, date and address from the answer where it has them, and what is missing there from the page. |
| `ProfileEvidence.MergedFromOne` | packages/platform-douyin/src/authors.ts:194-218 | A post that only one list has is taken over as it is. |
| `ProfileEvidence.MergingNeverContradicts` | packages/platform-douyin/src/authors.ts:194-218 | With an incomplete window, merging page evidence into the platform's answers never contradicts a pass or fail the answers justify. |
| `RuleEvaluations.KeptEvaluationsAreRecomputed` | packages/domain/src/ingestion/collector-ingestion.ts:304-338 | In every reachable state and for every stored observation, whoever sent it: rule evaluations are kept exactly if some observation of the creator in the campaign had passed by then, their candidate exists, and they equal, rule by rule and with the same evidence, what evaluating the stored rows again gives; for this collector's observations that is the verdict of the run detail view. |
| `RuleEvaluations.IngestKeepsEvaluations` | packages/domain/src/ingestion/collector-ingestion.ts:304-338 | Every committed batch of any device keeps that so, for its own and for all earlier observations. |
| `ObservedCreators.LoadPostsByObservation` | packages/domain/src/screening/run-observed-creators.ts:155-199 | However the id list is cut into chunks of 500 and rows are ordered, each observation asked for gets exactly its own posts and no other gets any. |
| `ObservedCreators.LatestByCreator` | packages/domain/src/screening/run-observed-creators.ts:99-102 | Each observed creator once, with a latest observation. |
| `ObservedCreators.ListRunObservedCreators` | packages/domain/src/screening/run-observed-creators.ts:76-152 | One line per creator observed in the run, about a latest observation, with the outcomes of the stored rows rule by rule and whether a candidate exists. |
| `Agreement.ThreeEvaluationsAgree` | packages/domain/src/ingestion/collector-ingestion.ts:253-297 | Collector verdict, ingestion verdict and the verdict recomputed from stored rows are equal, now and at any later time. |
| `Agreement.ViewAgreesWithCollector` | packages/domain/src/screening/run-observed-creators.ts:110-122 | In every reachable state, recomputing from the stored rows gives what the collector concluded from the batch it saved. |
| `RecoveryController.DelayMs` | apps/collector/src/recovery-controller.ts:108-111 | Between 15 seconds, one or five minutes and a fifth more, for any random value. |
| `RecoveryController.CooldownDoublesToItsCap` | apps/collector/src/runtime.ts:781-785 | Cooldowns are 300 000, 600 000, 1 200 000 ms, then always 1 800 000. |
| `RecoveryController.RecordCounts` | apps/collector/src/recovery-controller.ts:122-135 | Recording keeps every attempt in the window, adds this one and never brings a pruned entry back. |
| `RecoveryController.CircuitByNumbers` | apps/collector/src/recovery-controller.ts:122-135 | One more restart is refused if and only if two attempts, admitted or refused, are less than 3 600 000 ms old; these and the new one are what is recorded. |
| `Recovery.CircuitBreaker` | apps/collector/src/recovery-controller.ts:122-135 | Over every history of feed and profile recoveries of a run, with cancellations, exceptions, failed writes and kills anywhere: of any three admitted browser restarts the first and last are at least an hour apart, each restart begun, however it ended, was admitted and on file before, and no admission is used twice. |
| `Recovery.StepKeepsSafe` | apps/collector/src/runtime.ts:808-904 | Every step keeps all recent admissions recorded, in memory and on disk. |
| `RecoveryEscalation.FirstStageByNumbers` | apps/collector/src/recovery-controller.ts:113-120 | After any history: a cycle that begins less than 120 000 ms after a recovery first announces the next higher stage, the browser restart at most (refused after two attempts within the hour); any other cycle first announces the reload. |
| `RecoveryEscalation.RecoversNoLower` | apps/collector/src/runtime.ts:808-904 | The stage that recovers a page is no lower than the one its cycle began with, and the recovery is recorded with that stage and its time. |
| `RecoveryEscalation.ThirdCycleRestarts` | apps/collector/src/runtime.ts:808-1028 | A page that fails again within two minutes of each recovery reaches the browser restart, or its refusal, in the third cycle at the latest, whatever went before. |
| `RecoveryEscalation.AttemptsAreCounted` | apps/collector/src/runtime.ts:822 | After any history the count on file is the number of attempts on file. |
| `RecoveryLoop.Recoverer.RecoverCycle` | apps/collector/src/runtime.ts:808-1028 | The ladder loops of feed and profile recovery are runs of the recovery machine. The first write announces the stage that the time since the last recovery asks for; a recovered page is on file with its time; a failed cycle recorded its attempt with the breaker at least 75 s after it began (unless it continued a recent recovery) and was admitted exactly if that was closed. It succeeds only where a stage made the page work, is cancelled only where a wait is, and fails if every stage fails. |
| `RecoveryLoop.Recoverer.RecoverFeedPage` | apps/collector/src/runtime.ts:774-806 | Cycles and cooldowns form a series; from its sixth failed cycle on every cycle was admitted; a recovery ends the series, and one whose every stage fails goes on to its end. |
| `RecoveryLoop.FeedRestsLonger` | apps/collector/src/runtime.ts:781-800 | Between two cycles of a series five, ten, twenty and then at least thirty minutes pass. |
| `RecoveryLoop.NoStarvation` | apps/collector/src/runtime.ts:776-805 | In any unbroken series of failed feed cycles every cycle from the sixth on is admitted to restart the browser. |
| `RecoveryLoop.MiddleCyclesCanBeBlocked` | apps/collector/src/runtime.ts:815-837 | Six is sharp: a series exists whose third, fourth and fifth cycle are refused. |
| `Media.ConfirmedObjectIsThere` | packages/domain/src/media/media-service.ts:257-303 | For any interleaving of confirmers and cleaners a confirmed row has its object in the store with matching metadata, unless something unsigned was written over it after it was checked. |
| `Media.OnlyExpiredObjectsAreDeleted` | packages/domain/src/media/media-cleanup.ts:148-164 | An object is deleted only while its row is expired or deleted. |
| `Media.RowsOnlyMoveForward` | packages/domain/src/media/media-service.ts:294-301 | Rows only move pending, confirmed, expired, deleted and keep their metadata and expiry: an expired one is never confirmed again. |
| `Media.DeletedCountersAddUp` | packages/domain/src/media/media-cleanup.ts:143-171 | The deleted counters of all workers, plus marks whose answer was lost, equal the number of rows that reached `deleted`. |
| `Media.DeletedMeansGone` | packages/domain/src/media/media-cleanup.ts:158-164 | A row is marked deleted only when its object is gone, and the object is back only by a later upload. |
| `Media.ConfirmedInTime` | packages/domain/src/media/media-service.ts:268-274 | A row is confirmed only if some confirmation of it began before the upload expired. |
| `Media.OnlyOverdueUploadsExpire` | packages/domain/src/media/media-cleanup.ts:46-54 | A row nobody has confirmed expires only after a sweep began when the upload had expired. |
| `Media.IssuedUploadCanBeConfirmed` | packages/domain/src/media/media-service.ts:247-306 | From every reachable state, an upload issued for a new row and not disturbed is confirmed with its object in five steps, and nothing else changes. |
| `Media.RowCanBeDeleted` | packages/domain/src/media/media-cleanup.ts:139-172 | From every reachable state, an overdue, confirmed or left behind row and its object are gone after four undisturbed steps, counted once. |
| `MediaWorkers.MediaStore.DeleteRows` | packages/domain/src/media/media-cleanup.ts:139-172 | The loop, with everybody else acting between its statements, is a run of the system, deals with every row, counts each at most once and none as failed without a fault. |
| `MediaWorkers.MediaStore.Claim` | packages/domain/src/media/media-cleanup.ts:149-156 | The row is claimed if and only if it was picked as expired or still has the status it was picked with, and only then becomes expired. |
| `MediaWorkers.MediaStore.MarkDeleted` | packages/domain/src/media/media-cleanup.ts:159-167 | A deletion is counted if and only if the statement answered and changed an expired row, a failure if and only if it threw; the row is deleted exactly when the statement went through. |
| `MediaWorkers.MediaStore.ConfirmUpload` | packages/domain/src/media/media-service.ts:247-306 | Missing, foreign, misnamed, expired and mismatching confirmations are refused in that order, changing nothing; otherwise the object is looked at, and a missing or unreachable one and one that differs are refused, each with its error; a success means the row is confirmed at that moment. |
| `MediaWorkers.MediaStore.Commit` | packages/domain/src/media/media-service.ts:294-301 | The confirmation succeeds if and only if the row is pending right before the update. |
| `Csv.CsvRows` | packages/domain/src/legacy/legacy-import.ts:268-298 | The character loop equals the parser function, about which the next rows speak. |
| `Csv.RoundTrip` | packages/domain/src/candidates/candidate-export.ts:85-103 | Parsing the exported text gives back exactly the sanitised cells whatever they contain; the byte order mark is in front of the first cell and records without text are dropped. |
| `Csv.ExportByNumbers` | packages/domain/src/candidates/candidate-export.ts:85-103 | The exported text code unit by code unit: the mark, then per record its cells in quotes with quotes doubled and an apostrophe before what looks like a formula, commas between, carriage return and line feed behind. |
| `Csv.PlainTextReadsBack` | packages/domain/src/legacy/legacy-import.ts:268-298 | Tables of fields without quotes are read as they stand, with line feeds, carriage returns or both as line ends, mixed freely; rows without text are dropped. |
| `Csv.NothingDroppedExactlyWhen` | packages/domain/src/legacy/legacy-import.ts:285-297 | No record is dropped if and only if each record after the header has a non-empty cell. |
| `Csv.CellComesBack` | packages/domain/src/candidates/candidate-export.ts:99-103 | A cell comes back unchanged if and only if it does not begin with an equals, plus, minus or at sign, a tab or a carriage return; otherwise an apostrophe is in front, and what comes back never looks like a formula. |
| `Pagination.ListCandidatePage` | packages/domain/src/candidates/candidate-library.ts:353-440 | One page is the first rows after the cursor in order, with the last row as next cursor if there are more. |
| `Pagination.PagesListEverything` | packages/domain/src/candidates/candidate-library.ts:434-440 | For every limit, following the cursor ends with null and lists the whole set once, in order. |
| `Pagination.NextPageContinues` | packages/domain/src/candidates/candidate-library.ts:353-364 | What a page's cursor finds is exactly what follows the page. |
| `Pagination.ListedAgainOnlyLower` | packages/domain/src/candidates/candidate-library.ts:353-364 | Whatever changes between the pages, a candidate listed again on a later page has dropped to a strictly earlier first visible time. |
| `Pagination.NothingListedTwice` | packages/domain/src/candidates/candidate-library.ts:353-364 | A candidate whose first visible time never drops has at most one place on all the pages together, whatever is inserted, deleted or moved in between, itself included. |
| `Pagination.DroppedCandidateIsListedTwice` | packages/domain/src/candidates/candidate-library.ts:353-364 | A drop is enough: tables in which one candidate is on both pages. |
| `Pagination.EveryStayingRowIsListed` | packages/domain/src/candidates/candidate-library.ts:353-440 | A candidate that is there at every page request, with a first visible time that never rises, has been listed when the cursor is null. |
| `CandidateWorkflow.HistoryReplays` | packages/domain/src/candidates/candidate-workflow.ts:171-400 | After any operations status, archived flag and tags are what the event log replays to; status events chain and are allowed transitions; tag events list exactly what changed. |
| `CandidateWorkflow.VerdictsLeadWhereTheySay` | packages/domain/src/candidates/candidate-workflow.ts:190-199 | In any history: an approval or a rejection moves a candidate on from the first stage only, to be contacted or to unsuitable, the status event right before the verdict; no other operation leaves a verdict, and none but verdicts and moves changes the stage. |
| `CandidateWorkflow.VersionCountsCommits` | packages/domain/src/candidates/candidate-workflow.ts:655-659 | The version is one plus the committed operations other than tag edits. |
| `CandidateWorkflow.SameVersionCommitsOnce` | packages/domain/src/candidates/candidate-workflow.ts:655-659 | Two writers that expect the same version never both commit. |
| `CandidateWorkflow.CandidateStore.SubmitManualReview` | packages/domain/src/candidates/candidate-workflow.ts:171-238 | From the first stage an approval leads to be contacted, a rejection to unsuitable and an undecided verdict nowhere, with the event of the move before that of the verdict; from any other stage the status stays. A stale version is refused. The verdict is kept with the version it is based on, which no other verdict has. |
| `CandidateWorkflow.CandidateStore.SetCandidateArchived` | packages/domain/src/candidates/candidate-workflow.ts:248-277 | Row, version and event after archiving or unarchiving. |
| `CandidateWorkflow.CandidateStore.SetCandidateTags` | packages/domain/src/candidates/candidate-workflow.ts:281-355 | The tags become the requested ones by attaching and detaching ids; the vocabulary loses no name; an event only when something changed; no version bump. |
| `CandidateWorkflow.CandidateStore.TransitionCandidatePipeline` | packages/domain/src/candidates/candidate-workflow.ts:357-400 | Refused for a stale version or a transition outside the matrix, otherwise row, version and event. |
| `CandidateWorkflow.CandidateStore.ReingestCandidate` | packages/domain/src/ingestion/collector-ingestion.ts:357-370 | A later observation bumps the version without an event. |
| `RotatingLog.SizeBoundedLog.AppendRaw` | apps/collector/src/recovery-log.ts:123-149 | With crashes anywhere in rotation or writing, and lines of any size: every file fits or holds a single line, the files oldest first are a contiguous suffix of everything written, a completed line is the last one retained, and with two files or more a line that fits never costs the newest one. Without separators a completed line can be read exactly if the file it went to ended cleanly. |
| `RotatingLog.RepeatedCrashesCanLoseNewest` | apps/collector/src/recovery-log.ts:141-149 | With a line that never fits, tried again after crashes, the third rotation drops the newest line. |
| `RotatingLog.SizeBoundedLog.Append` | apps/collector/src/error-diagnostics.ts:195-217 | The same within the limit for every file, refusing exactly the lines that could never fit. |
| `RotatingLog.SizeBoundedLog.Rotate` | apps/collector/src/recovery-log.ts:141-149 | Shifting the files, each into the next slot and the last one away, cut short anywhere, keeps them a contiguous suffix. |
| `RotatingLog.SizeBoundedLog.MakeRoom` | apps/collector/src/recovery-log.ts:123-149 | The files are shifted exactly when the line would not fit the current one, and stay as they are otherwise. |
| `RotatingLog.SizeBoundedLog.Recent` | apps/collector/src/error-diagnostics.ts:219-240 | Returns the newest min(20, retained) whole lines across the files, newest first. |
| `RotatingLog.RecentIsSuffixOfWritten` | apps/collector/src/error-diagnostics.ts:219-240 | These are the newest whole lines of everything ever written. |
| `Members.MembersInvariant` | packages/domain/src/auth/members.ts:47-182 | After any operations there is an active admin, a disabled member owns no active device, a pairing code became at most one device and a token speaks for at most one device. |
| `Members.RevokedForGood` | packages/domain/src/auth/members.ts:93-116 | A revoked device is never active again, whatever happens later; enabling restores none. |
| `Members.DisablingCutsAccess` | packages/domain/src/auth/members.ts:47-85 | Disabling a member cuts off for good every device and every session they have at that moment, also when they are enabled again. |
| `Members.ClosedForGood` | packages/domain/src/auth/members.ts:47-85 | A closed session lets nobody in again. |
| `Members.EveryDeviceWasPaired` | packages/domain/src/auth/devices.ts:122-190 | Every device there ever is was paired with a code of its owner that was unused and not expired at that moment, when the owner was active and more than a reader. |
| `Members.EveryCodeWasMade` | packages/domain/src/auth/devices.ts:93-120 | A code keeps the creator and the expiry it was made with. |
| `Members.NewDeviceWorks` | packages/domain/src/auth/devices.ts:122-190 | Whatever went before, an active member who is more than a reader can pair a device until the code expires, and its token speaks for it; nothing else changes. |
| `Members.NewMemberLogsIn` | packages/domain/src/auth/members.ts:47-182 | Whatever went before, who joins is active in the role given and can log in; nobody else changes. |
| `Members.MemberTables.DisableUserAccount` | packages/domain/src/auth/members.ts:47-85 | Refused for oneself, an unknown member or the last active admin; otherwise the member, all their sessions and all their devices change. |
| `Members.MemberTables.EnableUserAccount` | packages/domain/src/auth/members.ts:93-116 | Only the member becomes active again; an unknown member is refused, and no device changes. |
| `Members.MemberTables.ChangeMemberRole` | packages/domain/src/auth/members.ts:122-149 | Refused for an unknown member or when the last active admin would be lost. |
| `Members.MemberTables.CountActiveAdmins` | packages/domain/src/auth/members.ts:161-176 | The number of members that are admin and active. |
| `Members.MemberTables.PairDevice` | packages/domain/src/auth/devices.ts:122-190 | A valid, unused, unexpired code of an active non-readonly member becomes a device of that member; each error in its case. |
| `Members.MemberTables.RotateDeviceToken` | packages/domain/src/auth/devices.ts:229-252 | Refused unless an admin or the owner asks for an active device; then, after anything others do in between, the guarded update gives an active device the new token and leaves any other alone. |
| `Members.MemberTables.RevokeDevice` | packages/domain/src/auth/devices.ts:254-276 | Refused likewise; after the guarded update the device is not active, whoever revoked it. |
| `Members.RotatedTokenWorks` | packages/domain/src/auth/devices.ts:229-252 | The token handed out speaks for the device if and only if that was still active, and its owner allowed devices, when the update ran. |
| `Members.RotationCanComeTooLate` | packages/domain/src/auth/devices.ts:229-252 | A device revoked between check and update: the rotation succeeds, and its token opens nothing. |

## Left out

- Browser automation, page parsing, safety classification: a page check or an inspection is an outcome chosen by the environment.
- HTTP routing, the user interface, configuration and command-line tools: plumbing.
- Audit events, outreach records and notes: they would only add easy members.
- Invalid dates and schema limits of requests: batches and rules are taken as already parsed; an address that is not the platform's is kept as an error.
- Hashes, tokens and generated ids: a checksum is the batch itself, generated ids are fresh.
- Calendar and ISO text of timestamps: times are milliseconds.
- Queue record files that cannot be parsed, and the three tries of replacing one: a queue write succeeds as a whole, or throws having changed nothing, which is the step `Stop`.
- Database collation, numeric precision and row locks: each transaction is one step over exact values.
- Ingestion.IngestionStore.IngestCreatorObservation: nicknames, biographies, raw counts and captions, which are only copied through, are left out, and so is the wording of the evidence of a rule evaluation.
- ObservedCreators.ListRunObservedCreators: the pipeline status beside each line and the evidence texts are left out, and which of several observations with equal times counts as the latest is left open: the query leaves it to the received time, which is not modelled.
- MediaWorkers.MediaStore.ConfirmUpload: scope by device and run is a given answer; which confirmed rows a sweep may pick (retention, archived campaign, no candidate) is not restricted.
- Orphan cleanup against a candidate created after its query (packages/domain/src/media/media-cleanup.ts:91-94): not claimed by the code.
- RecoveryLoop.Recoverer.RecoverFeedPage: the loop runs for as many cycles as the environment describes; the empty-feed reload backoff and navigation evidence are left out.
- RotatingLog.SizeBoundedLog.Recent: a write is whole or torn; that a torn one does not parse is taken from the format.
- Pagination.ListCandidatePage: filters, visibility and joined columns are reduced to the set of rows that match at each request.
- Members.MembersInvariant: one workspace; passwords, expiry of sessions and the login check before a session is opened are left out, invitations are the step `Join`.
- Legacy import apart from its CSV parser, and several workspaces per user.
- That the server never rejects progress after a hard kill: elapsed time is raised and reported without a save in between (apps/collector/src/runtime.ts:449-459), so it can regress.
