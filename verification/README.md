# Simverse: verified models

Dafny models of the parts of Simverse that carry real algorithms, and proofs about them.
`dafny verify dfyconfig.toml` checks everything.

- **Lab money** (`LabLedger`, `LabReconciler`, `LabFindings`, `LabBalance`, `LabOrder`,
  `LabCohorts`, `LabRows`, `LabClassifier`). The reconciliation of tasks, holds, journal, receipts
  and transactions is an imperative analysis proved equal to a bag of rules, and each finding is
  read back into the rows it stands for. An empty report is shown to mean a one-to-one linkage and
  conservation of money, the report not to depend on row order, and the cutover cohorts built from
  the same tables to say what the tables say, to lose no artifact and to count every hold once.
- **Resident sprites** (`SpriteRun`, `SpriteStore`, `EvidenceFile`, `SpritePublication`,
  `SpriteReview`, `SpriteHistories`, `SpriteCrashes`, `SpriteStuck`). The artifact store, publication
  and recovery under failures and crashes between any two effects, and all interleavings of command
  line, web page, worker and crashes; `SpriteHistories` and `SpriteCrashes` show what can happen,
  `SpriteStuck` what no longer can.
- **Caravan demo** (`CaravanPath`, `CaravanTimeline`, `CaravanRound`, `CaravanShape`,
  `CaravanScript`, `CaravanDemo`, `CaravanAssignment`). Path thinning, the sorted timeline and its
  replay, the driver stopped anywhere and its broker failing anywhere, and the optimal assignment
  of slots.
- **Request bodies** (`BodyLimit`). The ASGI limiter around an arbitrary application
  (sections 8.6 and 15.5.14 of RFC 9110 give Content-Length and 413 their meaning).
- **Market bridge** (`MarketBridge`, `MarketSteps`, `MarketTrade`, `MarketRestore`, `MarketRows`).
  A class over six tables, what each frame does to them, the seats and purchases of a trading day,
  the restore after any frames, and exactly when it is complete.
- **Measurement** (`Calibration`, `CalibrationCandidates`, `Relations`, `OpinionClusters`). Gate
  attribution, candidate thresholds, the concurrently written relation table the report reads,
  and clusters as connected components.
- **Clock and housing** (`WorldClock`, `Rounding`, `Housing`).
- `Bags` and `Lexicographic` hold the folds, sums and string order the rest is built on.

What the proofs found about the code, each exhibited by the members named:

- An approval, a rejection or a command-line review that dies between writing its time-stamped
  evidence and the checkpoint that follows can only be completed by a command that repeats the
  very same time. A review on the web page can be completed there by the same reviewer, at any
  time once the manifest names its evidence and only at the very same time before
  (`SpriteStuck.ReviewAfterCrashIff`, `SpriteStuck.ApprovalAfterCrashIff`,
  `SpriteStuck.RejectionAfterCrashIff`; the crashes: `SpriteHistories.ReviewDies`,
  `SpriteCrashes.WebReviewDies`, `SpriteHistories.ApprovalDies`). A run whose rejection died can
  be approved (`SpriteCrashes.RejectedYetApproved`).
- "A quarantined run never becomes published" holds exactly for runs quarantined after automatic
  QC (`SpriteRun.QuarantineIsFinalIff`, `SpriteRun.SecondChance`).
- A manifest checkpoint that takes effect and then raises breaks the atomicity of publication
  (`SpritePublication.FailureAtomicIff`, `SpritePublication.PublishingYetGivenUp`), and can leave
  a run published with its directory deleted (`SpritePublication.PublishedYetRemoved`). A recovery
  started while a publication is under way can make a run enter `published` with no files; with
  one such command at a time it never does (`SpriteHistories.FilesIffOneAtATime`).
- A directory left half deleted stays as it is under every later command, and its run is never
  published or rolled back (`SpriteStuck.HalfRemovedForGood`, `SpriteStuck.HalfRemovedArises`).
- The documentation of the bridge promises a full restore. It does not put back the wallet copies
  that purchases write, and closing a visit can take goods off sale that the bridge does not
  track: the restore is complete for all services exactly when no trading opens and no such good
  is reached (`MarketRestore.RestoreCompleteIff`, `MarketRestore.TradingDayTrades`,
  `MarketRestore.PassingWithdraws`).
- A publish that raises after delivering a snapshot leaves the clean-up with a version that is not
  above it (`CaravanDemo.Driver.RunDemo`, `CaravanDemo.VersionLost`).
- The limiter swallows its own exception class even when the application raised it
  (`BodyLimit.InvisibleWhenItFits`, `BodyLimit.SwallowsItsOwnClass`).

## Model

| member | source | states |
|---|---|---|
| LabLedger.HoldTaskIdRoundTrip | backend/scripts/reconcile_lab_finances.py:40-44 | the task id read from a hold reason is the one written into it, and no other reason yields it |
| LabReconciler.GroupRows | backend/scripts/reconcile_lab_finances.py:72-76 | filling a dictionary of lists: keys in first-seen order, each list holding the rows of its key in row order |
| LabReconciler.CheckTasks | backend/scripts/reconcile_lab_finances.py:89-140 | findings on tasks: missing binding, missing hold, wrong reason, wrong owner, and none else |
| LabReconciler.CheckHoldLinks | backend/scripts/reconcile_lab_finances.py:142-175 | findings on hold reasons and on holds whose task does not name them back |
| LabReconciler.CheckEntries | backend/scripts/reconcile_lab_finances.py:177-192 | every journal entry of an unknown hold is reported |
| LabReconciler.CheckReceipts | backend/scripts/reconcile_lab_finances.py:194-204 | every receipt of an unknown hold is reported |
| LabReconciler.CheckCommands | backend/scripts/reconcile_lab_finances.py:206-227 | every failed terminal command whose money is still held is reported |
| LabReconciler.CollectTransactions | backend/scripts/reconcile_lab_finances.py:229-240 | the running buckets hold amount, count and ids of the positive user transactions per account |
| LabReconciler.CheckOperations | backend/scripts/reconcile_lab_finances.py:242-247 | an operation key is reported exactly when entries share it |
| LabReconciler.CheckRecipients | backend/scripts/reconcile_lab_finances.py:249-259 | a hold, action and recipient are reported exactly when entries share all three |
| LabReconciler.CheckMultipleTasks | backend/scripts/reconcile_lab_finances.py:261-268 | a hold is reported exactly when several tasks name it |
| LabReconciler.CheckMultipleHolds | backend/scripts/reconcile_lab_finances.py:270-278 | a task is reported exactly when several hold reasons name it |
| LabReconciler.WalkJournal | backend/scripts/reconcile_lab_finances.py:413-442 | one hold's journal is checked entry by entry while the user credits it calls for are booked |
| LabReconciler.ReviewHolds | backend/scripts/reconcile_lab_finances.py:280-442 | all holds are reviewed against tasks, receipts and journal, and the expected credits of all of them are booked |
| LabReconciler.CheckExpected | backend/scripts/reconcile_lab_finances.py:444-461 | an account is reported exactly when expected and actual credits differ in amount or number |
| LabReconciler.CheckUnexpected | backend/scripts/reconcile_lab_finances.py:463-476 | an account with a terminal reason is reported exactly when nothing was expected on it |
| LabReconciler.AnalyzeSnapshot | backend/scripts/reconcile_lab_finances.py:60-478 | the whole analysis reports, as a bag, exactly the findings the rules call for, and a finding is among them if and only if the tables hold the rows it names |
| LabFindings.ReportedIff | backend/scripts/reconcile_lab_finances.py:60-478 | for each of the thirty kinds of finding, written out in rows, columns and literals without the rules: it is in the report if and only if the tables hold the rows it names |
| LabFindings.WrongActionReported | backend/scripts/reconcile_lab_finances.py:339-402 | one entry that refunds a settled hold or settles a refunded one is reported |
| LabBalance.GroupsSingleIff | backend/scripts/reconcile_lab_finances.py:242-278 | "no group has two members" means that no two rows share the key |
| LabBalance.CleanIffConsistent | backend/scripts/reconcile_lab_finances.py:60-478 | no finding at all if and only if every row, key, hold and account of the ledger is sound |
| LabBalance.LinkedStatuses | backend/scripts/reconcile_lab_finances.py:280-313 | in a clean ledger linked rows agree: held with non-terminal, settled with completed, refunded with failed, expired or cancelled |
| LabBalance.TasksAndHoldsPairOff | backend/scripts/reconcile_lab_finances.py:89-313 | in a clean ledger tasks with a hold id and holds are in bijection through hold id and reason, with matching statuses |
| LabBalance.MultipleLinksAreRowConflicts | backend/scripts/reconcile_lab_finances.py:89-278 | a multiple-link finding never comes without a finding on some single row |
| LabBalance.VersionTotalsAgree | backend/scripts/reconcile_lab_finances.py:491-534 | in a clean ledger the v2 terminal hold total of the summary equals its v2 journal total |
| LabBalance.MoneyIsConserved | backend/scripts/reconcile_lab_finances.py:229-534 | a clean report means: every journal entry settles a settled hold or refunds a refunded one, the journal splits into sink, known treasuries and users, the user part equals the recorded transactions in amount and number, and no other transaction carries a terminal reason |
| LabOrder.OrderDoesNotMatter | backend/scripts/reconcile_lab_finances.py:60-478 | with unique task and hold ids the bag of findings is the same for every order of every table |
| LabCohorts.SortArtifacts | backend/scripts/generate_lab_cohort_matrix.py:361-396 | artifacts that name a task and a run of that task are filed by run, all others become rows of their own |
| LabCohorts.NamedRunIsOwn | backend/scripts/generate_lab_cohort_matrix.py:414-440 | a task row complains of its run exactly when the accepted run is not one of the task's, or the task has runs and none is accepted; the run it names is always the task's own, and without a complaint it is the accepted one |
| LabCohorts.CollectTaskRow | backend/scripts/generate_lab_cohort_matrix.py:400-458 | the raw row of one task: its holds, runs, artifact state, counts and complaint |
| LabCohorts.CollectActualRows | backend/scripts/generate_lab_cohort_matrix.py:331-499 | all rows: tasks, orphan holds, unattributable artifacts |
| LabRows.ReportIsFaithful | backend/scripts/generate_lab_cohort_matrix.py:331-499 | read off the tables, column by column: every row says of a task which hold it shows first and in which status, how many it has, which run and in which status, which state the scans and checks of its artifacts give, and what it complains of; or it says so of a hold no task is linked to, or of an artifact that belongs to no task and why; and each of these has its row |
| LabCohorts.ArtifactsConserved | backend/scripts/generate_lab_cohort_matrix.py:331-499 | the artifact counts of all rows add up to the number of artifacts, valid or not |
| LabCohorts.SoundTaskHolds | backend/scripts/generate_lab_cohort_matrix.py:401-412 | where the reconciliation is clean, a task row relates exactly the hold bound to the task |
| LabCohorts.NoOrphans | backend/scripts/generate_lab_cohort_matrix.py:460-478 | where the reconciliation is clean there are no orphan hold rows |
| LabCohorts.SoundHoldsCountedOnce | backend/scripts/generate_lab_cohort_matrix.py:400-478 | where the reconciliation is clean every hold is counted in exactly one row, that of its own task |
| LabClassifier.CoveringMeans | backend/scripts/generate_lab_cohort_matrix.py:174-183 | the rules found to cover a cohort are exactly those that hold of it |
| LabClassifier.PositiveRulesDisjoint | backend/scripts/generate_lab_cohort_matrix.py:100-160 | no cohort satisfies two positive rules |
| LabClassifier.AtMostOneCovers | backend/scripts/generate_lab_cohort_matrix.py:174-183 | so the ambiguity branch of the classifier is never taken with the shipped rules |
| LabClassifier.MapActualRows | backend/scripts/generate_lab_cohort_matrix.py:502-546 | one output per row, and the reports of exactly the frozen ones |
| LabClassifier.RowDecision | backend/scripts/generate_lab_cohort_matrix.py:100-278 | which task, hold, run and artifact states lead to which action, outcome and rule, written out row by row, and why any other row is frozen |
| LabClassifier.ApprovedIffCovered | backend/scripts/generate_lab_cohort_matrix.py:174-278 | a row is approved if and only if nothing is wrong with it and a positive rule covers it |
| LabClassifier.FrozenIsReported | backend/scripts/generate_lab_cohort_matrix.py:502-546 | there are exactly as many reports as frozen outputs, and a row has a report if and only if its output is frozen |
| LabClassifier.ReportedIsFrozen | backend/scripts/generate_lab_cohort_matrix.py:502-546 | and every report comes from a frozen row |
| LabClassifier.OnlyHeldEscrowMoves | backend/scripts/generate_lab_cohort_matrix.py:100-183 | money is converted or refunded only for a task with exactly one hold that is still held |
| SpriteRun.RewriteNeedsSameBytes | backend/app/services/resident_sprite_artifacts.py:630-678 | writing a registered path again succeeds exactly with the same bytes |
| SpriteStore.LeadsIff | backend/app/services/resident_sprite_artifacts.py:40-76 | the state graph turned over: for each stage the one state it starts from and the one it ends in |
| SpriteStore.AdvancesIff | backend/app/services/resident_sprite_artifacts.py:725-784 | a checkpoint succeeds exactly along the graph with nothing claimed, all strips made and an error where one is due, or as the repetition of the last; it changes state, stages and error only; and why it is refused else |
| SpriteStore.AppliesIff | backend/app/services/resident_sprite_artifacts.py:256-798 | the same for claims, completions, failures, releases, retries, quarantine review and the two halves of a write: one transition relation, field by field |
| SpriteStore.ReadsWhatWasWritten | backend/app/services/resident_sprite_artifacts.py:630-708 | what was written is what is read back, other files are untouched, and nothing unnamed can be read |
| SpriteRun.AdvanceSound | backend/app/services/resident_sprite_artifacts.py:725-784 | every checkpoint keeps the stages consistent with the state, and never brings back a run that left the review chain |
| SpriteRun.ApplySound | backend/app/services/resident_sprite_artifacts.py:256-346 | the same for claims, completions, failures, retries and quarantine review, and terminal runs never change state |
| SpriteRun.ShutOutForever | backend/app/services/resident_sprite_artifacts.py:725-798 | a run out of the review chain after automatic QC is never published by any sequence of operations |
| SpriteRun.SecondChance | backend/app/services/resident_sprite_artifacts.py:794-798 | a run quarantined before automatic QC can be sent back and published: the operations are exhibited |
| SpriteRun.QuarantineIsFinalIff | backend/app/services/resident_sprite_artifacts.py:725-798 | a quarantined run can never be published if and only if it had passed automatic QC |
| EvidenceFile.Evidence.WriteOut | backend/scripts/generate_resident_sprite.py:439-450 | the write loop finishes exactly when every call makes progress, and only ever holds a beginning of the data |
| EvidenceFile.WritesAllIff | backend/scripts/generate_resident_sprite.py:439-450 | the loop finishes exactly when some calls all make progress and report enough bytes together |
| EvidenceFile.Evidence.AtomicCreate | backend/scripts/generate_resident_sprite.py:426-458 | all of the data or no file, never over another file; refused exactly on different content |
| SpritePublication.Publisher.RemoveDirectory | backend/scripts/generate_resident_sprite.py:914-930 | deletes only an exact copy, file by file; otherwise changes nothing |
| SpritePublication.Publisher.Begin | backend/scripts/generate_resident_sprite.py:979-988 | staging, record and first checkpoint, with every crash state recoverable |
| SpritePublication.Publisher.PutInPlace | backend/scripts/generate_resident_sprite.py:989-1002 | installing, or accepting an equal directory already there, with every crash state recoverable |
| SpritePublication.Publisher.Undo | backend/scripts/generate_resident_sprite.py:1004-1014 | cleaning up: deletes only what the call installed, then rolls back |
| SpritePublication.Publisher.PublishRun | backend/scripts/generate_resident_sprite.py:964-1018 | a publication that returns has made public exactly texture.png, portrait.png and publication.json, holding the texture, the portrait and the record on file; under every combination of failures it has its reference outcome, and every state a crash can leave is sound, with the images as they were, and one of three kinds |
| SpritePublication.PublishedFiles | backend/scripts/generate_resident_sprite.py:883-1003 | the same of the reference outcome, for every disk and every combination of faults |
| SpritePublication.RivalIsLeftAlone | backend/scripts/generate_resident_sprite.py:989-1014 | a directory with content that another writer put there first stays as it is, whatever fails, and the publication only returns if it holds the very files |
| SpritePublication.NotMarkedFailed | backend/scripts/generate_resident_sprite.py:978-1014 | a run that publishing has taken on is never left marked as failed |
| SpritePublication.Publisher.PublishCommand | backend/scripts/generate_resident_sprite.py:933-1018 | already published: checks only; not approved, images missing or other content in place: refuses without effect; else publishes |
| SpritePublication.Publisher.RecoverRun | backend/scripts/generate_resident_sprite.py:1055-1080 | recovery has its reference outcome however its own removal, flush and roll-back go, and a crash within it leaves a recoverable disk or a directory half deleted |
| SpritePublication.RecoverAtomicIff | backend/scripts/generate_resident_sprite.py:1055-1080 | recovery cleans up completely or changes nothing if and only if the disk is not recoverable, has no directory, or neither deletion stops part way nor the flush or the roll-back fails after it; when it returns normally is decided too |
| SpritePublication.RecoveryLeavesAlone | backend/scripts/generate_resident_sprite.py:1055-1080 | on a run that is not publishing, and on a directory that is not exactly what record and images say, recovery changes nothing |
| SpritePublication.RecoveredNotMarkedFailed | backend/scripts/generate_resident_sprite.py:1055-1080 | a recovered run is not marked as failed either |
| SpritePublication.CrashThenRecovery | backend/scripts/generate_resident_sprite.py:978-1080 | from every state a crash of a publication leaves, recovery ends rolled back with no directory, or refuses without effect exactly a rival's directory and one half deleted; cut short itself, it leaves such a state again |
| SpritePublication.OutcomeByCase | backend/scripts/generate_resident_sprite.py:978-1018 | where each failure leaves state and directory |
| SpritePublication.FailureAtomicIff | backend/scripts/generate_resident_sprite.py:978-1018 | a failed publication with successful clean-up leaves a directory that was there before untouched, none or a rival's where there was none, and the run approved or rolled back, if and only if no manifest checkpoint took effect before raising |
| SpritePublication.PublishingYetGivenUp | backend/scripts/generate_resident_sprite.py:978-1014 | the first checkpoint raises after taking effect: a concrete publication given up in state publishing |
| SpritePublication.SyncFailureRollsBack | backend/scripts/generate_resident_sprite.py:989-1002 | a directory flush failing after a successful rename undoes the whole publication |
| SpritePublication.PublishedIntactIff | backend/scripts/generate_resident_sprite.py:1003-1014 | "published" comes with intact files unless the last checkpoint raised after taking effect and clean-up deleted them |
| SpritePublication.PublishedYetRemoved | backend/scripts/generate_resident_sprite.py:1003-1014 | a concrete publication that ends published with its directory gone |
| SpritePublication.HalfRemovedIsStuck | backend/scripts/generate_resident_sprite.py:1058-1078 | recovery refuses a directory that is half deleted |
| SpriteStuck.HalfRemovedForGood | backend/scripts/generate_resident_sprite.py:933-1080 | once a publication or a recovery died while deleting the directory, no history of any commands changes the directory, publishes the run or rolls it back |
| SpriteStuck.HalfRemovedArises | backend/scripts/generate_resident_sprite.py:1003-1014 | and such a history exists from every fresh run |
| SpriteReview.ReviewPlanSound | backend/scripts/generate_resident_sprite.py:807-859 | each step of review, approval and rejection on the command line keeps the run documented |
| SpriteReview.WebPlanSound | backend/scripts/review_resident_sprite_batch.py:144-229 | each step of approval on the web page does |
| SpriteReview.PublishPlanSound | backend/scripts/generate_resident_sprite.py:933-1080 | each step of publication and recovery does |
| SpriteReview.StepBacked | backend/scripts/generate_resident_sprite.py:807-1080 | every event of every interleaving, crashes included, keeps all running commands documented |
| SpriteReview.EvidenceIsStored | backend/scripts/generate_resident_sprite.py:275-281 | in every reachable state: past Phaser review its evidence is stored with the texture, and the screenshot or the other image and the report it is about; past approval an approval with all nine checks true is |
| SpriteReview.NothingIsUndone | backend/scripts/review_resident_sprite_batch.py:232-276 | stored evidence is never altered or forgotten, and a rejected run stays quarantined whatever runs afterwards |
| SpriteReview.PublishedWithFiles | backend/scripts/generate_resident_sprite.py:978-1003 | with one publish or recover command at a time, published is only entered with texture, portrait and record of the run in place under their names |
| SpriteReview.OnlyTheInstallerUndoes | backend/scripts/generate_resident_sprite.py:989-1014 | a publication undoes only a directory it installed itself, and it installs only where there was none or an empty one |
| SpriteReview.UndoKeepsWhatItFound | backend/scripts/generate_resident_sprite.py:1004-1014 | without having installed anything it leaves the directory as it is and only rolls the run back |
| SpriteReview.PublishedStaysIntact | backend/scripts/generate_resident_sprite.py:933-1080 | and they stay, if no step raises after taking effect |
| SpriteHistories.FilesIffOneAtATime | backend/scripts/generate_resident_sprite.py:933-1080 | all histories with at most n publish and recover commands under way at once enter published only with the files in place, if and only if n is at most one |
| SpriteHistories.PublishedWithoutFiles | backend/scripts/generate_resident_sprite.py:1055-1079 | with a recovery overlapping a publication, any approved run can end published without files: the events are exhibited |
| SpriteHistories.ApprovalAndPublication | backend/scripts/generate_resident_sprite.py:807-1003 | a history from a fresh run through generation, review and approval to an intact publication |
| SpriteStuck.ReviewAfterCrashIff | backend/scripts/review_resident_sprite_batch.py:144-229 | after a review died between its evidence and its checkpoint, some history gets the run past review if and only if some later command completes it: for command-line evidence the very same reviewer and time; for web evidence a web submission by the same reviewer with the stored texture and all nine checks, at any time once the manifest names the evidence and at the very same time before |
| SpriteStuck.RejectionAfterCrashIff | backend/scripts/generate_resident_sprite.py:844-859 | after a rejection died between its evidence and its checkpoint, some history in which the worker quarantines nothing ends quarantined if and only if a later command is the very same rejection, reason and time included |
| SpriteCrashes.WebReviewEnds | backend/scripts/review_resident_sprite_batch.py:169-214 | the page takes stored evidence of the same reviewer over and completes the review: the events are exhibited |
| SpriteStuck.ApprovalAfterCrashIff | backend/scripts/review_resident_sprite_batch.py:144-229 | after an approval died between its evidence and its checkpoint, some history approves the run if and only if a later command line or web submission is the very same approval, the time included, and a web submission agrees with the stored image and review |
| SpriteHistories.ReviewDies | backend/scripts/generate_resident_sprite.py:807-825 | a review on the command line dies so, from a fresh run, its evidence named by the manifest or not |
| SpriteCrashes.WebReviewDies | backend/scripts/review_resident_sprite_batch.py:169-214 | a review on the web page dies so, from a fresh run |
| SpriteCrashes.RejectedYetApproved | backend/scripts/generate_resident_sprite.py:828-859 | a rejection dies so, from a fresh run, and the run is approved all the same |
| SpriteHistories.ApprovalDies | backend/scripts/generate_resident_sprite.py:828-841 | an approval dies so, from a fresh run |
| CaravanPath.TurnIndexes | backend/scripts/local_market_demo.py:161-169 | the required indexes are both ends and every change of heading |
| CaravanPath.WidestSpan | backend/scripts/local_market_demo.py:193-197 | the first of the widest spans |
| CaravanPath.RoomLeft | backend/scripts/local_market_demo.py:192-199 | with points to spare and tiles left out some span can be cut: the early exit of the loop is unreachable |
| CaravanPath.FillSpans | backend/scripts/local_market_demo.py:192-200 | bisection reaches exactly the wanted number of points and keeps every cut span at least half of the widest left |
| CaravanPath.SampleAxisPath | backend/scripts/local_market_demo.py:172-201 | which inputs are rejected, and that any other path keeps exactly min(points, length) tiles, both ends and every corner |
| CaravanPath.HopsFollowRowsAndColumns | backend/scripts/local_market_demo.py:172-178 | on a grid path every retained hop stays on one row or column of the source path |
| CaravanTimeline.ProperMeans | backend/scripts/local_market_demo.py:90-106 | phase lengths of every allowed round |
| CaravanTimeline.ProperIff | backend/scripts/local_market_demo.py:90-106 | phase lengths are the fixed shares of a total from 20 seconds to an hour, and every such total has them |
| CaravanTimeline.SortSorts | backend/scripts/local_market_demo.py:348-350 | the timeline is in order of time and holds exactly the frames made |
| CaravanTimeline.SortIsStable | backend/scripts/local_market_demo.py:348-350 | frames of one instant keep the order in which they were made |
| CaravanRound.LegIs | backend/scripts/local_market_demo.py:204-235 | the moves of one walk are an interval apart, the first one interval into the phase, the last one interval before its end and on the last tile |
| CaravanRound.MovesOfOne | backend/scripts/local_market_demo.py:238-350 | in the sorted timeline a resident walks in, then out, every two moves an interval apart |
| CaravanRound.SnapshotsInOrder | backend/scripts/local_market_demo.py:270-341 | the sorted timeline shows the five snapshots in order of version |
| CaravanScript.RoundAnnounced | backend/scripts/local_market_demo.py:258-341 | the five snapshots at their places in the sorted timeline: when each is due, its version, phase, position, and the path and times of its motion |
| CaravanScript.RoundAccompanied | backend/scripts/local_market_demo.py:283-350 | every other frame: moves while residents walk, and each resident idle a hundredth of a second after arrival |
| CaravanScript.MovesExactly | backend/scripts/local_market_demo.py:204-236 | every move of a resident in the sorted timeline: when, to which tile of its walk, with which target |
| CaravanRound.WithinTheRound | backend/scripts/local_market_demo.py:238-350 | every frame lies within the round, and no move is within an interval of the end of its phase |
| CaravanRound.UptoIsABeginning | backend/scripts/local_market_demo.py:624-629 | the frames due by a moment are a beginning of the timeline, so showing them is what the driver does |
| CaravanRound.OnSlotDuringTrading | backend/scripts/local_market_demo.py:238-350 | replaying the timeline puts every resident on its slot throughout trading |
| CaravanRound.HomeAtTheEnd | backend/scripts/local_market_demo.py:238-350 | and at home at the end |
| CaravanTimeline.SortSplits | backend/scripts/local_market_demo.py:348-350 | frames all due before the others are sorted on their own |
| CaravanShape.TimelineInParts | backend/scripts/local_market_demo.py:268-350 | the sorted round is its phases one after another, each opened by its snapshot |
| CaravanShape.RoundShape | backend/scripts/local_market_demo.py:268-350 | how many frames every round has, and which of them are snapshots, from the paths and durations alone |
| CaravanDemo.ResidentFrames | backend/scripts/local_market_demo.py:204-235 | one phase: all walks sampled and timed, or rejected exactly when some path cannot be walked in it |
| CaravanDemo.GenerateCycle | backend/scripts/local_market_demo.py:238-350 | a round is generated exactly for four residents with unique slugs on the four slots, a route, and walkable paths; its timeline then goes by the script |
| CaravanDemo.VersionsRise | backend/scripts/local_market_demo.py:624-629 | the recorded version is the highest shown so far in the round and the next snapshot is higher |
| CaravanDemo.Driver.PlayRound | backend/scripts/local_market_demo.py:624-629 | a round is played up to the stop or the first frame that raises, and the version recorded is that of the last snapshot noted |
| CaravanDemo.Driver.PublishCleanup | backend/scripts/local_market_demo.py:564-593 | the clean-up publishes departure above the recorded version and then each resident's way home, up to the first frame that raises; frame x goes out exactly when none before it raised and it is not lost |
| CaravanDemo.Driver.RunDemo | backend/scripts/local_market_demo.py:564-634 | whatever stops the demo: whole rounds, a beginning of one more, then the clean-up; frame k is sent exactly when the broker, the stop flag and the cycles let it through; the first frame of the clean-up is the departure of the recorded visit, outside the market, and its version is above every snapshot of that visit shown if and only if the broker does not raise on a snapshot frame after delivering it; then each resident's move home and idle notice; everyone is home in the end if the frames up to the last move go out |
| CaravanDemo.LosesAtTheEnd | backend/scripts/local_market_demo.py:596-634 | the loss of a version, told from what the demo is given, is the loss by the last frame sent |
| CaravanDemo.VersionLost | backend/scripts/local_market_demo.py:624-629 | a concrete demo whose version is lost |
| CaravanDemo.CleanupSendsHome | backend/scripts/local_market_demo.py:580-593 | when the clean-up is cut after m frames, a resident stands at home if its move is among them and where it stood if not |
| CaravanAssignment.OrdersAreBijections | backend/scripts/local_market_demo.py:495 | the search space is exactly the set of ways to use every slot once |
| CaravanAssignment.Try | backend/scripts/local_market_demo.py:496-504 | an order is scored exactly when all its paths exist |
| CaravanAssignment.Assign | backend/scripts/local_market_demo.py:494-508 | for any number of slots: the cheapest feasible assignment, first among equals; none exactly when none is feasible |
| CaravanAssignment.FourWays | backend/scripts/local_market_demo.py:496-506 | what an assignment costs: the tiles of its four ways together |
| CaravanAssignment.CacheRoutes | backend/scripts/local_market_demo.py:470-476 | a route is known exactly where the path finder has one |
| CaravanAssignment.ByDistanceSorts | backend/scripts/local_market_demo.py:483-490 | candidates in order of nearest slot, then slug |
| CaravanAssignment.NearestFourAreNearest | backend/scripts/local_market_demo.py:478-492 | those chosen can reach the market, and nobody left out who can is closer |
| CaravanAssignment.DistanceIs | backend/scripts/local_market_demo.py:478-490 | a candidate's distance is the fewest tiles to one of the four market places, and there is one exactly when one can be reached |
| CaravanAssignment.ChosenByDistance | backend/scripts/local_market_demo.py:478-492 | whoever is left out is further away than each of those chosen, or as far and not earlier by slug |
| CaravanAssignment.ChosenInOrder | backend/scripts/local_market_demo.py:483-490 | those chosen stand in order of distance, and of slug where that is equal |
| CaravanAssignment.CheckRequest | backend/scripts/local_market_demo.py:449-468 | a request is accepted exactly when it names four different known residents, or none and four are known; and what is wrong with any other |
| CaravanAssignment.BuildProjections | backend/scripts/local_market_demo.py:444-519 | residents are projected exactly when four are chosen and some assignment is feasible, and then at least total length; and the reason for every refusal |
| CaravanAssignment.ChosenCanPlay | backend/scripts/local_market_demo.py:510-519 | the projections meet what a round asks of its residents |
| BodyLimit.LimitOfLongestPrefix | backend/app/http_body_limit.py:49-61 | the prefix limit is that of the one longest matching prefix, whatever the table order |
| BodyLimit.ExactEntryWins | backend/app/http_body_limit.py:45-61 | an exact entry decides whatever prefixes match, and a route is unlimited exactly when nothing is configured for it |
| BodyLimit.AdmitMeans | backend/app/http_body_limit.py:63-85 | 400 exactly when the declared lengths are not one non-negative number, 413 exactly when that number is over the limit |
| BodyLimit.HeaderAnswered | backend/app/http_body_limit.py:63-85 | what the client sees of its declared lengths, as literal events and for every application, which is not run: 413 for one number over the limit, 400 for anything but one non-negative number |
| BodyLimit.Limiter.LimitedReceive | backend/app/http_body_limit.py:91-99 | one receive: the counter grows by the body, and the overflow is raised exactly past the limit |
| BodyLimit.Limiter.TrackedSend | backend/app/http_body_limit.py:101-111 | one send: forwarded and noted before an overflow, dropped after it |
| BodyLimit.Limiter.Await | backend/app/http_body_limit.py:113-116 | running any application against the two wrappers is the reference run |
| BodyLimit.Limiter.Serve | backend/app/http_body_limit.py:63-125 | the whole call on a limited route is the reference call |
| BodyLimit.DeliveredWithinLimit | backend/app/http_body_limit.py:91-99 | no application is ever given more body bytes than the limit |
| BodyLimit.SilentAfterOverflow | backend/app/http_body_limit.py:91-111 | after the overflow nothing more goes out and no more body comes in, even if the application swallows the exception |
| BodyLimit.AlikeThroughout | backend/app/http_body_limit.py:87-116 | the overflow happens exactly when the unlimited run would have been given more than the limit; until then the runs are equal |
| BodyLimit.InvisibleWhenItFits | backend/app/http_body_limit.py:63-125 | a body that fits makes the limiter invisible, if and only if the application does not itself raise the limiter's exception |
| BodyLimit.SwallowsItsOwnClass | backend/app/http_body_limit.py:117-125 | an application that does, for every client and limit: alone it raises, behind the limiter the call ends normally with no response |
| BodyLimit.RefusedIff | backend/app/http_body_limit.py:117-125 | the two events of a 413 are added exactly when the call ends after an overflow with no response begun, and are then the only response; with one begun the exception is raised |
| BodyLimit.OverflowAnswered413 | backend/app/http_body_limit.py:117-125 | what the client sees of a body that is too long: if the call ends after the overflow with no response begun, 413 is the one response that begins |
| BodyLimit.ForwardedIsAPrefix | backend/app/http_body_limit.py:101-111 | what goes out is what the bare application sends before the overflow |
| MarketBridge.AuthoritativeMarketBridge.Initialize | backend/scripts/local_market_purchase_bridge.py:113-169 | initialisation fails, without effect, exactly when a resident is missing or not autonomous |
| MarketSteps.StartMeans | backend/scripts/local_market_purchase_bridge.py:113-169 | what initialisation notes, and that it gives each tracked resident 10000 |
| MarketSteps.WaitingMeans | backend/scripts/local_market_purchase_bridge.py:171-206 | a waiting frame of the demo adds its visit and event, each column written out, or raises and changes nothing |
| MarketSteps.InboundMeans | backend/scripts/local_market_purchase_bridge.py:208-229 | an inbound frame moves phase and tile of the current visit on and raises its version, and touches nothing else |
| MarketSteps.TradingMeans | backend/scripts/local_market_purchase_bridge.py:363-369 | a trading frame does so too, and then trades |
| MarketSteps.MoveMeans | backend/scripts/local_market_purchase_bridge.py:231-256 | a move notes a slot, and puts a remembered resident seen on its slot or at home there, idle; anywhere else it changes no row |
| MarketSteps.OutboundMeans | backend/scripts/local_market_purchase_bridge.py:313-350 | the way out takes exactly the goods of the visit off sale, once, and leaves it visible |
| MarketSteps.DepartureMeans | backend/scripts/local_market_purchase_bridge.py:313-350 | departure does so too, hides the visit, sends every remembered resident home in its old status, and forgets visit and slots |
| MarketSteps.OthersIgnored | backend/scripts/local_market_purchase_bridge.py:352-373 | frames of other kinds, phases and visits change nothing |
| MarketRows.PrepareRefusedIff | backend/scripts/local_market_purchase_bridge.py:171-206 | a visit is refused, without effect, exactly for a foreign event, for rows that exist or where its row would break a key of the visit table; else it is the one visible visit and the current one |
| MarketRows.PhaseOnlyRaises | backend/scripts/local_market_purchase_bridge.py:208-229 | a phase frame touches only the current visit's row, and neither lowers its version nor changes whether it is visible or withdrawn |
| MarketRows.RowsStayInPlace | backend/scripts/local_market_purchase_bridge.py:231-350 | whatever frames arrive, the rows of tracked residents only ever stand at home or on a market slot, and all others where they were |
| MarketBridge.AuthoritativeMarketBridge.TradeAndPublish | backend/scripts/local_market_purchase_bridge.py:257-311 | seats and stock in one transaction, then purchases in order of slot, up to a failing publish |
| MarketTrade.OpensWithSeats | backend/scripts/local_market_purchase_bridge.py:257-291 | when trading opens, every tracked resident has a slot, all different, and no seat of the visit is taken |
| MarketTrade.StockedFromSeats | backend/scripts/local_market_purchase_bridge.py:257-291 | the tables handed to stocking: each tracked resident stands idle on its slot and has exactly one visitor row of the visit, under the index of that slot, with nothing bought, and everything else is as before; afterwards the visit is trading, stocked and settled |
| MarketTrade.PurchasesInSlotOrder | backend/scripts/local_market_purchase_bridge.py:293-311 | each tracked resident buys exactly once, in order of the slots, on the tables the purchase before left, up to a failing publish |
| MarketTrade.RunSlots | backend/scripts/local_market_purchase_bridge.py:231-256 | slots recorded by any frames are the four market places |
| MarketRows.DepartedLeavesNothing | backend/scripts/local_market_purchase_bridge.py:313-350 | after departure every tracked resident is at home with its old status, no good of the visit is on sale, and nothing of it is visible or current |
| MarketBridge.AuthoritativeMarketBridge.Restore | backend/scripts/local_market_purchase_bridge.py:375-427 | the tables after the restore |
| MarketBridge.HandleKeeps | backend/scripts/local_market_purchase_bridge.py:171-373 | every frame leaves all differences from before the demo within what is remembered |
| MarketBridge.RestoreUndoes | backend/scripts/local_market_purchase_bridge.py:375-427 | restoring undoes all of them but the wallet copies |
| MarketBridge.DemoLeavesOnlyWallets | backend/scripts/local_market_purchase_bridge.py:113-427 | for every sequence of frames and all services limited to tracked rows, restore returns all six tables to their contents before the demo but for the wallet copies of tracked residents |
| MarketRestore.RestoreCompleteIff | backend/scripts/local_market_purchase_bridge.py:113-427 | for all tables and frames: the restore is complete whatever services limited to tracked rows do, if and only if no frame opens trading and none closes a visit that a good outside the import list is on sale for |
| MarketRestore.UnexposedStrandsNothing | backend/scripts/local_market_purchase_bridge.py:328-335 | the second cannot happen on tables that hold no such good for a visit still to come, or on which a visit is visible from before |
| MarketRestore.TradingDayTrades | backend/scripts/local_market_purchase_bridge.py:257-311 | a day of trading from any tables with no visible visit: waiting, four walks onto slots, trading; a purchase service that writes the balance into the wallet copy leaves it behind |
| MarketRestore.UndoneIffUnexposed | backend/scripts/local_market_purchase_bridge.py:313-427 | with services that leave wallet copies alone: every demo is undone completely if and only if some visit is visible from before or no good outside the import list is on sale for a visit a demo could still make |
| MarketRestore.PassingWithdraws | backend/scripts/local_market_purchase_bridge.py:313-427 | the history that takes such a good off sale for good: its visit comes and departs |
| MarketBridge.CloseReachesStrangersIff | backend/scripts/local_market_purchase_bridge.py:328-335 | closing a visit touches goods outside the import list if and only if an active one is on sale for that visit |
| MarketBridge.StrangerStaysWithdrawn | backend/scripts/local_market_purchase_bridge.py:328-335 | such a good stays off sale after the restore |
| Calibration.AnchoredEdges | backend/scripts/civic_calibration_report.py:110-125 | the one-pass table is, for every resident, the falling list of its edges with anchors |
| Calibration.SortDownSorts | backend/scripts/civic_calibration_report.py:123-124 | the list is in falling order and holds the same edges |
| Calibration.KthBelowMeans | backend/scripts/civic_calibration_report.py:159-168 | enough edges and still failing means exactly that the k-th highest is below theta |
| Calibration.AttributionPartitions | backend/scripts/civic_calibration_report.py:150-177 | banned, passed, days only, peers only and both partition the residents; peer rejections are too few plus k-th below |
| Calibration.AttributeGates | backend/scripts/civic_calibration_report.py:128-201 | the counters of the report, and which gates it lists as decorative |
| Calibration.DecorativeIsIdle | backend/scripts/civic_calibration_report.py:178-190 | loosening a gate listed as decorative, to any value, changes nobody's outcome |
| Calibration.LooserDaysHelpIff | backend/scripts/civic_calibration_report.py:153-176 | some lower day count admits a resident if and only if days alone keep it out |
| Calibration.FewerPeersHelpIff | backend/scripts/civic_calibration_report.py:153-176 | fewer peers admit a resident if and only if peers alone keep it out and that many edges reach theta |
| Calibration.LooserThetaHelpsIff | backend/scripts/civic_calibration_report.py:153-176 | some lower theta admits a resident if and only if peers alone keep it out and it has enough edges |
| Calibration.LooseningOnlyAdmits | backend/scripts/civic_calibration_report.py:153-176 | loosening never shuts anyone out |
| Calibration.PeersAreEdges | backend/app/tasks/civic_promotion.py:188-202 | counting edges finds at least as many as counting peers, and as many on a canonical edge table |
| Calibration.AgreesWithSelectPromotions | backend/app/tasks/civic_promotion.py:205-235 | the report counts as many passing as the promotion rule selects on a canonical edge table, and never fewer |
| Calibration.SelectedMeans | backend/app/tasks/civic_promotion.py:205-235 | who the nightly rule promotes: created residents, not banned, old enough, with enough different anchors at the other end of edges that reach theta |
| Calibration.DuplicateEdgesDisagree | backend/app/models/resident_relation.py:29-30 | why the relation table keeps one row a pair: on a list with a pair twice, which its key excludes, the two counts would differ |
| Relations.NoBumpIsLost | backend/app/services/relation_service.py:78-133 | every interleaving of concurrent bumps and decay passes leaves what atomic upserts one after another leave, one for each worker that finished; no worker fails, and a row counts exactly the workers that finished bumping its pair |
| Relations.ThreeTurnsFinish | backend/app/services/relation_service.py:78-133 | every bump begun has its worker, which is done after three turns at most in any interleaving |
| Relations.ThreeInARow | backend/app/services/relation_service.py:78-133 | three turns in a row finish any worker, whatever went before |
| Relations.UpsertMeans | backend/app/services/relation_service.py:48-133 | what a bump does to the table: the one row of the two ids, smaller first, each with its own type, is created or changed by clamped sums, and no other |
| Relations.UpsertFromEitherSide | backend/app/services/relation_service.py:48-56 | it does not matter from which side a pair is bumped |
| Relations.FadeMeans | backend/app/services/relation_service.py:206-224 | a decay pass scales the rows last seen before its cutoff and changes nothing else |
| Relations.CellsInRange | backend/app/services/relation_service.py:60-63 | familiarity stays in [0, 1] and affinity in [-1, 1] through any sequence of upserts and decays |
| Relations.TableInRange | backend/app/services/relation_service.py:60-133 | so they do in every row of the table, however its writers were interleaved |
| Relations.ReadsCanonical | backend/app/tasks/civic_promotion.py:390-400 | what the snapshot reads from a table with one row a canonical pair is a canonical edge list |
| Relations.EdgesAreRows | backend/app/tasks/civic_promotion.py:390-400 | an edge is read exactly from a row between two residents |
| Relations.ReportAgreesOnRelations | backend/scripts/civic_calibration_report.py:128-201 | so on every snapshot of that table, however it was written, the report counts as passing exactly as many as the nightly rule promotes |
| CalibrationCandidates.Percentiles | backend/scripts/civic_calibration_report.py:74-84 | nearest-rank percentiles are readings; none without readings |
| CalibrationCandidates.RanksInOrder | backend/scripts/civic_calibration_report.py:80-83 | ranks need no clamping between 0 and 100, rise with q, and reach the least and greatest reading |
| CalibrationCandidates.RankIs | backend/scripts/civic_calibration_report.py:80-83 | the nearest rank for q from 0 to 100, the least reading below and the greatest above |
| CalibrationCandidates.FloorToIsBelow | backend/scripts/civic_calibration_report.py:87-95 | a candidate is never above the reading it was rounded from |
| CalibrationCandidates.ThetaAdmitsItsSource | backend/scripts/civic_calibration_report.py:310-319 | the resident whose i-th edge gave a theta candidate passes the peers gate under it for i peers or fewer, and for no more when its next edge is below the candidate |
| CalibrationCandidates.DaysAdmitTheirSource | backend/scripts/civic_calibration_report.py:312-314 | the resident whose age gave a day candidate passes the days gate under it |
| CalibrationCandidates.CapEvenlyExact | backend/scripts/civic_calibration_report.py:98-107 | thinning a rising list longer than the limit gives exactly limit different values of it, in order, the first and last among them |
| CalibrationCandidates.CapEvenlyPicks | backend/scripts/civic_calibration_report.py:98-107 | which values are kept, by their places: value i is the one at i/(limit-1) of the list, rounded half to even |
| CalibrationCandidates.CapEvenlyOnlyChooses | backend/scripts/civic_calibration_report.py:98-107 | whatever the input, thinning only chooses |
| CalibrationCandidates.Candidates | backend/scripts/civic_calibration_report.py:310-319 | the candidates are the rounded percentiles of all samples, merged without repeats and thinned to the limit |
| CalibrationCandidates.ThetaCandidates | backend/scripts/civic_calibration_report.py:315-319 | they are so for the samples of everybody's edges and of the k-th edges of whoever has that many; every theta candidate comes from a named edge of a named resident |
| OpinionClusters.ClustersAreComponents | backend/scripts/burnin_report.py:679-683 | the clusters counted from sorted gaps are the connected components of the graph of stances at most epsilon apart |
| OpinionClusters.NobodyAgrees | backend/scripts/burnin_report.py:679-683 | with a negative epsilon every stance is its own cluster |
| OpinionClusters.ClustersIgnoreOrder | backend/scripts/burnin_report.py:679-683 | the count does not depend on the order of the rows, for any epsilon |
| OpinionClusters.CountClusters | backend/scripts/burnin_report.py:679-683 | the counting loop |
| OpinionClusters.StancesAre | backend/scripts/burnin_report.py:656-672 | the stances counted on an issue are those of the rows on it, row for row |
| OpinionClusters.OpinionIssueStats | backend/scripts/burnin_report.py:656-687 | per issue: how many stances and how many clusters |
| Rounding.HalfEvenIsNearest | backend/app/world_clock.py:74-78 | half-even division is within half a unit, and even on ties |
| Rounding.NearestIsHalfEven | backend/app/world_clock.py:74-78 | and is the only integer that is |
| Rounding.HalfEvenMonotone | backend/app/world_clock.py:74-78 | larger quotients never round lower |
| Rounding.HalfEvenSteps | backend/scripts/civic_calibration_report.py:104-106 | steps longer than one never round to the same index |
| WorldClock.RealRoundTrip | backend/app/world_clock.py:67-78 | real to world and back is exact |
| WorldClock.WorldRoundTrip | backend/app/world_clock.py:67-78 | world to real and back is off by at most k/2 microseconds, and exact only on multiples of k from the epoch |
| WorldClock.ClocksRunForward | backend/app/world_clock.py:67-78 | both maps are monotone |
| WorldClock.WeeksOnlyAdvance | backend/app/world_clock.py:101-108 | the week index never decreases and names the week the world is in |
| WorldClock.NextHourIsNext | backend/app/world_clock.py:111-120 | the next h:00 is the first one strictly ahead, at most a day away |
| WorldClock.MorningsAreADayApart | backend/app/world_clock.py:111-120 | consecutive mornings are a day apart |
| WorldClock.WaitLandsOnTheHour | backend/app/world_clock.py:123-132 | the wait lands within k/2 microseconds of the next world h:00, and is at most a world day of real time up to rounding |
| Housing.FirstFreeIsFree | backend/alembic/versions/011_backfill_home_location.py:46-52 | the place chosen is the first with room, and there is one exactly while any is free |
| Housing.TownFillsInOrder | backend/alembic/versions/011_backfill_home_location.py:15-52 | in the town the six houses for one fill up in order, then the three blocks of five |
| Housing.NeverOverfull | backend/alembic/versions/011_backfill_home_location.py:36-57 | no location ends above the larger of its capacity and what it held; others are untouched |
| Housing.OnlyTheHomelessMove | backend/alembic/versions/011_backfill_home_location.py:24-57 | existing homes and players are untouched |
| Housing.HousesAsManyAsFit | backend/alembic/versions/011_backfill_home_location.py:36-57 | exactly min(homeless, free places) are housed |
| Housing.Town.Upgrade | backend/alembic/versions/011_backfill_home_location.py:22-57 | for any list of houses the migration is the reference backfill on the counted occupancy |
| Housing.BackfillIsSound | backend/alembic/versions/011_backfill_home_location.py:15-57 | the town as a whole: occupancy bounds and how many stay homeless |

## Left out

- Database sessions, SQL, Redis, WebSockets, HTTP serving, argument parsing, JSON and HTML rendering: tables are sequences or maps and frames are values.
- The order of the anomaly list: the code sorts it by its JSON text, the model states the bag.
- Lenient reading of database columns (missing keys, `str()` of ids): columns arrive parsed into datatypes, with the cases the code distinguishes kept apart.
- One source loop that fills several dictionaries at once appears as one grouping loop per dictionary.
- LabCohorts.CollectActualRows: rows come in table order where the code sorts tasks and holds by id; which hold and run a row names does not depend on that.
- The 1120-row matrix of `generate_matrix` and the artifact-state vocabulary check: finite, settled by enumeration.
- `SpriteRun`: request budgets, provider request ids, claim owners and expiry times, and the hashes of registered files (files are compared by content).
- `SpritePublication`: the order in which files of a directory are deleted (here texture, portrait, record; the code leaves it to the file system), the temporary staging directory and its removal, symbolic links and path validation, and expired claims in recovery, which a run in state `publishing` cannot hold.
- `SpriteReview`: a command's opening reads (manifest and artifacts) are one step, batch synchronisation is not modelled, and the worker never calls the explicit quarantine review, which no command calls; `SpriteRun` covers it.
- SpriteReview.PublishedWithFiles: assumes one publish or recover command at a time; without that it is false, see `SpriteHistories.FilesIffOneAtATime`.
- SpriteStuck.RejectionAfterCrashIff: speaks of histories in which the worker quarantines nothing, since the worker can put any run not yet approved into the same state.
- SpriteReview.PublishedStaysIntact: besides that assumes that no step raises after taking effect, the case `SpritePublication.PublishedIntactIff` decides.
- `EvidenceFile`: closing the descriptor, and symbolic links.
- `CaravanTimeline`: wall-clock timestamps inside frames are offsets within the round, in exact reals; floating-point rounding of offsets is not modelled.
- `CaravanDemo`: sleeping between frames is only a look at the stop flag, and a frame that raises is the only failure; killing the process is not modelled.
- `CaravanAssignment`: the path finder is a parameter assumed to return a path from start to goal or none; resident names are dropped.
- `BodyLimit`: parsing of header bytes (declared lengths arrive as numbers or as invalid), upper-casing of methods, and errors raised by the server's own send and receive.
- `MarketBridge`: timestamps other than whether they are set, generated ids, and the stocking and purchase services, which are arbitrary within tracked rows and the current visit. Update timestamps of treasury rows are not columns of the model.
- MarketBridge.DemoLeavesOnlyWallets: assumes that the tables expose no good outside the import list, the condition `MarketRestore.UndoneIffUnexposed` shows to be needed.
- MarketRows.RowsStayInPlace: assumes services that move nobody, as the purchase service does not.
- MarketRows.DepartedLeavesNothing: speaks of a visit not withdrawn before; once goods are withdrawn the code does not look at them again.
- `Relations`: sessions, player relations (rows the report filters out), and which of several conversations bumps a pair; times are reals.
- `Calibration`: ages and familiarities are exact reals; which citizens count as anchors is a parameter; the sweep grid and its verdict labels, per-run caps and breaker are not modelled.
- `CalibrationCandidates`: quotients are rounded exactly, where the code divides in floating point first.
- `OpinionClusters`: mean, variance and bimodality of an issue.
- The other burn-in probes (usage totals, trip summaries, latest standing, network skewness) would add folds, sums and filters of the same kind.
- `WorldClock`: calendar limits of dates, and offsets of the anchor zone in years when it had daylight saving time; seconds are kept as whole microseconds.
- `Housing`: ids and creation times only give the order of rows.
- Roster, poll, digest, SBTI, office and preset-arc scripts, configuration, migrations that only create tables, release-gate and audit scripts.
