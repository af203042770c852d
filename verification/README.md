# The edit pipeline of a Creative-Tonie, verified

This project models how the application edits the chapter list of a Creative-Tonie, and proves what its users rely on:
edits are planned without losing rows, a write is confirmed before it is believed, a submission can be undone at most
once and undone exactly, and concurrent uploads, edits and undos do not overtake each other.

`dafny verify dfyconfig.toml` checks everything.

## How it is built

| files | what they model |
|---|---|
| `Lists.dfy` | options, results, `pop` and `insert` on lists |
| `Planner.dfy`, `PlannerLaws.dfy`, `PlannerEdits.dfy` | the batch planner `apply_ops`, what a batch conserves, and what each edit writes |
| `UndoSteps.dfy`, `UndoLaws.dfy` | inverse recipes: recording, replaying, and why running them backwards restores |
| `CloudContent.dfy`, `CloudWrite.dfy` | reading, comparing and confirming lists; `ToniesAPI.apply` and `ToniesAPI.undo` |
| `CloudLimits.dfy`, `CloudConfirms.dfy` | how much a Tonie holds and which uploads it turns down; when a write or an undo counts as confirmed |
| `CloudLaws.dfy`, `CloudCounterexamples.dfy` | undo end to end, for every cloud; the ids for which it goes wrong |
| `Queue.dfy` | the action queue and the undo store as one step machine |
| `QueueInvariants.dfy`, `QueueSteps.dfy`, `QueueGrants.dfy`, `QueueWake.dfy`, `QueueOrder.dfy` | what every step keeps |
| `QueueStatus.dfy`, `QueueCapabilities.dfy`, `QueueTidy.dfy` | the one cause of every status, the life of an undo capability, and what is left behind |
| `QueueUndone.dfy`, `QueueOffers.dfy` | what it means that an action was undone; who can undo what, until when |
| `QueueProgress.dfy` | nothing gets stuck |
| `QueueRuns.dfy`, `QueueOverlap.dfy`, `QueueCounterexamples.dfy` | the promises over whole runs, and the interleavings that break some |
| `QueueWitness.dfy` | runs from the empty queue: every confirmed write of single submissions has one, and so have the failures of undo |
| `ActionQueue.dfy` | the classes `UndoStore` and `ActionQueue`, each method proved to be one step of the machine |
| `HandOver.dfy`, `MultiAdd.dfy`, `Pipeline.dfy` | parallel downloads that hand over in list order, where several picks end up, and both over runs of the pool and the queue together |
| `MultiAddWitness.dfy` | such a run, from the empty pool and queue, in which two picks come out upside down |
| `Overlay.dfy` | the browser's preview of queued edits |
| `Sessions.dfy` | browser sessions against locking the vault |
| `UploadMirror.dfy` | how a job follows its upload through late and repeated callbacks |

The cloud is an adversary: every read, PATCH reply and read-back is a parameter that may be anything, and every theorem
about a write holds for all of them. The clock is a real number that only grows; seconds and capacities are reals. The
title rule (`renamed_title`) is a parameter, any function from the old and the requested title to a new one or none.

In the queue each block under `self._cond` is one event; `api.apply`, `api.undo` and `prepare_upload` have separate begin
and end events, so submissions, cancels, resets, ticks, undos and worker steps interleave freely. A run is any sequence
of events. Actions are numbered in submission order; the groups of the undo store are numbered too, so that an
object shared by the store and its actions is one number.

Every induction is written out: a lemma that Dafny would try by induction on its own carries `{:induction false}`.

## What the proofs found

- **A worker can sleep beside due work.** `_ready_batch` and the list of deadlines read the clock separately
  (`app/actions.py:276`, `app/actions.py:293`). If a delay ends between the two readings, the worker waits without a
  timeout although its delete is due (`QueueCounterexamples.MissedDeadline`). No wake-up is lost in a run exactly when
  this does not happen in it (`QueueRuns.NoLostWakeupIff`), and then nothing gets stuck
  (`QueueProgress.EverythingSettles`).
- **The undo block is a set.** Deleting a track and undoing that at once lifts the block of another undo of the same
  Tonie whose inverse is still running (`QueueCounterexamples.UndoneDeleteLiftsBlock`). The next edit then enters a write
  while the inverse runs, from any state with a running inverse (`QueueCounterexamples.WriteBesideInverse`), and
  `QueueWitness.OverlapIsReachable` is such a run from the empty queue. Every running inverse stays guarded exactly when
  no other undo of its Tonie finishes meanwhile (`QueueOverlap.GuardedIffAlone`); while none does, a write can come to be
  in flight beside the inverse exactly when one already is or the block has been lifted
  (`QueueCounterexamples.BesideInverseIff`). What overlaps is the action in `applying` and the running inverse: within one
  account session `_target_lock` (`app/tonies_api.py:127`, `app/tonies_api.py:167`), which is not part of this model, still
  runs the two PATCHes one after the other. An inverse never starts while a forward write is in flight, without
  condition (`QueueRuns.InverseStartsAlone`).
- **Staging ids must not come back as permanent ids.** If the cloud gives one upload the staging id of another, undo
  removes the wrong chapter (`CloudCounterexamples.CrossTalkRemovesTheWrongChapter`; `QueueWitness.CrossTalkIsReachable`
  is a run from the empty queue that ends there). In every reachable state, undoing an upload on a list that still matches
  is right exactly when this does not happen to it, whether file ids repeat or not (`QueueRuns.UndoRestoresSubmission`).
- **File ids must differ within a batch.** `existing_ids` is not extended by attaches, so a repeated allocation yields
  two rows with one id (`PlannerLaws.RepeatedAllocationDuplicates`). A batch keeps ids unique all the way exactly when no
  successful attach repeats an id of the running list (`PlannerLaws.PlanStaysUniqueIff`). The replay that records the
  recipes plans one op at a time and refuses such an attach, so it keeps up with the batch under exactly the same condition
  (`UndoLaws.ReplayRefinesIff`). After a repeat a recorded recipe can be wrong: undoing a move misplaces the chapter
  (`CloudCounterexamples.RepeatedIdMisplacesTheMove`, in a run from the empty queue `QueueWitness.RepeatedIdIsReachable`).
  Undoing edits on a list that still matches is therefore promised for writes in which no attach repeats an id, and there
  it is always right (`QueueRuns.UndoRestoresSubmission`).
- **Several picks at an `after` row or an index come out upside down.** The documentation of
  `select_candidates_and_continue` promises top-down order wherever they land; the code reverses the hand-over for the top
  edge only. Order is kept exactly for edges, no position and a `before` row that is there, and otherwise when at most one
  pick attaches, or at most one more than an index lies past the end: with index k and n rows, when at most k - n + 1 do.
  A gone anchor with an index counts as that index; without one nothing attaches (`MultiAdd.MultiAddOrderIff`, and
  `Pipeline.MultiAddOverRuns` for every run of the pool and the queue). `MultiAddWitness.UpsideDownIsReachable` is such a
  run: two picks for the place after a chapter are downloaded, handed over in list order and confirmed, and the second
  stands above the first.
- **The preview clamps where the planner refuses.** A move whose fallback index lies past the end is shown at the end of
  the list, and the planner refuses it with `TrackPositionInvalid` (`Overlay.MovePastTheEnd`, with an example in
  `Overlay.PreviewShowsWhatIsRefused`). The preview is right exactly when no move does this (`Overlay.OverlayShowsPlan`).
  A rename to a title that is empty without its token is shown as well and refused; with titles compared, the preview is
  right exactly when neither happens (`Overlay.OverlayShowsTitles`).
- **One refusal of `undo` never happens.** "Undo deletion window has ended" (`app/undo.py:116-118`) is for a pending
  submission that has left the queue, but a submission leaves the queue only when its capability ends or has run out
  (`QueueOffers.UndoTakesIff`, whose condition does not mention it).
- **A session can be issued between locking the vault and revoking.** It does not survive the end of the lock
  (`Sessions.SessionInsideLock`, `Sessions.LockSignsEveryoneOut`).

## Model

| member | source | states |
|---|---|---|
| `Planner.Find` | app/tonies_batch.py:62-66 | a row is found exactly when it is the only one with its id |
| `Planner.ApplyToCandidate` | app/tonies_batch.py:128-156 | popping and inserting on the candidate, check by check, is one planner op, with the error of the first check that fails |
| `Planner.ApplyOps` | app/tonies_batch.py:109-125 | the loop that drops a failed candidate computes the fold over which all laws below are proved |
| `PlannerLaws.UniqueAfterOne` | app/tonies_batch.py:128-156 | a successful op keeps ids unique if and only if it is not an attach of an id already in the list |
| `PlannerLaws.PlanStaysUniqueIff` | app/tonies_batch.py:109-143 | every prefix of the plan has unique ids if and only if no successful attach repeats an id of the running list |
| `PlannerLaws.UniqueAfterPlan` | app/tonies_batch.py:109-125 | a batch whose file ids are distinct keeps ids unique, although `existing_ids` is fixed at its start |
| `PlannerLaws.RepeatedAllocationDuplicates` | app/tonies_batch.py:113-142 | a file id attached twice in one batch succeeds twice and leaves two rows with one id |
| `PlannerLaws.LimitsAfterPlan` | app/tonies_batch.py:146-149 | a batch never exceeds the chapter limit or the capacity (plus the one second of tolerance) unless the list did before |
| `PlannerLaws.RowsAreConserved` | app/tonies_batch.py:109-156 | every row of the result is an old row with the same id, file, duration and type, or the row of one successful attach |
| `PlannerLaws.MarksStayDistinct` | app/tonies_batch.py:150-155 | attach marks are pairwise distinct and number ops of the batch |
| `PlannerLaws.PlanConserves` | app/tonies_batch.py:109-125 | conservation for a whole call: unique ids, limits, distinct marks, unmarked rows survive and marked rows name a successful attach |
| `PlannerLaws.AlikeOne` | app/tonies_batch.py:128-156 | an op behaves the same on lists that differ in attach marks only, whatever its number |
| `PlannerLaws.FailedOpsAreInvisible` | app/tonies_batch.py:116-125 | planning only the ops that succeed gives the same list up to marks, and then every op succeeds |
| `PlannerLaws.PlanSplits` | app/tonies_batch.py:116-125 | planning two runs of ops together is planning the second on the result of the first |
| `PlannerEdits.TargetIsNamed` | app/tonies_batch.py:69-80 | a target is found exactly when it is named, and each of the three refusals has its own condition |
| `PlannerEdits.RenameWrites` | app/tonies_batch.py:135-137 | a rename gives the named row, and no other, the title the rule makes of its own old title, and fails for the title exactly when the rule refuses that |
| `PlannerEdits.EditWrites` | app/tonies_batch.py:128-156 | what a delete, move, upload or clear does to the list, row by row; a refused edit does nothing |
| `PlannerEdits.TitlesFollowRenames` | app/tonies_batch.py:113-137 | over a batch, the title of every planned row is its old one, or the one it was attached under, folded through exactly the successful renames that name it |
| `PlannerEdits.PlannedTitles` | app/tonies_batch.py:109-137 | the same for a whole call whose renames name their chapters by id, in terms of the ops and their errors alone |
| `UndoSteps.InverseSteps` | app/undo.py:133-166 | the loop over a work list records, per op, the recipe that is right for the list just before that op |
| `UndoSteps.ApplyInverse` | app/undo.py:169-195 | running recipes with in-place pop and insert is the fold of single steps, including every refusal |
| `UndoLaws.UndoRename` | app/undo.py:148-149 | running the recorded title recipe on the cloud's list gives a mirror of the list before the rename |
| `UndoLaws.UndoMove` | app/undo.py:150-157 | running the recorded anchor recipe puts the moved row back, for each of the three kinds of anchor |
| `UndoLaws.UndoAttach` | app/undo.py:158-159 | running the recorded removal takes exactly the attached row away |
| `UndoLaws.ReplayRefinesBatch` | app/undo.py:139-160 | if no attach of the batch repeats an id, replaying the successful ops one at a time, without limits, passes through the lists of the single batch fold, up to marks |
| `UndoLaws.ReplayRefinesIff` | app/undo.py:139-160 | the replay keeps up with the batch after every op if and only if no successful attach repeats an id of the running list |
| `UndoLaws.RecordingSucceeds` | app/undo.py:144-146 | on the results of a batch without repeats recording never raises "Invalid inverse identity" |
| `UndoLaws.RecordSplits` | app/undo.py:133-166 | recording a batch is recording its head, then its tail from where the replay of the head ends |
| `UndoLaws.InjectiveBackwards` | app/undo.py:133-166 | if the id map is injective on the planned list it is injective on every list before it, so no recipe is ambiguous |
| `UndoLaws.UndoSuffix` | app/undo.py:169-195 | undoing a run of invertible ops without repeats last first, on a list the cloud renamed, mirrors the list from before them |
| `CloudContent.ValidatedChapters` | app/tonies_content.py:52-64 | a list is accepted exactly when ids are present and unique and every row is valid |
| `CloudContent.MatchesChapters` | app/tonies_content.py:71-77 | overwriting the rows in processing and comparing whole lists decides the pointwise relation |
| `CloudContent.MatchesIsEquivalence` | app/tonies_content.py:71-77 | for fixed processing ids matching is an equivalence, and it only weakens as the ids grow |
| `CloudContent.Readback` | app/tonies_content.py:144-154 | the bounded polling loop returns the first poll that shows the expected list, and nothing after a failed read, the deadline or 40 polls |
| `CloudWrite.ConfirmAttachments` | app/tonies_api.py:185-202 | succeeds exactly when every attached row is new and keeps title and type and every kept row matches; then fills the permanent ids by position |
| `CloudWrite.MarksAreInRange` | app/tonies_api.py:196 | every mark of a plan indexes the results, so the assignment cannot fail |
| `CloudWrite.Apply` | app/tonies_api.py:117-156 | one read, one plan, at most one PATCH and one read-back give exactly the outcome the laws speak about, for every cloud |
| `CloudWrite.Undo` | app/tonies_api.py:158-182 | the guarded inverse gives exactly the outcome the laws speak about, for every cloud |
| `CloudLimits.PlanFits` | app/tonies_api.py:130-136 | no batch leaves a list longer than the one before it and also longer than the Tonie's maximum plus a second, or than what is free beyond its chapters plus a second; nor more chapters than allowed |
| `CloudLimits.UploadsTurnedDown` | app/tonies_batch.py:140-153 | an upload is turned down for exactly the first reason that applies, in the fields of the snapshot: its file id, its title, the number of chapters, the room, a place that is gone; otherwise it is taken |
| `CloudLimits.WriteFits` | app/tonies_api.py:117-156 | both for a confirmed write |
| `CloudConfirms.ReadBackIff` | app/tonies_content.py:144-154 | the read-back succeeds if and only if one of the first forty polls shows the list and every poll before it was readable and did not |
| `CloudConfirms.WriteConfirmedIff` | app/tonies_api.py:117-156 | the outcome of `apply` for every cloud: refused, unchanged, or, once the PATCH is taken, confirmed if and only if the polls come to show the list that was sent under the reply's ids |
| `CloudConfirms.UndoConfirmedIff` | app/tonies_api.py:172-182 | an undo that sent a list is confirmed if and only if the PATCH was accepted and the polls come to show that list, busy chapters of the snapshot and of the receipt apart |
| `CloudConfirms.UndoRefusedFor` | app/tonies_api.py:165-174 | an undo is refused before anything is sent for exactly the first reason that applies: another account or Tonie, a list that cannot be used or no longer matches, an action without a recipe, a recipe that does not fit |
| `CloudConfirms.StepRefusedFor` | app/undo.py:172-192 | a recipe fits a list exactly when its chapter and its anchor are each there once, with one refusal for each |
| `CloudConfirms.UnusableStops` | app/tonies_content.py:46-64 | nothing is written, undone or confirmed on a list that could not be read, repeats an id, or holds a chapter without an id, with a negative duration or whose processing failed |
| `CloudLaws.IdsFilled` | app/tonies_api.py:192-199 | a result gets a permanent id exactly when a row carries its mark |
| `CloudLaws.AttachedIdsAreNew` | app/tonies_batch.py:142-143 | an attach that got a permanent id did not reuse an id of the snapshot |
| `CloudLaws.AttachmentsMapByPosition` | app/tonies_api.py:192-202 | when the planned ids are unique, the permanent id of a row is the image of its planned id, at the same place |
| `CloudLaws.AttachmentMapIsInjective` | app/tonies_api.py:184-202 | when the planned ids are unique, the staging-to-permanent map is injective on the plan, avoids the original ids for attached rows and fixes all other ids |
| `CloudLaws.PermanentByPosition` | app/tonies_api.py:192-202 | row by row the reply holds the permanent id of the planned row: the result its mark names, or its own id; file ids may repeat |
| `CloudLaws.LaterListShowsPlan` | app/tonies_api.py:140-156 | plan, PATCH reply, read-back and later snapshot compose although the processing set grows on the way, row by row under the permanent ids, whether file ids repeat or not |
| `CloudLaws.LaterListMirrorsPlan` | app/tonies_api.py:140-156 | when the planned ids are unique, that is the plan under the staging-to-permanent map |
| `CloudLaws.WriteShows` | app/tonies_api.py:117-156 | any list that matches the receipt of a confirmed write shows what was planned under the permanent ids, for every write |
| `CloudLaws.WriteMirrors` | app/tonies_api.py:117-156 | when the planned ids are unique, it mirrors the plan under the staging-to-permanent map, which is injective on it |
| `CloudLaws.NoRecipeForLoss` | app/undo.py:139-161 | a delete, a clear or a failed op never has a recipe |
| `CloudLaws.TailUndone` | app/tonies_api.py:167-175 | without a repeated id or a remapped permanent id, the recipes of the last ops, on any list that matches the receipt, leave a mirror of the plan without those ops |
| `CloudLaws.UndoRestoresPlan` | app/tonies_api.py:158-182 | under the same two conditions undo is refused exactly when the snapshot no longer matches; otherwise the list it leaves mirrors the plan of the same batch without the undone ops |
| `CloudLaws.PureRoundTrip` | app/undo.py:133-195 | any run of successful renames, moves and confirmed attaches that repeats no id, undone on the renamed list, gives back the original ids, order, titles, files, durations and types |
| `CloudLaws.LastUploadUndoneIff` | app/undo.py:162 | undoing the last upload of a write is right if and only if its permanent id is not itself remapped, whether file ids repeat or not |
| `CloudLaws.UndoRestoresIff` | app/tonies_api.py:158-182 | for one upload, or for edits of a write in which no attach repeats an id, at the end of a write and against any later cloud: undo is refused when the list changed; otherwise it leaves the plan without those ops if and only if no permanent id among them is remapped, which edits never have |
| `CloudCounterexamples.CrossTalkRemovesTheWrongChapter` | app/undo.py:143-165 | a complete confirmed write after which undoing the second upload removes the first |
| `CloudCounterexamples.RepeatedIdMisplacesTheMove` | app/undo.py:133-166 | a complete confirmed write that attaches one file id twice and then moves a chapter: every recipe is there, no id is remapped, and undoing the move on the matching list puts the chapter between the uploads instead of before them |
| `Queue.ReadyBatch` | app/actions.py:267-285 | the batch holds exactly the batchable actions, in submission order |
| `QueueInvariants.NextStore` | app/undo.py:72-126 | every step keeps the store bounded, with live capabilities only on the newest submission of each Tonie |
| `QueueInvariants.NextSteps` | app/actions.py:340-351 | one step moves a status only down its order, keeps Tonie and submission, and sets `finished` exactly outside the waiting states |
| `QueueSteps.NextGroupsAge` | app/undo.py:54-60 | no step makes an inactive capability active again, or changes whose submission it is |
| `QueueSteps.NextWorkers` | app/actions.py:287-302 | exactly the actions of a write in flight are applying, and every Tonie with work has its one worker |
| `QueueSteps.NextDeferral` | app/undo.py:85-91 | an action that is still deferred is still queued, and a pending group is deferred to its own deadline |
| `QueueSteps.NextQuiet` | app/undo.py:94-107 | every step keeps: a receipt means its actions are done and nothing of that Tonie waits |
| `QueueSteps.NextInv` | app/actions.py:105-356 | every event keeps all invariants of the queue and the store |
| `QueueGrants.GrantIsTail` | app/undo.py:102-107 | a granted group is a contiguous suffix of its batch, its indices are the last slots, and each holds a recipe |
| `QueueGrants.NextGrants` | app/actions.py:327-335 | every step keeps: a receipt is that of the Tonie's last write, by the session that owns the submission |
| `QueueWake.SleepIsSound` | app/actions.py:290-294 | going to sleep is safe exactly when nothing is ready at the clock value the deadlines were read at |
| `QueueWake.NextWakeful` | app/actions.py:287-302 | every step keeps sleeping workers safe if and only if no deadline passes between the two clock readings of a look |
| `QueueOrder.CollectedEnters` | app/actions.py:267-302 | a collected batch leaves out no earlier action of its kind and enters behind nothing that is still deferred |
| `QueueRuns.ReceiptMeansQuiescence` | app/undo.py:94-121 | in every reachable state a receipt means: newest submission of its Tonie, all done, nothing of it waiting, sending or being written, and the tail of the last write |
| `QueueRuns.InverseStartsAlone` | app/actions.py:154-178 | an inverse never starts while a write of its Tonie is in flight or anything there waits |
| `QueueRuns.UndoRestoresSubmission` | app/actions.py:154-179 | undoing a submission of any reachable state, against any later cloud, is refused when the list changed; otherwise, for an upload, it leaves the plan without it if and only if its permanent id is not another upload's staging id, and for edits it always does if no attach of their write repeats an id |
| `QueueRuns.RunsKeepUploadsAlone` | app/actions.py:123-137 | in every reachable state an upload is a submission of its own |
| `QueueRuns.LossHasNoReceipt` | app/undo.py:103-105 | in no run does a submission with a delete or a clear obtain a receipt |
| `QueueRuns.NoLostWakeupIff` | app/actions.py:287-302 | no wake-up is lost in a run if and only if no deadline passes between a worker's two clock readings |
| `QueueRuns.WritesFollowSubmissionOrder` | app/actions.py:267-299 | per Tonie uploads enter writes in submission order, edits too, and nothing enters before an earlier action that is still deferred |
| `QueueRuns.CapabilitiesNeverReturn` | app/undo.py:54-60 | once inactive, a capability is inactive in every continuation of the run |
| `QueueRuns.OneUndoPerSubmission` | app/undo.py:109-121 | no two undo calls of a run hold the same submission, and a consumed one never comes back |
| `QueueRuns.StatusesOnlyDescend` | app/actions.py:39-40 | over any continuation a status only descends its ranked order, and `finished` is set exactly when it left the waiting ones |
| `QueueStatus.StatusIsCaused` | app/actions.py:105-351 | over every run, an action comes to a status exactly when the next event is the cause of that status: eight statuses, each with its own cause |
| `QueueStatus.OpsAreKept` | app/actions.py:259-264 | over every run an action stays what was submitted, but for the file id and the duration that its own transfer delivers |
| `QueueUndone.InverseWasStarted` | app/actions.py:154-171 | every running inverse was started by one earlier `undo` call of the run, with that submission's receipt and indices |
| `QueueUndone.InverseComesTo` | app/actions.py:171-179 | what a running inverse comes to, whatever happened since it started: refused when the list changed, otherwise right exactly under the conditions of `UndoRestoresSubmission` |
| `QueueUndone.UndoneMeansRestored` | app/actions.py:171-179 | when an action becomes undone, the cloud has shown the list its inverse left, and that list is the plan without the submission exactly under those conditions |
| `QueueCapabilities.SubmissionAdds` | app/undo.py:72-92 | a submission is taken exactly when it has edits, a target and an open session, and then adds its actions in order and one capability, for five seconds or ten minutes |
| `QueueCapabilities.CapabilityLives` | app/undo.py:46-126 | over every run, each capability stays, ends, or obtains its receipt, indices and new deadline, for exactly the listed reasons |
| `QueueOffers.UndoTakesIff` | app/undo.py:109-121 | over every run, `undo` takes the capability exactly when it is live, has not run out, belongs to this open session and is pending or has a receipt; then it consumes it, blocks the Tonie and runs the inverse if there is a receipt |
| `QueueOffers.UndoableUntilDue` | app/actions.py:275-277 | in every reachable state a deferred action that is still queued, on a Tonie without a block, can be undone exactly until its deadline and can enter a write exactly from then on |
| `QueueProgress.EverythingSettles` | app/actions.py:154-335 | from every reachable state in which no wake-up was lost, the queue comes to rest by its own steps, whatever the storage and the cloud answer: every `undo` call finishes, every transfer ends, every action is settled |
| `QueueTidy.UploadsAreOnTheirWay` | app/actions.py:243-264 | in every reachable state an upload is queued with its transfer to come, in transfer, ready for a write, in the write in flight, or settled |
| `QueueTidy.ResetLeavesOnlyWrites` | app/actions.py:196-204 | a reset cancels exactly what waits outside a write and leaves no capability |
| `QueueTidy.HistoryForgetsOldest` | app/actions.py:353-356 | only the end of a write forgets actions: settled ones, each older than every settled one that stays, down to the limit of 300 |
| `QueueRuns.CanceledNeverEnters` | app/actions.py:343-346 | an action canceled by undo, reset or cancel never enters a write |
| `QueueRuns.DeferredIsUndoableOrDue` | app/undo.py:54-57 | a deferred delete that can be undone cannot enter a write at the same clock value |
| `QueueWitness.WriteIsReachable` | app/actions.py:105-335 | whatever the cloud answered, every confirmed write of single submissions whose last one has a recipe comes about in a run from the empty queue, after which its undo can start |
| `QueueWitness.UndoIsReachable` | app/actions.py:105-335 | a rename that is submitted, collected, written and confirmed obtains a receipt, and its undo can start |
| `QueueWitness.CrossTalkIsReachable` | app/actions.py:105-335 | a run from the empty queue in which the undo of the second upload starts, on a list that still matches, and leaves only the second upload |
| `QueueWitness.RepeatedIdIsReachable` | app/actions.py:105-335 | a run from the empty queue in which the undo of a move after two uploads with one file id starts, on a list that still matches, and puts the chapter between them |
| `QueueWitness.OverlapIsReachable` | app/actions.py:105-335 | a run from the empty queue that ends with a write in flight beside a running inverse of the same Tonie |
| `QueueOverlap.NextGuarded` | app/actions.py:163-193 | a step keeps every running inverse guarded if and only if it does not finish another undo of the same Tonie |
| `QueueOverlap.GuardedIffAlone` | app/actions.py:154-194 | over a run every running inverse blocks its Tonie exactly when no other undo of that Tonie finishes meanwhile |
| `QueueOverlap.WritingBefore` | app/actions.py:287-302 | a write in flight was in flight before the step with the same batch, or is the ready batch its worker just collected |
| `QueueOverlap.WritesStartByCollecting` | app/actions.py:287-302 | a write starts only when the worker collects a non-empty batch |
| `QueueOverlap.WritesAndInversesExclude` | app/actions.py:154-302 | in such a run no write of a Tonie is in flight or ready while an inverse of it runs |
| `QueueOverlap.BlockHolds` | app/actions.py:154-302 | from any reachable state a blocked Tonie meets no write while its inverse runs, as long as no other undo of it finishes |
| `QueueCounterexamples.MissedDeadline` | app/actions.py:290-294 | whenever the delay of a delete ends between a look and the collection of the deadlines, it is due and its worker sleeps, however much time passes |
| `QueueCounterexamples.UndoneDeleteLiftsBlock` | app/actions.py:163-193 | from any state with a running inverse, a delete that is undone at once lifts the block |
| `QueueCounterexamples.DeferralIsBounded` | app/undo.py:85-91 | in no reachable state is anything deferred for longer than the deletion window |
| `QueueCounterexamples.EditEntersWrite` | app/actions.py:267-302 | on a Tonie that is not blocked the next edit gets into a write, and no undo call moves meanwhile |
| `QueueCounterexamples.WriteBesideInverse` | app/actions.py:163-302 | then the next edit is in flight while the inverse still runs, whatever else the Tonie waits for |
| `QueueCounterexamples.BesideInverseIff` | app/actions.py:154-302 | as long as no other undo of its Tonie finishes, a write can come to be in flight beside a running inverse if and only if one already is or the block has been lifted |
| `QueueCounterexamples.EveryInverseCanMeetWrite` | app/actions.py:154-302 | without that restriction every running inverse has a continuation with a write in flight beside it |
| `ActionQueues.UndoStore.Get` | app/undo.py:95 | finds the stored submission of a Tonie exactly when there is one |
| `ActionQueues.UndoStore.DropStale` | app/undo.py:76-82 | keeps exactly the unexpired submissions of other Tonies, in order, and invalidates all others |
| `ActionQueues.UndoStore.Evict` | app/undo.py:83-84 | invalidates the oldest submissions until one more fits |
| `ActionQueues.UndoStore.Register` | app/undo.py:72-92 | the new submission joins what dropping and evicting leave |
| `ActionQueues.UndoStore.Available` | app/undo.py:54-57 | an expired or closed group is invalidated on the way, and only an active one with something to undo is available |
| `ActionQueues.UndoStore.Take` | app/undo.py:109-121 | hands the capability over exactly when it may be taken, consumes it first, and ends what ran out when it refuses |
| `ActionQueues.UndoStore.Complete` | app/undo.py:94-107 | grants, invalidates or leaves the newest submission as the step machine says |
| `ActionQueues.UndoStore.Clear` | app/undo.py:123-126 | every stored submission is invalidated and forgotten |
| `ActionQueues.ActionQueue.constructor` | app/actions.py:86-101 | an empty queue, in the initial state of the machine |
| `ActionQueues.ActionQueue.Submit` | app/actions.py:105-121 | one submission step; accepted exactly when there are edits, a target and an open session |
| `ActionQueues.ActionQueue.SubmitUpload` | app/actions.py:123-137 | one upload submission step, which notifies nobody |
| `ActionQueues.ActionQueue.Cancel` | app/actions.py:139-150 | cancels exactly a queued action and ends its submission's undo |
| `ActionQueues.ActionQueue.ReadyBatch` | app/actions.py:267-285 | the scan with its early exit and its blocked flag returns exactly the batchable actions |
| `ActionQueues.ActionQueue.UndoBegin` | app/actions.py:154-171 | consumes the capability, blocks the Tonie and cancels a pending delete, in one step |
| `ActionQueues.ActionQueue.UndoRecord` | app/actions.py:172-188 | runs the inverse against any cloud; marks the submission's actions undone exactly if it returns, and leaves them as they are if it raises |
| `ActionQueues.ActionQueue.UndoFinish` | app/actions.py:190-193 | lifts the block and wakes every worker |
| `ActionQueues.ActionQueue.Reset` | app/actions.py:196-204 | ends every capability and cancels everything that waits and is not in a write |
| `ActionQueues.ActionQueue.TransferBegin` | app/actions.py:243-247 | starts sending exactly a queued upload |
| `ActionQueues.ActionQueue.TransferEnd` | app/actions.py:249-264 | a sent upload becomes ready with its file id, a failed one is finished, a canceled one stays canceled |
| `ActionQueues.ActionQueue.EarliestDeadline` | app/actions.py:291-294 | the earliest deadline of what is deferred |
| `ActionQueues.ActionQueue.Look` | app/actions.py:289-294 | one round of the waiting loop: found work, or asleep until the earliest deadline |
| `ActionQueues.ActionQueue.Collect` | app/actions.py:296-299 | everything ready enters the write together |
| `ActionQueues.ActionQueue.Apply` | app/actions.py:304-335 | the end of a write, for every session and cloud, settles each action by its result and then the undo capability |
| `ActionQueues.ActionQueue.Prune` | app/actions.py:353-356 | forgets the oldest finished actions beyond the history limit, never a waiting one |
| `ActionQueues.ActionQueue.Probe` | app/actions.py:65-66 | reading a record ends an expired capability |
| `HandOver.AttachOrder.constructor` | app/attach_order.py:18-22 | each job waits for all jobs before it, and none is done yet |
| `HandOver.AttachOrder.WaitTurn` | app/attach_order.py:28-35 | the turn is granted exactly when every earlier job is done, whatever gets done while waiting |
| `HandOver.AttachOrder.Done` | app/attach_order.py:37-38 | marks one job, for good |
| `HandOver.HandOversFollowTheList` | app/job_pipeline.py:221-242 | over any run of the pool, jobs of one multi-add hand over at most once, in list order, and never while an earlier one is under way |
| `HandOver.PoolIsBounded` | app/job_pipeline.py:201-242 | over any run no more jobs are under way than the pool has threads, and jobs start in the order they were added |
| `HandOver.SomeoneAdvances` | app/attach_order.py:9-16 | with a worker, as long as a job is unfinished the pool can start one or a running one is not blocked, without any timeout |
| `HandOver.StepsUseUpWork` | app/job_pipeline.py:201-242 | every step that does anything strictly uses up work, so the pool comes to an end |
| `HandOver.EveryJobFinishes` | app/job_pipeline.py:201-242 | from every reachable pool state all jobs can finish without a failure or a timeout |
| `MultiAdd.BatchInsertsBlock` | app/tonies_batch.py:83-106 | one batch puts its successful picks into one block at the position: downwards while the position has room below, the rest upwards |
| `MultiAdd.PicksStayTogether` | app/job_pipeline.py:129-150 | at any position, however the picks split over writes and whichever fail, those that attach form one block and the other rows stay around it |
| `MultiAdd.GoneLandsNothing` | app/tonies_batch.py:94-101 | a position that does not resolve attaches nothing, in any number of writes |
| `MultiAdd.MultiAddOrderIff` | app/job_pipeline.py:143-149 | at any position, the block shows the order of picking if and only if the position is an edge, absent or a `before` row that is there, or at most one more pick attached than an index lies past the end |
| `Pipeline.MovedTogether` | app/job_upload.py:30-37 | every move of the pool or the queue keeps: later hand-overs have later actions, and confirmed writes of a Tonie carried actions in the order they entered |
| `Pipeline.UploadsEnterInListOrder` | app/job_upload.py:30-37 | over any run of the pool and the queue together, uploads of one multi-add enter the writes of a Tonie in list order |
| `Pipeline.WriteIsRound` | app/tonies_api.py:117-156 | a confirmed write of picks and any list matching its receipt is one round of a multi-add |
| `Pipeline.MultiAddOverRuns` | app/job_pipeline.py:129-150 | over any such run, whichever picks confirmed writes carried to one position of a Tonie that nobody else edited meanwhile, they are one block there, in the order of picking if and only if the position keeps it |
| `MultiAddWitness.PicksComeOutUpsideDown` | app/tonies_batch.py:94-156 | for any limits with room for two, the planner takes two picks for the place after a chapter and puts the second above the first |
| `MultiAddWitness.UpsideDownIsReachable` | app/job_pipeline.py:129-150 | a run of the pool and the queue from their empty states in which both picks are downloaded, handed over in list order, written and confirmed, and the second stands above the first |
| `Overlay.OverlayContent` | web/assets/tonie-actions.js:46-63 | the splicing loop computes the fold that the laws compare with the planner |
| `Overlay.ResolveIsInsertionIndex` | web/assets/tonie-actions.js:21-32 | the browser resolves a position as the planner does, except that it clamps an index past the end |
| `Overlay.EditShows` | web/assets/tonie-actions.js:50-61 | one queued edit shows the planner's ids in the planner's order if and only if a move by index is in range |
| `Overlay.MovePastTheEnd` | web/assets/tonie-actions.js:21-32 | a move that comes down to an index past the end is shown with its row last, while the planner refuses it as an invalid position |
| `Overlay.PreviewShowsWhatIsRefused` | web/assets/tonie-actions.js:46-63 | a list of two and a move before a chapter that is gone, with index five, is such a case |
| `Overlay.OverlayShowsPlan` | web/assets/tonie-actions.js:46-63 | every prefix of the queued edits is shown as planned exactly when every move by index is in range |
| `Overlay.EditShowsRows` | web/assets/tonie-actions.js:50-61 | under one title rule, one edit shows the planner's ids and titles if and only if a move by index is in range and the planner accepts a new title |
| `Overlay.OverlayShowsTitles` | web/assets/tonie-actions.js:46-63 | the same for every prefix of the queued edits |
| `Overlay.ResolveInvertsPositionAt` | web/assets/tonie-actions.js:34-39 | a position built for an index resolves to that index |
| `Overlay.DragLands` | web/assets/tonie-actions.js:212-223 | a drag shows the row at the index it was dropped on and the others in their old order |
| `Overlay.DragIsPlanned` | web/assets/tonie-actions.js:212-223 | the planner never refuses a drag and puts the row at the same index |
| `Sessions.SessionTable.Create` | app/auth.py:58-75 | a session is issued exactly when no revocation came since its generation was captured |
| `Sessions.SessionTable.Check` | app/auth.py:78-88 | true exactly for a live session; an expired entry is deleted |
| `Sessions.SessionTable.RevokeAll` | app/auth.py:91-98 | at most the kept session stays, and the generation moves on |
| `Sessions.LiveSessionMeansUnlocked` | app/routes/setup.py:93-184 | over every interleaving, while a session is live the vault is unlocked if and only if no lock is in progress |
| `Sessions.SessionsSurviveOnlyKept` | app/auth.py:58-98 | no session outlives a revocation newer than its password check unless that revocation kept it |
| `Sessions.LockSignsEveryoneOut` | app/routes/setup.py:154-158 | the end of a lock leaves no session and no sign-in that could still get one |
| `Sessions.SessionInsideLock` | app/routes/setup.py:93-158 | a session can be issued between locking the vault and revoking |
| `Sessions.SessionBeginsIff` | app/auth.py:58-75 | a session begins exactly when a sign-in whose generation is still current is issued one, for twelve hours |
| `Sessions.SessionEndsIff` | app/auth.py:58-98 | a session ends exactly by expiring before a sign-in or a lookup, by 127 newer live ones at a sign-in, or by a revocation that does not keep it |
| `Sessions.InitiatorStaysSignedIn` | app/routes/setup.py:165-184 | whoever changes the password from a live session stays signed in, and nobody else, whatever happens between the lookup and the revocation short of expiry and sign-ins |
| `UploadMirror.Job.Mirror` | app/job_upload.py:46-88 | the case-by-case update of the job fields is the function the laws speak about |
| `UploadMirror.ReversalIsFinal` | app/job_upload.py:46-56 | whatever snapshots come before and after the first reversal, the job ends reversed by it and claims nothing |
| `UploadMirror.ClaimsAreVouchedFor` | app/job_upload.py:70-97 | a job never reports success or a chapter that no snapshot confirmed or carried a receipt for |
| `UploadMirror.JobEnds` | app/job_upload.py:63-88 | for any snapshots without a reversal, whether the job ends done, failed, uploading or waiting, by the snapshots and the status it had |
| `UploadMirror.JobRecords` | app/job_upload.py:57-97 | and exactly which chapter, content, receipt, position and refresh flag it ends with |

## Left out

- HTTP, tokens, GraphQL shapes, signed storage requests and audio probing (`app/tonies_session.py`, `app/tonies_content.py:102-125`, `app/tonies_api.py:30-62`): replaced by arbitrary reads, replies and prepared uploads.
- The text of titles: the two title rules are parameters, so empty and tokenised titles are not spelled out.
- Floating point: seconds and capacities are reals, so rounding and infinities other than the lifted limits are not modelled.
- `clean_position`, `_edit_kind` and `_edit_params`: positions and edits are datatypes, so malformed dictionaries cannot occur; a file id that is literally the word for an edge is not distinguished from that edge.
- `target_key`: a Tonie is its key; two spellings of one URL are one Tonie, and an empty key stands for a missing target.
- Error texts, timestamps, notifications, listeners and `_newest_content` (`app/actions.py:358-374`): what is published when is not modelled.
- The batch window, `_target_lock` and poll delays: a write is one begin and one end event, and the read-back sees a list of polls.
- ActionQueues.ActionQueue.Look: the deadlines are collected at one clock value, while the code reads the clock once per action; readings in between only make a lost wake-up rarer.
- ActionQueues.UndoStore.Register: group and action objects are values under a number, so aliasing is a shared number and not a shared heap object; the dictionary is its list of entries in insertion order.
- CloudLaws.TailUndone: one direction, for any tail of a write, if no attach repeats an id and no permanent id is another staging id; `CloudLaws.UndoRestoresIff` has both for the tails that submissions can be.
- CloudLaws.UndoRestoresPlan: one direction, for any tail of a write, under the same two conditions on ids.
- CloudLaws.UndoRestoresIff: after a repeated file id nothing is promised for edits, because a recipe that meets no repeated row is still right and one that does can be wrong; an upload needs no such condition.
- QueueRuns.UndoRestoresSubmission: the same, for edits whose write attached an id twice.
- MultiAdd.PicksStayTogether: a chapter the position names that is not on the Tonie does not appear there later, and no upload is filed under its id.
- MultiAdd.MultiAddOrderIff: the same condition on a chapter named in vain.
- Pipeline.MultiAddOverRuns: a write whose outcome is unconfirmed is not in the log, so nothing is said once the list no longer matches the receipt before; and a chapter named in vain does not appear later.
- In `Pipeline` a hand-over and the submission it makes are one move, which may name any Tonie and position; a submission that raises fails its job instead.
- HandOver.AttachOrder.WaitTurn: the deadline is not a clock but the end of what arrives during each wait.
- Overlay.OverlayShowsPlan: covers queued deletes, renames, moves and clears; uploads are shown as placeholders elsewhere. It compares ids; `Overlay.OverlayShowsTitles` compares titles too, for a browser and a server that cut titles alike.
- PlannerEdits.PlannedTitles: for batches whose renames name their chapter by id, as the queue's do; `PlannerEdits.TitlesFollowRenames` has no such condition.
- CloudLimits.PlanFits: the seconds of uploads are not negative, as the duration check of an upload ensures.
- `Action.chapter_id`, `content` and `attachment_receipt` (`app/actions.py:318-331`): an action holds no copy of what its write reported; `UploadMirror` receives them with a snapshot.
- ActionQueues.ActionQueue.UndoRecord: the error text and the refresh flag of a failed inverse are not part of the queue's state; `UploadMirror` receives the flag with a snapshot.
- Sessions.InitiatorStaysSignedIn: no other sign-in comes between the lookup and the revocation; `Sessions.SessionEndsIff` says what one could do.
- Sessions.LiveSessionMeansUnlocked: passwords, vault files, cookies, login throttling and the credentials themselves are not modelled, only the vault flag, the generation and the session table.
- UploadMirror.Job.Mirror: error texts, the target URL and the stored content are flags or left out.
- UploadMirror.ReversalIsFinal: other writers of the job record (the watchdog, the download thread) are not modelled.
- Legacy single-edit routes and `_resolve_legacy_delete` (`app/tonies_api.py:204-262`): they bypass the queue and appear only as edits by someone else.
- Downloads, media tools, job persistence, server-sent events, logging and the rest of the browser code.
