# Impostarr in Dafny

Impostarr watches Sonarr libraries for episode files that are not the episode Sonarr thinks they are.  It
discovers files, queues them as jobs, lets identifier plugins score what they contain, and matches, reviews,
remaps or replaces them.  This project models the parts whose correctness is hard to see from reading one
function, and proves what they promise over every input, every run and every interleaving.

- **Job queue.** `JobQueue` has each function of `jobs.py` as one atomic step with an arbitrary cached status, the
  safety invariant over every run and the correctness of `claim_next`; `JobStores` has the functions in their own
  imperative form, tied to those steps; `LeaseProtocol` counts the claims of each job and proves that the worker-id
  fence protects the very claim, with the reaper in its two halves as `ReapRace` has it; `ReapTiming` tells from the
  heartbeats which leases it takes.
- **Remediation.** `Remediation` has `replace` and `remap` as sequences of events, so that a crash is a prefix;
  `RemediationSafety`, `RemediationCopies` and `RemediationOutcomes` prove what holds over every retry, `CrashGap`
  what a crash can make the guard miss, `Redrive` what a new verdict row does to it, `RemapTargets` which targets a
  remap refuses, `RemediationResults` and `RemediationTexts` how it ends and what it tells, and `DryRuns` what a dry
  run leaves behind; `Remediators` is the class itself, proved to do exactly these events.
- **Trash.** `Trash` has sweep, delete and restore as the source writes them, and `TrashEffects` what one of them
  does alone.  `TrashLife` takes them apart into loading, disk work and commit; `TrashOutcomes` and `TrashCopies`
  prove what stays of rows and files over every interleaving, and `TrashRace` what happens when nothing disturbs an
  operation and when a sweep and a restore meet.
- **Scoring.** `Normalize`, `Candidates`, `Fusion`, `Aggregation` and `AggregationMeaning` follow a plugin's
  candidate to the score sheet, and `Routing` the sheet to the decision; `Provenance` goes from a remap back to the
  plugins, `Confidence` asks what more confidence does to score and decision, and `SheetSources` tells the parts of
  a sheet from the plugins' candidates.
- **Discovery.** `BackfillWalk` compares the batched walk with one flat walk, `Discoverers` has the loops,
  `DiscoverySafety` proves exactly-once over polls and steps that may be lost, and `DiscoveryMeaning` tells record
  by record what a batch does.
- **Limiters.** `CheckThenAct` is the common shape of the token bucket (`Throttle`) and the daily plugin budget
  (`PluginStage` for one stage, `PluginPool` for many, `PluginCache` for what is reused); `RefSubQuota` is the quota
  with reservations.
- **Subtitles.** `SrtPrinter` and `SrtParser` are the two ends, `SrtStyles`, `SrtLayout` and `SrtRoundTrip` the
  round trip, and `SrtMeaning` what the parser makes of any text.  `Decimal`, `SortedSets`, `StableSort` and
  `Options` are shared.

`dafny verify dfyconfig.toml` checks everything.

## Where the code is not what it says

Each of these has a lemma with a concrete run or an exact condition.

- `requeue` is documented for settled jobs but also takes jobs off hold and away from a working worker
  (`RequeueAcceptsExactly`).
- API claims use one worker id per identity, so two approvals of a job under one identity let a stale handle
  release the later claim (`ApiIdentityFoolsTheFence`; the exact discipline is `ClaimKeepsFencingIff`).
- The reaper writes without a fence: a release between its SELECT and its commit is overwritten, and a remediated
  job goes back to pending (`ReapUndoesRemediated`; the exact conditions are `RemediatedIsLeftIff` and
  `FlushFollowsEdgesIff`).  A heartbeat in between does not save the lease (`HeartbeatAfterTheSelect`).
- A job that is reaped and redriven is promised to end at the interruption guard, but `process_job` inserts a new
  verdict row first, and the remediation starts over (`RedriveStartsOver`; the exact condition is `GuardStopsIff`).
- Trash items are promised to leave the active set once, but sweep, delete and restore write without a fence: one
  that has loaded an item while it was active writes its own outcome over a later one, and a sweep or delete takes
  the copy of an item that was restored meanwhile (`SweepUndoesRestore`; the exact conditions are
  `OutcomeIsFinalIff`, `RunKeepsClosedIff` and `RestoredCopiesStayIff`).
- A restore never overwrites a file by a link, but by a copy it does if the path was taken after it looked
  (`FileStaysIff`).
- A dry run that goes through releases its job to `remediated`, which nothing leaves (`DryRunSuccessIsFinal`; when
  it goes through is `DryRunSucceedsIff`).
- The interruption guard cannot see a call that was accepted but not yet logged (`CrashGapRepeatsTheDelete`; the
  exact condition is `CrashGapIff`).  Remaps are not affected (`RemapIsNeverRepeated`).
- A remap to no episodes raises instead of ending its job (`ReleasedOnce`).
- A Remediator in dry-run mode with a client that is not would delete what it never copied (`RemapSavesIff`,
  `ReplaceSavesIff`).
- The token bucket and the daily budget check first and act later; the true bound is the limit plus the number
  of actors minus one, and it is reached (`BoundHolds`, `BoundIsReached`, `DailyBudgetBoundsRows`).
- A quota reservation released after midnight is taken off the new day's count (`StepConservesIff`,
  `LateReleaseBreaksTheQuota`).
- If the reports that outlier rejection keeps carry no weight, the score drops to 0 (`RejectionHelpsIff`), and
  with rejection on a plugin growing more confident in the claim can lower its score and unmatch the file
  (`RaisingIsSafeIff`, `MatchesPersistIff`).
- Under log-odds pooling the clamping floor can pass for a credible alternate (`RemapProvenanceIff`).
- Two keys can print alike, and then a tie between them goes to the one met first (`CommasCollide`,
  `TiesThatPrintAlike`).
- A backfill step with a batch size below 1 loses its place (`EmptyStepNullsTheCursor`).
- Nothing removes a restored item's trash copy but an unlink that was under way, or one for another item of the same
  path (`CopyStaysForGoodIff`), and a copy that breaks off blocks later restores
  (`BrokenCopyBlocks`; the exact condition is `FailedRestoreChangesIff`).

Some lemmas only unfold a definition for the reader and have no row below: `RemediatesIff`, `FlagsOnlyGate`,
`CompletesIff`, `EmptyStepNullsTheCursor`, `FailedRestoreChangesIff`, `BrokenCopyBlocks`, `CrashGapRepeatsTheDelete`,
`CommitKeepsClosedIff`, `FileStaysIff`, `LeaseLostIff`, `FirstComeFirstServed`, `DetailIsKept`.

## Model

| member | source | states |
|---|---|---|
| `JobQueue.StepIsSafe` | src/impostarr/jobs.py:44-74 | any single call, however stale its cached status, keeps the row invariant (lease fields exactly on active rows, attempts at most 4, 4 only in error), moves stored statuses only along table edges, and changes nothing if it does not succeed |
| `JobQueue.QueueSafety` | src/impostarr/jobs.py:44-74 | over every interleaving of calls, a reap being one step, the invariant holds, every stored change is an edge, and a remediated job stays remediated |
| `JobQueue.ReleaseTargetIsExact` | src/impostarr/jobs.py:161-195 | a release that passes the check on the cached status moves every row it can hit along an edge if and only if its target is pending or terminal |
| `JobQueue.ClaimFromStatusesIsExact` | src/impostarr/jobs.py:276-308 | an API claim follows an edge from every stored status if and only if each of its from-statuses allows active; the check on the cached status cannot repair it |
| `JobQueue.RequeueAcceptsExactly` | src/impostarr/jobs.py:251-273 | requeue succeeds exactly for an unmoved row that is neither pending nor remediated: also on hold and active jobs, unlike its docstring |
| `JobQueue.Oldest` | src/impostarr/jobs.py:117-124 | the SELECT yields the (created_at, id) minimum of the pending jobs, and nothing exactly when none is pending |
| `JobQueue.ClaimNextCorrect` | src/impostarr/jobs.py:111-141 | with any steps of others between SELECT and UPDATE: the job won was the oldest pending one of the last SELECT, nothing is won only when nothing was pending, and the retries are at most the steps of others that took a job out of pending |
| `JobQueue.OneWinnerPerSpell` | src/impostarr/jobs.py:125-141 | between two successful claims of a job in one run some step put it back to pending |
| `JobQueue.CreatedAtStays` | src/impostarr/jobs.py:103-124 | over every run a job keeps the place in the queue that its creation time gave it |
| `JobQueue.StatusMovesIff` | src/impostarr/jobs.py:311-339 | a checked status change goes through if and only if the stored row is still as expected and the move is an edge; of two that expect the same status the second is refused and changes nothing, unless the first left the status as it was |
| `JobStores.JobStore.UpdateWhere` | src/impostarr/jobs.py:125-139 | a conditional UPDATE changes at most the named row, and the row count tells whether its stored row met the condition |
| `JobStores.JobStore.CreateJob` | src/impostarr/jobs.py:103-108 | a new row, pending or on hold, without lease and attempts, as the abstract step makes it |
| `JobStores.JobStore.ClaimNext` | src/impostarr/jobs.py:111-141 | the retry loop leaves the table, the winner and the number of retries of the abstract run |
| `JobStores.JobStore.Heartbeat` | src/impostarr/jobs.py:144-158 | one fenced UPDATE; a lost lease leaves table and cached job as they were |
| `JobStores.JobStore.Release` | src/impostarr/jobs.py:161-195 | check on the cached job, fenced UPDATE, and the cached job follows only on success |
| `JobStores.JobStore.ReapStale` | src/impostarr/jobs.py:198-219 | the loop sends every stale job back to pending, or to error past the third attempt, touches no other row and counts the stale ones |
| `JobStores.JobStore.Park` | src/impostarr/jobs.py:222-234 | pending to hold, refused if the stored row is not pending |
| `JobStores.JobStore.Unpark` | src/impostarr/jobs.py:237-248 | hold to pending, refused if the stored row is not on hold |
| `JobStores.JobStore.Requeue` | src/impostarr/jobs.py:251-273 | back to pending with attempts and lease cleared, refused if the stored status moved |
| `JobStores.JobStore.ClaimForApi` | src/impostarr/jobs.py:276-308 | a lease from one of the given statuses, refused otherwise |
| `JobStores.JobStore.SetStatusChecked` | src/impostarr/jobs.py:311-339 | expected to new status if the stored row still is as expected |
| `LeaseProtocol.MoveKeepsLeaseInv` | src/impostarr/jobs.py:144-219 | every move, the two halves of a reap among them, keeps: a handle whose claim is current holds the stored lease |
| `LeaseProtocol.LeaseFencing` | src/impostarr/jobs.py:144-219 | after every run in which no worker id claims a job it still has a handle on, and with any calls between the reaper's SELECT and its unfenced commit, the worker-id fence opens only for the very claim that created the handle |
| `LeaseProtocol.HolderSucceedsIffCurrent` | src/impostarr/jobs.py:144-195 | after such a run a heartbeat succeeds exactly for the current claim, a release exactly if also the cached status allows it, and a stale handle is refused and changes nothing |
| `LeaseProtocol.ClaimKeepsFencingIff` | src/impostarr/worker.py:99-111 | a claim keeps the fence sound if and only if its worker id had no handle on that job in flight |
| `LeaseProtocol.ApiIdentityFoolsTheFence` | src/impostarr/api/routes.py:1020-1022 | since API claims share one worker id per identity, a run exists, each move possible where it is made, after which a stale handle releases the job of a later claim |
| `ReapRace.RaceKeepsTheInvariant` | src/impostarr/jobs.py:205-218 | with the reaper's SELECT and commit as two steps and any calls between them, the row invariant still holds over every run |
| `ReapRace.FlushFollowsEdgesIff` | src/impostarr/jobs.py:205-218 | the reaper's unfenced commit moves every job along an edge if and only if no loaded job has become remediated meanwhile and those on their last attempt are still active or in error already |
| `ReapRace.RemediatedIsLeftIff` | src/impostarr/jobs.py:205-218 | a job leaves remediated exactly by the commit of a reaper that had loaded it before its release |
| `ReapRace.ReapUndoesRemediated` | src/impostarr/jobs.py:205-218 | from any good table with a stale job under the attempt limit: if its worker releases it as remediated between the two halves, it goes back to pending and is claimed again |
| `ReapRace.UndisturbedReapIsAtomic` | src/impostarr/jobs.py:198-219 | if no call between the halves names a loaded job, the reap has the effect of one step made at its SELECT |
| `LeaseProtocol.LeaseEndsIff` | src/impostarr/jobs.py:161-273 | a current claim ends exactly by its own release, by the reaper writing back the job as it had loaded it, or by a requeue that read the job as active |
| `LeaseProtocol.HeartbeatAfterTheSelect` | src/impostarr/jobs.py:205-218 | from every good state: once the reaper has loaded a job, its holder's heartbeat still goes through, and then the lease is gone all the same |
| `ReapTiming.ReapTakesIff` | src/impostarr/jobs.py:198-219 | a reap takes the lease of an active job if and only if its last heartbeat lies before the cutoff; then the job is one attempt older and pending, or in error after the third, and otherwise its row is unchanged |
| `ReapTiming.FlushTakesLateIff` | src/impostarr/jobs.py:204-218 | with any calls between the reaper's two halves: its commit takes a claim that is still current if and only if the claim's last heartbeat before the SELECT lay before the cutoff |
| `ReapTiming.AttemptsCountReaps` | src/impostarr/jobs.py:205-207 | over every run a job's attempts are the number of its reaps since it was created or last requeued |
| `ReapTiming.FourthReapGivesUp` | src/impostarr/jobs.py:205-207 | so the first three reaps put a job back to pending and the fourth ends it in error |
| `ReapTiming.ParkedWaits` | src/impostarr/jobs.py:222-248 | a job created parked has no lease and stays on hold over every run, until it is unparked or requeued |
| `RemediationSafety.TextsArePlain` | src/impostarr/remediate.py:86-103 | no detail a real run logs begins like a dry-run entry, and no blocklist entry contains the note that none was possible |
| `RemediationSafety.HistoryIdIsNotTheNote` | src/impostarr/remediate.py:95-102 | whatever its digits, the detail of a real blocklist entry is never taken for the note |
| `RemediationSafety.RunIsRegular` | src/impostarr/remediate.py:171-539 | in every run the logged steps ascend in the order of the choreography, and a call Sonarr accepted is followed at once by an entry that trips the guard |
| `RemediationSafety.LaterAttemptsOnlyGuard` | src/impostarr/remediate.py:194-203 | once an attempt has logged a mutating step every later one makes no call and no copy: one guard entry and a quarantine, or a prefix of that |
| `RemediationSafety.SingleRunMutation` | src/impostarr/remediate.py:106-112 | over any series of attempts, real or dry, crashed anywhere, all mutating entries of a verdict row come from one attempt |
| `RemediationSafety.EachStepOnce` | src/impostarr/remediate.py:72-103 | on a new verdict row no mutating step is ever logged as really done twice |
| `Redrive.GuardStopsIff` | src/impostarr/remediate.py:13-24 | over the whole life of a job: the guard stops a remediation if and only if an earlier one logged a mutating step and no verdict row has been inserted since; otherwise it does all it would do on a new job |
| `Redrive.TwoRunsNeedAVerdict` | src/impostarr/remediate.py:127-137 | two remediations of a job both log mutating steps only with a new verdict row between them |
| `Redrive.RedriveStartsOver` | src/impostarr/pipeline.py:695-705 | after the verdict row that a redriven job gets, a remediation starts over whatever was done before: the promised quarantine never comes |
| `RemediationSafety.AcceptedTwiceOnlyAcrossACrashGap` | src/impostarr/remediate.py:194-203 | over any series of attempts, two both get a call accepted only if the earlier one died between its only accepted call and that call's log commit |
| `CrashGap.CrashGapIff` | src/impostarr/remediate.py:194-298 | an attempt on an uninterrupted row got a call accepted: the guard misses it and the next attempt plans the same run again, if and only if the attempt died right after the call and the call is the blocklist call of a replace, or the delete of a replace without download history and without trash; in every other case later attempts stop at the guard |
| `CrashGap.RemapIsNeverRepeated` | src/impostarr/remediate.py:405-456 | once a remap got a call accepted, no later attempt on its verdict row gets any accepted, wherever it died |
| `RemediationCopies.RemapSavesIff` | src/impostarr/remediate.py:405-456 | in every run and every prefix remap deletes only after a complete staging copy, if and only if the Remediator is not in dry-run mode with a client that is not |
| `RemediationCopies.ReplaceSavesIff` | src/impostarr/remediate.py:229-298 | in every run and every prefix replace deletes only after a complete trash copy and its committed row, if and only if trash is on and it is not in dry-run mode, or the client sends nothing |
| `RemediationCopies.SomeCopySurvives` | src/impostarr/remediate.py:229-539 | over any series of remaps and trash-backed replaces, failing or crashing anywhere, a complete copy exists in library, staging, import target or trash in every reachable state |
| `RemediationCopies.SavedFirstKeepsLive` | src/impostarr/remediate.py:405-539 | copy-before-delete is what keeps some copy alive, event by event |
| `RemediationOutcomes.ReleasedOnce` | src/impostarr/remediate.py:171-539 | a run that does not crash releases its job once, as its last act, to remediated exactly if it logged no failure, if and only if it is not an unguarded remap to no episodes, which raises |
| `DryRuns.DryRunIsQuiet` | src/impostarr/remediate.py:236-246 | with both flags on, a run sends Sonarr nothing, copies nothing, commits no trash row and prefixes every entry |
| `DryRuns.DryRunsAreInvisible` | src/impostarr/remediate.py:160-168 | after any number of dry runs a later run on the same verdict makes the same calls, copies and entries as if they had not been |
| `DryRuns.DryRunSucceedsIff` | src/impostarr/remediate.py:171-539 | a dry run ends in remediated if and only if the guard is quiet and, for a remap, the target is not empty, known and free; no answer of Sonarr or the disk matters |
| `DryRuns.DryRunSuccessIsFinal` | src/impostarr/jobs.py:62-74 | such a dry run by the holder of the lease makes the job remediated, and no series of queue calls ever takes it out of that |
| `Remediators.Remediator.Replace` | src/impostarr/remediate.py:171-312 | the method does exactly the events of the choreography and appends exactly their entries |
| `Remediators.Remediator.Remap` | src/impostarr/remediate.py:314-539 | likewise for remap; it raises, before doing anything, exactly on an uninterrupted row with no target episodes, and an occupied target is stored as the proposal |
| `RemapTargets.ResolvedMeaning` | src/impostarr/remediate.py:336-341 | the resolved target is exactly the listed episodes with a target id, each as Sonarr lists it and as often, ascending by number |
| `RemapTargets.RemapRefusesIff` | src/impostarr/remediate.py:342-386 | told from Sonarr's episode list: an unguarded remap refuses as unknown if and only if some target id is not listed, as occupied if and only if all are and a target episode has a file, and otherwise goes on to preserve the file |
| `RemapTargets.OccupiedIsLeftAlone` | src/impostarr/remediate.py:342-386 | no remap sends or copies anything for a target that is unknown or occupied, whatever the log, the flags and the answers |
| `RemediationResults.SucceedsIff` | src/impostarr/remediate.py:171-539 | when a remediation succeeds, told from what Sonarr and the disk answer and from the flags: each call that is to be made is accepted, each copy that is to be made is complete, and for a remap the target is known and free and the staged file is offered; any other run ends in quarantine, or raises for the empty target |
| `RemediationResults.CallsAreLogged` | src/impostarr/remediate.py:205-312 | every call that is sent is logged next, under its own step and with what came of it |
| `RemediationResults.CopiesAreTold` | src/impostarr/remediate.py:248-262 | a copy counts as complete if and only if the directory is there and the file could be linked, or copied where a link cannot cross file systems |
| `RemediationResults.GuardSeesIff` | src/impostarr/remediate.py:86-103 | which entries trip the guard: successful ones of a real run, except refusals, guard entries and the note that nothing could be blocklisted |
| `RemediationTexts.StagedNameTells` | src/impostarr/remediate.py:388-396 | the staged name determines the season and the episode numbers of the target |
| `RemediationTexts.StagedForm` | src/impostarr/remediate.py:388-396 | for numbers below 100 it has the form S and E with two digits each, further episodes after dashes, and the file's suffix |
| `RemediationTexts.FailedRemapNamesTheFile` | src/impostarr/remediate.py:397-539 | whatever makes a remap fail once its target is known and free, the last entry names the path of the staged file |
| `RemediationTexts.ReplaceTextsTell` | src/impostarr/remediate.py:205-312 | the entries of a replace name the history id, the episode file and every episode searched for |
| `Remediators.Remediator.LogStep` | src/impostarr/remediate.py:115-168 | one appended and committed entry, prefixed in dry-run mode |
| `Remediators.Remediator.CallSonarr` | src/impostarr/sonarr/client.py:171-208 | a mutating client method sends nothing in dry-run mode and otherwise one request |
| `Remediators.Remediator.Preserve` | src/impostarr/remediate.py:248-257 | a complete copy exists exactly if no error is reported |
| `Trash.TrashService.SweepExpired` | src/impostarr/trash.py:51-68 | every expired active row is closed as expired, its file unlinked if that works, and the due rows are counted; nothing else changes |
| `Trash.TrashService.DeleteItem` | src/impostarr/api/routes.py:1203-1217 | missing and closed items are refused; otherwise unlink and close as deleted |
| `Trash.TrashService.RestoreItem` | src/impostarr/api/routes.py:1220-1227 | missing and closed items are refused; otherwise the restore of the next rows, with conflict and failure leaving the row active |
| `TrashLife.RunKeepsInv` | src/impostarr/trash.py:51-99 | over any interleaving of sweeps, deletes and restores, any of which may die: rows are closed with time and outcome together, each copy is on disk as it was made until it is unlinked, and whatever is in flight has loaded rows that exist |
| `TrashOutcomes.OutcomeIsFinalIff` | src/impostarr/models.py:224-226 | after every run: a closed row stays as it is whatever happens later, if and only if no sweep, delete or restore that loaded it while it was active is still in flight; the documentation promises it always |
| `TrashOutcomes.OutcomeIsFinal` | src/impostarr/models.py:224-226 | over every run in which each later commit finds its rows active, or already as it writes them, a closed row never changes |
| `TrashOutcomes.RunKeepsClosedIff` | src/impostarr/trash.py:51-99 | and exactly over those: no move of a run changes a closed row if and only if every commit finds its rows so |
| `TrashOutcomes.RetentionIsKept` | src/impostarr/trash.py:51-68 | a new item is active with its copy on disk, and over every later run no sweep up to its expiry loads it |
| `TrashRace.SweepUndoesRestore` | src/impostarr/api/routes.py:1194-1227 | from every state in which a due item can be restored: if that happens between a sweep's SELECT and its unlinks, the restore goes through, and then the sweep removes the copy and turns the row from restored into expired |
| `TrashRace.UndisturbedSweepIsAtomic` | src/impostarr/trash.py:51-68 | without another move in between, SELECT, unlinks and commit are the sweep in one step |
| `TrashRace.SweepClosesWhatItSaw` | src/impostarr/trash.py:51-68 | whatever went on in between, if the loaded rows are all still active the commit closes exactly the rows the sweep in one step closes, and in the same way |
| `TrashRace.DeadSweepIsHarmless` | src/impostarr/trash.py:51-68 | a sweep in flight that dies after any number of its unlinks leaves every row as it was, and a later full sweep ends where it would have ended without it |
| `TrashRace.UndisturbedDeleteIsAtomic` | src/impostarr/api/routes.py:1194-1227 | guard, unlink and commit of a delete likewise |
| `TrashRace.UndisturbedRestoreIsAtomic` | src/impostarr/api/routes.py:1194-1227 | guard, test, link or copy and commit of a restore likewise, with its conflict and its failure |
| `TrashEffects.CutSweepIsHarmless` | src/impostarr/trash.py:51-68 | a sweep that died after any number of rows changes nothing about where a later full sweep ends, whichever unlinks fail |
| `TrashEffects.SweepTwice` | src/impostarr/trash.py:51-68 | sweeping twice is sweeping once |
| `TrashEffects.SweepTakesIff` | src/impostarr/trash.py:51-68 | a sweep closes an item if and only if it is active and past its retention, as expired at the sweep's time, and removes exactly the copies of those it can unlink |
| `TrashCopies.ActiveItemsHaveCopies` | src/impostarr/trash.py:39-77 | over every run in which no sweep or delete dies between unlink and commit and no trash path is used twice, each active item has its copy with its original content, or a sweep or delete in flight has just unlinked it |
| `TrashCopies.CopyStaysForGoodIff` | src/impostarr/trash.py:39-99 | a copy in the trash stays for good, its content unchanged and its path never free again, if and only if no active item has its path and no sweep or delete in flight is still to unlink it |
| `TrashCopies.RestoredCopiesStayIff` | src/impostarr/trash.py:86-98 | after every run, under exactly this condition, the copy of a restored item stays in the trash for good |
| `TrashCopies.RestoredCopyTakenIff` | src/impostarr/trash.py:51-77 | a move takes the copy of a restored item exactly if it is the unlink of a sweep or delete that has loaded a row with that path |
| `TrashCopies.RestoreGivesBack` | src/impostarr/trash.py:86-98 | a restore that links or copies puts back what was trashed, as long as the copy has not been unlinked since |
| `Fusion.ComputeFuse` | src/impostarr/scoring.py:141-165 | the accumulating loops compute the pooled score |
| `Fusion.FuseIsPooled` | src/impostarr/scoring.py:158-159 | the shortcut for a single report equals the general log-odds formula |
| `Fusion.FuseIsBetweenReports` | src/impostarr/scoring.py:141-165 | both fusions lie between the (clamped) confidences of two reports of the pool |
| `Fusion.FuseMonotone` | src/impostarr/scoring.py:141-165 | both fusions are monotone in every confidence |
| `Fusion.FusePermute` | src/impostarr/scoring.py:141-165 | both fusions are invariant under permutation of the reports |
| `Fusion.RejectOutliers` | src/impostarr/scoring.py:168-188 | the comprehensions keep the high reports and drop the low ones exactly under the stated condition, in order |
| `Fusion.RejectionOnlyHelps` | src/impostarr/scoring.py:168-188 | with positive kept weight the score after rejection is at least the score without it |
| `Fusion.RejectionHelpsIff` | src/impostarr/scoring.py:141-188 | the score with rejection is at least the score without it if and only if the kept reports carry weight, or no report does, or under linear fusion every report with weight has confidence 0; otherwise rejection drops it to 0 |
| `Fusion.KeptPermute` | src/impostarr/scoring.py:176-188 | which reports are kept does not depend on their order |
| `LinkWitness.LinkExists` | src/impostarr/scoring.py:160-165 | the assumption on logit and logistic can be met |
| `Candidates.KeyReprInjective` | src/impostarr/scoring.py:121-128 | two keys whose imdb ids hold no comma print alike only if they are the same key |
| `Candidates.CommasCollide` | src/impostarr/scoring.py:121-128 | with a comma in an imdb id two different keys print alike |
| `Aggregation.PerPlugin` | src/impostarr/scoring.py:216-226 | one plugin's dict: keys in first-met order with the claimed key last if it was missing, each with the plugin's score |
| `Aggregation.CollectReports` | src/impostarr/scoring.py:212-229 | the pools of all keys, in plugin order |
| `Aggregation.Aggregate` | src/impostarr/scoring.py:191-266 | the whole function equals the declarative sheet |
| `AggregationMeaning.PluginReportsMeaning` | src/impostarr/scoring.py:216-229 | a plugin contributes to a key one report if it reported the key or the key is the claimed one: its own maximum, or 0 |
| `AggregationMeaning.PoolMeaning` | src/impostarr/scoring.py:212-229 | a pool holds exactly the reporters of the key, in plugin order, each with its own maximum |
| `AggregationMeaning.ReportersMeaning` | src/impostarr/scoring.py:222-226 | the reporters of the claimed key are all ok plugins |
| `StableSort.SortAscends` | src/impostarr/scoring.py:244-250 | the stable sort of keys that the printed form tells apart is strictly ascending |
| `SheetSources.KeySourceIff` | src/impostarr/scoring.py:212-226 | a key is on the sheet if and only if some ok plugin's candidate stands for it, or a plugin is ok and it is the claimed set; unusable candidates and plugins that are not ok bring nothing |
| `SheetSources.AlternateSource` | src/impostarr/scoring.py:244-252 | the alternate is what some ok plugin's candidate stands for, other than the claim, and its kind tells episodes, another series and junk apart |
| `SheetSources.ExclusionListedIff` | src/impostarr/scoring.py:176-188 | the sheet lists as excluded, by plugin, confidence and printed key, exactly the low reports of pools in which enough others are high and all that are not are low |
| `AggregationMeaning.AlternateIsHighest` | src/impostarr/scoring.py:244-252 | there is an alternate exactly if a key but the claimed one was reported, and then it has the highest score of all of those |
| `AggregationMeaning.AlternateMeaning` | src/impostarr/scoring.py:244-252 | if the other keys print differently, ties go to the one that prints first |
| `AggregationMeaning.TiesThatPrintAlike` | src/impostarr/scoring.py:121-128 | the premise is needed: of two tied keys that print alike the one met first is the alternate |
| `AggregationMeaning.PluginOrderDoesNotMatter` | src/impostarr/scoring.py:191-266 | the claimed and the alternate score and the number of ok plugins never depend on the order of the plugins, the alternate and the per-candidate table only if two keys of the sheet print alike |
| `AggregationMeaning.CandidateOrderDoesNotMatter` | src/impostarr/scoring.py:191-266 | nor, in the same sense, on the order of the candidates within each plugin's result |
| `AggregationMeaning.CommaFreeKeysPrintApart` | src/impostarr/scoring.py:121-128 | the keys of a sheet print differently if no imdb id of an ok plugin holds a comma |
| `AggregationMeaning.CommaFreeOrderDoesNotMatter` | src/impostarr/scoring.py:191-266 | then nothing on the sheet depends on either order |
| `Normalize.MatchTvdb` | src/impostarr/normalize.py:63-67 | the first episode with the season and number |
| `Normalize.MatchAbsolute` | src/impostarr/normalize.py:70-75 | the first episode with the absolute number, whatever the season |
| `Normalize.MatchScene` | src/impostarr/normalize.py:78-101 | the three passes give the scene precedence |
| `Normalize.ScenePrecedence` | src/impostarr/normalize.py:78-101 | a paired scene number wins over an absolute one, and the plain numbers are used only if no episode carries either |
| `Normalize.ResolveIff` | src/impostarr/normalize.py:104-137 | what a number stands for in each numbering: the first episode with the season and number for tvdb and tmdb, with the absolute number for absolute, and by the three passes for scene |
| `Normalize.NormalFormIff` | src/impostarr/normalize.py:112-137 | nothing named is junk, another series is passed on with its ids, and a claimed-series candidate is unusable if and only if some number stands for nothing |
| `Normalize.ResolveAllMeaning` | src/impostarr/normalize.py:122-137 | all or nothing: a candidate resolves exactly if each number does, and then to exactly the ids its numbers resolve to |
| `Normalize.Normalize` | src/impostarr/normalize.py:112-137 | the loop with its early exit computes the normal form |
| `Normalize.NormalFormIsListed` | src/impostarr/normalize.py:112-137 | an in-series candidate is never empty and names only ids from the episode list |
| `Routing.SettledIff` | src/impostarr/scoring.py:269-301 | from plugin results: inconclusive exactly if no plugin is ok, matched exactly if one is and the claimed score reaches the quarantine threshold |
| `Provenance.RemapTargetIsReal` | src/impostarr/scoring.py:303-311 | from plugin results to decision: a remap target is non-empty, differs from the claimed set and is made of the series' own episode ids |
| `Provenance.RemapProvenance` | src/impostarr/scoring.py:215-311 | unless the clamping floor passes for evidence, some ok plugin reported exactly the remap target with at least the alternate threshold, for any plugins with confidences in [0, 1] and weights not negative |
| `Provenance.RemapProvenanceIff` | src/impostarr/scoring.py:147-164 | provenance holds on all inputs if and only if the configuration is none of those in which the floor passes: exactly told both for plugins that all carry weight and for weights of 0 as well |
| `Confidence.ConsensusMatches` | src/impostarr/scoring.py:228-283 | enough weighted plugins high on the claim and all others low or silent: the decision is matched, whatever else they say |
| `Confidence.MatchedStaysMatched` | src/impostarr/scoring.py:228-283 | without outlier rejection a matched file stays matched when plugins grow more confident in the claim |
| `Confidence.RaisingIsSafeIff` | src/impostarr/scoring.py:168-188 | for both fusions and any proper marks: raising confidences never lowers the score after rejection if and only if rejection is off; plugins that all carry weight suffice to break it unless the clamp flattens the high mark |
| `Confidence.MatchesPersistIff` | src/impostarr/scoring.py:269-301 | from reports to decision: growing confidence in the claim never unmatches a file, at any threshold, if and only if rejection is off |
| `Confidence.RaisingCanLowerTheScore` | src/impostarr/scoring.py:168-188 | an everyday case: moving one report from 0.2 to 0.3 takes a linear score of 0.9 down to 0.7 |
| `BackfillWalk.FlatWalkMeaning` | src/impostarr/discovery.py:322-331 | the flat walk names every file of every series once, ascending by series and file |
| `BackfillWalk.TodoAfter` | src/impostarr/discovery.py:351-366 | resuming after a file leaves exactly the rest of the walk |
| `BackfillWalk.StepsRefineFlatWalk` | src/impostarr/discovery.py:344-413 | from a null cursor, steps of any positive size handle exactly the flat walk, in order, and then null the cursor |
| `BackfillWalk.StepsAdd` | src/impostarr/discovery.py:344-413 | step(n) then step(m) handles the same files and leaves the same cursor as step(n+m), unless the first completes the walk |
| `BackfillWalk.StepsAddIff` | src/impostarr/discovery.py:405-409 | the exception is exact: after a completing step the next one starts over |
| `Discoverers.WalkLibrary` | src/impostarr/discovery.py:359-413 | the nested loops with their two exits handle exactly the next files of the flat walk and compute its cursor |
| `Discoverers.WalkSeries` | src/impostarr/discovery.py:384-400 | the inner loop handles a prefix of the series' files, all of them unless the batch is full |
| `Discoverers.StartIndex` | src/impostarr/discovery.py:359-366 | the first series at or after the start |
| `Discoverers.SelectFiles` | src/impostarr/discovery.py:377-379 | only the cursor's own series is filtered, to the files after the cursor |
| `Discoverers.CaptureFile` | src/impostarr/discovery.py:135-216 | one new files row with its job, or nothing, by the state of the file |
| `Discoverers.HandleRecord` | src/impostarr/discovery.py:247-305 | no file id, a known file and a 404 are skipped, another client error raises, the rest is captured |
| `Discoverers.Discoverer.PollOnce` | src/impostarr/discovery.py:220-310 | all or nothing: a poll that raises changes nothing; otherwise rows, jobs, counts and watermark are those of the records in order |
| `Discoverers.Discoverer.BackfillStep` | src/impostarr/discovery.py:322-413 | all or nothing likewise; reset and series_id replace the stored cursor for this step |
| `DiscoverySafety.FilledMeaning` | src/impostarr/discovery.py:384-400 | after a committed step a file has a row exactly if it had one or was readable in the batch |
| `DiscoverySafety.PolledMeaning` | src/impostarr/discovery.py:247-305 | the same for a committed poll |
| `DiscoveryMeaning.PollRaisesIff` | src/impostarr/discovery.py:247-310 | a poll ends without a commit if and only if some record names a file without a row by then that Sonarr refuses or that breaks, so no record is passed over because of an error; a committed one adds a row for each file it could read, in order, counts those it could not, and moves the watermark to the last record |
| `DiscoveryMeaning.FillRaisesIff` | src/impostarr/discovery.py:384-400 | likewise for the files of a backfill batch |
| `DiscoveryMeaning.StepReaches` | src/impostarr/discovery.py:344-366 | a named series wins over a reset and a reset over the stored cursor: which files a step may handle, told from the library |
| `DiscoverySafety.ExactlyOnce` | src/impostarr/discovery.py:135-413 | over any polls and steps, any of which may be lost: at most one row per episode file, exactly one job per row, and the records up to the watermark are exactly those a committed poll handled, once each |
| `DiscoverySafety.MoveOnlyAdds` | src/impostarr/discovery.py:307-309 | the watermark never falls, and rows and handled records only grow |
| `DiscoverySafety.HandledIsNeverSeenAgain` | src/impostarr/discovery.py:220-226 | a handled record, skipped ones included, is never offered to a later poll |
| `CheckThenAct.PruneLosesNothing` | src/impostarr/throttle.py:43-45 | pruning never drops a stamp a later query needs |
| `CheckThenAct.BoundHolds` | src/impostarr/throttle.py:28-60 | however checks, acts and the clock interleave, at no time are more than limit + actors - 1 acts in force |
| `CheckThenAct.BoundIsReached` | src/impostarr/worker.py:135-150 | no smaller bound is right: for every limit and number of actors, over a rolling window or a UTC day, a run reaches it |
| `CheckThenAct.DailyRows` | src/impostarr/pipeline.py:465-477 | in any one UTC day at most budget + actors - 1 stamps are made, even when checks and inserts straddle midnight |
| `CheckThenAct.ZeroLimitNeverActs` | src/impostarr/pipeline.py:522-525 | with a budget of 0 nothing ever runs |
| `Throttle.TokenBucket.Prune` | src/impostarr/throttle.py:43-45 | exactly the stamps of the last hour remain |
| `Throttle.TokenBucket.HasCapacity` | src/impostarr/throttle.py:47-52 | true exactly when fewer than the limit of all claims ever made are in the last hour; no limit, or 0, is always true |
| `Throttle.TokenBucket.Consume` | src/impostarr/throttle.py:54-60 | one more claim, stamped now |
| `Throttle.DrivePool` | src/impostarr/worker.py:121-152 | worker loops sharing one bucket follow the abstract limiter |
| `Throttle.ClaimsPerHour` | src/impostarr/throttle.py:28-60 | in any window (t - 3600, t] at most jobs_per_hour + loops - 1 claims are consumed, so with one loop at most jobs_per_hour |
| `PluginStage.BudgetCheckIsDaily` | src/impostarr/pipeline.py:465-477 | the budget query counts exactly the plugin's stamps in force over UTC days |
| `PluginStage.ResultStore.RunPluginStage` | src/impostarr/pipeline.py:480-566 | the loop leaves the rows and outcomes of the abstract stage while other pipelines insert rows |
| `PluginStage.OnlyExecutionsCount` | src/impostarr/pipeline.py:504-555 | one outcome per plugin in order, and the job gains exactly one row per executed plugin: cache hits and synthesized abstains leave none |
| `PluginCache.OriginIff` | src/impostarr/pipeline.py:499-536 | a result is reused if and only if an ok row of the same job, plugin and input exists, and otherwise the plugin runs if and only if it has no budget or fewer rows of the day than its budget |
| `PluginCache.StageReusesIff` | src/impostarr/pipeline.py:489-560 | in a whole stage each outcome is a reuse if and only if such a row for its own input is there by then, so a changed input is never answered from the old one |
| `PluginCache.OkIsReused` | src/impostarr/pipeline.py:489-503 | what an execution leaves is reused by every later stage for the same input if it was ok, and never otherwise |
| `PluginCache.ExecutionLeavesOneRow` | src/impostarr/pipeline.py:537-555 | a plugin that runs leaves exactly its own row after those of the others, and any other outcome leaves none |
| `PluginStage.ResultStore.CheckPlugin` | src/impostarr/pipeline.py:504-525 | an ok row for the same input is reused, otherwise the plugin runs exactly if it has no budget or the day's rows are fewer than it |
| `PluginPool.PoolRefinesLimiter` | src/impostarr/pipeline.py:480-566 | any number of plugin stages interleaved on one table: for each plugin with a budget the run is one of the abstract limiter, whose stamps are the stamps of the plugin's rows and whose actors are the stages awaiting it |
| `PluginPool.DailyBudgetBoundsRows` | src/impostarr/pipeline.py:465-555 | however the stages interleave, wait and die, a plugin gets at most budget + stages - 1 rows on any UTC day, and none with a budget of 0 or less |
| `PluginPool.ReachToFinishIsOne` | src/impostarr/pipeline.py:513-555 | a stage among others does what the single stage does with the rows of the others in between |
| `PluginPool.DriveStages` | src/impostarr/pipeline.py:480-566 | the stages driven on one result store leave exactly the rows of the interleaved run |
| `RefSubQuota.StepConservesIff` | src/impostarr/refsubs.py:197-232 | each step keeps the count equal to initial value plus committed fetches plus reservations in flight if and only if it does not release an earlier day's reservation |
| `RefSubQuota.QuotaConservation` | src/impostarr/refsubs.py:155-232 | in every interleaving without such a release the books balance, the count never passes the quota unless it began above it, and neither do the fetches that obtained a link |
| `RefSubQuota.ClampIdle` | src/impostarr/refsubs.py:225-232 | the clamp at 0 is never needed for a reservation of the day |
| `RefSubQuota.LateReleaseBreaksTheQuota` | src/impostarr/refsubs.py:225-232 | with a quota of 1, a fetch that reserved yesterday and fails today lets two fetches obtain a link today, in seven steps each of which is possible where it is made |
| `RefSubQuota.RefSubService.LoadQuota` | src/impostarr/refsubs.py:197-208 | a counter of another day reads as 0 |
| `RefSubQuota.RefSubService.ReserveQuota` | src/impostarr/refsubs.py:215-223 | granted exactly below the quota, and then one more is stored |
| `RefSubQuota.RefSubService.ReleaseQuota` | src/impostarr/refsubs.py:225-232 | one less is stored, but not below 0 |
| `RefSubQuota.RefSubService.Fetch` | src/impostarr/refsubs.py:155-192 | on one day the count grows by one exactly if a link was obtained |
| `RefSubQuota.DriveFetches` | src/impostarr/refsubs.py:155-232 | concurrent fetches on one service keep the counter of the abstract run |
| `SrtPrinter.RoundIsNearest` | demo/generate_media.py:197-198 | rounding goes to a nearest integer, and halves to the even one |
| `SrtPrinter.WriteSrt` | demo/generate_media.py:205-213 | the loop prints the blocks of the lines, joined by newlines, with boundaries in rounded milliseconds |
| `SrtParser.IterCues` | src/impostarr/plugins/subtitles.py:30-48 | the loop yields at most one cue per block, in order |
| `SrtStyles.ClockRoundTrip` | src/impostarr/plugins/subtitles.py:18-27 | a printed clock reads back as its milliseconds, for any number of hours |
| `SrtLayout.StyledRoundTrip` | src/impostarr/plugins/subtitles.py:30-48 | printed cues of any number of clean lines parse back to their start and their lines joined by single spaces, in order, with any number of byte order marks, either line end, numbered or not, comma or point |
| `SrtMeaning.BlockGivesIff` | src/impostarr/plugins/subtitles.py:39-48 | an arbitrary block gives at most one cue, none if and only if no line has an arrow or only white space follows the first that has one; the cue has all that is not white space in the lines after it, in order, and the start that line shows, if any |
| `SrtMeaning.HasArrowIff` | src/impostarr/plugins/subtitles.py:42-44 | the arrow may stand anywhere in its line |
| `SrtMeaning.ParseTimestampIff` | src/impostarr/plugins/subtitles.py:15-27 | the start is the leftmost match of the timestamp pattern, and missing exactly if nothing matches |
| `SrtMeaning.CharactersIff` | src/impostarr/plugins/subtitles.py:39-46 | what counts as white space and as the end of a line is Python's |
| `SrtRoundTrip.WrittenIsPrinted` | demo/generate_media.py:205-213 | write_srt prints one of these styles |
| `SrtRoundTrip.ParsedTextsAreGood` | src/impostarr/plugins/subtitles.py:43-47 | whatever is parsed, every cue is a non-empty single line without outer white space |
| `SrtRoundTrip.SrtRoundTripIff` | demo/generate_media.py:197-213 | parsing what write_srt printed gives back its lines in order, each at its printed millisecond, if and only if each line is non-empty, unbroken and without outer white space |

## Left out

- ReapStale: one atomic step here and in the theorems of `JobQueue`.  The source writes through the ORM without a
  fence (jobs.py:205-218), so a heartbeat or a release between its SELECT and its commit is overwritten; `ReapRace`
  and `LeaseProtocol` have the two halves, with one reaper at a time.
- ClaimNext: what others do between a SELECT and its UPDATE is an argument; the session refresh after a lost UPDATE
  and the `updated_at` column are not modelled.
- LeaseFencing: cached statuses are arbitrary arguments rather than tracked copies, which allows more runs than the
  program has; the infinite worker and heartbeat task loops appear only as the moves they make.
- Replace: transport errors that `remediate.py` does not catch are crashes between two steps, and a copy is either
  complete or failed; a copy torn by a crash counts as no copy.
- Remap: as Replace; a failing episode listing is a crash.
- SomeCopySurvives: Sonarr moving the staged file on import is one step, and nobody else removes copies.
- SweepExpired: one step here, as are DeleteItem and RestoreItem; `TrashLife` has their parts.  A link or copy back is
  one step, a new item's copy and row are another, and there is one sweep at a time.
- OutcomeIsFinal: holds only of runs whose commits are fresh, because the source does not fence them.
- ActiveItemsHaveCopies: files in the trash directory are removed by this program only.  A second use of a trash path,
  which is named after the file and the job, is left out here and admitted in the other theorems; across file
  systems a new copy onto a path still in use is not modelled.
- GuardStopsIff: a remediation of a job without a verdict row raises; here it does nothing.
- ComputeFuse: real numbers instead of floats, and the logarithm and its inverse as any strictly increasing bijection.
- RemapProvenance: assumes 0 < eps <= 1/2 and an agreement count of at least 1, which the configuration does not enforce.
- Aggregate: the order of `outliers_excluded` and of equal keys follows the plugins, and is not claimed to be independent.
- BackfillStep: the library does not change during a walk; which empty series are listed before a listing fails is
  not stated, only that a failed step changes nothing.
- ExactlyOnce: batches of one instance are serialized, and `history_since` returns the records above the watermark
  ascending; its paging is not modelled.  Paths, watch directories and hashes are the answers a file gives.
- DrivePool: the clock is monotone; `in_active_hours` and pausing are left out as easy.
- RunPluginStage: one loaded plugin per name; the queries and the insert are each one step.
- PoolRefinesLimiter: the table starts empty and the clock is monotone.
- QuotaConservation: excludes exactly the releases of an earlier day's reservations.
- WriteSrt: durations are not negative, and an empty list of lines divides by zero in the source.
- IterCues: digits are ASCII; times are in thousandths of a second, so `start_s` is the modelled number divided by 1000.
- The Sonarr client, subprocess and LLM calls, transcription, fingerprints and fuzzy matching: an environment that answers.
- FastAPI routes beyond the guards cited, authentication, events, configuration loading, migrations, plugin loading
  and the web interface: they would add only easy members.
- Asset caching and the phash corpus of `pipeline.py`: lookups and inserts without a protocol of their own.
- The human-identification path of an approval: it hands a target to `remap`, which is modelled.
