# Verified model of the scraping workflow

A Dafny model of the workflow that scrapes several sites, verifies candidates in a browser and publishes
a master list, with proofs of what its protocols keep. `dafny verify dfyconfig.toml` checks all of it.

- **Publication** (`PublicationModel`, `PublicationInvariant`, `WorkflowFinalizer`, `MasterEntries`). A
  generation is staged, decided by a durable witness and rolled forward. Every file write is one atomic
  step that happens, raises, or is where the process dies; contracts hold for every such fault plan, so
  they hold at every point a run can be cut. Hashes stand for the content they identify.
- **Machine policy** (`MachinePolicy`, `WorkflowCoordinator`, `RunOutcome`). VPN and split-tunnel state is
  shared by all workspaces; a write-ahead journal makes every change recoverable. A command may fail with
  any partial effect.
- **Verification** (`Verifier`). Bounded retries over batches with checkpoints, against a specification of
  one line per URL. The judge is a function of URL and attempt.
- **Snapshots** (`StripchatPass`, `StripchatApi`, `CtbApi`, `Windows`). Paging with conservation, and
  convergence over several passes. What the site answers is an arbitrary function; ratios are exact
  rationals, compared as real numbers.
- **Removal, discovery, frames, browser** (`Removal`, `Discovery`, `Frames`, `Browser`).
- `Names` is Python's text order and `sorted` over a set, `Decimal` what that order makes of numbers and
  dates; `Common` holds shared values.

Four promises are false of the code and are stated with the exact condition under which they hold: a
commit protects a foreign master only when a base was recorded (`CommitProtectsForeignMaster`); stable
pairs mean non-empty passes only for thresholds that demand something (`PairsMeanExactly`); the merge of
session folders is independent of their order only where a dated folder, or the same first number,
decides (`AnyOrder`); and the frame splitter undoes the framer only when the last payload does not end in
CR, LF or NUL (`SplitUndoesFraming`).

Assumed of the injected functions: the URL grammar is idempotent and never yields the empty name
(`Idempotent`), used only where a contract names it; identity keys are arbitrary. Of Python's digit test
and `int` the frame results use only what they do with plain decimal text (`ReadsDecimal`). Time stamps,
hashes of JSON text, identifiers and locks are opaque. The class of a platform's steps, the answers of a
site or a browser, cancellations and faults are parameters, quantified over.

## Model

| member | source | states |
|---|---|---|
| `WorkflowFinalizer.Finalizer.History` | workflow_finalizer.py:536-582 | Over any sequence of finalize attempts, recoveries and foreign publications, each cut or failing at any write: the invariant holds throughout and the state index never decreases. A checkpoint with unattempted or transient candidates never gets a commit decision. Without a decision the live master is the last one other writers published, or the starting one, and views and pointer are as at the start; with one, a single fault-free recovery completes master, views, pointer and seal in the projected state. What others left follows from the foreign publications alone |
| `WorkflowFinalizer.Finalizer.Lifetime` | workflow_finalizer.py:75-119 | End to end from a fresh start, for any history: an unfinished checkpoint never publishes. If nobody else publishes, the live master is the starting one or, straight from the verdicts, keeps every old entry, adds exactly the URLs found blocked and the manual ones outside the blacklist, in order, with the final list and every root view to match. With other writers, a complete publication keeps this promise to a master that was live, and where its base was recorded the last list others left is that base or the very list published |
| `WorkflowFinalizer.Finalizer.Experience` | workflow_finalizer.py:75-119 | One process under any fault plan keeps the invariant and leaves the record of other writers alone; a foreign publication before the decision changes exactly the live master and that record |
| `WorkflowFinalizer.Finalizer.Recover` | workflow_finalizer.py:536-582 | Without a decision recovery changes nothing; with one it reports success only on a complete publication, and with no fault it always gets there |
| `WorkflowFinalizer.Finalizer.Finalize` | workflow_finalizer.py:75-119 | An unfinished checkpoint is refused with the publication as it was, in shadow mode too. Success means a complete publication (or, in shadow mode, no decision), and a revision staged here has the live master found here as its base, so that success keeps the promise to that master in terms of the verdicts; a conflict or a cancellation before the decision leaves master and views alone; without faults, cancellation or foreign writer a finished checkpoint succeeds |
| `WorkflowFinalizer.Finalizer.PhaseA` | workflow_finalizer.py:124-239 | With unattempted or transient candidates it raises transient_unknowns_remaining and the disk stays as it was; otherwise it returns exactly a durable, validated prepared revision or raises; a revision staged before stays, a new one records the live master as its base; only staging, artifacts, journal and manifest may change |
| `WorkflowFinalizer.Finalizer.StageArtifacts` | workflow_finalizer.py:152-176 | Leaves the final list registered, and touches staging only |
| `WorkflowFinalizer.Finalizer.ArtifactOnce` | workflow_finalizer.py:241-280 | An artifact is written and registered at most once and is registered on return |
| `WorkflowFinalizer.Finalizer.StageEntries` | workflow_finalizer.py:177-188 | The staged entries keep the promise made to the master, new ones with the date and time of staging, exactly when the live master can be read |
| `WorkflowFinalizer.Finalizer.StageRevision` | master_repository.py:285-340 | A revision on top of the live master, whose staged files and journal validate when nothing raised |
| `WorkflowFinalizer.Finalizer.StageMaster` | workflow_finalizer.py:177-226 | A staged revision that fits the checkpoint and records the live master as its base |
| `WorkflowFinalizer.Finalizer.MarkPrepared` | workflow_finalizer.py:226-239 | The prepared state is recorded only over a validated revision |
| `WorkflowFinalizer.Finalizer.ValidatePrepared` | master_repository.py:342-377 | Accepts exactly staging whose files match the revision, whose entries are publishable, whose count, text and metadata agree |
| `WorkflowFinalizer.Finalizer.DetectBaseRevisionConflict` | workflow_finalizer.py:349-365 | A conflict exactly when a base is recorded and the live JSON is neither base nor revision |
| `WorkflowFinalizer.Finalizer.PhaseB` | workflow_finalizer.py:285-347 | A stale revision is refused before the point of no return with nothing visible changed; success means complete |
| `WorkflowFinalizer.Finalizer.DecideGeneration` | workflow_finalizer.py:301-346 | Witness, committed state and session pointer in this order; every cut keeps the invariant and leaves the live files alone |
| `WorkflowFinalizer.Finalizer.AdvancePublicationState` | workflow_finalizer.py:367-380 | Moves forward or stays; the move to projecting needs the master in place, the move to projected a complete publication |
| `WorkflowFinalizer.Finalizer.RollForward` | workflow_finalizer.py:382-425 | Never reports success falsely, and without a fault completes the committed generation from any intermediate arrangement |
| `WorkflowFinalizer.Finalizer.ProjectGeneration` | workflow_finalizer.py:384-404 | The guarded sequence pointer, master, views, seal, state: when it ends without exception and conflict, everything is in place |
| `WorkflowFinalizer.Finalizer.ReconcileCommittedPointer` | workflow_finalizer.py:427-462 | The session pointer names this generation and its decision afterwards |
| `WorkflowFinalizer.Finalizer.Project` | workflow_finalizer.py:464-490 | One root view becomes its source; views already in place stay in place |
| `WorkflowFinalizer.Finalizer.ProjectViews` | workflow_finalizer.py:395-399 | The loop puts every view in place |
| `WorkflowFinalizer.Finalizer.SealCheckpoint` | workflow_finalizer.py:492-511 | The checkpoint carries the transaction and revision of this generation |
| `WorkflowFinalizer.Finalizer.VerifyProjected` | workflow_finalizer.py:513-531 | True for a complete publication; and true only with the pointer on this generation, every view present and the revision reloadable |
| `WorkflowFinalizer.Finalizer.Resume` | workflow_finalizer.py:564-582 | Past the decision an unreadable journal is a typed failure; otherwise success means complete |
| `WorkflowFinalizer.Finalizer.Publish` | workflow_finalizer.py:86-119 | Shadow mode and a refused conflict change bookkeeping only; success means complete |
| `WorkflowFinalizer.Finalizer.PublishFailed` | workflow_finalizer.py:100-119 | Which failure is reported depends exactly on whether the decision is durable |
| `WorkflowFinalizer.Finalizer.WriteBytes` | storage_utils.py:21-47 | The old file or the new one, never a mixture: which of the two, and what raises, is exactly the fate of this write |
| `WorkflowFinalizer.Finalizer.UpdateManifest` | workflow_store.py:312-340 | Every manifest write bumps the revision by one |
| `WorkflowFinalizer.Finalizer.SetPublicationState` | workflow_store.py:632-653 | A backward move raises and writes nothing; any other move lands |
| `WorkflowFinalizer.Finalizer.SetCommittedGeneration` | workflow_store.py:751-772 | Replaces the pointer and nothing else |
| `WorkflowFinalizer.Finalizer.LoadArtifact` | workflow_store.py:527-555 | Returns the registered content exactly when file and registration agree, and raises with the code of what does not otherwise |
| `WorkflowFinalizer.Finalizer.Commit` | master_repository.py:379-438 | On any files: refuses unsound staging, refuses a conflict untouched, else performs a prefix of the commit writes, all of them when it returns |
| `WorkflowFinalizer.Finalizer.CommitGeneration` | master_repository.py:379-438 | After a decision the commit never conflicts with its own partial writes and leaves the revision in place |
| `PublicationModel.CommitResumes` | master_repository.py:379-438 | A commit cut after any write and run again never conflicts with itself, is idempotent, and gives the files of one uninterrupted commit, for every cut exactly when the live metadata does not already carry the revision identifier over other metadata |
| `PublicationModel.CommitRefusal` | master_repository.py:396-408 | After a commit the revision JSON is live, except exactly when a base was recorded and the live JSON is neither base nor revision; then no file changes |
| `PublicationModel.CommitProtectsForeignMaster` | master_repository.py:396-420 | A foreign master survives a commit exactly when a base was recorded: without one the check is skipped and it is replaced |
| `PublicationModel.PartialCommit` | master_repository.py:409-420 | The three live files after any prefix of the commit writes |
| `PublicationModel.FullCommit` | master_repository.py:379-438 | A full commit that proceeds leaves exactly the revision live; one that does not changes nothing |
| `PublicationInvariant.StartSatisfiesInv` | workflow_finalizer.py:124-139 | A finished checkpoint with nothing published satisfies the invariant |
| `PublicationInvariant.InvariantConsequences` | workflow_finalizer.py:536-563 | Witness implies at least prepared; committed implies witness; the pointer implies witness; no witness implies the live master as other writers left it, views and pointer unchanged; projected implies complete |
| `PublicationInvariant.WitnessKeepsInv` | workflow_finalizer.py:301-323 | The point of no return, taken on a fitting revision, keeps the invariant |
| `PublicationInvariant.ForeignKeepsInv` | workflow_finalizer.py:349-365 | Until the decision any other writer may replace the master, and the invariant takes note of it |
| `PublicationInvariant.CommitKeepsInv` | master_repository.py:379-438 | Any prefix of the commit writes keeps the invariant and only touches live files and backup |
| `PublicationInvariant.RootKeepsInv` | workflow_finalizer.py:464-490 | Writing one root view keeps the invariant and every other view in place |
| `PublicationInvariant.PublishedContent` | workflow_finalizer.py:154-202 | A complete publication keeps the whole promise, in terms of the verdicts, relative to its base, which is a master that was live before the decision: the starting one if nobody else published; with a base on record it is the last one other writers left, unless they left the same list |
| `PublicationInvariant.PromiseMeans` | stripchat_store.py:199-252 | The promise read from the verdicts: every old entry stays under its name with every field but perhaps the manual mark, each new entry is a blocked or manual URL outside the blacklist with the session and manual mark due to it, every such URL is listed under its identity, and the entries are in character order, one an identity |
| `MasterEntries.ValidateEntries` | master_repository.py:532-549 | Accepts exactly lists of canonical non-empty names with no two entries of one identity |
| `MasterEntries.MergeBlockedIntoMaster` | stripchat_store.py:199-252 | For every identity exactly the entry the merge rules prescribe, in key order |
| `MasterEntries.MergeKeys` | stripchat_store.py:199-252 | Merged identities are exactly old plus (blocked and manual minus blacklist) |
| `MasterEntries.MergeKeepsEntries` | stripchat_store.py:222-228 | No entry is lost or respelled; it at most gains the manual mark |
| `MasterEntries.MergeIsIdempotent` | stripchat_store.py:199-252 | Merging the same contribution again changes no entry |
| `MasterEntries.GatherByIdentity` | master_repository.py:551-570 | The two dictionaries hold one entry per identity under its first spelling; it fails exactly on a name outside the grammar |
| `MasterEntries.CanonicalEntries` | master_repository.py:551-574 | Publishable, sorted, one entry per identity with later fields folded in; raises exactly on a name outside the grammar |
| `MasterEntries.CanonicalOnlyReorders` | master_repository.py:551-574 | On canonical, distinct entries canonicalisation only reorders |
| `MasterEntries.BuildMaster` | workflow_finalizer.py:177-202 | Merge then canonical form keeps the whole promise made to the published master, new entries carrying the date, time, session and manual mark of this run |
| `RunOutcome.SucceedsExactlyWhen` | workflow_types.py:408-500 | For duplicate-free required steps: success exactly when restoration is absent or succeeded, there are steps, all succeeded and each required one occurs exactly once |
| `RunOutcome.WaitingForcesFailure` | workflow_types.py:425-453 | A waiting step makes the run fail |
| `RunOutcome.Pigeonhole` | workflow_types.py:487-492 | When every required name occurs, the count equals their number only if each occurs once |
| `RunOutcome.CoversExactlyOnce` | workflow_types.py:487-492 | The subset-and-count test means that each required step occurs exactly once |
| `RunOutcome.PositionalSuccess` | workflow_types.py:486-497 | For outcomes recorded position by position, success exactly when all required ones are there, succeeded and were restored |
| `RunOutcome.CalculateMeans` | workflow_types.py:408-500 | Status and code of any run: a failed restoration first, then the first failed step, a waiting step, the first cancelled, the first incomplete one; otherwise success exactly when there are steps and each required one occurs exactly once |
| `MachinePolicy.Controller.Begin` | machine_policy.py:197-258 | Document before pointer, both before any command; a fresh transaction; a foreign active one is refused untouched; other documents unchanged; safety kept when the active one is settled |
| `MachinePolicy.Controller.Update` | machine_policy.py:363-376 | A document changes only for its owning workspace, and only that document |
| `MachinePolicy.Controller.ClearActive` | machine_policy.py:338-361 | Clears only its own transaction; with the write-ahead invariant kept |
| `MachinePolicy.Controller.ApplyVpnRouteForSnapshot` | machine_policy.py:398-413 | Returns normally only on the snapshot route with both transitions on record; whatever fails, the transaction stays pending |
| `MachinePolicy.Controller.DisconnectForLocal` | machine_policy.py:415-422 | Returns normally only when disconnected and with the transition on record; whatever fails, the transaction stays pending |
| `MachinePolicy.Controller.Attempt` | machine_policy.py:430-453 | One half of a restore: its failure is noted and never stops the other half |
| `MachinePolicy.Controller.RestoreHalves` | machine_policy.py:424-453 | Both halves are always tried, in order, one fate each: each succeeds exactly when its own command does |
| `MachinePolicy.Controller.Restore` | machine_policy.py:424-471 | Success exactly when both halves and the record succeed, whichever of the three faults occur; the first fault that counts names the failure; a half that succeeded holds although the other failed. Otherwise the transaction stays unsettled. The verified state stays what it was or becomes the target, which is then the machine |
| `MachinePolicy.Controller.Settle` | machine_policy.py:513-524 | After a verified restore the mirror result goes on record, a failed mirror keeps its own status, and the pointer is cleared |
| `MachinePolicy.Controller.RecoverPending` | machine_policy.py:473-529 | Repairs to the recorded target or refuses; a settled transaction is cleared without touching the machine; a foreign one is refused; without faults it never refuses its own. The verified state stays or becomes the target of the recorded unsettled transaction, and no target changes |
| `WorkflowCoordinator.HardenedWorkflowCoordinator.EnterStep` | workflow_coordinator.py:537-549 | Past both gates, each found open, a step finds the machine on its route. It reports a cancellation only where a gate is set; a set first gate leaves the machine, its plan and the documents untouched |
| `WorkflowCoordinator.HardenedWorkflowCoordinator.RunSteps` | workflow_coordinator.py:532-559 | Outcomes follow the required steps position by position; every executed step ran on its route through two open gates; a set gate that is reached ends the loop, and only that is a cancellation; how the loop ended is exact |
| `WorkflowCoordinator.HardenedWorkflowCoordinator.TryRun` | workflow_coordinator.py:515-597 | Whatever ended the try block, at most one outcome is synthesized, at the end, for the step the loop was at, with the status and code of the way it ended |
| `WorkflowCoordinator.HardenedWorkflowCoordinator.Finish` | workflow_coordinator.py:598-618 | Restores and clears, or leaves the transaction pending on record; the verified state stays or becomes the target |
| `WorkflowCoordinator.HardenedWorkflowCoordinator.RunTransaction` | workflow_coordinator.py:514-635 | Restoration is attempted on every path and its failure stays on record; the reported status and code are exactly those of the way the steps ended and of the restoration, CANCELLED with cancelled_by_user after a gate; however it ends, even by death, the verified state is the one before or the target |
| `WorkflowCoordinator.HardenedWorkflowCoordinator.Run` | workflow_coordinator.py:442-635 | Nothing runs before the machine is repaired; a foreign or failed repair refuses and reports nothing run; a set cancellation gate is obeyed; the run record is sound, its status decided by the way the steps ended and the restoration; the verified state is the one before or a target some transaction aims at; without faults the script alone decides which steps run and what is reported |
| `WorkflowCoordinator.HardenedWorkflowCoordinator.Sessions` | workflow_coordinator.py:442-635 | Over any sequence of runs by any workspaces with any faults: with nothing pending on record, the machine is as it was last verified before or at a target some transaction aims at; it never differs from the verified state without a pending transaction; every run that began reports soundly |
| `WorkflowCoordinator.ScriptDecides` | workflow_coordinator.py:532-635 | A restored run without a failed route change does exactly what its script says: all steps up to the first whose gate is set or whose behaviour is not success run, and that one decides status and code |
| `WorkflowCoordinator.SynthesizedKeepsRecord` | workflow_coordinator.py:863-890 | Adding the synthesized outcome keeps the positional record, and everything succeeded exactly when the loop completed |
| `WorkflowCoordinator.RecordedSuccess` | workflow_coordinator.py:624-635 | A positional record yields success exactly when it is full, all succeeded and the machine was restored |
| `Verifier.ChaturbateVerifier.Campaign` | ctb_verifier.py:79-198 | Any history of runs, cancelled, cut after any write, resumed or restarted, in any batch sizes: every completed run reports the same list, which in terms of the judge alone is what Verify states, and one more uninterrupted run completes with the specified outcome and checkpoint |
| `Verifier.ChaturbateVerifier.Verify` | ctb_verifier.py:79-198 | In terms of the judge alone: after success a URL is listed exactly when it is known blocked, or is a candidate some attempt within the allowance found blocked while all earlier ones raised, named another URL or were unknown; the list is in character order without repeats; a candidate whose attempts never decide and whose last one raised keeps the run incomplete, and the number reported is the number of those. An uncut, uncancelled run completes; a cancellation is obeyed at the first poll that sees it and only there; a changed candidate list is refused exactly. The judge is asked, each once, exactly the attempts between those checkpointed before and now |
| `Verifier.ChaturbateVerifier.Canonicalize` | ctb_verifier.py:81-90 | The canonical list, or failure exactly when some candidate is outside the grammar |
| `Verifier.ChaturbateVerifier.Ask` | ctb_verifier.py:148-165 | One attempt at one pending URL, requested and counted; what it records is the judgement, or unknown where the judge raised or named another URL |
| `Verifier.ChaturbateVerifier.Batch` | ctb_verifier.py:133-166 | One batch and its checkpoint |
| `Verifier.ChaturbateVerifier.Round` | ctb_verifier.py:125-166 | One round over the pending URLs, checkpointed batch by batch; the remaining work drops unless cut or cancelled |
| `Verifier.ChaturbateVerifier.Conclude` | ctb_verifier.py:175-198 | Published exactly when no transient unknown remains; otherwise the checkpoint stays complete and the number remaining is reported |
| `Verifier.ChaturbateVerifier.PublishSuccess` | ctb_verifier.py:200-277 | The list published is sorted(BLOCKED plus known), or the session file stays as it was |
| `Verifier.SettlingIsFirst` | ctb_verifier.py:290-302 | The settling attempt is the first decisive one, else the last allowed |
| `Verifier.PendingMeansUnsettled` | ctb_verifier.py:290-302 | A URL is pending exactly while its settling attempt has not been made |
| `Verifier.NothingPending` | ctb_verifier.py:122-132 | With nothing pending the recorded verdicts and attempts are the specified ones, however the work was cut |
| `Verifier.AttemptStaysOnTheWay` | ctb_verifier.py:148-165 | One more attempt at a pending URL stays consistent with the specification and leaves the other URLs pending as they were |
| `Verifier.NoneUnsettled` | ctb_verifier.py:175-180 | No transient unknown is counted exactly when every URL settled |
| `Verifier.FinalRecordMeans` | ctb_verifier.py:148-165 | The final verdict of a URL, from the answers alone: blocked exactly when the first decisive answer says so, a transient unknown exactly when none is decisive and the last attempt raised or was misattributed |
| `Verifier.FinalBlockedMeans` | ctb_verifier.py:200-207 | The specified list holds exactly the known blocked URLs and the candidates ruled blocked by the answers, in character order without repeats |
| `Verifier.SettledMeans` | ctb_verifier.py:175-197 | The run can succeed exactly when no candidate was never reached; otherwise the number of those is what remains |
| `Verifier.ChaturbateVerifier.PruneCheckpoint` | ctb_store.py:283-321 | Prunes exactly when the kept URLs are a strict subset of the listed ones; the checkpoint becomes its restriction |
| `Verifier.PrunedResumes` | ctb_store.py:283-321 | A pruned checkpoint passes the digest check for the kept canonical list and loses no attempt made for it |
| `Verifier.PruningCommutes` | ctb_store.py:304-319 | Finishing the kept list gives the restriction of finishing the whole list |
| `Verifier.ChaturbateVerifier.PruneAndResume` | ctb_store.py:283-321 | Pruning to a strict subset and then running uninterrupted leaves the checkpoint that finishing the whole list and then pruning would, asking exactly for the attempts still missing of the kept URLs |
| `Verifier.PrunedListPublished` | ctb_verifier.py:200-207 | With the dropped URLs known blocked, the published list is that of the unpruned run exactly when each of them would have been on it |
| `StripchatPass.ValidateEnvelope` | stripchat_api.py:120-194 | Returns the page exactly when the body is acceptable: counts agree, total is a natural number, the limit is echoed, usernames valid, no identity twice |
| `StripchatPass.ValidateModels` | stripchat_api.py:167-187 | Accepts exactly valid usernames without a repeated identity |
| `StripchatPass.MergePage` | stripchat_api.py:425-433 | Every raw record is the accepted one of its identity or a duplicate; it stops exactly on an identity with two spellings |
| `StripchatPass.CheckPageLoop` | stripchat_api.py:407-424 | A loop is reported exactly when an earlier full page showed the same identities, in whatever order |
| `StripchatPass.TakePage` | stripchat_api.py:407-436 | Why a page stops the pass, code by code |
| `StripchatPass.NextPage` | stripchat_api.py:381-392 | Why no page is read, code by code; and the first request of a pass settles its first page |
| `StripchatPass.ReadPages` | stripchat_api.py:380-437 | Each page answers the request at the offset just after all earlier records; the no-progress exit is unreachable; at most max_pages pages; a completed reading ends on a terminal empty page; the first page kept for the generation test is the one the feed gave, or none |
| `StripchatPass.DuplicatesExceedMeans` | stripchat_api.py:445-471 | Duplicates exceed exactly when they are more than the allowed part of all records |
| `StripchatApi.StripchatApiClient.FetchPass` | stripchat_api.py:365-471 | Every pass is genuine: success carries one username per identity in key order, 0 < accepted <= max_models, records = accepted + duplicates within the ratio; any failure has its reason and exposes no models |
| `StripchatApi.ConcludedIsSound` | stripchat_api.py:445-471 | The verdict on a finished reading is sound |
| `StripchatApi.WindowIsStable` | stripchat_api.py:597-618 | Stable exactly when all neighbouring passes agree and there are enough pairs |
| `StripchatApi.Tally` | stripchat_api.py:620-630 | Occurrences and last spelling of every identity over the window |
| `StripchatApi.OccurrencesAreCounts` | stripchat_api.py:624-630 | Counting records counts passes, because a pass lists an identity once |
| `StripchatApi.AcceptedFromWindow` | stripchat_api.py:620-644 | Accepted are exactly the identities of at least two passes, quarantined those of exactly one, in key order and latest spelling |
| `StripchatApi.StripchatApiClient.CollectSnapshot` | stripchat_api.py:504-595 | A snapshot is published exactly for the first acceptable run of passes; nothing else exposes models; every non-success has its code. It is cancelled exactly when the last pass was, or the wait before the next one met a stop request; no pass is taken after a cancelled wait, and a wait that timed out never ends the collection. A stable window that quarantines too much buys one more pass, once |
| `StripchatApi.StripchatApiClient.AwaitNewGeneration` | stripchat_api.py:481-502 | The wait for another generation is cancelled exactly when the stop request is seen before any other first page or failure, and times out exactly when every probe allowed showed the previous first page |
| `StripchatApi.PairStableMeans` | stripchat_api.py:597-617 | Two passes agree exactly when neither is empty, the identities they share are at least the demanded part of all, and their sizes differ by at most the allowed part of the larger |
| `StripchatApi.ExcessMeans` | stripchat_api.py:554-560 | Quarantine is excessive exactly when more than the allowed part of everything seen is quarantined |
| `StripchatApi.StripchatApiClient.Consider` | stripchat_api.py:545-587 | After a successful pass: published exactly when acceptable |
| `StripchatApi.SnapshotGuarantees` | stripchat_api.py:545-587 | The window is the last consecutively numbered successful passes; accepted and quarantined partition what it saw; the quarantined share is within the ratio and within (n-1)(1-j); with j > 0 something is accepted |
| `StripchatApi.LoneDrifts` | stripchat_api.py:620-638 | An identity seen once is one on which two neighbouring passes disagree |
| `StripchatApi.StableWindowBound` | stripchat_api.py:597-644 | Pairwise agreement alone bounds the quarantine and makes the accepted set non-empty |
| `Windows.Partition` | stripchat_api.py:633-638 | Repeated and lone identities partition the union |
| `CtbApi.ChaturbateApiClient.Remember` | ctb_api.py:294-295 | Appends each listing to the history of its URL |
| `CtbApi.ChaturbateApiClient.Absorb` | ctb_api.py:285-315 | The running pair count and history after any pass are those of all passes so far |
| `CtbApi.ChaturbateApiClient.ReportOf` | ctb_api.py:335-351 | One entry per URL seen in at least two, or exactly one, successful passes: the latest, with the longest time online where accepted |
| `CtbApi.ChaturbateApiClient.Publish` | ctb_api.py:328-365 | Status, accepted and quarantined lists follow from the passes |
| `CtbApi.ChaturbateApiClient.CollectAdaptive` | ctb_api.py:261-365 | The snapshot is sound; after success a URL is on the accepted list exactly when at least two successful passes list it, on the quarantined list exactly when one does, with the details of the last such pass and the longest time online where accepted; collection stops at the first convergence without lone URLs, else at the next convergence, else out of passes |
| `CtbApi.ReportedCovers` | ctb_api.py:335-359 | A report read pass by pass: its URLs are exactly those of its kind, each with the details of the last successful pass listing it |
| `CtbApi.AgreeMeans` | ctb_api.py:297-311 | The pair test without division, including two empty passes |
| `CtbApi.PairsMeanExactly` | ctb_api.py:289-315 | A count of k stable pairs means k + 1 successful, non-empty, agreeing passes in every history, exactly when the thresholds demand some overlap or bound the size change; otherwise an empty pass can stand in |
| `CtbApi.PairsMean` | ctb_api.py:289-315 | The positive half, history by history |
| `CtbApi.EmptyFirst` | ctb_api.py:289-315 | The counterexample: an empty pass and then identical ones count as stable |
| `CtbApi.AgreementIsRepeated` | ctb_api.py:352-359 | With a positive overlap threshold and one stable pair something is seen twice |
| `CtbApi.AdaptiveGuarantees` | ctb_api.py:328-365 | Success ends in the required stable passes; accepted and quarantined partition what successful passes listed; the empty stable snapshot is unreachable for a positive threshold |
| `CtbApi.MaxSeconds` | ctb_api.py:344-346 | The longest time online over all observations |
| `Removal.MasterRepository.ApplyAll` | master_repository.py:450-516 | Over any batches with removal allowed: an entry is gone exactly when it is unprotected and some ACCESSIBLE record found enough different runs since its last BLOCKED; protected entries untouched; removed ones blacklisted; remaining plus removed is initial |
| `Removal.MasterRepository.ApplyVerificationRecords` | master_repository.py:450-516 | One batch: removes exactly the confirmed entries, conserves the count, follows each remaining entry, changes nothing when a URL is outside the grammar |
| `Removal.Note` | master_repository.py:471-505 | One record about an entry: history, last verdict, pending mark and run ids, and whether it confirms removal |
| `Removal.NotedTracks` | master_repository.py:477-496 | Remembering at most N run ids never miscounts towards N |
| `Removal.UnconfirmedFits` | master_repository.py:490-502 | Until confirmed, all evidence fits in what is kept |
| `Removal.KeptDecides` | master_repository.py:477-502 | Deciding from the kept run ids is deciding from the full evidence |
| `Removal.ReachesJoin` | master_repository.py:459-505 | Evidence in one batch and the next adds up as in one |
| `Browser.BrowserProvider.Survey` | stripchat_core.py:211-285 | Any stretch of consecutive unreadable pages among those reported is at most (limit - 1)(restarts + 1) long, so where nothing can be read the run ends after at most that many reports |
| `Browser.BrowserProvider.Observe` | stripchat_core.py:211-245 | Reports a page or gives up with all restarts spent; every attempt but the reported one cost a browser, and each cost follows from what the pages answered since the last readable page or restart; a stop request is asked for before each attempt and obeyed; never reports a lost browser or an unnamed failure as a page |
| `Browser.BrowserProvider.JudgedObservation` | stripchat_core.py:247-285 | One attempt is blamed on the browser exactly when the page said so, was blind without a named cause, or was the last blind page allowed with nothing readable between, counted over what the pages answered |
| `Browser.BrowserProvider.JudgeBrowser` | stripchat_core.py:247-285 | The browser is blamed exactly for its own loss, an unnamed failure without URL, or the last unreadable page allowed |
| `Browser.BrowserProvider.Restart` | stripchat_core.py:232-238 | A fresh browser gives the next pages a new allowance |
| `Browser.BlindRun` | stripchat_core.py:262-278 | The count of blind pages is that of a stretch without a single readable page |
| `Discovery.CompileMasterList` | mfcscrape.py:404-538 | Listed are exactly the rooms outside the blacklist that some folder or the manual list names. A listed room carries date and number of a folder listing it, the date, compared at the first differing character, not above that of any dated folder listing it, and on the same date the number not above; and the time it first entered the saved list, this compilation if it is new, or its session where no time was saved; it is pending exactly when not manual and no listing session was verified. A manual-only room carries what was saved, dated today where nothing or only Manual was |
| `Discovery.RecompilingChangesNothing` | mfcscrape.py:498-575 | Compiling the same folders again from what was saved, however much later, changes no date, number, time or pending mark |
| `Discovery.AddManual` | mfcscrape.py:508-538 | The manual loop adds exactly the unlisted manual rooms outside the blacklist and clears the pending mark of the listed ones |
| `Discovery.ManualEntry` | mfcscrape.py:516-534 | An unlisted manual room takes over what was saved of it, and is upgraded to today where that was nothing or Manual |
| `Discovery.StampTimes` | mfcscrape.py:498-506 | Each compiled room gets the saved time, this compilation if it is new, or keeps its session time |
| `Discovery.MergeSessions` | mfcscrape.py:424-496 | After all folders each room carries its earliest discovery, in the character order of dates, with the time of such a session, and its pending mark |
| `Discovery.EntryMeans` | mfcscrape.py:478-538 | What a reader of the folders can check of one entry: its date is that of a listing folder and not later, character by character, than any other |
| `Discovery.CompileSession` | ctb_core.py:1337-1398 | One folder more, with lines in any number and order |
| `Discovery.NextListing` | mfcscrape.py:478-496 | One more listing keeps the lexicographic minimum of date and number, dates in character order, and the pending mark |
| `Discovery.AnyOrder` | mfcscrape.py:465-496 | Another order of the folders leaves date and pending alone, and the session number exactly when some listing folder is dated or both orders start at the same number |
| `Discovery.UndatedOrderShows` | mfcscrape.py:478-496 | With undated folders only, the first visited number stays |
| `Names.LeByCharacter` | mfcscrape.py:487 | The text order, character by character: wherever two texts agree up to some point, the first ends there or its next character is not above the other, so the first difference decides and a proper prefix comes first |
| `Names.LeByParts` | mfcscrape.py:487 | Of texts whose equally long beginnings differ, the beginnings decide; otherwise the rest |
| `Decimal.DigitOrder` | mfcscrape.py:487 | Digit texts of one length are ordered as the numbers they denote |
| `Decimal.CalendarOrder` | mfcscrape.py:453-487 | Dates written as four, two and two digits are ordered as in the calendar |
| `Frames.SplitFcFrames` | mfcscrape.py:790-820 | Between outer separators a message is nothing, or text without a frame at its start, which comes back whole, or consecutive frames with only separators between, which come back one by one until no frame follows; whatever the digit test and integer conversion make of other scripts |
| `Frames.SplitUndoesFraming` | mfcscrape.py:790-820 | For any payloads and separators the frames come back exactly, if and only if the last payload does not itself end in a separator |
| `Frames.ParseUndoesComposing` | mfcscrape.py:822-845 | Parsing a composed message gives its integer fields exactly, or the default where a number has more digits than int reads, and its payload trimmed |
| `Frames.ParseMeans` | mfcscrape.py:822-845 | A message of five or more fields is accepted exactly when its header has more than six characters, all digits; unreadable numbers become 0, the type -1, and what follows the fifth blank is the trimmed payload |
| `Frames.TooFewFields` | mfcscrape.py:829-831 | A message of fewer than five fields is not accepted |
| `Frames.MessagesReceived` | mfcscrape.py:790-845 | All messages of a stream are received |
| `Frames.TrimKeeps` | mfcscrape.py:844 | A payload without outer whitespace of any kind is recovered unchanged |
| `Frames.TrimMeans` | mfcscrape.py:844 | What trimming takes from either end is blank, and what it leaves neither starts nor ends in a blank |

## Left out

- `WorkflowCoordinator.run_step`, the single-step variant of the same fence, and the legacy coordinator without a journal.
- WorkflowFinalizer.Finalizer.Finalize: claims success only from the states before projecting; the code refuses the backward move to committed from there, and recovery is the way on.
- WorkflowFinalizer.Finalizer.Recover: may leave the recovery flag set where the generation is already projected and intact, as the code does.
- Publications by another writer after this generation's commit decision, or between the read and the staging inside one finalize attempt.
- The master's backup file after a resumed commit, and the backup callback.
- A missing checkpoint in phase A, and the fields of journal, witness and pointer that only repeat identity, paths and times.
- MachinePolicy.Controller.Restore: does not claim the relay, which the code does not restore.
- Clearing a pointer that is already empty: the code then writes nothing, the model writes it again.
- WorkflowCoordinator.HardenedWorkflowCoordinator.Run: takes the steps' own code and their outcome validation as one behaviour per step.
- Verifier.ChaturbateVerifier.Verify: takes the stored checkpoint as readable and of this run; a damaged or foreign file is the same refusal in the code.
- Progress messages, warnings and metrics of all components.
- The retry and backoff loop of one page request: a page request has one reply in the model. Size and content-type limits of a reply are part of "no acceptable reply".
- StripchatPass.ReadPages: the raw and duplicate counters it reports for a failed pass exclude the page that failed it; the code counts part of that page.
- Chaturbate page fetching below the per-pass dictionary: paging parameters, declared totals and repeated pages.
- Removal.MasterRepository.ApplyVerificationRecords: reports the removed set; the code's tuple repeats a URL confirmed twice in one batch. Stored run ids are taken as this policy leaves them: non-empty, distinct, at most N.
- Publishing the remaining entries after removal, and the counter of applied records.
- Discovery.CompileMasterList: leaves open which of two equal discoveries lends its time; in the code it is the first visited. Reading and writing the saved list, the country field and the backups are not modelled.
- Folder names, dates as calendar values, and unreadable session files: a session is what was read of it.
- Bytes of a frame are decoded text already.
- Rounding of ratios in floating point.
- Selenium, HTTP, web sockets, window handling, command line tools, the graphical and web interfaces, operating system locks: easy members or the behaviour of others.
- `workflow_verifier.py` is not part of this model: its checkpoint is given to the finalizer.
