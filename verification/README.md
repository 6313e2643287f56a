# LibreChat: stateful protocols

A Dafny model of the parts of LibreChat whose correctness depends on many steps: the
record/replay fixtures of the end-to-end harness, the clustered server's primary and workers,
the maintenance migrations and the account deletion that must survive failures half way, and
the violation counters. `dafny verify dfyconfig.toml` checks everything.

How the modules are built:

- The behaviour of a component is a step function over an immutable state (`Step`, `Own`,
  `Advance`, `Classify`, `Migrate`, ...), and a run is a fold of steps over an arbitrary list of
  events, so schedules, interleavings and failures are universally quantified.
- Where the source mutates objects there is a class with those fields, and every method is
  proved to perform exactly the step (`ensures View() == Step(old(View()), ...)`) and to touch
  nothing else; the laws are then proved about the step and its runs.
- An `await` whose failure can leave work half done is an outcome of the run: it may fail before
  or after taking effect, or after reaching part of what it writes. Awaits that come before the
  first write, and failures that end a run without further effect, are named under "Left out".
- History fields (`takers`, `mine`, `landed`, `silent`, `orders`, `orig`, ...) record what
  happened, for stating properties; no step reads them.

| file | component |
|---|---|
| `Common.dfy`, `Decimals.dfy` | optional values, decimal numerals |
| `Messages.dfy` | the message projection of the fixtures |
| `Recording.dfy` | recording: interleaved callbacks, generations, the log and its parser |
| `Replay.dfy` | replay: cursor, ledger, ownership, restarts, and replay of a recording end to end |
| `Cluster.dfy` | primary and workers: sweep assignment and shutdown handshake |
| `FileDuplicates.dfy` | the duplicate-filename migration |
| `DeleteUser.dfy` | the account-deletion saga and its compensations |
| `SharedLinks.dfy` | the shared-link permission migration |
| `Violations.dfy` | violation counts, the shared log and bans |
| `MeiliReset.dfy` | the batched reset of the search-index flag |

## What the proofs found

Laws that the code keeps only under a condition; each is proved with its exact condition.

- A failure callback left over from an earlier recording deletes a run-id mapping before it
  checks its generation (`e2e/setup/model-replay.js:290-295`). It is inert if and only if its run
  id is not mapped by the current recording (`StaleHandlerIsInertIff`); otherwise a chunk is lost
  (`SharedRunIdLosesChunks`).
- A fixture without invocations is accepted by any conversation that already has a human turn
  (`EmptyFixtureIsAcceptedIff`), so "the first bind matched the first prompt" needs non-empty
  fixtures.
- Suffixed file names collide across different names exactly when the names split into the same
  base and extension (`SuffixesCollideIff`), which takes a trailing slash (`TrailingSlashCollides`).
  The dry run equals the real run if and only if no two duplicated names of one scope clash that
  way (`DryRunEqualsRealRunIff`).
- A worker that dies before coming online leaves `activeWorkers` one too low for good
  (`ActiveCountsOnlineIff`); the early assignment of the sweep then no longer fires, and only the
  count of listening workers triggers it.
- If recovering a stale deletion fence takes effect but its answer is lost, the fence is never
  released (`RecoveryLeaksIff`): `deletionFence` is assigned only after the call returns.
- If the first fence write fails before taking effect, the cleanup releases another process's
  fence if and only if both carry the same millisecond (`FailedBeginReleasesIff`).
- With a shared store the deletions proceed without a drain if and only if this process never
  acquired the fence, which takes a user document that is already gone (`DrainedBeforeErasing`,
  `MissingUserErasesUndrained`).
- When the last step after a committed deletion fails, the purge marker stays armed if and only if
  its own deletion had not landed (`FailedAftercareStaysArmedIff`).
- The violation count and the shared log stay in step for a user and a type if and only if none of
  their calls throws between the two writes (`LogChainsIff`). A call that throws before its ban
  loses it: while scores are not negative no later call crosses the same multiple again
  (`AThrowLosesTheBan`); a negative score can bring it back (`ANegativeScoreBringsTheBanBack`).
- A bulk error that carries a list of write errors charges only the listed links, and the list can
  be incomplete or empty (`config/migrate-shared-link-permissions.js:238`). A link whose field is
  removed has all its grants if and only if it did not fail unlisted
  (`FlagGoesOnlyWhenGrantedIff`), and reruns converge if and only if no field was removed whose
  grant is missing (`RerunConvergesIff`); otherwise the grant is lost for good
  (`AnEmptyListLosesTheGrant`).
- A worker that starts shutting down without the primary's deadline keeps the teardown reserve
  if and only if it did not see its signal later than the primary did
  (`FallbackHonoursReserveIff`).

## Model

| member | source | states |
|---|---|---|
| `Messages.SerializeRoundTrip` | e2e/setup/model-replay.js:143-170 | recording and replaying a chunk gives back that chunk if and only if it has every property a fixture line carries |
| `Messages.RoundTripKeepsEveryPresentField` | e2e/setup/model-replay.js:143-170 | no property that was present is lost or changed; only absent ones are filled with defaults |
| `Messages.ReplayedChunkIsStable` | e2e/setup/model-replay.js:143-170 | recording a replayed chunk again gives a fixture that replays identically |
| `Recording.TurnTextsCollapse` | e2e/setup/model-replay.js:104-112 | turns keep the first and last prompt, drop and invent none, and never repeat a neighbour |
| `Recording.ParseFixtureFile` | e2e/setup/model-replay.js:422-456 | the parsing loop over holes, errors and the missing-invocation test computes the parse that the round trip is about |
| `Recording.ThrewStays` | e2e/setup/model-replay.js:440-445 | after a recorded provider error no later line changes the outcome |
| `Recording.RunTracks` | e2e/setup/model-replay.js:189-303 | in every run of installs, restarts and callbacks, counter, run-id map and log agree with what the current recording's events call for |
| `Recording.RecordParseRoundTrip` | e2e/setup/model-replay.js:254-302 | for any interleaving of concurrent runs the parsed log has every invocation by index with its own prompt, its own chunks in order and its final text; parsing fails exactly when a handler of this recording reported an error |
| `Recording.StaleHandlerIsInertIff` | e2e/setup/model-replay.js:243-302 | a handler of an earlier generation changes nothing if and only if it is not a failure of a currently mapped run, and never touches log, counter or owner |
| `Recording.SharedRunIdLosesChunks` | e2e/setup/model-replay.js:290-295 | the concrete loss when a left-over failure shares a live run id |
| `Recording.SupersededHandlersAreInert` | e2e/setup/model-replay.js:235-303 | with fresh run ids, deleting all callbacks of superseded handlers leaves the same recorder and the same log, over the whole recording |
| `Recording.LogIndicesAreDense` | e2e/setup/model-replay.js:254-302 | the invocation lines of the log are numbered 0..counter-1 in order and every other line refers to one of them, in every run |
| `Recording.RecordingIsOneConversation` | e2e/setup/model-replay.js:206-233 | an install that finds recorded invocations belongs to the conversation that owns the recording, so a retry never appends to a failed attempt |
| `Recording.RecordingState.InitializeRecording` | e2e/setup/model-replay.js:189-204 | a new recording starts with an empty log but for its header, counter and mapping reset, and a generation no handler carries yet |
| `Recording.RecordingState.InstallRecorder` | e2e/setup/model-replay.js:311-346 | the recorder takes exactly the install step, and afterwards every agent context that can carry handlers has exactly one live recorder |
| `Recording.AttachRecorder` | e2e/setup/model-replay.js:387-413 | one recorder of the current generation, other handlers kept in order, superseded recorders dropped from arrays |
| `Recording.RecorderHandler.HandleChatModelStart` | e2e/setup/model-replay.js:254-265 | performs the start step of the recorder and appends at most its one line |
| `Recording.RecorderHandler.HandleLLMNewToken` | e2e/setup/model-replay.js:266-276 | performs the token step |
| `Recording.RecorderHandler.HandleLLMEnd` | e2e/setup/model-replay.js:277-289 | performs the end step |
| `Recording.RecorderHandler.HandleLLMError` | e2e/setup/model-replay.js:290-301 | performs the failure step, including the deletion before the generation check |
| `Replay.AdvanceIsFaithful` | e2e/setup/model-replay.js:557-599 | one segment of a stream takes the next invocation only at its start, in recorded order and only under a fitting prompt; overrun and mismatch leave the cursor alone and are entered in the ledger; counters move by exactly the stream's progress |
| `Replay.FirstBindNeedsFirstPrompt` | e2e/setup/model-replay.js:645-667 | an unclaimed, untouched, non-empty fixture accepts an identified call if and only if it opens with the first recorded prompt |
| `Replay.EmptyFixtureIsAcceptedIff` | e2e/setup/model-replay.js:663-665 | an empty fixture is accepted exactly by conversations with a human turn |
| `Replay.ADrainedScriptOverruns` | e2e/setup/model-replay.js:557-570 | in every reachable world, once the ledger of an object is drained every stream that starts on it fails, takes nothing and is entered in the ledger |
| `Replay.AnExtraTurnFailsLoudly` | e2e/setup/model-replay.js:557-721 | in every run, a call that binds its model to a drained object gets an overrun from it, and nothing else |
| `Replay.StreamsAreFaithful` | e2e/setup/model-replay.js:557-599 | in every reachable world invocations are taken in recorded order, each by at most one stream and only under a fitting prompt or none, and each stream has emitted its recorded chunks in order |
| `Replay.EveryInvocationBeforeTheCursorWasTaken` | e2e/setup/model-replay.js:590 | the invocations before a cursor are exactly those some stream of that object took |
| `Replay.LedgerIsConserved` | e2e/setup/model-replay.js:487-502 | invocationsConsumed <= cursor <= invocationsTotal, and chunksConsumed is the sum over the taken invocations of their streams' progress, in every run |
| `Replay.DrainedLedgerMeansEverythingEmitted` | e2e/setup/model-replay.js:591-598 | the ledger counts everything consumed if and only if every recorded invocation was streamed out whole, and then every chunk is counted once |
| `Replay.RestartIsolatesLeftovers` | e2e/setup/model-replay.js:513-525 | no step of a stream or model from before a restart changes the cursor or ledger of an object created later, in any run |
| `Replay.LedgerFilesShowTheCurrentAttempt` | e2e/setup/model-replay.js:475-485 | whichever stream writes a ledger file, it shows the ledger registered under the name at that moment |
| `Replay.OwnershipIsForLife` | e2e/setup/model-replay.js:669-685 | once an object belongs to a conversation it does so for its whole life, in every run |
| `Replay.OwnerOpenedWithFirstPrompt` | e2e/setup/model-replay.js:645-685 | with identified calls and non-empty fixtures, whoever becomes owner opened the fixture with its first prompt |
| `Replay.OnlyTheOwnerConsumes` | e2e/setup/model-replay.js:669-720 | in such runs every stream that drew from an object was started by a model its owner bound |
| `Replay.BoundIffExactlyOneAccepts` | e2e/setup/model-replay.js:669-720 | a call binds a model if and only if exactly one fixture accepts it, judged before the call |
| `Replay.ReplayReproducesTheRecording` | e2e/setup/model-replay.js:143-599 | end to end: a stream that finishes invocation k ran under the k-th recorded prompt and emitted exactly the chunks the provider streamed to that run |
| `Replay.ReplayRegistry.GetReplayState` | e2e/setup/model-replay.js:504-511 | the registered object, or a fresh one registered without touching any other |
| `Replay.ReplayRegistry.RestartReplayState` | e2e/setup/model-replay.js:521-525 | a new object stands under the name while the old object keeps its contents |
| `Replay.ReplayRegistry.TryBindReplay` | e2e/setup/model-replay.js:669-721 | every fixture ends where its own classification sends it, also when the call is refused as ambiguous; claimed fixtures get another object and their old one keeps its contents |
| `Replay.ReplayChatModel.BindTools` | e2e/setup/model-replay.js:548-555 | the bound copy shares fixture and state object |
| `Replay.ReplayStream.Resume` | e2e/setup/model-replay.js:557-599 | the generator performs one segment on its own object and, through the registry, at most the ledger file of its fixture; no other object changes |
| `Cluster.AssignChooses` | api/server/experimental.js:201-221 | a live holder keeps the sweep; otherwise the last connected listening worker, failing that the last connected one, is told; nobody only when none is connected |
| `Cluster.RunKeeps` | api/server/experimental.js:237-353 | the invariant of primary, workers and messages holds in every reachable state |
| `Cluster.AtMostOneSweeper` | api/server/experimental.js:201-221 | across crashes, reforks and shutdown at most one live worker has started the sweep; it is the assigned one, was told once and started once |
| `Cluster.OnlyTheAssignedWasTold` | api/server/experimental.js:201-279 | the live workers ever told to sweep are the assigned one or nobody, and nobody is told twice |
| `Cluster.OneIsAssignedOnceAllListen` | api/server/experimental.js:250-258 | once as many workers listen as are configured, they are all the live ones and one of them is assigned |
| `Cluster.ActiveCountsOnlineIff` | api/server/experimental.js:237-262 | `activeWorkers` is the number of live online workers if and only if no worker ever died before coming online; each such death leaves it one too low for good |
| `Cluster.AssignedWhenAllOnline` | api/server/experimental.js:250-258 | the sweep is assigned as soon as a worker listens while the count of online workers stands at the configured number |
| `Cluster.SweepIsHandedOn` | api/server/experimental.js:260-266 | the sweep worker's exit hands the sweep on at once and it lapses only if no other worker is connected; any other exit moves nothing |
| `Cluster.SignalReachesEveryone` | api/server/experimental.js:331-352 | the signal opens a handshake with exactly the live workers under one deadline ten seconds ahead, which is on its way to every worker whose channel is open |
| `Cluster.EarlyExitIsSafe` | api/server/experimental.js:267-276 | during shutdown the countdown equals the live workers, the told ones minus the gone; the primary exits by itself only with none left, and by its timer not before the deadline |
| `Cluster.NothingForkedInShutdown` | api/server/experimental.js:260-279 | from the shutdown signal on no worker is forked, the live set only shrinks, and the deadline stands |
| `Cluster.EverySignalWasEarned` | api/server/experimental.js:288-328 | each worker is signalled at most once, and exactly if it acknowledged or its channel failed; an acknowledged live worker holds the primary's deadline |
| `Cluster.BudgetHonoursForceExit` | api/server/experimental.js:388-408 | over all schedules, a positive settlement budget of a worker that acknowledged ends at least the 3 s reserve before the primary's force exit |
| `Cluster.FallbackHonoursReserveIff` | api/server/experimental.js:398-401 | without the primary's deadline the budget keeps the reserve if and only if the worker did not lag behind the primary's signal |
| `Cluster.PrimaryProcess.AssignRetentionSweepWorker` | api/server/experimental.js:201-221 | performs the assignment, changing only the holder |
| `Cluster.PrimaryProcess.OnWorkerListening` | api/server/experimental.js:250-258 | performs the listening reaction |
| `Cluster.PrimaryProcess.OnWorkerExit` | api/server/experimental.js:260-279 | performs the exit reaction: hand-over, countdown or refork |
| `Cluster.PrimaryProcess.SignalWorker` | api/server/experimental.js:301-313 | SIGTERM once per handshake |
| `Cluster.PrimaryProcess.Shutdown` | api/server/experimental.js:331-353 | performs the shutdown reaction: every live worker gets a handshake and the one deadline |
| `Cluster.WorkerProcess.OnMessage` | api/server/experimental.js:425-444 | records a finite deadline before acknowledging it, ignores others, and assigns the sweep |
| `Cluster.WorkerProcess.DestroyGenerationJobManager` | api/server/experimental.js:389-408 | the budget that the two budget theorems are about |
| `Cluster.FileSweep.TryStart` | packages/api/src/files/sweep.ts:373-395 | starts once, when eligible and configured |
| `FileDuplicates.SuffixesCollideIff` | config/migrate-code-file-duplicates.js:26-30 | suffixed names are equal if and only if the numbers are equal and the names split alike |
| `FileDuplicates.SuffixInjective` | config/migrate-code-file-duplicates.js:26-30 | jointly injective in name and number on names without a trailing slash, dotfiles and names without extension included |
| `FileDuplicates.TrailingSlashCollides` | config/migrate-code-file-duplicates.js:26-30 | a concrete pair of different names with equal suffixed names |
| `FileDuplicates.TakenRunsOut` | config/migrate-code-file-duplicates.js:38-46 | a finite set holds at most as many suffixed names as it has members, the measure of the name search |
| `FileDuplicates.NameSet.NextAvailableName` | config/migrate-code-file-duplicates.js:38-46 | the unbounded search ends, returns the smallest free suffix, and takes only that name |
| `FileDuplicates.SortFacts` | config/migrate-code-file-duplicates.js:118-121 | the sort keeps every file once and puts a newest first |
| `FileDuplicates.GroupSplits` | config/migrate-code-file-duplicates.js:117-121 | kept and stale files are the group's, each once, and the kept one is a newest |
| `FileDuplicates.MigrationIsSafe` | config/migrate-code-file-duplicates.js:115-164 | for every order of groups and every pattern of failures no record is lost, only file names of stale copies change, each group's newest keeps its name, and two records still share a key only if their group failed |
| `FileDuplicates.MigrationMakesNamesUnique` | config/migrate-code-file-duplicates.js:115-182 | without errors all file names are distinct in their scope, however many groups interact |
| `FileDuplicates.UniqueIffNoGroups` | config/migrate-code-file-duplicates.js:97-111 | names are unique if and only if the aggregation finds no group, so a rerun has nothing to do |
| `FileDuplicates.DryRunEqualsRealRunIff` | config/migrate-code-file-duplicates.js:115-157 | plan and details of dry and real run agree if and only if no two duplicated names of one scope split alike; the number of renames always agrees |
| `FileDuplicates.DryRunEqualsRealRun` | config/migrate-code-file-duplicates.js:115-157 | they agree when no name ends in a slash, although the real run reads names that earlier groups changed |
| `FileDuplicates.GroupOrderDoesNotMatter` | config/migrate-code-file-duplicates.js:97-157 | the order of the groups does not change what is renamed to what |
| `FileDuplicates.FileCollection.UpdateAll` | config/migrate-code-file-duplicates.js:143-147 | the write loop lands exactly the renames before the failing one |
| `FileDuplicates.FileCollection.PlanGroup` | config/migrate-code-file-duplicates.js:117-141 | the loop over the taken names computes the plan the theorems are about |
| `FileDuplicates.FileCollection.Migrate` | config/migrate-code-file-duplicates.js:115-182 | performs the whole run on the collection, and builds the index only over unique names |
| `DeleteUser.SuspendRestoreRoundTrip` | packages/data-schemas/src/methods/schedule.ts:1814-1937 | after a suspension that landed in part and restores that failed in part and then succeeded, every schedule is as it was, or as it was before an abandoned attempt had suspended it |
| `DeleteUser.RunKeeps` | config/delete-user.js:127-285 | the invariant of the saga under every pattern of failing steps and interference by other processes |
| `DeleteUser.RestoredBeforeRelease` | config/delete-user.js:258-282 | when the fence is released and ever after, no schedule is still suspended by this attempt or the failure was reported; each restored row is what it was |
| `DeleteUser.ForeignFenceIsNeverReleased` | packages/data-schemas/src/methods/user.ts:429-482 | an own step leaves a fence as it is, takes over a stale one with the operator's confirmation, releases the one it wrote, or deletes the user |
| `DeleteUser.FailedBeginReleasesIff` | config/delete-user.js:127-131 | after a first write that failed, the cleanup releases the standing fence if and only if it carries the same time |
| `DeleteUser.FenceIsReleasedUnless` | config/delete-user.js:275-282 | a fence of this attempt that outlives it means a reported release failure or a lost recovery answer |
| `DeleteUser.RecoveryLeaksIff` | config/delete-user.js:143-155 | a recovery leaves its fence behind if and only if it took effect and its answer was lost |
| `DeleteUser.DisarmedBeforeRelease` | packages/data-schemas/src/methods/triggerDelivery.ts:4134-4152 | before the fence is released the purge is disarmed and admissions reopened, or the failure was reported |
| `DeleteUser.CommitIsFinal` | config/delete-user.js:240-285 | after the user is deleted no compensation runs any more, in any run and whatever other processes do |
| `DeleteUser.CommittedWritesOnly` | config/delete-user.js:240-257 | then user, fence, schedules and data stay; environment records go only after their workers were revoked, and the purge marker only with the last delivery |
| `DeleteUser.FailedAftercareStaysArmedIff` | packages/data-schemas/src/methods/triggerDelivery.ts:4236-4240 | when the last step fails, the marker stays armed if and only if its own deletion had not landed |
| `DeleteUser.LostCommitKeepsThePurge` | config/delete-user.js:274-282 | undisturbed, when the user was deleted but the answer was lost, the whole cleanup leaves the purge armed |
| `DeleteUser.DrainedBeforeErasing` | config/delete-user.js:161-229 | with the shared store, in every run, data is erased after a zero count exactly when this process had acquired the fence, and without one only when the user document is already gone |
| `DeleteUser.NothingActiveWhileErasing` | config/delete-user.js:172-229 | undisturbed, no delivery is active while the data of a fenced account is erased |
| `DeleteUser.DrainWaitsIff` | config/delete-user.js:172-184 | at every poll of every run the drain waits exactly while a delivery is active and 35 s since the suspension are not up; it goes on only when none is active, and otherwise the restore begins |
| `DeleteUser.MissingUserErasesUndrained` | config/delete-user.js:157-161 | that exception happens |
| `DeleteUser.CommitMeansEverythingGone` | config/delete-user.js:199-257 | undisturbed, a committed deletion leaves no user, data or schedules; the purge stays armed until every delivery is gone; without a later failure neither a delivery nor the marker is left |
| `DeleteUser.FailedDeletionLeavesNoTrace` | config/delete-user.js:127-285 | undisturbed, from any start, a deletion that fails before the first erasure and compensates leaves user, data and environments, its fence and marker gone, and every schedule and delivery as it was or as it was before an abandoned attempt |
| `DeleteUser.FailedDeletionRestoresExactly` | config/delete-user.js:127-285 | without traces of an abandoned attempt, the whole store is exactly what it was |
| `DeleteUser.DrainDeliveries` | config/delete-user.js:172-184 | the polling loop ends within the timeout, one pause and the last answer, drained exactly when its last count was zero, and gives up no earlier than the deadline |
| `DeleteUser.AccountDeletion.BeginUserDeletion` | config/delete-user.js:127-131 | the fence variable is set before the first await, whatever comes of it |
| `DeleteUser.AccountDeletion.RecoverFence` | config/delete-user.js:144-155 | the fence variable is set only after the recovery answered |
| `DeleteUser.AccountDeletion.RestoreSchedules` | packages/data-schemas/src/methods/schedule.ts:1881-1898 | one of at most three attempts; the last failure is reported and the cleanup goes on |
| `DeleteUser.AccountDeletion.Drain` | config/delete-user.js:172-184 | the loop of the program ends in a zero count, in a throw past the deadline, or with the process |
| `DeleteUser.AccountDeletion.Try` | config/delete-user.js:127-257 | the statements of the `try` in their order end committed, thrown into the first compensation that applies, or with the process |
| `DeleteUser.AccountDeletion.Finally` | config/delete-user.js:258-285 | restores before it disarms and releases, each failure reported and passed over |
| `DeleteUser.AccountDeletion.DeleteAccount` | config/delete-user.js:123-285 | the structured program, on any script of outcomes and wherever the process dies, does exactly the steps that the theorems are about |
| `SharedLinks.NoEntryIsLost` | config/migrate-shared-link-permissions.js:166-227 | over any runs, whatever fails in them, no entry is lost, none changes tenant or principal model, and none loses its expiry |
| `SharedLinks.AttributionIsExact` | config/migrate-shared-link-permissions.js:240-245 | a link counts as failed if and only if the operation at a listed index is its own |
| `SharedLinks.OpsAreWanted` | config/migrate-shared-link-permissions.js:157-229 | the operations of a batch are exactly the grants its links call for |
| `SharedLinks.NothingIsForgotten` | config/migrate-shared-link-permissions.js:233-258 | every such grant lands, or its link counts as failed, or an operation of the link failed and none of them was listed |
| `SharedLinks.SilentIff` | config/migrate-shared-link-permissions.js:238-251 | a link fails unlisted if and only if the error carries a list, one of its operations did not land, and none of its operations is in the list |
| `SharedLinks.SilentIffForgotten` | config/migrate-shared-link-permissions.js:233-289 | over a pass, these links are exactly those with a missing grant that are not charged |
| `SharedLinks.PassFacts` | config/migrate-shared-link-permissions.js:261-289 | over a whole pass, last partial batch included, the list changes by exactly the landed upserts and every other grant belongs to a charged or an unlisted link |
| `SharedLinks.FlagGoesOnlyWhenGrantedIff` | config/migrate-shared-link-permissions.js:291-302 | `isPublic` disappears from exactly the links that are reached and not charged, and of such a link all grants landed if and only if it did not fail unlisted |
| `SharedLinks.RunKeepsBetween` | config/migrate-shared-link-permissions.js:153-302 | whatever fails, also reading on, each entry is as before or as granted, only wanted entries and the field change, and without unlisted failures no removed field lacks its grant |
| `SharedLinks.FullListsAreCandid` | config/migrate-shared-link-permissions.js:236-257 | errors that list everything that did not land leave no link unlisted |
| `SharedLinks.CleanRunMigrates` | config/migrate-shared-link-permissions.js:153-302 | without failures exactly the wanted grants are made and every field is removed |
| `SharedLinks.BatchSizeDoesNotMatter` | config/migrate-shared-link-permissions.js:261-289 | without failures batch size (any integer) and cursor order do not change the result |
| `SharedLinks.RerunConvergesIff` | config/migrate-shared-link-permissions.js:153-302 | after any number of failed runs one run without failures ends like a single one, with the same fields; and with the same grants, up to their times, if and only if no field was removed whose grant is missing |
| `SharedLinks.RerunConverges` | config/migrate-shared-link-permissions.js:153-302 | so it converges whenever no link failed unlisted |
| `SharedLinks.AnEmptyListLosesTheGrant` | config/migrate-shared-link-permissions.js:238-302 | the concrete loss after an error with an empty list, which no rerun repairs |
| `SharedLinks.AnotherRunChangesNothing` | config/migrate-shared-link-permissions.js:153-302 | one more run changes nothing but the times of granting |
| `SharedLinks.OnlyWantedGrants` | config/migrate-shared-link-permissions.js:195-202 | links marked non-public get no public entry and links without owner no owner entry, even forced, over any runs |
| `SharedLinks.SharedLinkMigration.BuildOps` | config/migrate-shared-link-permissions.js:153-229 | the two parallel lists stay aligned: entry i is the link of operation i |
| `SharedLinks.SharedLinkMigration.ProcessBatch` | config/migrate-shared-link-permissions.js:153-259 | performs one batch on the collection |
| `SharedLinks.SharedLinkMigration.Run` | config/migrate-shared-link-permissions.js:60-302 | performs the run with its abort, its early return and its exceptions |
| `Violations.CrossesIffMultiple` | api/cache/banViolation.js:41-46 | the floor test fires if and only if a multiple of the interval lies in (prev, current] |
| `Violations.CountIsTheSum` | api/cache/logViolation.js:22-24 | in every run the stored count is the sum of the scores of that user and type whose write landed, whatever else fails or interleaves |
| `Violations.LogChainsIff` | api/cache/logViolation.js:22-37 | for each user and type the log holds one entry per counted call in order, each starting where the one before ended, the last at the stored count, if and only if no call of theirs threw between count and log |
| `Violations.AThrowLosesTheBan` | api/cache/banViolation.js:44-78 | a call that throws before its ban bans nobody and leaves no entry, and while scores are not negative no later call of any run crosses the multiples it had crossed |
| `Violations.ANegativeScoreBringsTheBanBack` | api/cache/banViolation.js:41-46 | a run with a negative score in which the lost ban does follow |
| `Violations.BansIffMultipleCrossed` | api/cache/banViolation.js:31-84 | user and address are banned until now plus the duration if and only if bans are on, the duration is positive and a multiple was crossed; sessions go in either case |
| `Violations.BansNumberTheMultiples` | api/cache/banViolation.js:41-46 | over a run in which their calls leave no gap, the bans of a user and type are at most floor(total/interval), with equality if and only if no call crossed two multiples, so whenever no score exceeds the interval |
| `Violations.NobodyElseIsBanned` | api/cache/banViolation.js:75-78 | whoever is banned made, or is the address of, a call that crossed a threshold |
| `Violations.ViolationStores.BanViolation` | api/cache/banViolation.js:31-84 | performs the ban decision and its writes, any of which may throw before or after landing |
| `Violations.ViolationStores.LogViolation` | api/cache/logViolation.js:15-37 | performs the whole step on all stores, with any of its awaits throwing before or after landing |
| `MeiliReset.EnvIntRoundTrip` | api/db/utils.js:74-89 | a decimal numeral is read back whatever follows it, and a negative one is refused |
| `MeiliReset.BatchSize` | api/db/utils.js:14-20 | the effective batch size is positive for any setting |
| `MeiliReset.MatchingAfterReset` | api/db/utils.js:29-45 | a document leaves the pending set only by being reset or by expiring, the measure of the loop |
| `MeiliReset.LastBatchLeavesNothing` | api/db/utils.js:52-54 | a batch that is not full held everything pending |
| `MeiliReset.BatchedIsOneUpdate` | api/db/utils.js:26-60 | if nothing expires meanwhile the loop is one bulk update and returns the number of pending documents |
| `MeiliReset.RerunCompletes` | api/db/utils.js:26-66 | a loop that finishes after earlier ones were cut short leaves the same as an uninterrupted one |
| `MeiliReset.Collection.BatchResetMeiliFlags` | api/db/utils.js:11-66 | the loop ends for any setting, any choice of documents per batch and any clock, leaves nothing pending, touches only what retention left visible and pending at the start, and after a fault what was done stands |

## Left out

- JSON text, file paths and file I/O of the fixtures: a log line is a datatype; `recordedAt`, `at` and other time stamps of lines and ledgers are not kept. A value that cannot be serialised (cyclic) is not modelled.
- The LangChain and SDK classes, `initializeModel`, provider registration, `toolsBound` in the ledger, and subagent overrides (`e2e/setup/model-replay.js:602-620`, `702-718`).
- The summarization guard (`e2e/setup/model-replay.js:354-384`): a handler that always throws.
- Replay.OwnerOpenedWithFirstPrompt: needs non-empty fixtures and identified calls, because an empty fixture is accepted at line 663 and an unidentified call never names an owner.
- Recording.RecordingIsOneConversation: needs every install to be identified, because without an id the source falls back to the message history.
- `Null` and missing properties of messages are one value, and so are `null` and missing conversation or tenant ids of files; the aggregation that would group them apart is not captured.
- FileDuplicates: `path.extname` is the POSIX one; a failing index build and the error count it adds are not modelled. The schema's `updatedAt`, which a rename moves along with the name, is not a field of the model.
- Replay: that another conversation can only start a claimed fixture over, and that a claim starts with nothing consumed, are proved (`StrangersNeverContinue`, `ClaimStartsOver`) and not listed above, because each is a property of one step.
- The cluster's environment is assumed, not proved: a worker stays in `cluster.workers` until it is dead, and its exit event is handled atomically with its removal; `online` comes once and before `listening`; a listening worker is connected. Messages may arrive in any order, or never if the worker dies, which includes the first-in first-out order of the real channel.
- Cluster: `CLUSTER_WORKERS` is a positive integer; negative and fractional settings, the unhandled `error` event of a sweep order sent to a closing channel, and the worker's remaining shutdown tasks are not modelled. No liveness is stated: a worker that never acknowledges is ended by the force exit.
- DeleteUser: prompts before the first fence, generation aborts, group membership and the revocation of environment workers are single outcomes without their data; queued turns and lane sequences, which go with the deliveries, and the closing of the generation store at the very end are not kept. What makes a delivery active is one flag, which other processes may change at any time. Reading and writing within one bulk operation on schedules is one step, because the armed fence refuses other writers. Claim tokens are not kept.
- DeleteUser.RestoredBeforeRelease: other processes are assumed not to use this attempt's random token or its time stamps, nor to edit a schedule suspended under it except by marking it deleted.
- DeleteUser.ForeignFenceIsNeverReleased: assumes that the time this process reads for its first write is not the one another process has just written into the fence; `FailedBeginReleasesIff` is the exact condition.
- SharedLinks: role lookup and counting, which come before any write, the dry-run counters and the printed totals; a `user` field that is no object id makes the source throw before any write of its batch and is not modelled.
- SharedLinks.RerunConvergesIff: up to the times of granting, which every run renews. `FlagGoesOnlyWhenGrantedIff` speaks of a cursor that returns no link twice.
- Violations: scores and intervals are real numbers, so rounding of binary floating point is not captured; the interval is positive; expiry of the stores is not modelled; two processes updating one count at the same time can lose a score, and only sequential calls are modelled.
- Violations.ViolationStores.LogViolation: excludes the type `general`, whose count store is the shared log itself.
- MeiliReset: other writers between two batches, and settings beyond the range of exact numbers. `HiddenStayAsTheyAre` restates what a finished loop leaves alone and is not listed above.
- `api/db/indexSync.js`, whose outcome depends on the search engine's task queue.
- Express, authentication, the user interface, and MongoDB, Redis and IPC themselves, which appear only as the maps, sets and messages described above.
