# Music service: verified protocols and algorithms

This Dafny project models the parts of the service where several processes, crashes, late
writers or adversarial inputs meet, and proves what the code relies on there. Database
transactions are atomic steps; clocks never run backwards; tokens, ids and salted hashes are
never reused; a crash is a process that takes no more steps. External answers (a model's
response, a disk's content, a provider's metadata) are arbitrary inputs. Run
`dafny verify dfyconfig.toml` to check everything.

Each protocol has two halves. A class mirrors the rows the code updates in place, and every
method is proved equal to a function on values. A `World` with a `Step` datatype then lets any
number of processes interleave those functions in any order, and the theorems quantify over all
runs (`Run`) from the initial state, or from any state that satisfies an invariant which the initial
states satisfy.

## The lease protocols

`RequestLease` is the inner lease: one natural-language request, claimed and renewed by
discovery attempts, with its tracks and the download jobs that refer to them. Renewal looks at
the token and not at the expiry, the attempt id is written in a transaction after the claim, and
a task that gives up marks the request failed and leaves the token where it is. All of that is in
the model: at most one proposal is ever committed all the same, and an attempt that was taken
over never changes the row again, not even before its successor has written its id.

`TaskQueue` is the outer lease, `ScanLease` the lease of a library scan. The scan's fence checks
the expiry too, so a scan that has merely run late commits nothing, even if nobody took over.

## Review decisions

`ReviewDecisions` holds raising, recording, superseding and applying decisions;
`ReviewHistory` the invariant over all steps including the repair of obsolete reviews;
`ReviewGuarantees` and `CanonicalSelection` the results: exact revisions, decided rows that never
change, replays recognised exactly, and a user's choice rebuilt from the server's own option.
`ReviewJob` is the same code on rows updated in place. `Canonical` shows that sorting by an
injective key makes lists canonical, which is why an order-free fingerprint is a multiset.

Resubmitting an accepted bundle that names a decision twice is refused although the bundle was
accepted, because the replay test insists on distinct decision ids
(`CanonicalSelection.NamedTwiceIsNotReplayed`). `ReplayExactlyWhenAccepted` carries that condition.

## The library index and the disk

`LibraryWalk` is the directory walk with its explicit stack, `LibraryScan` a whole scan on a disk
that stays as it is. An entry whose type cannot be read hides whatever is behind it, a directory
with its files included, and only the unresolved issue tells: the traversal still counts as
complete. What is promised is promised for complete coverage, and `ListedWalkFindsTheUnbroken` says
exactly which files the traversal flag alone vouches for.

`Publication` is the protocol of copy, check and hard link under races, `PublishFile` the program of
one publisher: each of its system calls is one step of the protocol, other processes may act before
any of them, and any of them may raise. `Publication.Fail` may strike after the link, because
synchronising the directory can raise then: such a publisher raises although its file is published
and stays published. It may strike in the clean-up too; when it does so before the temporary name is
removed, and only then, that name remains.

## Accounts

`Accounts` and `AccountHistory` cover sign-in, confirmation and password change, whose password
check runs outside the write lock, against every account change. Besides the guarantees, one
finding: the check that an administrator remains after an update never decides anything, because
the caller is an administrator and may not demote or deactivate itself
(`LastAdministratorGuardIsImplied`).

## Bounded loops and exact algorithms

`EventStream`, `DiscoveryLoop`, `NoProgress`, `SchemaCompiler`, `RecordingMatcher` and `RateLimit`.
Of these promises, four hold only under a condition, as do two of the disk's. Each comes with an input
that breaks it and with the exact condition:

- A final synthesis answered with tool calls, while a fallback from an earlier empty proposal
  stands by, returns no candidates although some are retained (`FallbackCanDropCandidates`).
  In every other case what is returned is what was retained
  (`DropsCandidatesExactlyWhenFallingBackLate`).
- A property whose type is a union with "object" in it and that lists no properties is accepted and
  stays open in a schema that compiles (`UnionsCanStayOpen`). A node that admits objects is closed if
  and only if it lists properties (`ClosedExactlyWithProperties`).
- The recording ranking takes its automatic decision over the whole input if and only if the limit is
  two or more (`DecidedByAllFromTwoOn`). With a limit of one it goes wrong exactly when the top result
  qualifies and a compatible runner-up is within eight of it (`LimitOneIgnoresTheRunnerUp`).
- The rate limiter's interval is kept between any two reservations if and only if it is whole
  microseconds or rounds up to them (`KeptExactlyWhenRoundable`); any other interval loses a fraction of
  a microsecond in a run of three steps (`OtherIntervalsFallShort`).
- A traversal reported complete has missed files if and only if they are behind an entry whose type
  could not be read (`TraversalFlagMisleads`, `ListedWalkFindsTheUnbroken`).
- A publisher that has ended leaves its temporary name behind if and only if its clean-up raised
  before it removed that name (`LeftoversCanRemain`, `NoTemporaryNamesRemain`).

## Model

| member | source | states |
|---|---|---|
| `RequestLease.RequestTable.Claim` | app/services/orchestration.py:1324-1360 | A claim succeeds exactly on a pending request or an orchestrating one whose lease is absent or expired, and sets token and expiry. |
| `RequestLease.RequestTable.BeginAttempt` | app/services/orchestration.py:181-205 | The attempt id, zero rounds and no reason are written only while the token is still the claimant's. |
| `RequestLease.RequestTable.Renew` | app/services/orchestration.py:1362-1395 | Renewal needs the token and the orchestrating status, not an unexpired lease. |
| `RequestLease.RequestTable.StartCall` | app/services/orchestration.py:1199-1230 | Starting a call records the rounds used only under the current token. |
| `RequestLease.RequestTable.MarkTerminal` | app/services/orchestration.py:1396-1425 | A terminal status clears the lease and is written only by the token's holder. |
| `RequestLease.RequestTable.FinishAttempt` | app/services/orchestration.py:366-388 | Rounds and reason are written only for the recorded attempt, while it holds the lease or the request is released. |
| `RequestLease.RequestTable.Store` | app/services/proposals.py:54-253 | A proposal within the cap replaces all tracks, counts selections and warnings and releases the lease, or nothing changes when the token differs. |
| `RequestLease.RequestTable.QueueApproved` | app/repositories/jobs.py:125-201 | Approval makes one job for every wanted track that has none, keeps existing jobs and queues the request; an unknown or repeated track or an active equivalent refuses it, and then nothing changes. |
| `RequestLease.ValidChoicesAreDistinctTracks` | app/repositories/jobs.py:135-143 | Comparing the number of tracks found with the number of ids refuses exactly the choices that repeat a track or name an unknown one. |
| `RequestLease.RequestTable.FailFromTask` | app/services/supervisor.py:249-297 | A task that gives up fails its request and leaves the lease token set. |
| `RequestLease.RequestTable.ApplyConfirmation` | app/services/supervisor.py:336-380 | A request with one exact track is queued alone with a job for it and marked automatic; its gates delay it, only an active equivalent rejects it, and otherwise nothing changes. |
| `RequestLease.AtMostOneCommit` | app/services/orchestration.py:1324-1360 | In every run at most one proposal is committed, and afterwards the request can never be claimed. |
| `RequestLease.JobTracksSurvive` | app/services/proposals.py:215-224 | No step of any run deletes or changes a track that a download job refers to, or the job. |
| `RequestLease.TakenOverForGood` | app/services/orchestration.py:1324-1360 | An attempt that is not the latest claimant never becomes it again. |
| `RequestLease.TakenOverAttemptIsInert` | app/services/orchestration.py:192-205 | After a takeover no step of the old attempt changes the database, even before the new attempt id is written. |
| `RequestLease.FinisherIsRecorded` | app/services/orchestration.py:366-388 | A finished request carries attempt id, rounds and reason of the attempt that finished it, which is the one that committed. |
| `TaskQueue.Queue.Claim` | app/services/supervisor.py:171-222 | The oldest claimable web task is claimed under a fresh token; none is returned only if none is claimable. |
| `TaskQueue.Queue.Complete` | app/services/supervisor.py:224-247 | Only the token's holder completes a task, once, with its result. |
| `TaskQueue.Queue.Fail` | app/services/supervisor.py:249-297 | Only the token's holder records a failure; bad values and the fifth attempt are final, recoverable gates never. |
| `TaskQueue.Queue.Extend` | app/services/supervisor.py:319-334 | A running task's holder moves the expiry, even after it passed. |
| `TaskQueue.EveryTaskIsAccountedFor` | app/services/supervisor.py:171-288 | In every run: running iff a token is set, attempts equals claims, at most four ordinary retries, one result iff completed. |
| `TaskQueue.FinalTasksAreFinal` | app/services/supervisor.py:224-288 | Completed and failed tasks never change, and only the current token's holder writes a result. |
| `TaskQueue.LateWritersAreInert` | app/services/supervisor.py:224-334 | A superseded claim never extends, completes or fails its task again, whatever happens in between. |
| `ReviewJob.JobRow.SupersedePending` | app/repositories/decisions.py:194-210 | Exactly the pending decisions of the category become superseded. |
| `ReviewJob.JobRow.CreatePendingDecision` | app/repositories/decisions.py:165-252 | A known set of options is returned as it is; a new one gets the next revision and ranked, scored option rows; without options or with clashing ranks nothing changes. |
| `ReviewJob.JobRow.RecordSelectedDecision` | app/repositories/decisions.py:255-318 | An already selected set of candidates is not recorded twice; otherwise it supersedes what is pending. |
| `ReviewJob.JobRow.IsExactReplay` | app/repositories/decisions.py:818-867 | The comparison loop decides the replay relation exactly. |
| `ReviewJob.JobRow.ApplyReviewBundle` | app/repositories/decisions.py:321-426 | A submission is applied as a whole, answered as a replay, or refused with nothing changed. |
| `ReviewJob.JobRow.CheckBundle` | app/repositories/decisions.py:349-383 | All checks pass exactly when status, revision, fingerprint, decisions, snapshot and corrections fit. |
| `ReviewJob.JobRow.CommitBundle` | app/repositories/decisions.py:384-426 | Selections, snapshot, source and status change together or not at all. |
| `ReviewJob.JobRow.ApplyChoices` | app/repositories/decisions.py:384-420 | The loop selects every decision with its stored review or reports the first conflict. |
| `ReviewHistory.StepKeepsInv` | app/repositories/decisions.py:165-426 | Creating, recording, applying, repairing and parking all keep revisions exact, options attached and accepted bundles recorded. |
| `ReviewHistory.AppliedFacts` | app/repositories/decisions.py:356-420 | What an accepted submission did: every pending decision selected as chosen, nothing else touched, the snapshot corrected. |
| `ReviewHistory.SelectAllSelects` | app/repositories/decisions.py:384-420 | In whatever order categories are visited, each decision ends with its own choice and the others as they were. |
| `ReviewGuarantees.RevisionsAreExact` | app/repositories/decisions.py:194-252 | From any state that satisfies the invariant, after any steps, decision revisions are exactly 1..revision, each used once, and a pending decision is the only and newest one of its category. |
| `ReviewGuarantees.EveryRunIsExact` | app/repositories/decisions.py:194-252 | The same holds in every run of a new job and of one that an older release left behind with a pending source review. |
| `ReviewGuarantees.DecidedStaysDecided` | app/repositories/decisions.py:165-318 | No run removes a decision or option, or changes a selected or superseded decision. |
| `ReviewGuarantees.RaisingAgainCreatesNothing` | app/repositories/decisions.py:139-148 | Raising the same options in any order, however much later, creates nothing. |
| `ReviewGuarantees.RepairClears` | app/services/metadata_review_repair.py:30-171 | The repair of an eligible review supersedes exactly what was pending, keeps the retained source, queues the job and changes no option or selected decision. |
| `ReviewGuarantees.RepairedIsReplayedOrRefused` | app/services/metadata_review_repair.py:124-171 | Whenever nothing is pending after a repair, a submission is a replay of an accepted bundle or refused, and one that names a decision the repair superseded is refused. |
| `ReviewGuarantees.ReplayExactlyWhenAccepted` | app/repositories/decisions.py:339-348 | With nothing pending, a submission is a replay iff its ids are distinct and it says what an accepted bundle said; else it is refused. |
| `ReviewGuarantees.EveryRunReplaysWhatItAccepted` | app/repositories/decisions.py:339-348 | In every run of such a job, with nothing pending, a submission is a replay iff its ids are distinct and some step of the run accepted a bundle that says the same. |
| `ReviewGuarantees.AcceptedThenReplayed` | app/repositories/decisions.py:818-867 | An accepted bundle with distinct ids leaves nothing pending and is a replay when sent again. |
| `CanonicalSelection.AcceptedChoiceIsReadBack` | app/repositories/decisions.py:455-546 | An accepted canonical choice is read back as its own option, whitelisted and corrected, exactly when artist and title are nonempty. |
| `CanonicalSelection.FittingChoicesAreAccepted` | app/repositories/decisions.py:349-420 | When a canonical review is all that is pending, choosing an offered option with artist and title is accepted and read back as that option. |
| `CanonicalSelection.NamedTwiceIsNotReplayed` | app/repositories/decisions.py:818-830 | A fitting submission that names its decision twice is accepted, and refused as already decided when it is sent again. |
| `CanonicalSelection.CorrectedFieldsAreApproved` | app/repositories/decisions.py:713-754 | Every field a correction fills in equals the approved snapshot and the reading, whatever the order of categories. |
| `CanonicalSelection.ReadBackIsDurable` | app/repositories/decisions.py:455-546 | A reading survives any later steps that leave the decision the latest choice. |
| `Payloads.NormalizeIsIdempotent` | app/repositories/decisions.py:757-802 | Normalising a correction twice is normalising it once, so stored corrections compare equal to resubmitted ones. |
| `Payloads.CorrectionWins` | app/repositories/decisions.py:713-754 | A filled or cleared field of a correction ends up in the payload and in the snapshot. |
| `Payloads.CorrectionKeepsOthers` | app/repositories/decisions.py:742-754 | Fields a correction leaves out keep their value. |
| `Canonical.SortingIsCanonical` | app/repositories/decisions.py:139-148 | Two lists sorted by an injective key are equal exactly when they hold the same elements with the same multiplicities. |
| `LibraryWalk.Diagnostics.Note` | app/services/library_scan.py:90-119 | An issue moves exactly its counter, the doubt about coverage and the traversal flag, and is kept as a sample while there are fewer than a hundred, else counted as omitted. |
| `LibraryWalk.Diagnostics.Candidates` | app/services/library_scan.py:142-185 | The stack walk yields and counts exactly what the recursive walk of the tree prescribes. |
| `LibraryWalk.WalkFinds` | app/services/library_scan.py:142-185 | A path is found once if it is a candidate of the tree, and otherwise not at all. |
| `LibraryWalk.EachCandidateOnce` | app/services/library_scan.py:155-173 | Every non-hidden, non-symlink supported file under openable directories is yielded exactly once, and nothing else. |
| `LibraryWalk.CoveredWalkMissesNothing` | app/services/library_scan.py:122-185 | When coverage is reported complete, every supported file under visible names was yielded. |
| `LibraryWalk.ListedWalkFindsTheUnbroken` | app/services/library_scan.py:155-185 | When every directory was listed, such a file was yielded iff the type of every entry on its path could be read. |
| `LibraryWalk.TraversalFlagMisleads` | app/services/library_scan.py:182-185 | A tree whose traversal is reported complete although a supported file in it was missed. |
| `LibraryWalk.MissingIsGone` | app/services/library_presence.py:79-96 | Missing is reported only when nothing is at the path, never for an unreadable directory, file or a link. |
| `LibraryScan.Index.Consider` | app/services/library_scan.py:310-342 | A candidate is unchanged, reread, or in trouble with its old row kept, and is counted accordingly. |
| `LibraryScan.Index.Flush` | app/services/library_scan.py:454-489 | A batch writes exactly its still valid entries and counts each once. |
| `LibraryScan.Index.IndexCandidates` | app/services/library_scan.py:303-347 | Batches of two hundred leave the same rows and counts as one entry at a time. |
| `LibraryScan.Index.MarkMissing` | app/services/library_scan.py:350-374 | Exactly the unseen rows whose file is missing and that are older than the scan are marked absent, and counted. |
| `LibraryScan.Index.Scan` | app/services/library_scan.py:298-389 | A whole scan gives every path its expected row; candidates = unchanged + newly indexed + updated + candidate issues. |
| `LibraryScan.EveryCandidateCountsOnce` | app/services/library_scan.py:320-342 | Each candidate is counted exactly once among unchanged, new, updated and issues. |
| `LibraryScan.ReadableFilesArePresent` | app/services/library_scan.py:298-389 | After a scan whose walk reports complete coverage every readable supported file has one present row of this generation that describes it. |
| `LibraryScan.CoveredScansAreCurrent` | app/services/library_scan.py:122-131 | After a whole scan that reports complete coverage every supported file under visible names has such a row, unless its content was rejected for good. |
| `LibraryScan.MissingFilesAreAbsent` | app/services/library_scan.py:350-371 | A row whose file is missing is absent after the scan. |
| `LibraryScan.OnlyMissingFilesAreMarked` | app/services/library_scan.py:350-374 | A scan marks a row absent only if nothing is at its path. |
| `LibraryScan.RescanIsQuiet` | app/services/library_scan.py:314-320 | Scanning the same disk again changes nothing but generations. |
| `ScanLease.Tables.Claim` | app/services/library_scan.py:218-253 | A claim is refused exactly while a scan runs within its lease; otherwise the interrupted one fails and the generation is the maximum plus one. |
| `ScanLease.Tables.Fence` | app/services/library_scan.py:255-268 | The fence holds for a running scan under its token and within its lease, and extends it. |
| `ScanLease.Tables.Flush` | app/services/library_scan.py:472-489 | A batch is written as a whole under the fence, or not at all. |
| `ScanLease.Tables.MarkMissing` | app/services/library_scan.py:356-372 | The compare-and-set hits only a present row of the known size and time and of an older generation. |
| `ScanLease.Tables.IndexOne` | app/services/library_scan.py:431-452 | A single file is indexed at the largest generation. |
| `ScanLease.AtMostOneRuns` | app/services/library_scan.py:218-253 | In every run at most one scan is running, it has the largest generation, and generations are distinct. |
| `ScanLease.GenerationsIncrease` | app/services/library_scan.py:231-253 | A new scan's generation exceeds every scan's and every row's, and it takes over only an expired one. |
| `ScanLease.SpentScansAreInert` | app/services/library_scan.py:255-268 | After its lease is lost, even untaken, no heartbeat, batch, mark or completion of a scan commits. |
| `ScanLease.TakenOverAbortIsInert` | app/services/library_scan.py:409-426 | Once another scan was claimed, the failure handler of an earlier one changes nothing, whatever happens in between. |
| `ScanLease.MarksHitOnlyUntouchedRows` | app/services/library_scan.py:356-372 | A missing mark changes only the presence of a row that nobody indexed since the scan was claimed. |
| `PublishFile.Library.CopyOne` | app/services/filesystem.py:271-275 | One turn of the copy loop writes and hashes the next chunk of what the source holds now, and ends the loop on an empty read. |
| `PublishFile.Library.CleanUp` | app/services/filesystem.py:295-314 | The clean-up removes the temporary name unless it raises; then the exception goes on, or the source is removed if asked. |
| `PublishFile.Library.Publish` | app/services/filesystem.py:226-314 | Whatever others do between its calls and whichever call raises, a publication extends a run of the protocol; done, the final name holds the hashed bytes, all of the source; it fails only for its reasons, and undisturbed it succeeds exactly on a regular source and a free name. |
| `Publication.PublishedForGood` | app/services/filesystem.py:284-294 | Over every interleaving and crash, a final name is never replaced, removed or written through. |
| `Publication.PublishedCompletely` | app/services/filesystem.py:277-294 | Once linked, a name holds exactly the bytes that were hashed, which are all the bytes the source had when examined. |
| `Publication.OnePublisherWins` | app/services/filesystem.py:284-294 | At most one publisher ever links a name. |
| `Publication.NoTemporaryNamesRemain` | app/services/filesystem.py:296-305 | A publisher that has ended leaves a temporary name iff its clean-up raised before it removed that name; every other temporary name belongs to one still at work or stopped at work. |
| `Publication.LeftoversStay` | app/services/filesystem.py:296-305 | A name left behind is never removed. |
| `Publication.LeftoversCanRemain` | app/services/filesystem.py:295-305 | A run whose copy raises, and whose clean-up raises before the removal, leaves the temporary name. |
| `Publication.LosersChangeNothing` | app/services/filesystem.py:284-293 | Linking fails exactly when the name is taken, and then changes nothing. |
| `Accounts.Repository.Revoke` | app/repositories/auth.py:657-667 | Exactly the user's unrevoked sessions, but one if asked, are revoked, and their number is returned. |
| `Accounts.Repository.FinishLogin` | app/repositories/auth.py:249-273 | A session is opened only if the account is active and still has the hash that was checked. |
| `Accounts.Repository.Update` | app/repositories/auth.py:463-540 | Role, activation and forced-change updates revoke sessions except when an account is only reactivated. |
| `Accounts.Repository.FinishPasswordChange` | app/repositories/auth.py:618-640 | The change commits only on the account that was checked, revokes all sessions and opens one. |
| `Accounts.Repository.ResetPassword` | app/repositories/auth.py:558-572 | A reset sets hash and flag of another account and revokes its sessions. |
| `Accounts.Repository.Recover` | app/repositories/auth.py:159-213 | Recovery resets the named account, or the only administrator, or makes the first account, and revokes its sessions; anything else is refused. |
| `Accounts.Repository.FinishReauthentication` | app/repositories/auth.py:388-403 | A confirmation is recorded only for an allowed administrator session whose account still has the hash that was checked. |
| `Accounts.Repository.Resolve` | app/repositories/auth.py:305-343 | A valid session is resolved and moved on after a minute, never past its absolute end. |
| `AccountHistory.EveryCommitRespects` | app/repositories/auth.py:125-696 | Every transaction leaves an unrevoked session only if its account is untouched, or opens it against the current password. |
| `AccountHistory.SessionsAreCurrent` | app/repositories/auth.py:227-278 | In every reachable state an unrevoked session belongs to an active account's current password, role and activation generation, and to its present password. |
| `AccountHistory.AnAdministratorRemains` | app/repositories/auth.py:488-502 | Once any account exists an active administrator exists in every run. |
| `AccountHistory.LastAdministratorGuardIsImplied` | app/repositories/auth.py:482-502 | The count of administrators never refuses an update the other checks allow. |
| `AccountHistory.StaleChecksAreInert` | app/repositories/auth.py:253-262 | A password check made before the password was set anew opens, confirms and changes nothing. |
| `AccountHistory.ChangesReplaceThePassword` | app/repositories/auth.py:605-628 | A committed change really replaces the password, by a caller who knew it unless forced, and leaves one session. |
| `AccountHistory.EndedSessionsStayEnded` | app/repositories/auth.py:305-343 | A revoked, purged, expired or deactivated session is never accepted again, not even after reactivation. |
| `EventStream.Serve` | app/api/events.py:36-96 | The stream sends exactly the readable events between its starting and its final cursor. |
| `EventStream.ServeRounds` | app/api/events.py:47-95 | The rounds until the client or its session is gone are those of the streaming rules. |
| `EventStream.Turn` | app/api/events.py:58-95 | One turn sends a batch row by row, checkpoints only past a partial batch, and beats every fifteenth quiet turn. |
| `EventStream.DeliveredExactly` | app/api/events.py:47-95 | Despite concurrent appends and full batches, updates are exactly the visible ids after the start, in order and once each. |
| `EventStream.ReconnectingContinues` | app/api/events.py:81-91 | Reconnecting from any emitted update or checkpoint id starts there, without a reset frame, and continues the same sequence. |
| `EventStream.QuietLogIsDrained` | app/api/events.py:83-87 | A quiet log is drained in one round per hundred unread events and one more. |
| `EventStream.CursorNeverMovesBack` | app/api/events.py:66-91 | The cursor never decreases. |
| `EventStream.RowsAreTheRange` | app/repositories/events.py:143-164 | Rows read after the tail, from a log that may have grown, are the rows up to that tail. |
| `EventStream.CursorsAreBindable` | app/api/events.py:99-113 | Any header or page cursor fits a signed 64-bit integer, and a usable header wins. |
| `DiscoveryLoop.Discovery.Run` | app/services/orchestration.py:653-894 | The loop ends with the outcome, partial, reason and number of calls its rules give. |
| `DiscoveryLoop.Discovery.Spend` | app/services/orchestration.py:654-672 | A call is forced to synthesise in the last round or short of time, and may search the web only if not forced. |
| `DiscoveryLoop.Discovery.TakeAnswer` | app/services/orchestration.py:704-793 | Refusals, tool calls, invalid texts, questions and proposals each end or continue the loop as ruled. |
| `DiscoveryLoop.Discovery.Decide` | app/services/orchestration.py:821-893 | A proposal is returned, replenished or retried on the web as ruled. |
| `DiscoveryLoop.Discovery.Gather` | app/services/orchestration.py:793-803 | Tracks are merged one by one, by identity and confidence, until the cap. |
| `DiscoveryLoop.BudgetsHold` | app/services/orchestration.py:653-894 | For any answers: at most the configured calls, one web search, two synthesis-only calls and three replenishments, and an outcome. |
| `DiscoveryLoop.RetainedOnlyImproves` | app/services/orchestration.py:793-806 | The retained partial never exceeds the cap, never loses a candidate and never replaces one by a less confident one. |
| `DiscoveryLoop.MergeCollects` | app/services/orchestration.py:793-803 | Below the cap, every proposed identity is retained at least as confident as proposed. |
| `DiscoveryLoop.ForcingIsForGood` | app/services/orchestration.py:654-672 | Once a call is synthesis-only all later ones are, without web search, and the last configured one always is. |
| `DiscoveryLoop.StepLimitExactlyOnFirstInvalidAnswer` | app/services/orchestration.py:754-785 | The loop runs out of rounds iff its very last answer is the first invalid one and it is not recovering from a failed web search. |
| `DiscoveryLoop.DropsCandidatesExactlyWhenFallingBackLate` | app/services/orchestration.py:713-716 | A returning round gives back what is retained, except exactly when tool calls meet a final synthesis with a fallback standing by. |
| `DiscoveryLoop.FallbackCanDropCandidates` | app/services/orchestration.py:713-716 | A concrete run that returns nothing while a candidate is retained. |
| `DiscoveryLoop.TargetIsBounded` | app/services/orchestration.py:1604-1609 | The oversampling target is one for one; above, it lies between the request and a quarter more, within the cap. |
| `NoProgress.EqualUpToOrder` | app/services/orchestration_budget.py:40-59 | Two results normalise alike exactly when they differ only in list order at any depth and in volatile fields. |
| `NoProgress.CounterCountsRounds` | app/services/orchestration_budget.py:84-114 | For non-decreasing rounds the counter is the number of distinct rounds in the longest suffix of equivalent observations. |
| `NoProgress.StreakIsLongest` | app/services/orchestration_budget.py:84-114 | That suffix is maximal and all its results are equal. |
| `NoProgress.ThresholdNeedsARepeatedResult` | app/services/orchestration_budget.py:84-114 | Reaching the threshold takes three last observations with one result, so alternating results never do. |
| `NoProgress.EquivalentByMeaning` | app/services/orchestration_budget.py:95-107 | Observations are equivalent exactly when their results mean the same and the scope repeats or candidates were found. |
| `NoProgress.Detector.Observe` | app/services/orchestration_budget.py:84-114 | The fields updated in place count the streak of the whole history. |
| `SchemaCompiler.CompileSchema` | app/openai_schema.py:49-73 | Compiling accepts exactly the acceptable schemas within the limits and gives their normal form. |
| `SchemaCompiler.Compiler.Visit` | app/openai_schema.py:76-173 | A node is accepted iff it and its children are, becomes its normal form, and adds exactly its totals to the counters. |
| `SchemaCompiler.Compiler.VisitSlot` | app/openai_schema.py:121-164 | The children under one keyword are visited and put back in place. |
| `SchemaCompiler.TotalsSumOverAllNodes` | app/openai_schema.py:104-163 | The three counters are the sums of each node's own names, enumeration and constant over all places of the tree. |
| `SchemaCompiler.EachNodeIsCountedOnce` | app/openai_schema.py:118-164 | A node is at a place exactly once if the path of properties, items, alternatives and definitions reaches it, and otherwise not at all. |
| `SchemaCompiler.CompilingIsIdempotent` | app/openai_schema.py:49-73 | Compiling a compiled schema gives it back. |
| `SchemaCompiler.CompilingAgain` | app/openai_schema.py:76-173 | A compiled node is acceptable, its own normal form, and counts the same. |
| `SchemaCompiler.EveryNodeIsStrict` | app/openai_schema.py:79-133 | Every node at any depth has only supported keywords and formats, is closed if it is an object, and is at most ten deep. |
| `SchemaCompiler.CompiledSchemasAreStrict` | app/openai_schema.py:49-73 | That holds for every node of a compiled schema, whose totals are within the limits. |
| `SchemaCompiler.ClosedExactlyWithProperties` | app/openai_schema.py:118-126 | A node that admits objects comes out closed iff it lists properties. |
| `SchemaCompiler.UnionsCanStayOpen` | app/openai_schema.py:49-126 | A root object whose property has a union with "object" for its type and no properties compiles, and that node comes out open. |
| `RecordingMatcher.ScoreCandidate` | app/services/metadata_matching.py:111-190 | The accumulated score and contradictions are the sum of the weighted parts less the penalties, clamped. |
| `RecordingMatcher.EditionPenaltyLoop` | app/services/metadata_matching.py:538-546 | The penalty is the sum over the edition words the candidate has and the query has not. |
| `RecordingMatcher.Rank` | app/services/metadata_matching.py:91-206 | Results are a ranked permutation of the scored input, cut to the limit and classified; from a limit of two on the automatic match is the dominant candidate of the whole input. |
| `RecordingMatcher.AutoExactlyWhenDominant` | app/services/metadata_matching.py:458-481 | With limit two or more a match is automatic iff some candidate of the whole input is compatible, scores 88 and leads all other compatible ones by 8; then it is that one. |
| `RecordingMatcher.AutoIgnoresInputOrder` | app/services/metadata_matching.py:111-206 | The automatic match does not depend on the input order or on how ties were broken. |
| `RecordingMatcher.OneAutomaticMatch` | app/services/metadata_matching.py:458-481 | Only the first result can be automatic, and scores lie in 0..100. |
| `RecordingMatcher.DecidedByAllFromTwoOn` | app/services/metadata_matching.py:191-206 | For all queries, candidates and ties the automatic match is the decision over the whole input iff the limit is two or more. |
| `RecordingMatcher.LimitOneIgnoresTheRunnerUp` | app/services/metadata_matching.py:191-206 | With limit one a match is automatic iff the top result is compatible and scores 88, which is wrong iff a compatible runner-up is within eight. |
| `RateLimit.HostRateLimiter.Wait` | app/clients/musicbrainz.py:331-343 | A process sleeps the believed rest of the interval and leaves exactly its start time in the file. |
| `RateLimit.HostRateLimiter.Write` | app/clients/musicbrainz.py:377-381 | After a write the file holds exactly the new time, even over longer old content. |
| `RateLimit.PrintReadsBack` | app/clients/musicbrainz.py:360-378 | Every written time is read back exactly. |
| `RateLimit.ReaderSeesTheLast` | app/clients/musicbrainz.py:360-367 | A reader sees exactly the last written time. |
| `RateLimit.OverwritingLeavesNoTail` | app/clients/musicbrainz.py:377-381 | A later time never leaves a tail of an earlier one, so a stop before truncating does no harm. |
| `RateLimit.ReservationsAreSpaced` | app/clients/musicbrainz.py:315-343 | The i-th and j-th reservation of any processes are at least j - i intervals apart, for whole or upward-rounding intervals. |
| `RateLimit.ResetNeverFires` | app/clients/musicbrainz.py:334-338 | With a clock that never runs backwards the clock-jump reset never fires. |
| `RateLimit.OtherIntervalsFallShort` | app/clients/musicbrainz.py:334-341 | For any other interval two turns at once, from a new file, leave reservations closer than it. |
| `RateLimit.KeptExactlyWhenRoundable` | app/clients/musicbrainz.py:315-343 | In every run from a new file reservations are an interval apart iff it is whole microseconds or rounds up. |

## Left out

- HTTP routes, templates, usage reports, the command line, logging and settings: presentation and plumbing without hard state.
- Traffic to the model, metadata and media providers: their answers are arbitrary inputs.
- Sign-in rate counters in `app/repositories/auth.py`: whether an attempt is blocked is an arbitrary input of each phase.
- `mutate_for_user` and `clear_finished` in `app/repositories/jobs.py`: single conditional updates of job rows.
- Deleting events and reusing their ids: the log only grows while a stream is served, and an expired start announces a reset.
- JSON text, SHA-256, Argon2, Unicode normalisation, case folding and fuzzy ratios: injective encodings, matching hashes and arbitrary similarities in their stead.
- Redaction of event details before they are stored: an event carries its message.
- Ranking of releases, and choosing a sensible release of a recording: the same classification over fewer fields.
- Reading a canonical choice that was not made by the user, and staging directories.
- Truncation of long option payloads before they are fingerprinted.
- Which fields `_verified_match` needs to agree on, and how a track's identity string is formed: the identity is an input of the loop.
- The extra canonical-match call for one borderline candidate: it is not a discovery call and only adds evidence.
- The error code and message of each failure in `run_request`, and the paths in schema errors: only whether and in which class an operation fails.
- The tables that classify file extensions, tag reading, album grouping, source aliases, and counts per extension and codec: a file carries its class and its tags.
- LibraryWalk.Diagnostics.Candidates: a listing that fails half-way and the counts per extension are left out; a directory is listed or not.
- LibraryWalk.MissingIsGone: `readable` stands for both listing and searching a directory; one that can be listed and not searched, in which the code calls an absent file unreadable, is not represented.
- Cancellation of a scan and its heartbeat thread inside one scan: they appear as a scan that stops, and as separate heartbeats, in `ScanLease`.
- File modes, symbolic links in destination directories, free-space checks and directory creation before a publication: a failure there is a call that raises before the temporary file exists.
- A destination whose own name has the form of a temporary name in use.
- A file system whose modification times do not change with every write: each write of a source moves its time forward.
- The compiler rewrites schema nodes in place; the model returns the rewritten node, so sharing of one sub-object between two places of a schema is not visible.
- Floating-point rounding in scores and in clock arithmetic: reals are used, except where a time is printed with six decimals.
- SchemaCompiler.Compiler.Prune: pops annotations and unsupported formats in one pass over the fields, where the code pops them one key at a time.
- RequestLease.RequestTable.Store: a candidate carries what the duplicate search and the identity key make of it; artist, title, verification, evidence and provenance of each track and the event are not columns of the model.
- RequestLease.RequestTable.ApplyConfirmation: which words and identities make a track exact, and whether the gates are open, are inputs; its reading and its two writes are separate transactions in the code, and separate steps in the runs.
- ReviewJob.JobRow.CreatePendingDecision: confidences, reason codes, option keys and the columns derived from an option's payload are left out, because nothing here reads them.
- LibraryWalk.Diagnostics.Note: the path of a sample is kept whole, not cut to its first 300 printable characters, and the log line is left out.
- LibraryScan.Index.Flush: the fence around a batch is `ScanLease.Tables.Flush`; the counts of indexed rows, of source aliases and per codec are left out.
