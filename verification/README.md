# Verified model of one-llm-router

This project models the concurrent and stateful core of one-llm-router in Dafny 4.11 and proves what it
keeps. `dafny verify dfyconfig.toml` checks everything.

Six components are modelled.

1. **OAuth flows** (`OAuthFlow`, `FlowCoordinator`, `FlowRecordSafety`, `FlowInvariant`, `FlowTheorems`,
   `FlowDelivery`, `FlowRaces`, `CoordinatorObject`, `DevicePolling`, `Loopback`). One process-wide flow slot is contended
   for by two browser rails, admin cancels, a provider-error cancel, the expiry timer, the device poller,
   pollers, starts and shutdown. `FlowCoordinator` is a state machine for any number of such activities;
   a step is one atomic load, one compare-and-swap, one channel close, or one critical section. A flow
   record carries a history (`FlowLog`) that no branch reads. The proof is rely/guarantee: each activity
   relies on a predicate at each of its places (`PcOk`, `PlaceOk`), every step of every other activity
   keeps it, and the shared invariant is `SharedOk`. Time, the provider's answers and the store's answers
   are inputs of each step. `CoordinatorObject` has the same calls as methods of an object.
2. **Account rows and token refresh** (`AccountShape`, `AccountStore`, `RowSafety`, `TokenRefresh`,
   `RefreshSafety`, `RefreshRuns`, `RefreshCall`). The two row shapes, the repository as an object, its operations
   interleaved statement by statement, and any number of concurrent refreshes with snapshots of any age
   under optimistic locking at the resolution of the timestamp column.
3. **Setup** (`ConfigWriter`, `SetupMachine`, `SetupSafety`, `SetupTheorems`, `SetupRuns`, `SetupGate`). Boot, wizard
   commits, requests and crashes (with and without power loss) as one state machine, system call by
   system call.
4. **Account selection** (`SessionRouter`, `AccountSelector`). The virtual-node ring and its binary
   search, the in-place eligibility filter, and the round-robin ticket.
5. **Request log** (`Percentile`, `Dashboard`, `LikePattern`, `RequestFilters`, `RequestPaging`). The
   one-pass aggregation, the nearest-rank percentile, the two filter builders, LIKE escaping, and paging.
6. **Recorder and event streams** (`RequestRecorder`, `SseForwarder`, `SseStandard`, `SseReading`, `SseLines`,
   `SseTheorems`). The closable bounded queue; the streaming parser against a batch specification; and,
   from the bytes on, against section 9.2.6 of the WHATWG HTML Standard with its own cut into lines.

Where the code does not meet the stronger promise, the project states exactly when it does, and where the
failure is one of several steps it also shows a run that reaches it:

- a flow can be lost: `FlowTheorems.CleanupLoses`, and the run `FlowRaces.FlowCanBeLost`;
- a terminal snapshot can be delivered more than once: `FlowDelivery.DeliveredExactly`,
  `FlowTheorems.UnmarkedExactly`, and the run `FlowRaces.CanBeDeliveredTwice`;
- a losing rail can get an internal error: `FlowTheorems.LoserAnswer`, and the run `FlowRaces.LoserCanFail`;
- `last_refresh` need not increase when credentials live too short for the column's resolution, and then
  a stale refresh can disable an account that holds newer credentials: `TokenRefresh.SafeExactly`,
  `RefreshRuns.SafeRunsExactly`, and the run `RefreshRuns.StaleDisables`;
- an imported account can be beyond refresh, and a refreshed one, too: `RefreshSafety.ImportBrokenExactly`,
  `RefreshRuns.LifetimeWraps`, `RefreshRuns.BrokenForGood`, and the run `RefreshRuns.RefreshedCanBreak`;
- a failed reload blocks the process until a restart (its message also offers a retry, which does not help):
  `SetupTheorems.PromotedExactly`, `SetupTheorems.FailedReloadNeedsRestart`, and the run
  `SetupRuns.ReloadCanFail`;
- a tmp file that could not be removed blocks every write of the process: `SetupTheorems.JammedExactly`,
  `SetupTheorems.OwnTmpJamsWrites`, and the run
  `SetupRuns.TmpCanStay`;
- the ring has an arbitrary owner where two accounts share a position: `SessionRouter.OneOwnerExactly`;
- the wrap of the ticket counter is unfair: `AccountSelector.FairAcrossWrapExactly`;
- event streams are not read as the WHATWG HTML Standard reads them: `SseStandard.DepartsExactly` for one
  group of lines, `SseTheorems.StreamDepartsExactly` for a stream of bytes, and the streams of
  `SseTheorems.BareCRDeparts` and `SseTheorems.MarkDeparts`.

The project is self-contained; `Wrappers`, `Text` and `Arithmetic` hold an option type, character classes
and facts about products and remainders.

Assumptions: flow ids, which carry 128 random bits, do not repeat; clocks do not run backwards where a
theorem compares two readings; a restarted process has a pid that no tmp file carries; nobody but the
program removes config.json; no two of the listed accounts share a ring position; request-log ids grow and
no row is removed between two pages; the recorder's worker has been started, as every caller does at once.

## Model

| member | source | states |
|---|---|---|
| OAuthFlow.SnapshotValidity | internal/oauth/status.go:73-141 | every snapshot of a well-formed flow passes the validator, if and only if an error's code and message are not empty |
| FlowRecordSafety.PcStable | internal/oauth/coordinator.go:383-505 | no step of any activity invalidates what another activity, at any place, relies on about its flow |
| FlowRecordSafety.CasOk | internal/oauth/coordinator.go:585-598 | a rail's compare-and-swap under the flow lock keeps the flow well formed and within what the others tolerate |
| FlowRecordSafety.PublishOk | internal/oauth/coordinator.go:593-598 | a rail that has won finds no published winner and publishes itself before it unlocks |
| FlowRecordSafety.CasPlainOk | internal/oauth/coordinator.go:440-505 | the compare-and-swap of cancel, expiry timer and device poller outside the lock keeps the invariant |
| FlowRecordSafety.ExchangeOk | internal/oauth/coordinator.go:600-603 | the code exchange keeps the record well formed, changes nothing the others rely on, and leaves its caller at a place whose condition (`PcOk`) holds |
| FlowRecordSafety.InsertOk | internal/oauth/coordinator.go:934-984 | the same for the insert of the account, whether it succeeds or fails |
| FlowRecordSafety.SetErrorOk | internal/oauth/coordinator.go:895-921 | the same for the write of an error |
| FlowRecordSafety.SetSuccessOk | internal/oauth/coordinator.go:620-638 | the same for the write of success |
| FlowRecordSafety.PollWriteOk | internal/oauth/status.go:199-217 | the same for a poll that marks a flow reported |
| FlowRecordSafety.PollMarks | internal/oauth/status.go:199-217 | a poll writes nothing but the mark, and that only into a terminal flow that has none |
| FlowInvariant.ActionKeeps | internal/oauth/coordinator.go:288-932 | every atomic action of every activity keeps the shared invariant and stays within its guarantee to the others |
| FlowInvariant.MoveKeeps | internal/oauth/coordinator.go:288-932 | one move of the whole system keeps the invariant for all activities |
| FlowInvariant.RunKeeps | internal/oauth/coordinator.go:288-932 | the invariant holds in every state of every interleaving |
| FlowTheorems.OneAccount | internal/oauth/coordinator.go:547-638 | a flow's code is exchanged at most once; success means exactly one account was inserted for it, error means none |
| FlowTheorems.WinnerWrites | internal/oauth/coordinator.go:585-638 | only the activity that consumed a flow exchanges its code, inserts an account or writes its result, each once, and the result is written into a pending flow and agrees with what was inserted |
| FlowTheorems.OneCompletion | internal/oauth/coordinator.go:620-638 | at most one caller is told that it completed a flow, and it is told the inserted account |
| FlowTheorems.AnswersAgree | internal/oauth/coordinator.go:383-505 | whoever is told that it cancelled or failed a flow won it, and the published error is the one that belongs to it; only a device poll can report a failure of its own without having won |
| FlowTheorems.MoveSettles | internal/oauth/coordinator.go:547-638 | no move changes a written result, a decided winner or a reported mark |
| FlowTheorems.ResultIsFinal | internal/oauth/coordinator.go:547-638 | a flow's status leaves pending at most once and never changes again, over any continuation |
| FlowTheorems.ReleasedIsFinished | internal/oauth/coordinator.go:322-352 | before Shutdown only finished flows, whose waiters have been woken, leave the slot |
| FlowTheorems.RailLosesCleanly | internal/oauth/coordinator.go:593-596 | a rail that loses to a rail reads a published winner, and the branches for an already published winner are dead |
| FlowTheorems.WokenIsTerminal | internal/oauth/flow.go:254-279 | a wake-up through the terminal channel sees a terminal status, and delivered snapshots are valid |
| FlowTheorems.LoserAnswer | internal/oauth/coordinator.go:826-893 | a losing rail gets the internal error exactly when the winner, which is no rail, has not written an error by the rail's last read |
| FlowTheorems.NewestIsFindable | internal/oauth/coordinator.go:923-932 | until Shutdown the newest flow is in the slot or the latest released one, exactly unless its own start's cleanup removed it |
| FlowTheorems.CleanupLoses | internal/oauth/coordinator.go:292-296 | that cleanup loses the flow exactly when it was already released and its listener is not bound |
| FlowTheorems.LookupFinds | internal/oauth/coordinator.go:923-932 | a lookup that began after the flow started finds it while it is the newest, not lost, and Shutdown has not begun |
| FlowTheorems.UnmarkedExactly | internal/oauth/status.go:173-190 | a terminal delivery is unmarked exactly when the poll's first read saw pending and its second read terminal |
| FlowDelivery.DeliveredExactly | internal/oauth/status.go:161-217 | in every run the polls that have answered with a flow's result are exactly as many as the unmarked deliveries plus one if the flow is marked, and all gave the same result |
| FlowDelivery.MarkedOnce | internal/oauth/status.go:199-217 | two polls that answered with the same flow's result are one poll, unless a delivery was unmarked |
| FlowDelivery.IdleAfterDelivery | internal/oauth/status.go:161-217 | no poll answers idle for a finished flow before some poll has answered with its result, a later flow started, Shutdown began, or the flow was lost |
| FlowRaces.FlowCanBeLost | internal/oauth/coordinator.go:292-296 | a run in which a finished, undelivered flow is answered idle |
| FlowRaces.CanBeDeliveredTwice | internal/oauth/status.go:173-190 | a run in which two polls deliver the same terminal snapshot |
| FlowRaces.LoserCanFail | internal/oauth/coordinator.go:826-853 | a run in which a rail that loses to an admin cancel gets the internal error |
| CoordinatorObject.ReleaseResult | internal/oauth/coordinator.go:322-352 | run to its end, ReleaseFlow stores the flow unless closed and empties the slot, and leaves other flows alone |
| CoordinatorObject.Coordinator.CleanupReleasedFlowsOnStart | internal/oauth/coordinator.go:1315-1326 | the loop keeps exactly the released flows whose listener is bound and forgets the latest id if it goes |
| CoordinatorObject.Coordinator.ReleaseFlow | internal/oauth/coordinator.go:322-352 | the call does what the machine's steps do one after the other |
| CoordinatorObject.Coordinator.TryStartFlow | internal/oauth/coordinator.go:288-312 | refuses with the current flow or takes the slot and cleans up, as the machine's steps do, losing nothing |
| CoordinatorObject.Coordinator.Shutdown | internal/oauth/coordinator.go:354-366 | closes, releases the flow in the slot as the machine's steps do after the close, and empties the released flows |
| DevicePolling.SlowDownDoubles | internal/oauth/coordinator.go:779-790 | with 64-bit wrap-around, slow_down doubles and clamps to 5-60 s for every positive interval |
| DevicePolling.IntervalBounds | internal/oauth/coordinator.go:647-681 | every scheduled interval is positive, at least min(first, 60 s), and does not shrink while the first is at most 60 s |
| DevicePolling.IntervalFormula | internal/oauth/coordinator.go:771-796 | the interval after any answers is a closed form of the number of slow_down answers |
| DevicePolling.PollsAreBounded | internal/oauth/coordinator.go:647-681 | a device flow asks the provider fewer than TTL / min(first, 60 s) times |
| Loopback.BindLoopback | internal/oauth/listener.go:18-39 | binds the first bindable port of the range, or reports port 0 |
| Loopback.RedirectNeverRefused | internal/oauth/coordinator.go:507-533 | the callback URL is always the default one, so StartBrowser never releases an unconsumed flow |
| AccountShape.NoApiKeyOffender | internal/domain/account.go:265-345 | an API-key row is well shaped exactly when no field offends and System One's base URL is there and accepted |
| AccountShape.Unknown | internal/domain/account.go:307-318 | the nested loops collect exactly the capabilities that are not governed ones, in order |
| AccountShape.ValidateApiKeyShape | internal/domain/account.go:265-345 | accepts exactly the API-key shape and lists every offending field in order |
| AccountShape.ValidateOAuthShape | internal/domain/account.go:347-375 | accepts exactly the OAuth shape and lists every offending field in order |
| AccountShape.Validate | internal/domain/account.go:249-263 | accepts exactly the rows of one of the two shapes and names an unknown auth method |
| AccountStore.CredentialsOk | internal/store/accounts.go:279-331 | a credential update of a valid row of the same auth method yields a valid row |
| AccountStore.EditOk | internal/store/accounts.go:784-844 | an edit yields a valid row whatever else changed since the row was read, if its write is unconditional or its compared fields match |
| AccountStore.AccountRepo.InsertUpstreamAccount | internal/store/accounts.go:152-179 | only valid accounts are inserted, under a new id, with the column's time resolution |
| AccountStore.AccountRepo.CreateIdempotentByName | internal/store/accounts.go:569-614 | inserts nothing if the name exists; the answer is a row of that name |
| AccountStore.AccountRepo.UpdateCredentials | internal/store/accounts.go:220-357 | writes exactly when the row is live, of the patch's method, and has the expected last_refresh; a conflict means the latter failed |
| AccountStore.AccountRepo.UpdateStatusIfCurrent | internal/store/accounts.go:875-894 | writes exactly when the row is active with the expected last_refresh; otherwise conflict or not found |
| AccountStore.AccountRepo.UpdateDetails | internal/store/accounts.go:771-869 | with nothing interleaved, succeeds exactly on live API-key rows whose merged shape is valid, and writes just the patch |
| RowSafety.StepKeeps | internal/store/accounts.go:152-331 | each statement keeps all rows valid, removes none and changes no auth method |
| RowSafety.RowsStayValid | internal/store/accounts.go:731-869 | over every interleaving of inserts, credential, usage and status updates and split edits, every row stays valid and keeps its auth method |
| RowSafety.SystemOneHasBaseURL | internal/domain/account.go:273-279 | no run yields a row that offers op.systemone without an accepted base URL |
| RowSafety.SecondEditRefused | internal/store/accounts.go:818-866 | after one of two edits of the same row changed a compared field, the other changes nothing and is told so, unless its values are already stored |
| RowSafety.EditMissExactly | internal/store/accounts.go:820-843 | an edit's write misses exactly when it is conditional and status, base URL or capabilities changed since the read |
| TokenRefresh.SafeExactly | internal/oauth/coordinator.go:1031-1044 | at any resolution, every instant at which a snapshot is stale lies in a later unit than its last_refresh if and only if the stated bound on its two times holds |
| TokenRefresh.StaleIsLater | internal/oauth/coordinator.go:1031-1044 | durable credentials are stale only in a later unit, for snapshots as issued and as stored |
| TokenRefresh.TwoUnitsAreEnough | internal/oauth/coordinator.go:1031-1044 | credentials with a stored lifetime of two units are durable |
| TokenRefresh.ExactColumnsNeedNothing | internal/oauth/coordinator.go:1031-1044 | at full resolution all credentials are durable, whatever lifetime was granted |
| TokenRefresh.StrictlyIncreasesExactly | internal/store/accounts.go:333-342 | a refresh always increases the stored last_refresh if and only if the stored lifetime is at least two units of the column's resolution less two instants |
| RefreshSafety.WriteOk | internal/oauth/coordinator.go:1084-1103 | a credential write replaces credentials with its snapshot's last_refresh; among durable ones it keeps the history strictly increasing and replaces what its snapshot showed |
| RefreshSafety.ActionKeeps | internal/oauth/coordinator.go:991-1190 | every step of every refresh, whatever lifetime is granted, keeps the invariant and its guarantee to the others |
| RefreshSafety.RunKeeps | internal/oauth/coordinator.go:991-1190 | the invariant holds over every interleaving of refreshes and admin status changes |
| RefreshSafety.RefreshIsSafe | internal/oauth/coordinator.go:991-1190 | at most two provider calls a refresh and one flight at a time; writes and disables hit credentials with the snapshot's last_refresh; if all credentials issued are durable, last_refresh strictly increases and they hit exactly the snapshot's |
| RefreshSafety.DisablesExactly | internal/oauth/coordinator.go:1149-1160 | a rejected token disables the account exactly when it is active and has the snapshot's last_refresh; among durable credentials exactly when the snapshot is current, and the stored refresh token is then the rejected one |
| RefreshSafety.ReplacesExactly | internal/store/accounts.go:304-323 | new credentials are stored exactly when the row is not deleted and has the snapshot's last_refresh; among durable credentials exactly when the snapshot is current |
| RefreshSafety.CurrentMatches | internal/store/accounts.go:333-342 | the stored last_refresh matches exactly the snapshots with the current one's, and among durable credentials exactly the current snapshot: no ABA |
| RefreshSafety.TokensAreIssued | internal/oauth/coordinator.go:1116-1125 | every token a call returns, also through a shared flight or as a fallback, was issued for this row |
| RefreshSafety.ImportBrokenExactly | internal/oauth/coordinator.go:1033-1038 | a call with an imported row errors at once exactly when the id token's exp precedes last_refresh in the column's resolution |
| RefreshRuns.StaleDisables | internal/oauth/coordinator.go:1149-1160 | for any credentials that are not durable, a run in which the rejection of their refresh token disables the account that holds newer, durable ones |
| RefreshRuns.SafeRunsExactly | internal/oauth/coordinator.go:991-1190 | over all runs whose later grants are durable, no write or disable hits newer credentials than its snapshot's if and only if the inserted credentials are durable |
| RefreshRuns.BrokenForGood | internal/oauth/coordinator.go:1033-1038 | once the row expires before its last_refresh, and no earlier credentials share that last_refresh, in every continuation it keeps its credentials and every call that shows them ends in the error on its expiry |
| RefreshRuns.LifetimeWraps | internal/oauth/exchange.go:584-592 | the 64-bit lifetime of a grant is what the provider says exactly below 9223372037 seconds; at that value it is negative |
| RefreshRuns.RefreshedCanBreak | internal/oauth/coordinator.go:1084-1103 | from any ordered row, a run in which a refresh with such a grant leaves the row beyond repair |
| RefreshCall.Refresher.RefreshOnce | internal/oauth/coordinator.go:1007-1125 | one attempt over the repository: what it may change, and that a conflict means the row is not active and current |
| RefreshCall.Refresher.RefreshIfStale | internal/oauth/coordinator.go:991-1005 | the retry loop makes at most two attempts and, with nothing interleaved, never ends in a conflict, whatever the snapshot's age |
| ConfigWriter.Directory.WriteAtomic | internal/config/writer.go:115-203 | succeeds exactly when no tmp file of the pid is left and no call up to the rename fails; then the new complete payload, else the old file; a tmp file of the pid is there afterwards exactly if it was before or the write and its removal failed |
| ConfigWriter.SweepStale | internal/config/writer.go:253-310 | removes exactly the swept files whose removal does not fail |
| ConfigWriter.DecimalReads | internal/config/writer.go:229-231 | the pid written into a tmp name is the pid read back |
| ConfigWriter.SweepIsExact | internal/config/writer.go:278-300 | the sweep spares exactly the tmp files of live processes and of its own pid |
| SetupSafety.ActionKeeps | internal/setup/commit.go:183-345 | every step of boot, commit and request keeps the invariant |
| SetupSafety.CrashOk | internal/config/writer.go:173-203 | whatever a crash or a power loss leaves, a rename undone and tmp files back included, the next process starts in the invariant |
| SetupSafety.RunKeeps | internal/setup/commit.go:183-345 | the invariant holds over every run of boots, commits, requests and crashes |
| SetupTheorems.CrashSafe | internal/setup/commit.go:183-321 | config.json is absent or one complete payload, its presence implies migrations and the seeded row, and no name is on two rows |
| SetupTheorems.GateSafe | internal/app/app.go:603-699 | a request passes an open gate only into a steady mux; at most one promotion and one commit write in a process |
| SetupTheorems.GatesLatch | internal/setup/gate.go:262-303 | an open gate never closes while the process lives |
| SetupTheorems.PromotedExactly | internal/setup/commit.go:323-335 | in every run, while nobody boots or commits and config.json is there, the process is promoted if and only if none of its commits ended with a failed reload |
| SetupTheorems.FailedReloadNeedsRestart | internal/setup/commit.go:192-203 | after a failed reload, whatever follows in the process, no commit succeeds, no mux is steady and no request passes a gate |
| SetupTheorems.JammedExactly | internal/config/writer.go:173-203 | in every run, while nobody boots or commits, the process's tmp file is on the disk if and only if a write of it and the removal failed |
| SetupTheorems.OwnTmpJamsWrites | internal/config/writer.go:294-297 | once the process's own tmp file is left behind, no write of the process changes config.json |
| SetupRuns.BrownfieldRecovers | internal/setup/brownfield.go:107-152 | after a crash between database and file, a restart with the database in its environment writes config.json and reaches the steady state |
| SetupRuns.SteadyBootRecovers | internal/app/app.go:425-476 | after a crash that config.json survived, a restart reaches the steady state |
| SetupRuns.RetryRecovers | internal/setup/commit.go:183-345 | after any run and crash without config.json, a restart and a retry with the same name reach Committed, with config.json written and exactly one row of the name |
| SetupRuns.ReloadCanFail | internal/setup/commit.go:323-335 | a run from a first boot to a failed reload |
| SetupRuns.TmpCanStay | internal/config/writer.go:173-203 | a run from a first boot to a tmp file that stays behind |
| SetupGate.Gate.Probe | internal/setup/gate.go:262-303 | opens on the sight of config.json unless the observer is off, never closes, reports an unreadable disk |
| SetupGate.ProbeIsAtomic | internal/setup/gate.go:116-137 | the gate's atomic steps, uninterrupted, let a request pass exactly when Probe reports open |
| SetupGate.App.BuildHandler | internal/app/app.go:603-668 | a handler's gate is open only before a steady mux and otherwise ignores the disk |
| SetupGate.App.PromoteToSteadyState | internal/app/app.go:425-476 | publishes one steady handler, changes nothing on failure or when already promoted |
| SessionRouter.SortRing | internal/core/session_router.go:46-48 | the ring sorted by hash, same entries |
| SessionRouter.Search | internal/core/session_router.go:52-54 | the binary search finds the first entry at or after the key |
| SessionRouter.BuildRing | internal/core/session_router.go:34-44 | the ring holds exactly the virtual nodes of the accounts |
| SessionRouter.OnlyAccountOwns | internal/core/session_router.go:30-32 | the shortcut for one account returns the owner the ring would |
| SessionRouter.Route | internal/core/session_router.go:26-60 | the account whose node is the first at or after the key, wrapping; no account exactly for the empty list |
| SessionRouter.OneOwner | internal/core/session_router.go:46-59 | a key has one owner among accounts without a common ring position, so the order of the list does not matter |
| SessionRouter.OneOwnerExactly | internal/core/session_router.go:46-59 | every key has one owner if and only if no two of the accounts share a ring position |
| SessionRouter.TieFreeHashExists | internal/core/session_router.go:34-44 | such a hash exists for two accounts with 150 nodes each |
| SessionRouter.KeepsAccount | internal/core/session_router.go:26-60 | removing or filtering accounts leaves a session's account unchanged while it is listed |
| SessionRouter.MovesOnlyToNew | internal/core/session_router.go:26-60 | adding an account moves a session to it or not at all |
| AccountSelector.AccountSelector.Filter | internal/core/account_selector.go:242-250 | the in-place filter leaves the eligible accounts in order in the front of the array |
| AccountSelector.AccountSelector.Pick | internal/core/account_selector.go:237-261 | the session's owner, or the ticket's account, among the eligible ones; a ticket is taken only in the latter case |
| AccountSelector.SessionsStick | internal/core/account_selector.go:255-257 | a session keeps its account across changes of the list and of eligibility while the account stays eligible |
| AccountSelector.RoundRobinIsFair | internal/core/account_selector.go:259-260 | n successive tickets choose each of n accounts exactly once |
| AccountSelector.FairAcrossWrapExactly | internal/core/account_selector.go:259-260 | across the wrap of the counter this holds if and only if n divides 2^64 |
| Percentile.P95 | internal/store/records.go:418-433 | the nearest-rank value: at least 95% of the samples at or below it, fewer than 95% below; the index clamps are dead |
| Percentile.NearestRankIsUnique | internal/store/records.go:418-433 | samples have one nearest-rank value |
| Percentile.OverallIsBetween | internal/store/records.go:210-222 | the overall p95 lies between the smallest and the largest p95 of the non-empty buckets |
| Dashboard.TokensOf | internal/store/records.go:335-351 | cached plus non-cached input is max(input, cached) |
| Dashboard.BucketsCover | internal/store/records.go:304-316 | the buckets cover the window and the last one begins before its end |
| Dashboard.IndexIsExact | internal/store/records.go:318-333 | a time in the window lies in the interval of exactly one bucket, the end point in the last; the clamp is dead |
| Dashboard.RangesAreWhole | internal/core/dashboard_service.go:238-255 | each of the four ranges yields a whole number of buckets |
| Dashboard.RowCounts | internal/store/records.go:159-204 | one iteration of the loop adds one row to the totals and to its bucket |
| Dashboard.SpeedsGrow | internal/store/records.go:178-189 | the per-model sums cover exactly the timed rows and no duration is zero |
| Dashboard.Aggregate | internal/store/records.go:124-224 | the one-pass loop equals the per-bucket filter and sum over the selected rows |
| Dashboard.TotalsAddUp | internal/store/records.go:168-196 | every card's total is the sum of its series |
| Dashboard.SamplesMerge | internal/store/records.go:198-203 | the buckets' samples are the window's samples |
| Dashboard.CardsAreConsistent | internal/store/records.go:206-223 | for every result: the cards add up and the overall p95 lies between the buckets' |
| LikePattern.EscapedIsPrefix | internal/store/records.go:589-592 | the escaped text followed by % matches exactly the texts it is a prefix of |
| LikePattern.PatternIsSubstring | internal/store/records.go:539-592 | the search pattern matches a text exactly when the trimmed, lower-cased search occurs in it |
| RequestFilters.EffectiveAccountIDs | internal/store/records.go:543-560 | the positive ids, each once |
| RequestFilters.EffectiveStrings | internal/store/records.go:562-580 | the trimmed values that are not blank, each once |
| RequestFilters.WhereSQL | internal/store/records.go:488-537 | as many placeholders as arguments, and the clauses mean the seven conditions of the filter |
| RequestFilters.SessionFilters | internal/store/records.go:237-267 | the session's conditions mean the same filter |
| RequestFilters.FilterOptions | internal/store/records.go:65-91 | the options are exactly the non-empty values in the rows of the unpaged query |
| RequestPaging.RestOfPage | internal/core/request_service.go:42-48 | the rows after a page are the rows before its last id |
| RequestPaging.NewRowsStayAbove | internal/store/records.go:51-57 | newer rows do not show below an older cursor |
| RequestPaging.PagesAreTheResult | internal/core/request_service.go:29-49 | following the cursor terminates and the pages joined are the result of the first moment, though newer rows arrive |
| RequestPaging.PagingIsComplete | internal/core/request_service.go:29-77 | from the first page: no gap, no duplicate, descending ids |
| RequestRecorder.ActionKeeps | internal/core/request_recorder.go:67-116 | every step of Record and Close keeps the invariant |
| RequestRecorder.QueueIsSafe | internal/core/request_recorder.go:42-116 | no send on the closed channel, one close, the bound holds, and FIFO: sent is attempted, in flight, queued |
| RequestRecorder.OneFate | internal/core/request_recorder.go:67-89 | each call of Record ends in exactly one fate, and its record is sent or inserted at most once |
| RequestRecorder.ClosedMeansDrained | internal/core/request_recorder.go:93-116 | when Close has returned nil, every record ever sent has been attempted |
| RequestRecorder.Recorder.Record | internal/core/request_recorder.go:67-89 | dropped, queued or inserted at once, by closed flag and bound |
| RequestRecorder.Recorder.Drain | internal/core/request_recorder.go:42-47 | the worker's loop attempts what is queued, oldest first |
| SseForwarder.GroupsAreTheCut | internal/api/sse.go:98-110 | the specification's groups are the stream cut at its blank lines |
| SseForwarder.JoinGrows | internal/api/sse.go:79-97 | appending line by line yields the data values from the first non-empty one on, joined by LF |
| SseForwarder.ForwardSSE | internal/api/sse.go:46-140 | the loop forwards every line, hands on exactly the batch events within the cap, drops an oversized one whole and reports it, and keeps the usage of the last event with one |
| SseStandard.DepartsExactly | internal/api/sse.go:79-109 | for a finished group of lines as the standard cuts them, whether an event is dispatched, and its text, differ from section 9.2.6 of the WHATWG HTML Standard exactly when the first data value is empty |
| SseStandard.SameEventsExactly | internal/api/sse.go:65-116 | for every stream within the cap, the events handed on are the standard's if and only if the same data values are read in the same groups, leading empty values gone and the last group included |
| SseReading.AlwaysRelated | internal/api/sse.go:65-116 | where no data line is hidden, what the scanner's lines and the standard's yield after every line: the same groups, except where a blank line that only the standard sees has parted them |
| SseReading.HiddenDeparts | internal/api/sse.go:65-116 | a data line hidden behind a CR or a byte order mark makes the events differ, unless the standard discards data at the end |
| SseLines.StandardRead | internal/api/sse.go:53-66 | the standard's lines are the scanned lines cut at their CRs, without the byte order mark |
| SseLines.SameLinesExactly | internal/api/sse.go:53-66 | the scanner cuts a stream into the standard's lines if and only if there is no leading byte order mark and every CR stands before an LF or at the end |
| SseTheorems.StreamDepartsExactly | internal/api/sse.go:46-141 | for bytes within the limits that hide no data line or that the standard reads to the end: the events handed on are the standard's if and only if no data line is hidden, no group is split, no finished group starts with an empty data value, and the last group agrees |
| SseTheorems.SameLinesAreFine | internal/api/sse.go:65-116 | where both cut the same lines, nothing is hidden or split, and the condition is that no finished group starts with an empty data value and the last one has no event |
| SseTheorems.BareCRDeparts | internal/api/sse.go:66-79 | two data lines that a CR alone separates are one event text to the code and two values to the standard |
| SseTheorems.MarkDeparts | internal/api/sse.go:66-79 | a data line behind a leading byte order mark is no data to the code and an event to the standard |
| SseTheorems.BrokenOffTurnsOnValues | internal/api/sse.go:113-116 | a stream that hides a data line and is broken off agrees or not as the two values are the same |
| SseForwarder.LongLineIsTooLarge | internal/api/sse.go:53-55 | a line that overflows the scanner carries a data value over the cap |
| SseTheorems.ForwardStream | internal/api/sse.go:46-141 | over the upstream's bytes: the scanned lines are forwarded, their events handed on, an overlong line or an oversized event is reported, and the events are the standard's under the exact condition |

## Left out

- Flows, rows, disk and recorder in the state machines are values, because their subject is interleaving: a flow pointer is the flow's id and a map holds the records, so aliasing is not modelled there. The objects beside them (`Coordinator`, `AccountRepo`, `Refresher`, `Directory`, `Gate`, `App`, `AccountSelector`, `Recorder`) have the update-in-place form for one caller at a time.
- The usage refresher's pass over all accounts: each account's part is one operation of `RowSafety` (list an active OAuth row, later write its usage); the quota windows and the anchor probe are not modelled.
- The load of config.json at start is one step after the sweep of tmp files, although the entrypoint loads it just before; neither affects the other.
- HTTP handlers, pages, response envelopes, OpenAPI adapters, upstream clients, WebSocket relay and the frontend: wire plumbing and network I/O. The setup HTTP handler is assumed to read the gate only.
- Cryptography, JWT claims, CRC32 and JSON: library calls. The ring hash is a parameter; ValidateBaseURL's verdict travels with the URL; a provider is reduced to success, permanent failure or transient failure, and a claim that cannot be extracted counts as such a failure.
- SQL dialects: a table is a map with atomic conditional writes and exact comparison; collations that ignore case or trailing blanks, and rounding instead of truncation of timestamps, are not modelled.
- A dirty migration schema, a database transaction whose outcome is unknown outside the setup commit, and settings updates, which rewrite config.json after setup under their own lock.
- Other account-creation paths while setup is pending: none is reachable then, so names are unique in the setup machine only there.
- FlowTheorems.NewestIsFindable: states the loss of a flow as an exact condition instead of its absence, because a start's compare-and-swap and its cleanup are two steps.
- FlowDelivery.MarkedOnce: allows for unmarked deliveries, because a poll reads a flow's status and its snapshot under two lockings.
- FlowRaces.LoserCanFail: the internal error of a losing rail is a run of the code, so its absence is not stated.
- RequestFilters.FilterOptions: the ascending order of the options, which the database produces, is not stated.
- SseForwarder.ForwardSSE: works on scanned lines; `SseTheorems.ForwardStream` adds the scanner, with one character for one byte. Read errors of the upstream, the body collector and its errors are not modelled.
- SseTheorems.StreamDepartsExactly: leaves out streams that both hide a data line and are broken off within a group, because there agreement turns on the values themselves (`BrokenOffTurnsOnValues`); `SseStandard.SameEventsExactly` decides them value by value. Only event data is compared, and malformed UTF-8, which the standard replaces, is not modelled.
- Dashboard.Aggregate: the four series of a bucket are one record, sums are unbounded integers, and rates are reals.
- Account lists of the dashboard page, usage summary, retention deletes, plugin registry, health, live config publishing, logging and the model allow-list: short or straight-line code that would add easy members.
- White space and letter case are ASCII in `Text`; Unicode is not modelled.
