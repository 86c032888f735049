# The execution core of the PackageKit daemon

PackageKit's daemon lets many clients queue transactions, runs them one after another on a single
backend, and passes what the backend reports on to the clients. This project models that core as one
event-driven system and proves what it keeps over whole runs. Every callback of the main loop and every
request is one atomic step; callbacks that are nested inside a step stay nested.

- `Scheduler*.dfy`, `TransactionList.dfy`: the transaction list. The list is a sequence of items with
  three timers each; the class works in place on shared item objects and is proved against functions on
  that sequence, about which the theorems on whole runs are proved.
- `BackendModel.dfy`, `BackendProofs.dfy`, `BackendGuarantees.dfy`, `BackendStreams.dfy`,
  `BackendResults.dfy`, `BackendProgress.dfy`, `BackendAnnouncements.dfy`, `BackendComplaints.dfy`,
  `BackendRules.dfy`, `Backend.dfy`: the shared backend. A trace of emitted signals makes what clients
  see a value; an epoch is the time from one accepted reset to the next.
  Results other than packages, files and messages stand for one another as numbered data signals.
- `Daemon.dfy`, `DaemonRuns.dfy`, `HelperDaemon.dfy`: list, transaction start, backend and helper together.
- `LineReader.dfy`, `HelperModel.dfy`, `HelperProofs.dfy`, `HelperLines.dfy`, `HelperRules.dfy`,
  `Helper.dfy`: helper programs. Pipes, `waitpid` and failing system calls are choices of the
  environment, given as parameters.
- `RemainingTime.dfy`, `Slopes.dfy`, `Estimator.dfy`: the remaining-time estimate, floating point as real
  numbers, unsigned subtraction with its wrap-around.
- `Text.dfy`, `Packages.dfy`, `PackageList.dfy`: the stored package list and its parser.
- `Numbers.dfy`, `TransactionIds.dfy`: transaction ids, with the widths of the C integers.
- `UpdateCache.dfy`, `CacheRules.dfy`, `CacheObjects.dfy`: the cached update list and everything that
  fills or empties it.
- `Totals.dfy`, `Shared.dfy`: sums over a sequence; what several parts have in common.

Clock readings, random characters, the text of stored rows and the configuration are parameters.

## Where the code does not do what it says

Each of these is kept as the code has it, with the exact condition proved.

- A finish that reaches a transaction which was not running starts the next one as well
  (src/pk-transaction-list.c:349-400), so two transactions can run together: `ExclusionLostExactly`.
- A foreign request to cancel a running transaction that is refused finishes that transaction for the list
  (src/pk-transaction.c:2770-2804), while the backend goes on with it and the next one joins in:
  `BackendHasOneOwner`, `SecondListenerExactly`.
- A released running transaction whose idle callback is still pending leaves the list without starting
  another (src/pk-transaction-list.c:229-239): `ConservedExactly`, `ConservationCounterexample`.
- The comment at src/pk-transaction-list.c:506 speaks of a limit per user; one more is allowed:
  `UserLimitExceededByOne`.
- REPAIR_REQUIRED is written after FAILED and therefore refused (src/pk-backend.c:2199-2201):
  `RepairNeverReported`.
- The comment at src/pk-backend.c:1222-1224 says that new lines are replaced; the list of characters at
  src/pk-backend.c:1247 has none: `LineBreaksStayExactly`.
- The exit type of a helper object is never cleared between its processes (src/pk-spawn.c:259-283), so a
  helper that follows one that was shut down or replaced can die unnoticed: `DeathExactly`,
  `ShutdownHidesCrash`.
- Nor is its output buffer (src/pk-spawn.c:189-200): `LeftoverChangesLines`, `LeftoverReachesNext`.
- A backend that is left in status RUNNING with an error makes the next transaction end at once
  (src/pk-transaction.c:2248-2301): `StartExactly`, `SpoiltStartReachable`.
- The counter is unsigned but printed as signed (src/pk-transaction-db.c:528): `RestartKeepsExactly`.
- A length limit of zero counts one character (src/pk-shared.c:265-279): `StrLen`.
- The cached update list is replayed for requests with another filter (src/pk-transaction.c:3969):
  `ReplayFitsExactly`.

## Model

| member | source | states |
|---|---|---|
| SchedulerProofs.StepWellFormed | src/pk-transaction-list.c:201-241 | every step keeps: ids distinct, commit timer set exactly in NEW and WAITING_FOR_AUTH, remove timer exactly when FINISHED, idle source only from RUNNING on |
| SchedulerProofs.RunWellFormed | src/pk-transaction-list.c:201-413 | the same over every run |
| SchedulerProofs.FinishRunningCount | src/pk-transaction-list.c:349-400 | an accepted finish takes its item out of the running ones and puts one back exactly when another item is ready |
| SchedulerProofs.RunningBound | src/pk-transaction-list.c:349-400 | over every run at most one transaction runs, plus one per finish accepted by a transaction that was not running |
| SchedulerProofs.MutualExclusion | src/pk-transaction-list.c:595-657 | a run without such finishes has at most one running transaction |
| SchedulerProofs.ExclusionLostExactly | src/pk-transaction-list.c:380-399 | the step that ends mutual exclusion, if and only if: a stray finish while one runs and yet another is ready |
| SchedulerProofs.ExclusionCounterexample | src/pk-transaction.c:3147-3155 | three commits and a cancel of the second leave the first and the third running together |
| SchedulerProgress.StepOnOne | src/pk-transaction.c:860-902 | what one step may do to one transaction: states never go back, FINISHED only by its own finish, RUNNING only by a commit or a finish |
| SchedulerProgress.ConservedExactly | src/pk-transaction-list.c:229-239 | "no one runs implies no one is ready" survives a step if and only if the step is not the release of the only running item, idle pending, while others are ready |
| SchedulerProgress.ConservationCounterexample | src/pk-transaction-list.c:229-239 | two commits from the empty list and the release of the first: the second is ready, nothing runs |
| SchedulerProgress.RunConserved | src/pk-transaction-list.c:316-400 | work conservation over every run that never drops such an item |
| SchedulerProgress.BackgroundStartsLast | src/pk-transaction-list.c:316-343 | when a background transaction is started, no foreground one is ready |
| SchedulerProgress.ConsistentExactly | src/pk-transaction-list.c:775-837 | where work is conserved, the wedge check complains exactly when more than one transaction runs |
| Scheduler.NextItem | src/pk-transaction-list.c:316-343 | the first ready foreground item; without one, the first ready item; neither, and none is ready |
| SchedulerProgress.FinishStartsExactly | src/pk-transaction-list.c:316-400 | an accepted finish starts an item if and only if that is ready, not the finished one, and either the first of the ready foreground ones, or the first of all ready ones when none of them is in the foreground |
| SchedulerProgress.ConsistentMeans | src/pk-transaction-list.c:775-837 | the wedge check is content if and only if at most one item runs and, in a list that is not empty, not every item waits |
| SchedulerRules.StateMoves | src/pk-transaction.c:860-902 | moving on along the life of a transaction is accepted, moving back refused, COMMITTED becomes READY at once |
| SchedulerRules.CreateExactly | src/pk-transaction-list.c:442-528 | a new transaction stands last, NEW, in the foreground, with the commit timer; the others are untouched; refused for a known id or above the limit |
| SchedulerRules.SetBackgroundExactly | src/pk-transaction-list.c:247-266 | the flag of an unfinished transaction becomes the one given, nothing else changes |
| SchedulerRules.AuthorizeExactly | src/pk-transaction.c:2941-2943 | only a NEW transaction starts to wait for authorization |
| SchedulerRules.CommitExactly | src/pk-transaction-list.c:595-657 | a first commit runs the transaction if no other runs and makes it ready otherwise; a second one changes nothing |
| SchedulerRules.ReleaseExactly | src/pk-transaction-list.c:204-241 | a release takes a transaction off the list unless it is finished or executing; the others keep their order |
| SchedulerRules.TimersExactly | src/pk-transaction-list.c:272-295 | what each of the three timers takes away, by the state of the transaction |
| SchedulerRules.ClientCommitExactly | src/pk-transaction.c:2519-2570 | a client's first commit takes over its hint and starts or queues; committing a ready transaction takes it off the list |
| SchedulerRules.RefusalFinishes | src/pk-transaction.c:2770-2804 | a refused authorization finishes the transaction whatever it is doing |
| SchedulerRules.RunningBackgroundExactly | src/pk-transaction-list.c:577-588 | the backend is asked to cancel exactly the transactions that run in the background |
| SchedulerLiveness.BoundedWaitingInTurn | src/pk-transaction-list.c:316-400 | the bound below for any ready transaction in its turn: in the foreground, or in the background while no foreground one is ready |
| SchedulerLiveness.BoundedWaiting | src/pk-transaction-list.c:316-400 | a ready foreground transaction that stays listed, foreground and unfinished runs after at most m+1 accepted finishes, m being the unstarted ones ahead of it |
| SchedulerLiveness.StepDrains | src/pk-transaction-list.c:283-310 | without creates, every step that changes state or removes an item lowers a sum of remaining states |
| SchedulerLiveness.RunDrains | src/pk-transaction-list.c:201-241 | so a run without creates has at most as many effective steps as the measure of its start |
| SchedulerLiveness.NextOwed | src/pk-transaction-list.c:349-413 | a non-empty list in which work is conserved always has a pending timer or a running item, and it has an effect |
| SchedulerLiveness.Drains | src/pk-transaction-list.c:519-525 | such a list empties by pending timers and ends of running items alone |
| SchedulerLiveness.CancelPendingCompletes | src/pk-transaction-list.c:556-589 | cancelling all pending work leaves nothing below RUNNING, never resizes the array, and is a run of ordinary events, though nested finishes start items in the middle of the loop |
| SchedulerLiveness.UserBound | src/pk-transaction-list.c:502-517 | over every run no user has more than limit + 1 listed transactions |
| SchedulerLiveness.UserLimitExceededByOne | src/pk-transaction-list.c:502-517 | a user at the limit is given one more; a create is refused exactly above the limit |
| SchedulerLiveness.EveryRun | src/pk-transaction-list.c:349-400 | from the empty list: well-formed, bounded, conserved unless an item was dropped, and the wedge check quiet without stray finishes |
| TransactionList.TransactionItem.SetState | src/pk-transaction.c:860-902 | the state machine of a transaction: no way back, COMMITTED passes on to READY |
| TransactionList.TransactionList.GetFromTid | src/pk-transaction-list.c:87-106 | the item with an id, or none |
| TransactionList.TransactionList.GetNextItem | src/pk-transaction-list.c:316-343 | the first ready foreground item, else the first ready one, else none |
| TransactionList.TransactionList.GetActiveTransaction | src/pk-transaction-list.c:534-550 | the first running item |
| TransactionList.TransactionList.NumberOfTransactionsForUid | src/pk-transaction-list.c:421-436 | the loop counts the items of one user |
| TransactionList.TransactionList.Create | src/pk-transaction-list.c:442-528 | appends a new item unless the id is known or the user is above the limit |
| TransactionList.TransactionList.SetBackground | src/pk-transaction-list.c:247-266 | sets the flag of an unfinished item |
| TransactionList.TransactionList.RunItem | src/pk-transaction-list.c:301-310 | moves the item to RUNNING and schedules its idle callback |
| TransactionList.TransactionList.RunIdleCb | src/pk-transaction-list.c:283-295 | clears the idle source of the item |
| TransactionList.TransactionList.Remove | src/pk-transaction-list.c:204-241 | refused when finished or already executing; otherwise the item leaves the array and the rest keeps its order |
| TransactionList.TransactionList.RemoveItemCb | src/pk-transaction-list.c:272-277 | the remove timer takes the item out |
| TransactionList.TransactionList.NoCommitCb | src/pk-transaction-list.c:406-413 | the commit timer takes the item out |
| TransactionList.TransactionList.TransactionFinishedCb | src/pk-transaction-list.c:349-400 | finishes the item and starts the next |
| TransactionList.TransactionList.Commit | src/pk-transaction-list.c:595-657 | commits the item, runs it if nothing runs, otherwise names the background transaction to pre-empt |
| TransactionList.TransactionList.CancelPendingItems | src/pk-transaction-list.c:556-575 | the first loop, against CancelPending |
| TransactionList.TransactionList.CancelBackground | src/pk-transaction-list.c:556-589 | both loops: pending items are all started or finished, running background ones are asked to cancel |
| TransactionList.TransactionList.CheckConsistent | src/pk-transaction-list.c:775-837 | the wedge check counts states in a loop |
| TransactionList.TransactionList.CancelBg | src/pk-transaction.c:3136-3170 | a pending item is finished and released, a running one is asked to stop |
| TransactionList.TransactionList.CancelRunningItem | src/pk-transaction-list.c:578-587 | one turn of the second loop: a running background item is asked to stop |
| TransactionList.TransactionList.AuthorizationFinishedCb | src/pk-transaction.c:2760-2821 | the answer of the authority in whatever state: a refusal finishes, a consent commits, a failed commit releases |
| TransactionList.TransactionList.ObtainAuthorization | src/pk-transaction.c:2941-2990 | moves the transaction to WAITING_FOR_AUTH if the order of states allows it |
| TransactionList.TransactionList.TransactionCommit | src/pk-transaction.c:2519-2570 | a client commit: hint, commit, and release of a transaction whose commit failed; the result says whether the commit was accepted |
| Daemon.EmptyIsOwned | src/pk-transaction.c:2238-2358 | the daemon starts without listener and with a fresh backend |
| Daemon.BackendHasOneOwner | src/pk-transaction.c:2238-2358 | over every run the shared backend has at most one listener, the running transaction whose idle callback has come, if and only if every step of the list is orderly: a finish from outside meets only unstarted transactions, and not while one runs and yet another waits |
| Daemon.ListStepOwnedExactly | src/pk-transaction-list.c:349-400 | the same for one step of the list |
| DaemonRuns.SecondListenerExactly | src/pk-transaction.c:2770-2804 | when a running transaction is finished from outside, as a refused authorization to cancel it does, it and the next both listen, if and only if the first had not just finished and the backend is not spoilt |
| DaemonRuns.TwoListenersReachable | src/pk-transaction.c:3237-3243 | a run from the empty daemon that ends with two listeners |
| Daemon.StartExactly | src/pk-transaction.c:2238-2358 | a started transaction gets a backend without a trace of the one before, if and only if the backend was not left in status RUNNING with an error or skip request; then it ends without having run |
| DaemonRuns.SpoiltStartReachable | src/pk-transaction.c:2290-2302 | a run from the empty daemon in which a transaction is finished without having had the backend |
| Daemon.SignalEndsOwner | src/pk-transaction.c:1073-1214 | whatever the backend is told, resets included, its finish signal finishes the running transaction and no other and starts a waiting one if there is any; without the signal the list does not change |
| Daemon.ErrorMovesOn | src/pk-backend.c:2096-2128 | after an error the two timers end the running transaction and start the next |
| HelperDaemon.DeathEndsOwner | src/pk-backend-spawn.c:594-624 | however the helper of the running transaction dies, with the grace timer the transaction has finished and a waiting one is started |
| Daemon.FinishReleases | src/pk-transaction-list.c:349-400 | after the finish of the owner nobody owns the backend until the next idle callback |
| BackendProofs.EveryEpoch | src/pk-backend.c:2498-2585 | in every state of every epoch: at most one finish signal, it says the exit in the field, error set and not finished implies the watchdog is pending, no package signal repeats the one before, results are the emitted packages without the finish marks |
| BackendProofs.PackageEffect | src/pk-backend.c:1257-1356 | an accepted package call emits the item, preceded by a finish mark exactly when another package was left active |
| BackendProofs.FinishedEffect | src/pk-backend.c:2498-2585 | an accepted finish sets the grace timer, clears the watchdog and leaves exit, error and emitted finishes alone |
| BackendProofs.ErrorEffect | src/pk-backend.c:2155-2221 | an accepted error latches, sets the watchdog and writes the exit only if none was written |
| BackendGuarantees.FinishIsHonest | src/pk-backend.c:2480-2492 | every finish signal is emitted by the grace timer and says the first exit asked for before it, or SUCCESS if none was |
| BackendGuarantees.SuccessDeliveredExactly | src/pk-backend.c:2480-2492 | an epoch emits one finish signal that says SUCCESS if and only if its grace timer fired while pending and before that nothing had asked for an exit, or the first to ask wrote SUCCESS by hand, before any error |
| BackendGuarantees.DeliveredExit | src/pk-backend.c:2349-2364 | the exits emitted in an epoch are exactly the one delivered by that timer |
| BackendGuarantees.SuccessExactly | src/pk-backend.c:2349-2364 | of a list of calls: the first exit asked for, or SUCCESS for want of one, is SUCCESS if and only if nothing asked or SUCCESS was written by hand first |
| BackendGuarantees.CancelIsHonoured | src/pk-transaction.c:3258-3268 | once CANCELLED is written first, the only finish signal of the epoch says CANCELLED |
| BackendGuarantees.ResetDelivers | src/pk-backend.c:3276-3303 | an accepted reset delivers a finish that still waited, with the honest exit, and nothing else |
| BackendGuarantees.RepairNeverReported | src/pk-backend.c:2199-2201 | REPAIR_REQUIRED after an error if and only if it was the exit before: the write for an unfinished transaction is always refused |
| BackendGuarantees.ErrorIsFinished | src/pk-backend.c:2096-2128 | once an error is set, the watchdog and after it the grace timer bring the one finish, whatever is called before, between and after |
| BackendGuarantees.TwoTimersFinish | src/pk-backend.c:2182-2187 | the error starts the watchdog itself; two timer firings deliver an exit that is no success unless one was written before |
| BackendGuarantees.NotImplementedFinishesAgain | src/pk-backend.c:2623-2636 | the shortcut for missing methods emits a finish even after one was delivered, and the grace timer it forgets emits one more |
| BackendGuarantees.ErrorSilence | src/pk-backend.c:2176-2182 | from an error to the next role or reset the trace holds only backend-error messages, allow-cancel FALSE at most once, finished status at most once with at most one synthetic RUNNING directly before, and finish signals |
| BackendStreams.AlwaysOrderly | src/pk-backend.c:1191-1217 | without simultaneous mode, in every epoch no package is begun directly after another one that was left active |
| BackendRules.FinishMarkExactly | src/pk-backend.c:1141-1217 | what a package call adds to the stream: the item as the role shows it, preceded by a finish mark if and only if another package is in one of the eight active infos; nothing for a repetition |
| BackendRules.PackageStatusExactly | src/pk-backend.c:1321-1338 | the status after a package call, info by info; unchanged in simultaneous mode |
| BackendRules.ValidIdExactly | lib/packagekit-glib2/pk-package-id.c:45-105 | an id is valid if and only if it has three semicolons and a name |
| BackendRules.MeaningfulExactly | src/pk-backend.c:1343-1345 | the results hold every package as often as it was reported, and no finish mark |
| BackendRules.ErrorExitExactly | src/pk-backend.c:2134-2201 | the exit for every error code: five need trust, one gave way to another transaction, all others failed |
| BackendRules.NotImplementedExactly | src/pk-backend.c:2623-2636 | a missing method gives the error NOT_SUPPORTED and a finish that failed, at once |
| BackendRules.StatusTakenExactly | src/pk-backend.c:1097-1135 | a status is taken if and only if it is there already, or is not WAIT and after an error FINISHED |
| BackendRules.AllowCancelTakenExactly | src/pk-backend.c:2236-2258 | the flag is taken if and only if it is FALSE, or no error came first, or it is TRUE already |
| BackendRules.PercentageTakenExactly | src/pk-backend.c:938-966 | a percentage is taken if and only if it is there already, or no error came first, it is at most 101, and it does not fall short of 100 |
| BackendRules.PercentageRecordedExactly | src/pk-backend.c:968-984 | every percentage taken, but the unknown one, is recorded with its time unless a higher one was, and the remaining time is that of the samples |
| BackendRules.SpeedTakenExactly | src/pk-backend.c:993-1014 | a speed is taken if and only if no error came first or it is there already |
| BackendRules.SubPercentageTakenExactly | src/pk-backend.c:1062-1091 | the same for a percentage of a part, up to 101 |
| BackendRules.ReportsPassedExactly | src/pk-backend.c:1033-1056 | item progress, messages and file lists are passed on or dropped, by error, value and kind; a file list that was passed on joins to the text it came from |
| BackendRules.DataPassedExactly | src/pk-backend.c:1721-1764 | results of other kinds are passed on until an error |
| BackendRules.ChangesToldExactly | src/pk-backend.c:1097-1135 | a change of speed, part or status is announced and nothing else is; a module that sets WAIT is reported |
| BackendRules.SummaryKeptExactly | src/pk-backend.c:1230-1251 | a summary is cleaned character by character and a missing one stays missing |
| BackendRules.RoleTakenExactly | src/pk-backend.c:2305-2341 | a role is taken if and only if the backend has none or this one |
| BackendRules.ResetForgets | src/pk-backend.c:3266-3325 | after an accepted reset nothing of the epoch before is left |
| BackendComplaints.FinishComplainsExactly | src/pk-backend.c:2530-2563 | an accepted finish complains about a change without packages, a download without files, and a transaction still in setup, and about nothing after an error |
| BackendComplaints.AlwaysCounted | src/pk-backend.c:1340 | in every reachable state the backend remembers rightly whether packages and how many file lists were passed on |
| BackendStreams.FinishCloses | src/pk-backend.c:2566-2567 | an accepted, error-free finish leaves no package active |
| BackendResults.ResultsAreTheItems | src/pk-backend.c:1291-1345 | whatever is called in an epoch, the results grow by exactly the packages asked for with valid ids before the first error, in order, without repeats and finish marks |
| BackendStreams.LineBreaksStayExactly | src/pk-backend.c:1230-1251 | cleaned text is free of newlines if and only if the text was; tabs and returns are gone; cleaning twice changes nothing more |
| BackendStreams.StoredPackageExactly | src/pk-transaction.c:793-822 | a package that went through the backend has a line that can be parsed back if and only if its id has no tab or newline and its summary no newline |
| BackendProgress.ProgressAlwaysSound | src/pk-backend.c:931-987 | over every run and every clock that does not go back: percentages rise, samples never go down and are at most 100, the reported remaining time is 0 or within its limits |
| BackendProgress.PercentagesIncrease | src/pk-backend.c:958-966 | accepted percentages strictly increase between values of 100 or more |
| BackendProgress.EstimatorNeverWraps | src/pk-time.c:129-138 | in every reachable state no unsigned subtraction of the estimator wraps |
| BackendAnnouncements.AlwaysAnnounced | src/pk-backend.c:1097-1135 | status and allow-cancel fields always equal what was announced last; nothing is announced twice but a wait; work never follows setup without running in between |
| BackendAnnouncements.FinishedAnnounced | src/pk-backend.c:2569-2573 | an accepted finish ends with the finished status and cancelling withdrawn |
| BackendObject.PkBackend.SetPercentage | src/pk-backend.c:931-987 | refuses duplicates, invalid and falling values, otherwise updates percentage, samples and remaining time; the whole new object is that of the function of the same name |
| BackendObject.PkBackend.SetSpeed | src/pk-backend.c:993-1014 | stores and announces a new speed unless an error is set; the whole new object is that of the function of the same name |
| BackendObject.PkBackend.SetItemProgress | src/pk-backend.c:1033-1056 | announces a valid item percentage unless an error is set; the whole new object is that of the function of the same name |
| BackendObject.PkBackend.SetSubPercentage | src/pk-backend.c:1062-1091 | stores and announces a new valid value unless an error is set; the whole new object is that of the function of the same name |
| BackendObject.PkBackend.SetStatus | src/pk-backend.c:1097-1135 | changes and announces the status, with a synthetic RUNNING when leaving SETUP; the whole new object is that of the function of the same name |
| BackendObject.PkBackend.EmulateFinished | src/pk-backend.c:1141-1185 | finishes the last package if it was left active; the whole new object is that of the function of the same name |
| BackendObject.PkBackend.EmulateFinishedForPackage | src/pk-backend.c:1191-1217 | the same, only when another id follows; the whole new object is that of the function of the same name |
| BackendObject.PkBackend.PackageCall | src/pk-backend.c:1257-1356 | the package call with its recursion; the whole new object is that of the function of the same name |
| BackendObject.PkBackend.Message | src/pk-backend.c:1484-1529 | announces a message that is neither deprecated nor refused after an error; the whole new object is that of the function of the same name |
| BackendObject.PkBackend.Files | src/pk-backend.c:1721-1764 | splits and announces a file list; the whole new object is that of the function of the same name |
| BackendObject.PkBackend.ErrorTimeoutDelayCb | src/pk-backend.c:2096-2128 | complains and finishes unless already finished; the whole new object is that of the function of the same name |
| BackendObject.PkBackend.ErrorCode | src/pk-backend.c:2155-2221 | latches the error and writes its exit; the whole new object is that of the function of the same name |
| BackendObject.PkBackend.SetAllowCancel | src/pk-backend.c:2236-2258 | announces a change of the flag; TRUE is refused after an error; the whole new object is that of the function of the same name |
| BackendObject.PkBackend.SetRoleInternal | src/pk-backend.c:2305-2324 | resets the timer and announces WAIT, ungated; the whole new object is that of the function of the same name |
| BackendObject.PkBackend.SetRole | src/pk-backend.c:2330-2341 | also remembers the role of the transaction; the whole new object is that of the function of the same name |
| BackendObject.PkBackend.SetExitCode | src/pk-backend.c:2349-2364 | writes the exit once; the whole new object is that of the function of the same name |
| BackendObject.PkBackend.FinishedDelay | src/pk-backend.c:2480-2492 | emits the finish signal, with SUCCESS if no exit was written; the whole new object is that of the function of the same name |
| BackendObject.PkBackend.Finished | src/pk-backend.c:2498-2585 | complaints, emulated finish, allow-cancel, status, grace timer; the whole new object is that of the function of the same name |
| BackendObject.PkBackend.NotImplementedYet | src/pk-backend.c:2623-2636 | error and immediate finish signal; the whole new object is that of the function of the same name |
| BackendObject.PkBackend.Reset | src/pk-backend.c:3266-3325 | refused while running; delivers a waiting finish, clears every field; the whole new object is that of the function of the same name |
| BackendObject.PkBackend.Perform | src/pk-backend.c:931-2585 | any call or timer: a run of the object is a run of the model |
| LineReader.ChunkIndependent | src/pk-spawn.c:99-149 | any sequence of polls emits the lines, and leaves the rest, of the whole stream read at once |
| LineReader.BytesConserved | src/pk-spawn.c:117-149 | the emitted lines with their newlines and the buffer are the bytes read, and the buffer holds no newline |
| LineReader.SameStreamSameLines | src/pk-spawn.c:189-200 | a NUL-free stream gives the same lines however it is cut into reads and polls |
| LineReader.LeftoverChangesLines | src/pk-spawn.c:189-200 | what one helper leaves in the buffer changes the lines of the next if and only if it is not empty and the next prints a whole line |
| LineReader.ReadFdIntoBuffer | src/pk-spawn.c:99-111 | appends every piece up to its NUL |
| LineReader.TakeWholeLines | src/pk-spawn.c:117-149 | takes all pieces but the last and erases exactly their bytes |
| HelperProofs.LeftoverReachesNext | src/pk-spawn.c:189-200 | the unfinished line of a helper that is gone is in the buffer of the next, whose first lines are not its own if and only if something was left and it prints a whole line |
| LineReader.LineBuffer.PollChild | src/pk-spawn.c:189-200 | reading and emitting in one poll |
| LineReader.CStringExactly | src/pk-spawn.c:106-108 | what follows a NUL in a read is lost |
| HelperLines.InfoReadBack | lib/packagekit-glib2/pk-enum.c:317-344 | every package info is read back from its name |
| HelperLines.PackageLine | src/pk-backend-spawn.c:190-207 | a package line with a known info and a valid id is a package call, any other is refused |
| HelperLines.FilesLine | src/pk-backend-spawn.c:240-246 | a files line passes on its list |
| HelperLines.PercentageLine | src/pk-backend-spawn.c:283-298 | a percentage line is taken between 0 and 100 and refused otherwise |
| HelperLines.SubPercentageLine | src/pk-backend-spawn.c:299-314 | the same for a part |
| HelperLines.ItemPercentageLine | src/pk-backend-spawn.c:315-337 | the same for an item with a valid id |
| HelperLines.NoPercentageLine | src/pk-backend-spawn.c:446-452 | the percentage becomes the unknown one |
| HelperLines.SpeedLine | src/pk-backend-spawn.c:416-430 | a speed is passed on, cut to 32 bits |
| HelperLines.StatusLine | src/pk-backend-spawn.c:403-415 | a known status is set, any other refused |
| HelperLines.MessageLine | src/pk-backend-spawn.c:379-395 | a known message is passed on, any other refused |
| HelperLines.AllowCancelLine | src/pk-backend-spawn.c:431-445 | true and false are taken, anything else refused |
| HelperLines.ErrorLine | src/pk-backend-spawn.c:338-360 | a known error is set, any other refused |
| HelperLines.ErrorLineStays | src/pk-backend-spawn.c:338-360 | after an error nothing that the helper prints, its finished line included, changes the exit: it is the one of the error and no success |
| HelperLines.FinishedLine | src/pk-backend-spawn.c:229-238 | the finished line finishes the backend |
| HelperLines.FinishedLineEndsTask | src/pk-backend-spawn.c:126-148 | and ends the task and starts the idle timer |
| HelperLines.OtherLines | src/pk-backend-spawn.c:577-588 | a command with the wrong number of sections and a line nobody knows are refused |
| HelperRules.ExitTypeExactly | src/pk-spawn.c:234-283 | the exit type of a helper that is gone, case by case |
| HelperRules.ExitToldExactly | src/pk-backend-spawn.c:594-624 | which error and finish an exit brings: PROCESS_KILL for a kill, INTERNAL_ERROR for a missing finished line, nothing for an exit that was asked for |
| HelperRules.KillExactly | src/pk-backend-spawn.c:1037-1048 | cancelling: the error at once, the first signal to a live helper, the timer of the second only where that is allowed |
| HelperRules.TaskGivenExactly | src/pk-spawn.c:538-560 | a helper of the same program takes the next task as it is; a new one starts with nothing read |
| HelperRules.GoneExactly | src/pk-spawn.c:224-268 | a helper that is gone is not polled or killed any more, and only the rest of its output stays |
| HelperRules.UntoldExactly | src/pk-spawn.c:563-588 | a helper that has to make way but cannot be told is left alone and not read again |
| HelperRules.BusyExactly | src/pk-spawn.c:536-542 | while a helper is told to exit its object takes no task: an internal error and a finish |
| HelperRules.PatienceExactly | src/pk-spawn.c:455-475 | a helper told to exit is polled 501 times; what counts as success when it goes early, with the last poll, or not at all |
| HelperProofs.DeathIsReported | src/pk-backend-spawn.c:594-624 | whatever a helper prints, however it dies and whatever else is called: once it is gone the backend has finished, and without its finished line the exit delivered is not SUCCESS; for a task whose helper has no exit type left over |
| HelperProofs.RunContained | src/pk-backend-spawn.c:594-624 | the invariant behind it, kept by polls, kills, timers and calls of others |
| HelperProofs.NoSecondFinish | src/pk-backend-spawn.c:612-623 | after the finished line neither more lines nor the exit finish a second time |
| HelperProofs.DeathExactly | src/pk-backend-spawn.c:594-624 | the poll that sees a helper gone has the backend finished if and only if it was before, or a finished line was among the last lines, or the exit counts as its own: not asked for, and by a signal or without an exit type left over |
| HelperProofs.TaskFreshExactly | src/pk-backend-spawn.c:992-1000 | a task for a reused helper, or a new one where none lives, meets the conditions of DeathIsReported if and only if the program can be started and no dispatcher exit type is left over |
| HelperProofs.ReplacementNotFresh | src/pk-spawn.c:575-588 | the task of a helper that replaced another which did exit never does |
| HelperProofs.SilentDeathExactly | src/pk-spawn.c:259-283 | a helper that dies without output finishes the backend if and only if a signal killed it or no dispatcher exit type is left over; otherwise the backend is not touched |
| HelperProofs.ShutdownHidesCrash | src/pk-spawn.c:279-287 | after the shutdown of an idle helper the next one of the same object dies unnoticed: not finished, no error, no timer pending |
| HelperProofs.LaunchFinishedExactly | src/pk-backend-spawn.c:992-1000 | starting a task finishes it at once if and only if the program cannot be started or the replaced helper still printed a finished line; a drained one never does |
| HelperProofs.ReplaceFinishes | src/pk-spawn.c:575-588 | the exit of a replaced helper finishes nothing, only its lines may |
| HelperObject.PkBackendSpawn.ParseStdout | src/pk-backend-spawn.c:154-588 | the commands for packages, files, progress, speed, status, messages, allow-cancel, errors and the end, each after counting its sections; other lines by a table |
| HelperObject.PkBackendSpawn.ParseResult | src/pk-backend-spawn.c:190-245 | the commands package and files |
| HelperObject.PkBackendSpawn.ParseProgress | src/pk-backend-spawn.c:283-337 | the percentages of the whole, of a part and of an item, and the speed |
| HelperObject.PkBackendSpawn.ParseNotice | src/pk-backend-spawn.c:383-462 | the commands message, status and allow-cancel |
| HelperObject.PkBackendSpawn.ParseEnd | src/pk-backend-spawn.c:229-360 | the commands finished and error |
| HelperObject.PkBackendSpawn.StdoutCb | src/pk-backend-spawn.c:649-662 | one line: its meaning, or a complaint when it cannot be parsed |
| HelperObject.PkBackendSpawn.HandleWholeLines | src/pk-spawn.c:117-149 | all whole lines in order, the rest stays in the buffer |
| HelperObject.PkBackendSpawn.ExitCallback | src/pk-backend-spawn.c:594-624 | error and finish for a helper that did not announce its own |
| HelperObject.PkBackendSpawn.CheckChild | src/pk-spawn.c:176-290 | one poll: output, then the exit type, then the exit callback |
| HelperObject.PkBackendSpawn.Exit | src/pk-spawn.c:439-479 | tells the process to exit and polls it at most 501 times |
| HelperObject.PkBackendSpawn.Argv | src/pk-spawn.c:521-655 | reuses, replaces or starts the process |
| HelperObject.PkBackendSpawn.RunHelper | src/pk-backend-spawn.c:936-1087 | a task for a helper; an error and a finish if it cannot be started |
| HelperObject.PkBackendSpawn.Kill | src/pk-backend-spawn.c:1037-1048 | error first, then the signal and the timer for the second signal |
| HelperObject.PkBackendSpawn.ExitTimeoutCb | src/pk-backend-spawn.c:107-121 | the idle shutdown after a finished line |
| HelperObject.PkBackendSpawn.StartKillTimer | src/pk-backend-spawn.c:126-148 | marks the task as finished and starts the idle timer |
| HelperObject.PkBackendSpawn.SigkillCallback | src/pk-spawn.c:296-322 | marks an unfinished process as killed |
| RemainingTime.RemainingBounds | src/pk-time.c:146-214 | a non-zero estimate is within its limits and between the floors for the largest and the smallest averaged gradient |
| RemainingTime.SteadyProgress | src/pk-time.c:190-213 | when all averaged gradients are equal the estimate is exact, and 0 if it lies outside the limits |
| Slopes.GradientsAreSlopes | src/pk-time.c:129-138 | the gradients are the slopes between neighbouring samples that count |
| Slopes.EstimateWithinSlopes | src/pk-time.c:146-214 | a non-zero estimate lies between what is left at the fastest and at the slowest pace between neighbouring samples |
| Slopes.SteadyPaceExactly | src/pk-time.c:165-213 | when the newest eleven steps, or all there are, rise by p percent in d milliseconds, the estimate is floor((100 - last) d / p / 1000), or 0 outside the limits |
| Slopes.TooFewSlopes | src/pk-time.c:184-188 | with too few slopes that count there is no estimate |
| Slopes.OnePercentASecond | src/pk-time.c:146-214 | six samples, one percent a second apart: 94 seconds |
| Slopes.RecordedExactly | src/pk-time.c:220-246 | a percentage is recorded with the time since the start if and only if it does not fall |
| Slopes.ResetExactly | src/pk-time.c:284-299 | no samples, and the default limits 4, 10, 5 and 3600 |
| Slopes.SoundIsPlain | src/pk-time.c:220-246 | samples of a clock that does not go back are fit for these theorems |
| RemainingTime.SamplesStaySound | src/pk-time.c:220-246 | adding data keeps the samples ordered, at most 100 and not in the future |
| RemainingTime.NoWrap | src/pk-time.c:129-138 | on such samples no unsigned subtraction wraps |
| Estimator.Time.SumGradients | src/pk-time.c:166-182 | the backward loop sums the newest averageMax + 1 admissible gradients |
| Estimator.Time.GetRemaining | src/pk-time.c:146-214 | the whole computation; no number if zero is divided by zero, which takes an averageMin of 0 and no admissible gradient |
| Estimator.Time.AddData | src/pk-time.c:220-246 | refuses falling percentages, appends otherwise |
| Estimator.Time.Reset | src/pk-time.c:284-299 | clears samples and limits |
| Packages.RoundTripExactly | client/pk-console.c:206-220 | printing a package list and parsing the text gives its fields back if and only if no id holds a tab or newline and no summary a newline; the empty list included |
| Packages.FileListRoundTrip | src/pk-transaction.c:654 | a file list split at each semicolon is joined again unchanged |
| PackageList.ListExample | src/pk-transaction.c:793-822 | the form of a stored list, on two packages |
| PackageList.PackageListToString | src/pk-transaction.c:793-822 | the printing loop gives the lines joined by newlines |
| PackageList.ParseTransactionData | client/pk-console.c:206-220 | the parsing loop gives up to three fields for every line |
| PackageList.PrintAndParse | src/pk-transaction.c:1156-1162 | the two loops undo each other exactly on plain packages; nothing is stored for an empty list |
| TransactionIds.IdsDistinct | src/pk-transaction-db.c:547-571 | for every interleaving of ids, idle writes and clean restarts, with fewer than 2^32 ids and every restart below 2^31, all ids differ, whatever the random parts |
| TransactionIds.IdExample | src/pk-transaction-db.c:568 | the form of an id, on one |
| TransactionIds.RunSound | src/pk-transaction-db.c:514-541 | without a pending write the stored counter is the live one, and every id carries its own number |
| TransactionIds.RestartKeepsExactly | src/pk-transaction-db.c:474-484 | a clean restart keeps the counter if and only if it is below 2^31; otherwise it begins again at 0 |
| TransactionIds.LateRestartRepeats | src/pk-transaction-db.c:547-571 | so past 2^31 the first id is repeated whenever the random parts agree |
| Numbers.CounterReadBack | src/pk-shared.c:189-231 | a counter printed as signed is read back if and only if it is below 2^31 |
| Numbers.StrLen | src/pk-shared.c:265-279 | the shorter of length and limit, if and only if the limit is positive or the text empty |
| TransactionIds.OpenedSound | src/pk-transaction-db.c:907-938 | a new or old database is a sound start for the theorems |
| TransactionIds.TransactionDb.constructor | src/pk-transaction-db.c:928-938 | reads the counter, zero if the row is no number |
| TransactionIds.TransactionDb.Upgrade | src/pk-transaction-db.c:907-927 | makes the table, with the counter of the older file if there is one |
| TransactionIds.TransactionDb.DeferWriteJobCount | src/pk-transaction-db.c:514-541 | writes the counter and allows the next write |
| TransactionIds.TransactionDb.GetRandomHexString | src/pk-transaction-db.c:490-508 | fills the string in place |
| TransactionIds.TransactionDb.GenerateId | src/pk-transaction-db.c:547-571 | counts, schedules one write and forms the id |
| TransactionIds.TransactionDb.Finalize | src/pk-transaction-db.c:1132-1149 | writes what is pending at shutdown |
| TransactionIds.Reopen | src/pk-transaction-db.c:919-938 | closing and opening is a restart, which keeps a counter below 2^31 |
| UpdateCache.ReplayIsTheLatestRun | src/pk-transaction.c:3951-4028 | over every run a request for updates is answered from the cache if and only if the last event that concerned it was a successful update list, and the answer is what that client saw without the finish marks |
| CacheRules.FinishExactly | src/pk-transaction.c:301-337 | the next answer from the cache after the end of a transaction: none after a success of one of the six roles, the new list after one of GetUpdates, the same as before otherwise |
| CacheRules.ToldExactly | src/pk-transaction.c:1130-1137 | a signature comes before a licence and that before a medium in what the client is told, and only then is an end a success |
| CacheRules.RequirementExactly | src/pk-transaction.c:1130-1137 | a requirement that was reported is what the client is told, and no success |
| CacheRules.PackageSeenExactly | src/pk-transaction.c:1283-1346 | which packages a client sees, by role, filter and info; a refused one becomes a message |
| CacheRules.MessageSeenExactly | src/pk-transaction.c:1237-1262 | which messages a client sees |
| CacheRules.ReportExactly | src/pk-engine.c:1515-1560 | after a report exactly one timer is pending, the urgent one unless every report was of a resumed system |
| UpdateCache.StepKeepsInv | src/pk-transaction.c:301-337 | every event keeps the agreement of cache and history, and at most one state timer pending |
| UpdateCache.StateChangeArrives | src/pk-engine.c:1515-1560 | after a state change, whatever happens while the network is down, exactly one timer stays pending, and the first time it fires with the network up nothing is left to replay |
| UpdateCache.ReplayFitsExactly | src/pk-transaction.c:3969 | the filter is no part of the key: what is replayed after a run with one filter is right for a request with another, whatever the backend reports, if and only if the filters are the same |
| UpdateCache.OtherFilterExactly | src/pk-transaction.c:1269-1346 | for one reported list: the filters keep the same packages if and only if they treat every one alike |
| UpdateCache.RunKeeps | src/pk-transaction.c:1269-1346 | a run keeps exactly the packages that pass the checks of role and filter |
| CacheObjects.Cache.GetResults | src/pk-cache.c:48-59 | only update lists are found |
| CacheObjects.Cache.SetResults | src/pk-cache.c:68-85 | replaces the slot for update lists, refuses others |
| CacheObjects.Cache.Invalidate | src/pk-cache.c:91-101 | empties the slot |
| CacheObjects.Transaction.PackageCb | src/pk-transaction.c:1269-1346 | checks, stores and forwards a package |
| CacheObjects.Transaction.MessageCb | src/pk-transaction.c:1220-1262 | stores and forwards a message unless it is for developers only |
| CacheObjects.Transaction.FinishInvalidateCaches | src/pk-transaction.c:301-337 | fills or empties the cache by role |
| CacheObjects.Transaction.FinishedCb | src/pk-transaction.c:1073-1214 | ends the transaction once, corrects the exit and touches the cache only on SUCCESS |
| CacheObjects.Transaction.RequestRefresh | src/pk-transaction.c:4384-4427 | empties the cache before authorization, if supported |
| CacheObjects.Transaction.TryEmitCache | src/pk-transaction.c:3951-4028 | replays the cached packages and messages in order, or nothing |
| CacheObjects.Engine.StateHasChanged | src/pk-engine.c:1515-1560 | schedules one of two timers |
| CacheObjects.Engine.StateChangedCb | src/pk-engine.c:315-342 | empties the cache and clears both timers, unless offline |

## Left out

- BackendObject.PkBackend.Message: does not model the text of messages nor the backend's own list of them, because no branch reads either.
- TransactionList.TransactionItem.SetState: does not model the status and progress signals on WAITING_FOR_AUTH and READY, because nothing in the daemon reacts to them.
- TransactionList.TransactionList.RunIdleCb: does not start the transaction itself; Daemon.Start does, where list and backend meet.
- TransactionList.TransactionList.ObtainAuthorization: only the change of state; the answer of the authority is AuthorizationFinishedCb.
- HelperObject.PkBackendSpawn.Argv: the comparison of the environments is part of the comparison of the programs, because both only decide whether a process is reused.
- CacheObjects.Transaction.FinishInvalidateCaches: leaves out the early return for a backend without a transaction id, because every start of a transaction sets one (src/pk-transaction.c:2253-2257).
- LineReader.LeftoverChangesLines: is about the text alone; LeftoverReachesNext is about the helper object.
- BackendProofs.EveryEpoch: does not cover NotImplementedYet, because that call bypasses the finished flag; NotImplementedFinishesAgain shows what it does.
- HelperProofs.DeathIsReported: does not cover helpers with an exit type left over, because the property is false of them; DeathExactly gives the exact condition.
- HelperObject.PkBackendSpawn.ParseStdout: the ten commands that only hand data on are given by a table of lines, because each repeats the same argument passing; output filters of a backend module are not modelled.
- TransactionIds.IdsDistinct: does not cover a crash between an id and its deferred write, because the original promises nothing there.
- BackendProgress.EstimatorNeverWraps: holds while the elapsed milliseconds fit 32 bits, because the original truncates them.
- PkBackend groups the fields for the end of a transaction and those for packages in two record fields, PkBackendSpawn those of the process in one; PkSpawn and PkBackendSpawn are one object, their signals calls.
- The error code inside the results, required restarts, signatures and licence agreements as data; only their effect on the exit is modelled.
- Backend threads and the stop function of a module; UTF-8 validation of summaries; a replayed package without a summary.
- The list of signals a transaction connects one by one (src/pk-transaction.c:1956-2232): a transaction listens to all of them or to none.
- D-Bus objects and signals, property getters, argument packing: plumbing around the steps.
- PolicyKit, ConsoleKit, syslog, SQL text, proxy and root storage: foreign calls; authorization is an event.
- The per-role dispatch of a started transaction and the wrappers of the backend functions: repetitive.
- Plugins, module loading, reference counting and memory.
- Network and file monitors, configuration parsing, the licence and pack tools, the rest of the console: input and output or getters and setters.
- Embedded NUL bytes in the theorem on equal streams, because the original reads C strings; ChunkIndependent covers them.
