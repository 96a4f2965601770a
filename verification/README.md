# Verification of the TankAI development orchestrator and core

This project models the parts of TankAI that must not go wrong when workers, operators, crashes and retries interleave,
and proves what they promise. Each stateful component is a class whose methods are proved against transition functions;
lemmas then prove properties of every run of those functions, and say what the functions decide in the fields of the data
alone, so that a claim, an overlap, a merge or a release means what its name says.

| file | component |
|---|---|
| `Fencing`, `JobQueue`, `QueueInvariants`, `RateLimit`, `LeaseProtocol` | job table and independent epoch table: mutual exclusion, permanence of death, capacity, history, rate limit, container reaper |
| `ClaimPriority`, `LeaseLifecycle`, `WorkerRun` | which job a claim takes, what the holder of a lease can do, in the fields of the rows, and the way of a job from claim to release |
| `Integration`, `IntegrationSafety`, `IntegrationView` | crash-recoverable integration of a worker branch, with every crash point and exception, and its link to the orchestrator |
| `RepoPaths`, `PathRefusals`, `GlobMeaning`, `ScopeOverlap`, `TaskGraph`, `AgentIds` | path normal forms and refusals, write scopes and globs, the overlap check told by components, topological order, generated ids |
| `ProjectTransitions`, `Orchestrator`, `OrchestratorSteps`, `ProjectInvariants`, `ProjectGuarantees`, `AgentForest` | the 22 transitions of ProjectState, the invariant of all runs, which every method keeps, and what follows from it |
| `OrchestratorRules` | the exact conditions, over the fields of the state, under which each transition is accepted |
| `ProjectTraces`, `RevivedTask`, `CompletedTwice`, `PresetRecords` | concrete runs that break what one would expect, with the exact conditions |
| `PublicationLedger`, `LedgerMeaning`, `ReleaseBackup`, `Formats` | hash-chained ledger and what its validation accepts, event by event; release archives, manifest and verification |
| `PathEdges`, `WritableRoots`, `MountComponents` | blanks at the ends of paths; writable mounts of a worker container, and how wide they are |
| `VectorStore`, `MemoryModel`, `MemoryRetention`, `RetentionByFields`, `LongTermMemory` | long-term memory with cold storage, vector index and retention, and which entries retention demotes |
| `TeamLoop` | one team run under the shared call budget |

Check everything with `dafny verify dfyconfig.toml`.

## How it is modelled

- A transaction of the queue, the fence or the state store is one atomic step; a method either commits what its
  transition function says or reports an error and changes nothing. Runs are sequences of such steps in any order.
- Time is an integer number of microseconds on a clock that does not step back (days, as reals, in the memory part).
  SHA-256 is an injective function, modelled by a constructor.
- Git's rebase, fast-forward and reset act on abstract commits; a crash can follow any durable write, an exception can
  be raised at any of them, and the rollback in the exception handler can fail.
- Answers of models, scores of critics, contents of files, existence of paths and failures of writes are arbitrary inputs.
- What a bracket class of a glob accepts is an arbitrary relation; `*`, `?` and unclosed brackets are modelled exactly.

## Where the code does not do what one would expect

Each of these is a lemma with the exact condition, or with an input that shows it.

- An exception inside `fast_forward_repository` after MAIN moved, or after `finalize_worker_integration` committed, makes
  the handler drop the journal while MAIN and ProjectState disagree (`InSyncUnlessHarmful`, `HarmfulExample`).
- A crash between the handler's removal of the journal and its last transaction leaves a run integrating for ever, and
  recovery also refuses after crashes inside the handler, not only on the straight path; at every crash point it is
  stated which of these happens (`RecoveryAfterAnyCrash`, `RefusesExactlyWhenContradicted`).
- `fail_worker_run` accepts a stale run of a cancelled or integrated task; with `reopen_task` the task comes back to life
  without its locks, or an integrated task is completed twice (`FailRunKeepsOrderlyIffGuarded`, `RevivedTaskSharesAPath`,
  `IntegratedTwice`).
- A scope whose first wildcard is inside a component is reported as disjoint from paths it accepts
  (`SoundForPathsIffAligned`).
- `create_task` copies a preset reviewer or QA agent. If that name was not registered in a fitting role before, the author
  may take it and approve its own work (`AuthorReviewsOwnWork`, `NamedReviewerServesIffRegistered`,
  `NamedQaPassesGatesIffRegistered`).
- Waiting exactly the returned `retry_after` is refused when the deadline is a whole second (`RetryAfterIsTight`).
- A root that ends in a blank is mounted without it, away from the files its scope accepts
  (`RootCoversPathIffEndsKept`, `PlainRootSurvives`, `BlankAtTheEdgeLosesTheRoot`).
- A file name with a rarer line end such as U+2028, a nested file named like an internal document, or a version with two
  dots in a row gives an archive that creation writes and verification refuses (`CreatedIsAcceptedIff`).
- Single-step mode asks for a budget of at least five calls, but with long-term memory a release takes six (`TeamLoop.Run`).
- The publication chain does not bind its targets (`TargetsAreNotBound`).

## Model

| member | source | states |
|---|---|---|
| Fencing.LeaseFenceStore.AcquireFence | tankai/dev_orchestrator/fencing.py:149-226 | succeeds exactly on a non-empty token and a scope nobody occupies; the epoch is the previous one plus one, and row and log change as the transaction says |
| Fencing.LeaseFenceStore.AssertActive | tankai/dev_orchestrator/fencing.py:228-242 | accepts exactly the job, epoch and token in the row, before its expiry |
| Fencing.LeaseFenceStore.RenewFence | tankai/dev_orchestrator/fencing.py:244-288 | only an accepted holder moves its expiry |
| Fencing.LeaseFenceStore.ReleaseFence | tankai/dev_orchestrator/fencing.py:290-330 | only an accepted holder empties the row; the epoch stays |
| Fencing.LeaseFenceStore.Current | tankai/dev_orchestrator/fencing.py:332-354 | reports the row and whether it is active, without changing it |
| Fencing.LeaseFenceStore.ForceExpireForRecovery | tankai/dev_orchestrator/fencing.py:356-390 | expires the row exactly when its epoch is the expected one |
| Fencing.DeadMeansNobodyPasses | tankai/dev_orchestrator/fencing.py:332-354 | for an issued epoch, what `current` shows as dead is the same as every token being refused |
| Fencing.DeadStaysDead | tankai/dev_orchestrator/fencing.py:149-413 | an issued (job, epoch) that no token passes is passed by no token after any later transactions by anybody, at any later time |
| Fencing.EndingALeaseKillsIt | tankai/dev_orchestrator/fencing.py:149-390 | release, forced expiry and takeover each leave the ended epoch dead |
| Fencing.TakeoverOnlyAfterDeath | tankai/dev_orchestrator/fencing.py:176-199 | an acquire succeeds only when every earlier epoch is refused, and gets a larger one |
| Fencing.OneHolderPerScope | tankai/dev_orchestrator/fencing.py:392-413 | at one instant at most one (job, epoch, token) passes for a scope |
| Fencing.AcceptedEpochsNeverGoBack | tankai/dev_orchestrator/fencing.py:149-413 | what passes later has a larger epoch or is the same job and token |
| Fencing.EveryAcquireGetsTheNextEpoch | tankai/dev_orchestrator/fencing.py:149-226 | on every run the log shows the epochs 1, 2, 3, ... of each scope, up to the one in the row |
| JobQueue.DevelopmentJobQueue.EnqueueWithOutcome | tankai/dev_orchestrator/job_queue.py:1234-1369 | admission with replay of the idempotency key, queue and hourly limits; the new table and log, or the error with its retry time |
| JobQueue.DevelopmentJobQueue.CancelJobWithOutcome | tankai/dev_orchestrator/job_queue.py:1554-1599 | cancels a queued job, replays a cancelled one, refuses any other and hides jobs from strangers |
| JobQueue.DevelopmentJobQueue.RecoverExpiredLeases | tankai/dev_orchestrator/job_queue.py:1935-1984 | row by row: requeues or fails a job whose lease ran out and whose fence no longer holds, and takes over the fence's expiry when it does |
| JobQueue.DevelopmentJobQueue.ClaimNext | tankai/dev_orchestrator/job_queue.py:1601-1750 | recovery, the scan and the lease on both stores, including a queue commit that fails after the fence was acquired; which row is taken is `ClaimTakesTheFirstAvailable`, what its holder gets is `ClaimGrantsBothLeases` |
| JobQueue.DevelopmentJobQueue.StartJob | tankai/dev_orchestrator/job_queue.py:1752-1769 | only the holder of both leases starts a leased job |
| JobQueue.DevelopmentJobQueue.AssertLeaseActive | tankai/dev_orchestrator/job_queue.py:1771-1779 | the row of a job exactly when its token passes row and fence |
| JobQueue.DevelopmentJobQueue.Heartbeat | tankai/dev_orchestrator/job_queue.py:1781-1802 | renews the fence, which commits first, and then the row; a queue commit that fails leaves only the fence renewed, and a refused heartbeat changes nothing |
| JobQueue.DevelopmentJobQueue.ReleaseTerminalFence | tankai/dev_orchestrator/job_queue.py:1909-1933 | a failed fence release leaves a note in the log and nothing else |
| JobQueue.DevelopmentJobQueue.CompleteJob | tankai/dev_orchestrator/job_queue.py:1804-1830 | only the holder of a running job completes it; the fence is released afterwards |
| JobQueue.DevelopmentJobQueue.FailJob | tankai/dev_orchestrator/job_queue.py:1832-1872 | requeues while attempts are left and the failure is retryable, otherwise fails |
| JobQueue.DevelopmentJobQueue.JobStateHistory | tankai/dev_orchestrator/job_queue.py:1469-1536 | a limited history is exactly the suffix of the full one, read backwards from the log; the limit must be 1 to 100 |
| QueueInvariants.HistoryAgreesWithRow | tankai/dev_orchestrator/job_queue.py:1489-1536 | on every run a job's history ends in its state, follows legal transitions, never leaves a final state, and counts its attempts |
| QueueInvariants.CapacityOnEveryRun | tankai/dev_orchestrator/job_queue.py:1667-1723 | on every run at most `max_running` leased or running rows per workspace, and queued and active ones within `max_queued + max_running` although requeues skip the queue limit |
| QueueInvariants.OneActiveJobPerRepository | tankai/dev_orchestrator/job_queue.py:1667-1723 | on every run two active jobs are on different repositories |
| QueueInvariants.ClaimTakesTheFirstClaimable | tankai/dev_orchestrator/job_queue.py:1615-1723 | every candidate before the chosen one in the claim order failed its integrity check or cannot be claimed |
| ClaimPriority.ClaimTakesTheFirstAvailable | tankai/dev_orchestrator/job_queue.py:1601-1723 | over the recovered rows: the chosen row is queued, out of backoff, in an enabled workspace and a registered repository, among the first 200 such rows by priority, age and id, not corrupt and not blocked by capacity, a worker on its repository or an unexpired fence; every such row ahead of it is corrupt or blocked, nothing is chosen exactly when all are, and just the corrupt rows passed over fail |
| ClaimPriority.CandidateOrder | tankai/dev_orchestrator/job_queue.py:1615-1640 | the rows that are tried are the first 200 that are due, each ahead of the next |
| ClaimPriority.RecoveryRowByRow | tankai/dev_orchestrator/job_queue.py:1935-1984 | recovery in the fields of each row: a lease that ran out is extended to the fence's expiry, requeued at once or failed; every other row stays |
| LeaseLifecycle.ClaimGrantsBothLeases | tankai/dev_orchestrator/job_queue.py:1667-1750 | a claim leaves row and fence with the same token, the next epoch and one expiry, and one more attempt counted |
| LeaseLifecycle.PassesIffHoldsBoth | tankai/dev_orchestrator/job_queue.py:1874-1907 | a worker is let through exactly when row and fence both name its token at the same epoch and neither has expired |
| LeaseLifecycle.HolderCanFinish | tankai/dev_orchestrator/job_queue.py:1752-1830 | a leased job is started and completed by its holder before the expiry, and after the release the fence grants the repository to any next claim |
| LeaseLifecycle.HeartbeatEffect | tankai/dev_orchestrator/job_queue.py:1781-1802 | only for the holder, both expiries move to the same instant, within the bounds of a lease |
| LeaseLifecycle.FailEffect | tankai/dev_orchestrator/job_queue.py:1832-1872 | a job failed by its holder is queued again after the delay, kept between nothing and a day, while attempts are left and a retry makes sense, and failed otherwise; nobody else changes anything |
| LeaseLifecycle.NoJobIsLost | tankai/dev_orchestrator/job_queue.py:1234-1984 | on every run each row keeps its place, id, owner, workspace, repository, key, payload, priority and age, and every new row is for a repository of its own workspace |
| LeaseLifecycle.NewJobIsAcceptedIff | tankai/dev_orchestrator/job_queue.py:1234-1369 | a new key is accepted if and only if the request is admissible and fewer jobs than the limits are queued in the workspace and created by the user in the last hour |
| LeaseLifecycle.SameKeyIsReplayed | tankai/dev_orchestrator/job_queue.py:1261-1278 | a known key gives its job back unless something else is asked for, whatever the limits, and nothing is stored |
| QueueInvariants.CommitAllKeepsInv | tankai/dev_orchestrator/job_queue.py:1234-1984 | rows, log, idempotency keys and capacity agree after every sequence of transactions of users, workers and recovery, whatever the fence answers |
| RateLimit.HourlyLimitOnEveryRun | tankai/dev_orchestrator/job_queue.py:1287-1319 | in every closed hour a user's accepted jobs stay within the limit, in whatever order timestamps were taken |
| RateLimit.WaitClearsIffPastDeadline | tankai/dev_orchestrator/job_queue.py:1295-1313 | the rate check passes after a wait if and only if the wait is strictly longer than the deadline of the limit-th newest job |
| RateLimit.RetryAfterIsTight | tankai/dev_orchestrator/job_queue.py:1300-1313 | any longer wait than the returned seconds clears, no shorter whole-second wait does, and the returned wait itself clears unless the deadline is a positive whole second |
| LeaseProtocol.OneWorkerPerRepository | tankai/dev_orchestrator/job_queue.py:1874-1907 | at one instant at most one (job, token, epoch) per repository passes, for any two job tables whatever |
| LeaseProtocol.StaleWorkerIsLockedOut | tankai/dev_orchestrator/job_queue.py:1874-1907 | once a later epoch was issued, an earlier worker never passes again, even if the job table is replaced by any other |
| LeaseProtocol.ExecKeepsWorldInv | tankai/dev_orchestrator/job_queue.py:1601-1984 | every lease in the job table is backed by the fence on every interleaving, crashes between the two commits of a claim or a heartbeat included |
| WorkerRun.AClaimedJobCanBeDone | tankai/dev_orchestrator/job_queue.py:1601-1933 | whenever a claim finds a row, its worker can start the job, keep it alive by a heartbeat before the lease ends, complete it before the renewed lease ends and release the fence; the job has then succeeded, no other row has changed, and the repository is free for any next claim |
| WorkerRun.CrashedClaim | tankai/dev_orchestrator/job_queue.py:1689-1750 | after a crash between the two commits of a claim the queue is as it was, and the fence keeps the repository taken until the lease would have ended |
| LeaseProtocol.RecoveredJobsHaveNoLiveWorker | tankai/dev_orchestrator/job_queue.py:1935-1984 | recovery takes a lease away only when no token can pass for it any more, then or ever after |
| LeaseProtocol.ReapContainers | tankai/dev_orchestrator/job_queue.py:908-1058 | one decision per container from rows and fence as read once |
| LeaseProtocol.ReaperSparesEveryLiveWorker | tankai/dev_orchestrator/job_queue.py:943-1042 | a container that is removed on an old reading of rows and fence belongs to a worker that can never pass again |
| LeaseProtocol.ReaperRemovesIff | tankai/dev_orchestrator/job_queue.py:943-1042 | outside a dry run, which only announces, a container is up for removal exactly when it is fully labelled and old enough, its job has ended, or the caller names just this job and epoch as stale and row or lease is gone, and the fence does not hold it for its epoch |
| Integration.StraightStep | tankai/dev_orchestrator/integration.py:174-265 | the closed form of an attempt after k writes is the k-th write applied to the form before it |
| Integration.WorkerIntegrationRunner.Run | tankai/dev_orchestrator/integration.py:130-328 | recovery, then the checks, then the attempt; it succeeds exactly when no write raises, the post-merge tests pass, task and run name the same commit and base, and the commit to merge is new; then MAIN, branch head and stable commit are that commit, run and task are integrated and no journal is left; otherwise, if the rollback works and finalize was not reached, MAIN is back, the stable commit unmoved and the run blocked |
| Integration.WorkerIntegrationRunner.Integrate | tankai/dev_orchestrator/integration.py:161-328 | the same for the attempt itself, and the durable states it passes through, in order |
| Integration.AttemptOutcome | tankai/dev_orchestrator/integration.py:161-328 | the end of an attempt in fields: merged, or backed out, and which of the two exactly when |
| Integration.WorkerIntegrationRunner.RecoverInterruptedIntegration | tankai/dev_orchestrator/integration.py:335-421 | recovery does its writes in order, or refuses and writes nothing |
| Integration.WorkerIntegrationRunner.HandleException | tankai/dev_orchestrator/integration.py:266-328 | the handler's rollback, journal removal and blocking of the run |
| IntegrationSafety.CrashOnStraightPath | tankai/dev_orchestrator/integration.py:335-421 | after a crash at any write recovery refuses exactly between the fast-forward and the journal entry for it; otherwise journal, MAIN, state, run and branch agree |
| IntegrationSafety.RefusesExactlyWhenContradicted | tankai/dev_orchestrator/integration.py:266-328 | the refusing crash points of the whole attempt, handler included: the journal contradicts MAIN |
| IntegrationSafety.InSyncUnlessHarmful | tankai/dev_orchestrator/integration.py:266-288 | an attempt that ends by itself leaves MAIN and state in agreement or a journal, if and only if no exception strikes inside the fast-forward or after finalize |
| IntegrationSafety.InSyncAtEveryPoint | tankai/dev_orchestrator/integration.py:266-288 | the same if-and-only-if at every crash point |
| IntegrationSafety.HarmfulExample | tankai/dev_orchestrator/integration.py:260-288 | a concrete attempt that ends with MAIN behind an integrated ProjectState and no journal |
| IntegrationSafety.RebasedExample | tankai/dev_orchestrator/integration.py:174-257 | a concrete attempt on an outdated base that is rebased, tested and merged |
| IntegrationSafety.RecoveryAfterAnyCrash | tankai/dev_orchestrator/integration.py:161-421 | for every crash point, handler included: recovery refuses exactly when the journal contradicts MAIN; otherwise the journal is gone, the branch is at the recorded implementation, the run is ready, integrated, blocked or, after one exact crash point, stranded, and MAIN is the stable commit exactly when the handler has not dropped the journal of a harmful attempt |
| IntegrationSafety.RecoveryIsRestartable | tankai/dev_orchestrator/integration.py:361-421 | recovery cut off anywhere either finishes the same or refuses, exactly after it moved MAIN back under a merged journal |
| IntegrationSafety.NoJournalMeansInSync | tankai/dev_orchestrator/integration.py:130-421 | over all sequences of attempts, crashes and recoveries without a harmful exception an absent journal means MAIN is the stable commit |
| IntegrationSafety.AdvancesOnlyToTestedCommits | tankai/dev_orchestrator/orchestrator.py:819-890 | the stable commit only moves to the implementation commit of a ready run whose post-merge tests passed |
| IntegrationSafety.TraceIsTheCrashPoints | tankai/dev_orchestrator/integration.py:161-328 | the runner's trace is the sequence of crash points of these lemmas |
| IntegrationView.BeginRefines | tankai/dev_orchestrator/orchestrator.py:710-755 | the reservation of a run is the integration model's, and is refused exactly when task and run name different commits |
| IntegrationView.RebaseRefines | tankai/dev_orchestrator/orchestrator.py:757-817 | the recorded rebase is the integration model's, and is refused exactly when task and run have different bases |
| IntegrationView.FinalizeRefines | tankai/dev_orchestrator/orchestrator.py:819-890 | the final transaction is the integration model's, and needs passed tests and a new commit |
| IntegrationView.FailRefines | tankai/dev_orchestrator/orchestrator.py:630-677 | what the handler records is the integration model's blocked run |
| IntegrationView.ResetRefines | tankai/dev_orchestrator/orchestrator.py:892-924 | what recovery records is the integration model's, and is refused exactly when the task is no longer ready |
| RepoPaths.NormalizeTidy | tankai/dev_orchestrator/orchestrator.py:54-68 | a normal form has single slashes, none at an edge, and only good components |
| RepoPaths.EveryNormalFormIsReached | tankai/dev_orchestrator/orchestrator.py:54-68 | every list of good components, blanks included, is the normal form of some path |
| PathRefusals.UnsafeIffItGoesUp | tankai/dev_orchestrator/orchestrator.py:54-68 | a path without control characters is refused as unsafe if and only if, once stripped, two dots stand alone between separators of either kind or ends |
| PathRefusals.RefusedForControl | tankai/dev_orchestrator/orchestrator.py:57-58 | a path is refused for a control character if and only if it has one below 32 or 127 |
| PathRefusals.StripTakesBlanks | tankai/dev_orchestrator/orchestrator.py:59 | stripping takes blanks off both ends, all of them and nothing else |
| GlobMeaning.GlobConcat | tankai/dev_orchestrator/orchestrator.py:84-90 | a glob without brackets followed by any other accepts exactly the paths of which some beginning matches the first and the rest the second |
| GlobMeaning.SinglePieces | tankai/dev_orchestrator/orchestrator.py:84-90 | a star accepts everything, slashes included, a question mark exactly one character, and any other character but an opening bracket itself |
| GlobMeaning.ClassTakesOne | tankai/dev_orchestrator/orchestrator.py:84-90 | a class ends at the first closing bracket that is not its first member, and takes one character that its rule accepts |
| GlobMeaning.UnclosedIsPlain | tankai/dev_orchestrator/orchestrator.py:84-90 | an opening bracket that is never closed is a plain character |
| RepoPaths.OverlapCheckIsSound | tankai/dev_orchestrator/orchestrator.py:71-110 | two aligned scopes that accept a common path are reported as overlapping |
| RepoPaths.OverlapIsSymmetric | tankai/dev_orchestrator/orchestrator.py:93-110 | the overlap check does not depend on the order of its arguments |
| RepoPaths.UnalignedScopeMissesAPath | tankai/dev_orchestrator/orchestrator.py:71-81 | a scope whose first wildcard is inside a component accepts a path that it is reported disjoint from |
| RepoPaths.SoundForPathsIffAligned | tankai/dev_orchestrator/orchestrator.py:71-110 | for scopes without brackets the check is right about every exact path if and only if the scope is aligned |
| ScopeOverlap.OverlapByComponents | tankai/dev_orchestrator/orchestrator.py:71-110 | an overlap of two scopes is reported if and only if their components say so: equal paths, a path in a tree, a tree in a tree, and for other patterns one wildcard-free prefix directory empty, equal to or containing the other |
| ScopeOverlap.SimpleOverlapIffCommonPath | tankai/dev_orchestrator/orchestrator.py:71-110 | between paths without wildcards and trees over such directories an overlap is reported if and only if both accept some path |
| ScopeOverlap.SimpleAccepts | tankai/dev_orchestrator/orchestrator.py:84-90 | such a scope accepts just its path, or just what lies in its tree |
| TaskGraph.TaskGraphOrder | tankai/dev_orchestrator/orchestrator.py:113-137 | returns every task once with its dependencies before it exactly when all dependencies exist and there is no cycle, and says which of the two failed |
| TaskGraph.ReverseEdges | tankai/dev_orchestrator/orchestrator.py:114-123 | turns the edges round, or finds an unknown dependency |
| TaskGraph.Relax | tankai/dev_orchestrator/orchestrator.py:128-134 | after a round the counters are the open dependencies and the queue holds just the tasks that lost their last one |
| TaskGraph.OrderedIsAcyclic | tankai/dev_orchestrator/orchestrator.py:113-137 | a complete dependencies-first order leaves no cycle |
| TaskGraph.StuckHasCycle | tankai/dev_orchestrator/orchestrator.py:135-137 | tasks that all depend on each other contain a cycle |
| TaskGraph.NewTaskKeepsAcyclic | tankai/dev_orchestrator/orchestrator.py:284-288 | a task whose dependencies already exist closes no cycle |
| Orchestrator.DevelopmentOrchestrator.BeginCycle | tankai/dev_orchestrator/orchestrator.py:240-267 | a new cycle with an empty register, only when every agent is terminal |
| Orchestrator.DevelopmentOrchestrator.CreateTask | tankai/dev_orchestrator/orchestrator.py:269-296 | adds the task with normal scopes, or the first error; a state with a cyclic graph is never saved |
| Orchestrator.DevelopmentOrchestrator.StartAgent | tankai/dev_orchestrator/orchestrator.py:298-354 | assigns an unassigned task whose dependencies are integrated, within all limits and free of scope collisions, and takes its locks; a generated id is new |
| Orchestrator.DevelopmentOrchestrator.ModulesSaturated | tankai/dev_orchestrator/orchestrator.py:1406-1428 | whether some module has reached its number of active agents |
| Orchestrator.DevelopmentOrchestrator.ApproveSpawn | tankai/dev_orchestrator/orchestrator.py:356-443 | creates child task, agent and locks under an active parent within depth, children, capacity and scope limits; the generated id is new |
| Orchestrator.DevelopmentOrchestrator.BeginWorkerRun | tankai/dev_orchestrator/orchestrator.py:504-544 | records a run for the active agent of an active task on the common base |
| Orchestrator.DevelopmentOrchestrator.UpdateWorkerRun | tankai/dev_orchestrator/orchestrator.py:546-628 | updates a run that has not ended, with normal file names and a non-blank commit |
| Orchestrator.DevelopmentOrchestrator.FailWorkerRun | tankai/dev_orchestrator/orchestrator.py:630-677 | marks run, task and agent, whatever state the task is in; only an integrated run is refused |
| Orchestrator.DevelopmentOrchestrator.CompleteWorkerRun | tankai/dev_orchestrator/orchestrator.py:679-708 | releases a run whose task passed its gates and names the same commit |
| Orchestrator.DevelopmentOrchestrator.BeginWorkerIntegration | tankai/dev_orchestrator/orchestrator.py:710-755 | reserves a ready run on the expected stable commit |
| Orchestrator.DevelopmentOrchestrator.RecordWorkerRebase | tankai/dev_orchestrator/orchestrator.py:757-817 | moves run, task and agent to the new base when the file set is unchanged |
| Orchestrator.DevelopmentOrchestrator.FinalizeWorkerIntegration | tankai/dev_orchestrator/orchestrator.py:819-890 | advances the stable commit, completes task and run and releases the locks of the task |
| Orchestrator.DevelopmentOrchestrator.ResetWorkerIntegration | tankai/dev_orchestrator/orchestrator.py:892-924 | makes an interrupted run ready again |
| Orchestrator.DevelopmentOrchestrator.SubmitTaskCompletion | tankai/dev_orchestrator/orchestrator.py:926-990 | accepts work on allowed and not denied files with all required tests passed |
| Orchestrator.DevelopmentOrchestrator.AssignReviewer | tankai/dev_orchestrator/orchestrator.py:992-1008 | an active review agent other than the author |
| Orchestrator.DevelopmentOrchestrator.RecordReview | tankai/dev_orchestrator/orchestrator.py:1010-1046 | moves the task to QA, or blocks it and rejects the agent |
| Orchestrator.DevelopmentOrchestrator.AssignQa | tankai/dev_orchestrator/orchestrator.py:1048-1064 | an active QA agent other than the author |
| Orchestrator.DevelopmentOrchestrator.RecordQa | tankai/dev_orchestrator/orchestrator.py:1066-1098 | passes on a non-empty all-passed list, otherwise blocks |
| Orchestrator.DevelopmentOrchestrator.RecordSecurityReview | tankai/dev_orchestrator/orchestrator.py:1100-1136 | an active security agent other than the author approves or blocks |
| Orchestrator.DevelopmentOrchestrator.ReopenTask | tankai/dev_orchestrator/orchestrator.py:1138-1200 | an empty record and an active agent for a blocked task |
| Orchestrator.DevelopmentOrchestrator.CancelTask | tankai/dev_orchestrator/orchestrator.py:1202-1228 | ends any task that is not integrated and releases its locks |
| Orchestrator.DevelopmentOrchestrator.RebaseTask | tankai/dev_orchestrator/orchestrator.py:1230-1259 | moves a task without commit to the stable commit |
| Orchestrator.DevelopmentOrchestrator.IntegrateTask | tankai/dev_orchestrator/orchestrator.py:1261-1300 | advances the stable commit for a ready task without worker run |
| Orchestrator.NormalizeAll | tankai/dev_orchestrator/orchestrator.py:1467-1474 | the normal scopes without repetition, or the first error |
| Orchestrator.AssertScopesAvailable | tankai/dev_orchestrator/orchestrator.py:1451-1458 | the first collision of a new scope with a held lock |
| Orchestrator.MatchesAny | tankai/dev_orchestrator/orchestrator.py:944-947 | whether any scope accepts the path, or the first error before that |
| Orchestrator.CheckGraph | tankai/dev_orchestrator/orchestrator.py:287-288 | whether the task graph can be sorted |
| AgentIds.NextAgentId | tankai/dev_orchestrator/orchestrator.py:1489-1499 | the id with the next number after the largest in use, and no agent has it |
| AgentIds.ParsePrint2 | tankai/dev_orchestrator/orchestrator.py:1492-1499 | reading a zero-padded number gives it back |
| OrchestratorRules.CycleBegins | tankai/dev_orchestrator/orchestrator.py:240-267 | a cycle begins if and only if every agent has ended |
| OrchestratorRules.TaskIsCreated | tankai/dev_orchestrator/orchestrator.py:269-296 | a task is created if and only if its id is new, it is on the stable commit, its scopes can be normalized, it has a criterion and its dependencies exist |
| OrchestratorRules.AgentStarts | tankai/dev_orchestrator/orchestrator.py:298-354 | an agent starts if and only if the task is unassigned, its dependencies are integrated, project, cycle and every module have room, the id is new, and none of its scopes overlaps a locked one, component by component |
| OrchestratorRules.ChildIsSpawned | tankai/dev_orchestrator/orchestrator.py:356-443 | a child is spawned if and only if its parent is active, of that role and on the stable commit, depth, children and all other limits leave room, its scopes are free and its dependencies integrated |
| OrchestratorRules.WorkIsSubmitted | tankai/dev_orchestrator/orchestrator.py:926-990 | work is submitted if and only if the agent and its task are active, every file is accepted by an allowed scope and rejected by every denied one, every required test is among tests that all passed, and the run is its own |
| OrchestratorRules.MatchMeans | tankai/dev_orchestrator/orchestrator.py:944-947 | a path matches a list of scopes exactly when one accepts it and none before that one fails |
| ProjectInvariants.RunKeepsInv | tankai/dev_orchestrator/orchestrator.py:240-1300 | gates, links, locks, completion order, graph, blocked list, forest and register hold after every sequence of the 22 operations |
| ProjectInvariants.NoCollision | tankai/dev_orchestrator/orchestrator.py:1451-1458 | the scope check passes if and only if no new scope overlaps a lock |
| ProjectInvariants.OperationIsGoodStep | tankai/dev_orchestrator/orchestrator.py:504-1300 | every operation that creates nothing changes one task and what belongs to it |
| ProjectGuarantees.MergeGatesOnEveryRun | tankai/dev_orchestrator/orchestrator.py:926-1200 | a ready or integrated task has an approved review, an all-passed QA list, its required tests and, when required, a security approval, each by an agent of the right role other than the author, even when tasks enter with a reviewer or QA agent named, as long as these are registered in such a role |
| PresetRecords.NamedReviewerServesIffRegistered | tankai/dev_orchestrator/orchestrator.py:269-296 | from any state, a task created with a named reviewer and then started and submitted is approved by that name without assignment; the approval is by an eligible agent other than the author if and only if the name was registered in a review role before the task entered |
| PresetRecords.NamedQaPassesGatesIffRegistered | tankai/dev_orchestrator/orchestrator.py:1066-1098 | the same for a named QA agent: the task becomes ready to integrate, and its gates were really passed if and only if that agent was registered for QA |
| PresetRecords.AuthorReviewsOwnWork | tankai/dev_orchestrator/orchestrator.py:1010-1030 | from a fresh project in four operations an author has approved its own work |
| ProjectGuarantees.CompletedIsInDependencyOrder | tankai/dev_orchestrator/orchestrator.py:1288-1300 | every completed task comes after its dependencies, integrated tasks are completed, and the graph stays closed and acyclic on every run |
| ProjectGuarantees.OnlyMergesMoveTheStableCommit | tankai/dev_orchestrator/orchestrator.py:240-1300 | of all operations only a final integration and a direct one move the stable commit |
| ProjectGuarantees.FinalizeMovesToTheRunsCommit | tankai/dev_orchestrator/orchestrator.py:819-890 | a final integration moves it from the expected commit to that of the run under integration, after passed tests, for a task that passed its gates |
| ProjectGuarantees.CycleCheckNeverFires | tankai/dev_orchestrator/orchestrator.py:284-288 | in a sortable state the sort of the graph with a new task succeeds |
| ProjectGuarantees.AgentsPerCycleOnEveryRun | tankai/dev_orchestrator/orchestrator.py:1391-1449 | no cycle, past or present, registers more agents than allowed, and the register is exactly the agents of the current one |
| ProjectGuarantees.OrderlyOnEveryGuardedRun | tankai/dev_orchestrator/orchestrator.py:630-677 | when no run of a settled task is failed, every unfinished task holds all its locks and `completed_tasks` is exactly the integrated tasks, once each |
| ProjectGuarantees.FailRunKeepsOrderlyIffGuarded | tankai/dev_orchestrator/orchestrator.py:630-677 | failing a run keeps that order if and only if its task is not integrated, and not cancelled unless it has no scope |
| CompletedTwice.IntegratedTwice | tankai/dev_orchestrator/orchestrator.py:630-677 | a proper run from a fresh project in which a stale run is failed after its task was integrated; the task is reopened, integrated again and listed twice in `completed_tasks` |
| ProjectGuarantees.SubmittedFilesMayBeEdited | tankai/dev_orchestrator/orchestrator.py:943-948 | every file of an accepted submission is one the task may edit |
| ProjectGuarantees.OneWriterPerPath | tankai/dev_orchestrator/orchestrator.py:1451-1464 | two unfinished tasks that hold their locks over aligned scopes share no editable path, whatever the other tasks and locks are |
| ProjectGuarantees.OneWriterOnEveryRun | tankai/dev_orchestrator/orchestrator.py:943-948 | after every run no path can be submitted for two different tasks that hold their locks over aligned scopes |
| ProjectGuarantees.OneWriterOnEveryGuardedRun | tankai/dev_orchestrator/orchestrator.py:943-948 | when no run of a settled task was failed, unfinished tasks hold their locks, so that condition can be dropped |
| RevivedTask.RevivedTaskSharesAPath | tankai/dev_orchestrator/orchestrator.py:1138-1228 | cancel, start a second task, fail the stale run, reopen: two tasks may edit the same path and the revived one holds no lock |
| AgentForest.TreeBound | tankai/dev_orchestrator/orchestrator.py:367-383 | an agent of generation g and all it brought about are at most the sum of C^i for i up to D - g |
| AgentForest.TreeBoundOnEveryRun | tankai/dev_orchestrator/orchestrator.py:367-383 | the bound holds for every agent after every run |
| PublicationLedger.ValidateLedger | tankai/dev_orchestrator/release_publication.py:423-607 | receipts exactly for a ledger with a good header, an unbroken chain, valid receipts and matching files |
| LedgerMeaning.ValidByFields | tankai/dev_orchestrator/release_publication.py:423-607 | the whole of validation, declared event by event: numbering and hash links, creation of just this release first, then receipts for known targets and artifacts or the planned commit and branch, none twice, and the files on disk |
| LedgerMeaning.CheckedIffWellKept | tankai/dev_orchestrator/release_publication.py:506-569 | the loop over the events passes exactly such a list |
| PublicationLedger.CheckEvents | tankai/dev_orchestrator/release_publication.py:506-569 | the loop over the events computes the receipts of the chain |
| PublicationLedger.LastHashBindsLedger | tankai/dev_orchestrator/release_publication.py:180-225 | valid ledgers with the same last hash have the same events, version, commit, branch and artifact paths, sizes and digests |
| PublicationLedger.TargetsAreNotBound | tankai/dev_orchestrator/release_publication.py:475-492 | any fresh well-formed target can be added to a valid ledger without changing a hash |
| PublicationLedger.AppendKeepsValid | tankai/dev_orchestrator/release_publication.py:718-746 | a receipt that passes its checks keeps the ledger valid and adds exactly itself to the receipts |
| PublicationLedger.ReceiptsAreEvents | tankai/dev_orchestrator/release_publication.py:506-569 | the receipts of a valid chain are exactly its receipt events |
| PublicationLedger.EveryEventIsOneReceipt | tankai/dev_orchestrator/release_publication.py:506-569 | a valid chain has one event more than it has receipts: none is recorded twice |
| PublicationLedger.GenesisIsValid | tankai/dev_orchestrator/release_publication.py:330-397 | a new ledger over the inventory is valid and has no receipts |
| PublicationLedger.VerifyPublicationLedger | tankai/dev_orchestrator/release_publication.py:610-674 | complete exactly when the ledger is valid and every required target has a receipt event for everything it needs; missing lists name the rest |
| PublicationLedger.PublicationLedgerStore.RecordArtifactReceipt | tankai/dev_orchestrator/release_publication.py:677-746 | appends exactly the receipts that pass all checks against ledger and files, and the result is valid |
| PublicationLedger.PublicationLedgerStore.RecordSourceReceipt | tankai/dev_orchestrator/release_publication.py:749-800 | appends exactly the receipts for the planned commit and branch, and the result is valid against any files that matched before |
| ReleaseBackup.ParseManifest | tankai/dev_orchestrator/release_backup.py:402-419 | the loop reads exactly the entries of the lines, or fails on a bad, unsafe or repeated one |
| ReleaseBackup.ManifestRoundTrip | tankai/dev_orchestrator/release_backup.py:262-263 | reading a printed manifest gives back the map from path to digest if and only if every path is safe and on one line |
| ReleaseBackup.ReadIffPrinted | tankai/dev_orchestrator/release_backup.py:402-419 | a manifest can be read if and only if, blank lines aside, it is printed from distinct files with digests and safe one-line paths, and it is read as their map |
| ReleaseBackup.VerifyReleaseBackup | tankai/dev_orchestrator/release_backup.py:422-496 | accepts exactly the archives whose structure, manifest, sources and counts agree |
| ReleaseBackup.CreatedIsAcceptedIff | tankai/dev_orchestrator/release_backup.py:279-362 | a created archive is accepted if and only if it keeps limits that creation does not check: at most 10000 entries, 512 MiB in all, 32 MiB and a thousandfold compression each, no path with a line end of any kind or named like an internal document, and a prefix without two dots in a row |
| ReleaseBackup.ManifestPinsSources | tankai/dev_orchestrator/release_backup.py:462-492 | what one accepted archive holds is in every other with that manifest and prefix, under the same name and digest |
| ReleaseBackup.TamperingIsRejected | tankai/dev_orchestrator/release_backup.py:462-492 | an archive with the manifest and metadata of an accepted one is not accepted when a source file is missing, changed or added |
| WritableRoots.WritableRootsForScopes | tankai/dev_orchestrator/container_runtime.py:143-157 | an antichain of scope roots that covers every scope root |
| WritableRoots.SortRoots | tankai/dev_orchestrator/container_runtime.py:149 | the roots once each, by depth and then by name |
| WritableRoots.Minimal | tankai/dev_orchestrator/container_runtime.py:150-157 | keeps just enough roots to cover all, none covering another |
| MountComponents.RawRootByParts | tankai/dev_orchestrator/container_runtime.py:118-139 | the directory of a scope is exactly its components before the first wildcard, or the path itself when it exists and its parent otherwise: no wider |
| MountComponents.RootByParts | tankai/dev_orchestrator/container_runtime.py:118-140 | a directory that keeps its ends is mounted as it is |
| WritableRoots.RawRootCovers | tankai/dev_orchestrator/container_runtime.py:118-139 | before its last normalization the root of a scope covers every path the scope accepts |
| PathEdges.SurvivesIffEndsKept | tankai/dev_orchestrator/orchestrator.py:54-68 | normalizing a path of good components again gives one that still covers it if and only if its end components keep their ends: no blank before the first, none after the last unless it disappears whole, or the path repeats itself |
| PathEdges.EndsKeptWithoutBlanks | tankai/dev_orchestrator/orchestrator.py:54-68 | a path without blanks at its ends keeps them, and between end components of more than blanks and dots there is no other way |
| WritableRoots.RootCoversPathIffEndsKept | tankai/dev_orchestrator/container_runtime.py:118-140 | an accepted path lies under a usable root of its scope if and only if the directory of the scope keeps its ends |
| WritableRoots.PlainRootSurvives | tankai/dev_orchestrator/container_runtime.py:118-140 | a directory without blanks at its ends always does; one whose end components hold more than blanks and dots does only then |
| WritableRoots.SubmittablePathsAreWritable | tankai/dev_orchestrator/orchestrator.py:84-90 | every path the task may submit through a scope whose directory keeps its ends lies under a returned root |
| WritableRoots.BlankAtTheEdgeLosesTheRoot | tankai/dev_orchestrator/container_runtime.py:140 | for a directory whose name ends in a blank the accepted files are outside the mounted root |
| VectorStores.VectorStore.Add | tankai/core/vector_store.py:42-62 | updates the row of a known id in place or appends one; the containers stay parallel |
| VectorStores.VectorStore.Delete | tankai/core/vector_store.py:87-99 | removes exactly the row of the id from all containers |
| VectorStores.ShrunkIndex | tankai/core/vector_store.py:87-99 | removing one row from the parallel containers removes one entry |
| MemoryModel.ColdKeepsMemory | tankai/core/long_term_memory.py:719-787 | archiving an entry keeps what is remembered of every entry and the index exact |
| MemoryModel.ColdSurvivesCrashes | tankai/core/long_term_memory.py:719-787 | after a crash behind any of the three writes nothing is forgotten, only the index may lack the entry, and archiving it again completes the move |
| MemoryModel.RestoreKeepsMemory | tankai/core/long_term_memory.py:789-840 | so does restoring one |
| MemoryModel.RestoreUndoesCold | tankai/core/long_term_memory.py:789-840 | restoring an archived entry brings back its original content, metadata and index entry |
| MemoryModel.AddKeepsMemory | tankai/core/long_term_memory.py:535-602 | a new entry is remembered as given and changes no other |
| MemoryRetention.RetentionKeepsMemory | tankai/core/long_term_memory.py:607-707 | a retention pass loses nothing, whichever archive writes fail |
| MemoryRetention.RetentionBound | tankai/core/long_term_memory.py:672-688 | with working archive storage at most `max_hot_entries` are hot afterwards |
| MemoryRetention.WeakestAreDemoted | tankai/core/long_term_memory.py:672-688 | no entry that stays hot scores less than one the limit sent to warm; `LimitDemotesNoStronger` says what the score means |
| RetentionByFields.LimitDemotesNoStronger | tankai/core/long_term_memory.py:655-688 | when the limit demotes one entry and keeps another hot, the demoted one was not at least as sure, as often used up to ten times, as young and as recently used, with one of them strictly more |
| RetentionByFields.AsManyStayHotAsAllowed | tankai/core/long_term_memory.py:672-688 | exactly the limit, or all candidates when they are fewer, are hot after the pass |
| RetentionByFields.RetentionDecides | tankai/core/long_term_memory.py:607-707 | which entries are archived, cooled down or kept, over the fields of each row |
| RetentionByFields.OldRunsGoCold | tankai/core/long_term_memory.py:842-865 | archiving old runs moves exactly the entries of these runs whose archive record can be written to cold storage, and touches no other row |
| MemoryRetention.OverflowSize | tankai/core/long_term_memory.py:672-681 | just as many are demoted as exceed the limit |
| MemoryRetention.ArchivingKeepsMemory | tankai/core/long_term_memory.py:842-865 | archiving old runs loses nothing |
| MemoryRetention.NoMemoryIsLost | tankai/core/long_term_memory.py:535-865 | over any sequence of operations every entry's original is kept, and the index is exactly the semantic and procedural entries that are not cold |
| LongTermMemories.LongTermMemory.AddEntry | tankai/core/long_term_memory.py:535-602 | the row, and the index entry of an indexed kind |
| LongTermMemories.LongTermMemory.MoveToCold | tankai/core/long_term_memory.py:719-787 | archive record, removed index entry and stub, or nothing when the archive cannot be written |
| LongTermMemories.LongTermMemory.RestoreFromCold | tankai/core/long_term_memory.py:789-840 | the first archive record of the entry goes back into row and index |
| LongTermMemories.LongTermMemory.ApplyRetention | tankai/core/long_term_memory.py:607-707 | the planned policies, with the overflow demoted by the nested loops, entry by entry |
| LongTermMemories.LongTermMemory.ArchiveOldRuns | tankai/core/long_term_memory.py:842-865 | archives the entries of each old run that are not cold |
| TeamLoops.LLMCallBudget.Consume | tankai/core/llm.py:75-85 | grants a call exactly while the budget lasts; a blocked call uses nothing |
| TeamLoops.TeamLoop.PlanAndReview | tankai/core/loop.py:183-226 | at most two calls per planning attempt; approved if and only if some attempt within the retries parses to a non-empty plan and is approved, and the first such plan is the one returned |
| TeamLoops.TeamLoop.ExecuteSteps | tankai/core/loop.py:859-965 | in every order and interleaving at most 2(r+1) calls per step; a step is completed only by an attempt that passes, and when the budget lasts, if and only if one within the retries does |
| TeamLoops.TeamLoop.Finish | tankai/core/loop.py:325-427 | synthesis, critique and consolidation take exactly two or three calls, one less in single-step mode; it passes if and only if the final critic approves, all steps are completed and citations are valid where evidence is required |
| TeamLoops.TeamLoop.Run | tankai/core/loop.py:121-448 | `release_ready` if and only if the plan passed its gate, every step is completed, the final critic approves, citations are valid where required, and nothing was simulated; the plan gate passes if and only if some planning attempt does; with a budget of the bound a step is completed if and only if an attempt of it passes; at most 2(r+1)(1+n) calls and those of the final stage, exactly 2(1+n) of them for a release without retries, five in all in single-step mode or six with long-term memory |
| TeamLoops.DefaultBudgetSuffices | tankai/core/llm.py:52-63 | two retries and five steps need 39 of at most 40 calls |

## Left out

- SQLite, WAL, JSON encoding, file permissions, atomic replacement and lock files: each durable write is atomic and each critical section exclusive.
- Identifier syntax, stripping of text fields by the data models, text arguments such as reasons, notes and summaries (taken as non-blank), and timestamps that nothing reads.
- Tenants, users and roles: whether a caller may act is a fixed relation; queue policies and repository bindings are a fixed configuration.
- `_init_schema` duplicate repair: the queue starts from a migrated database. Repository checks against the file system, the secret scan of pipelines and result sizes are part of an arbitrary admission decision.
- Recovery of expired leases reads the fence of all rows at one instant; the code reads them one after the other in the same pass.
- `reap_worktrees`, the dispatcher and the worker pipeline: they call the modelled transactions and run processes.
- Rebase is atomic: the order of branch check and `abort_rebase_if_needed` inside `workspace_from_binding` is not modelled; trees are clean, and workspace cleanup after success is left out.
- During one integration no other actor changes ProjectState or git; the orchestrator's own runs interleave all 22 operations freely.
- bind_workspace, unbind_workspace, append_worklog, capabilities, the audit log, open errors, pending reviews and status texts: they do not influence the modelled transitions, except that create_task may also refuse for a capability.
- `max_active_agents` across reopen_task: reopening revives an agent without a capacity check, so no such bound is claimed.
- The keys of a task's modules are given with the task; casing and splitting of component names are left out.
- ProjectGuarantees.MergeGatesOnEveryRun: assumes tasks that enter pending, unassigned and with nothing recorded but names of registered reviewers and QA agents; a task created with a state, review, test or security result already filled in is left out.
- An exception raised inside `begin_worker_integration` after its transaction committed (the handler then does not know that the integration started), and a rollback that moves MAIN and raises afterwards: neither can be expressed as an attempt of the integration model.
- RepoPaths.SoundForPathsIffAligned: the if-and-only-if is for scopes without brackets, because what a bracket class accepts is arbitrary; soundness for aligned scopes includes brackets.
- Symlinks, mounts and host paths of containers, and the denied roots inside them.
- URL, identifier and locator syntax of publication targets: arbitrary predicates. Wrong JSON types in a loaded ledger are left out.
- Collecting files for a backup (exclusions, secret scan) and compression itself: a packing gives the sizes. The checksum file beside the archive is left out.
- Embeddings, similarity search and persistence of the vector index: the embedded text stands for its vector. An embedder of the wrong dimension is left out.
- Retention statistics, a negative `max_hot_entries` (the code fails on it before any change), and scores as floats (they are reals here).
- Prompts, tools, logging, run store and rate-limit guard of the team loop; errors other than an exhausted budget end a run outside the steps.
