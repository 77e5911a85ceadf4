# Verified model of the autonomy layer

A Dafny model of the autonomy layer of an AI control plane: a lease-based task store, a supervisor, a
worker gateway with its greedy router, an engine for governed file transactions with rollback and
crash recovery, an append-only queue ingestor, an authenticated external gateway, and three smaller
mechanisms (a retry limiter, a keyed hash chain, a service loop). `dafny verify dfyconfig.toml` checks
the whole project.

## How it is built

Each mechanism has four parts.

- A *specification*: what one operation does to the tables, as a function (`Store`, `Execution`,
  `Gateway`, `RoutingPass`, `Ingestion`, `ExternalGateway`, `RetryLimiter`, `Ledger`, `ServiceLoop`).
- An *object* that works step by step as the program does, with fields, loops and early exits, and
  whose methods are proved against the specification (`AutonomyStoreObject`, `SupervisorObject`,
  `Controller`, `LocalGateway`, `Router`, `Ingestor`, `AuthenticatedGateway`, `RuntimeRecovery`, and the
  classes in `RetryLimiter`, `Ledger` and `ServiceLoop`).
- *Results* over all inputs and all runs (`StoreRuns`, `LateWrites`, `ExecutionRecords`,
  `ExecutionFiles`, `RecoveryCalls`, `RacingRecoveries`, `ApplySteps`, `GatewayRuns`, `LateMessages`,
  `Plans`, `Manifests`, `QueueLines` and the lemmas beside the specifications), and explicit permitted
  runs from empty tables for what goes wrong (`RecoveryRace`, `StoreRaces`, `GatewayRaces`).
- The same *told in columns*: when exactly a row, session, message, grant or file changes, and where every
  lease, grant, written file, session and accepted message came from over whole runs, without the
  functions of the specification (`StoreHistory`, `RoutingOutcome`, `GrantHistory`, `WriteHistory`,
  `AuthorityHistory`, `GatewayHistory`, `MessageHistory`, and the last sections of `Plans`, `Ingestion` and
  `ServiceLoop`).

The execution machine takes one atomic step per database transaction, one per statement outside a
transaction and one per file read or written. Any number of appliers, recoveries, store operations,
crashes and overwritings of files interleave between its steps; a recovery in particular reads the
files one by one, decides, and only then begins its transaction. Coarser than the code are: the reads of
one authority check, or of the checks that open a recovery, are one step; an authority check and the
reading of the next file are one step; so are the last comparison of a REPLACE and its rename, and the
preimages read inside the first transaction of `apply`. In the runs of the external gateway a handler is
one step, although the code checks a message and accepts it in separate statements without a
transaction; `LateMessages` separates the two and says exactly when that does harm. A call of
`Controller.GovernedExecutionController.Apply` is proved to be a run of that machine in which every step
that is not its own comes from one of its hooks, so the results about runs hold of it.

## What is assumed

- A digest or signature determines what was digested or signed, and the printed digests of one pair of
  plans do not collide; ids drawn from `uuid4` are new.
- The store's clock never goes back, and neither does the retry limiter's. Times are real numbers.
- Different workspace ids have different roots; registration does not check it
  (`src/autonomy/execution.py:109-124`). Workspaces are registered before the controller is built.
- A recovery starts only on a grant that no running `apply` and no other recovery owns, which the code
  leaves to its callers. `RacingRecoveries.RacesRefineLogExactly` does without it and says exactly when
  records and files are kept all the same.
- For the results about files only: nobody else writes in the workspaces. The results about records need
  no such thing.
- A hook of `apply` does not run, recover or crash the grant it is called for; it may do anything else,
  such as overwriting planned files, several times.
- The gateway alone registers workers, publishes heartbeats, starts tasks and submits results.
- A routing pass starts with a gateway that mirrors the store (which `GatewayRuns.MirrorAlways` shows of
  every run) and draws new, identifier-shaped lease ids.
- A task is moved to review by evidence only inside a completion; `route_or_wait`, whose update has no
  guard, is not part of the runs (`StoreRuns.RouteOrWaitExactly` and
  `ExecutionRecords.RouteOrWaitConserves` say exactly when it does harm, and
  `StoreRaces.RouteOrWaitLosesReview` gives a run).

## Where the code does less than one might expect

- A bounded service run does not always end. Each successful call forgets the failures before the IDLE
  write is made, so if that write keeps failing transiently the loop goes on
  (`ServiceLoop.IdleEndsExactly`; `ServiceLoop.EndsExactly` for any surroundings).
- The last transaction of `recover` trusts files read before it began and does not look at how many rows
  its updates of grant and transaction changed. If an applier, or another recovery, has closed the grant
  meanwhile, the task goes to review with nothing behind it (`RecoveryRace.RaceWithApplier`,
  `RecoveryRace.TwoRecoveries`); `RecoveryCalls.SettlingConservesExactly` says exactly when. If an
  applier is still at work, the plan may be in the log while the applier puts its files back
  (`RecoveryRace.RecoveryOvertakes`); `RacingRecoveries.ConcludeFollowsExactly` says exactly when.
- `fail_attempt` charges from an earlier reading without a guard: a task that came under review or was
  claimed again meanwhile loses its evidence or its count (`LateWrites.LateChargeExactly`,
  `LateWrites.LateChargeConserves`, with runs in `StoreRaces`).
- A restarted gateway no longer knows which tasks were acknowledged (`GatewayRuns.RestartLoses`).
- A file appended after an unfinished line is a rewritten file to the ingestor; `QueueLines.AppendedLines`
  says exactly which appends are safe.
- A batch task whose id is not identifier-shaped is claimed but never dispatched
  (`RoutingPass.EveryEnvelope`).
- A lease dispatched under two sessions has two dispatches, of which at most one is ever acknowledged
  (`GatewayRuns.DispatchTells`, with a run in `GatewayRaces.OneLeaseTwoDispatches`).
- Authenticating with a session id that another worker uses deletes that worker's session
  (`ExternalGateway.DisplacesExactly`), and a message whose task start is refused is spent all the same.
- Two messages of one session that are both checked before either is accepted can be accepted in
  descending order (`LateMessages.CheckedTogether`, `LateMessages.DescendingAcceptance`).
- The approval flag of a repeated directive is not compared with the first one; the task keeps the flag it
  was created with (`src/autonomy/ingestion.py:232-239`).
- The audit ledger does not bind an entry's index, nor that nothing was cut off (`Ledger.NotBound`).
- A runtime cycle reconciles before it recovers, so a fully written transaction whose lease ran out is
  not completed but blocked (`RuntimeRecovery.ExpiredNeverApplied`).

## Model

| member | source | states |
|---|---|---|
| `ExecutionFiles.DiskRefinesLog` | src/autonomy/execution.py:371-536 | refinement: over every interleaving of appliers, failures, crashes and recoveries, a workspace that is not blocked and has no APPLYING grant holds its initial files with exactly the APPLIED plans replayed in completion order |
| `Controller.GovernedExecutionController.Apply` | src/autonomy/execution.py:371-536 | all or nothing for every plan, reading and hook: unless grant, lease, worker, session, workspace, kinds, path prefixes and preimages all allow the plan when the call begins, nothing is touched but a grant that may lapse; a return means all postimages in place and grant, transaction, evidence and task moved together; an exception means untouched, or FAILED with every backed-up file at its original bytes and no other planned file ever written, or the workspace blocked; and no file is ever written over anything but its preimage |
| `ExecutionFiles.DecidedExact` | src/autonomy/execution.py:561-590 | a recovery that has decided, whatever others do before its last transaction: with `done` of N operations on the files that transaction makes the grant FAILED iff 0, APPLIED iff N and the task still runs, INTEGRITY_BLOCKED with the workspace blocked iff in between, and otherwise leaves it applying |
| `ExecutionFiles.DecidedMeaning` | src/autonomy/execution.py:561-568 | until its last transaction the files are what a recovery decided from them, for any plan: untouched after FAILED, the whole plan in place after APPLIED, the workspace blocked otherwise |
| `ExecutionFiles.RecoveryExact` | src/autonomy/execution.py:553-590 | an undisturbed recovery after a crash with `done` of N operations on the files answers FAILED iff 0, APPLIED iff N and the task still runs, otherwise the workspace is blocked |
| `ExecutionFiles.RecoveryMeaning` | src/autonomy/execution.py:553-590 | for any plan, also one that rewrites a file with its own content: FAILED means untouched files, APPLIED the whole plan in place |
| `ExecutionRecords.RunSound` | src/autonomy/execution.py:371-590 | over every run, with tampering and crashes at any point, in which a recovery starts only on a grant no running applier and no other recovery owns: grant and transaction rows agree, one applying grant per workspace, each applied grant logged once, review evidence conserved; terminal grants and blocks last |
| `RecoveryCalls.SettlingConservesExactly` | src/autonomy/execution.py:569-585 | whatever happened since the files were read, the last transaction of a recovery keeps review evidence conserved iff its verdict is not APPLIED, or grant and transaction are still applying, or the task is not running |
| `RecoveryRace.RaceWithApplier` | src/autonomy/execution.py:541-585 | from an empty system, a recovery that starts while its applier runs: the applier fails its last check and closes as FAILED between the reading of the files and the transaction, which ignores two of its three row counts, and the task ends under review with neither evidence nor an applied transaction |
| `RecoveryRace.TwoRecoveries` | src/autonomy/execution.py:553-585 | the same end with two recoveries of one abandoned grant and a file overwritten between their readings |
| `RacingRecoveries.RacesRefineLogExactly` | src/autonomy/execution.py:371-590 | recoveries may start at any time, also beside the applier of their grant or beside each other: throughout a run review evidence stays conserved and the files follow the log iff every last transaction that closes a grant finds no applier of it left and files that still show its verdict or a blocked workspace, and none moves a task to review without closing anything; in such a run an unblocked workspace without an applying grant holds its initial files with the applied plans replayed |
| `RacingRecoveries.ConcludeFollowsExactly` | src/autonomy/execution.py:569-589 | whatever happened since the files were read, after the last transaction of a recovery the files follow the log iff it closes nothing, or the workspace is blocked, or the files show now what the verdict says; and they can go on following it iff moreover no applier of the grant is left |
| `RacingRecoveries.LastExactly` | src/autonomy/execution.py:569-589 | review evidence and files at once: both are kept by the last transaction of a recovery iff it may go ahead in that sense |
| `RacingRecoveries.DisciplinedRightful` | src/autonomy/execution.py:553-590 | in a run in which every recovery has its grant to itself and nobody else writes, every last transaction may go ahead |
| `RecoveryRace.RecoveryOvertakes` | src/autonomy/execution.py:541-585 | from an empty system, a recovery that concludes APPLIED before the last check of the running applier: the applier then fails, puts its file back and closes nothing, and with nobody left the workspace is not blocked and its files lack a plan the log holds |
| `RecoveryCalls.StrayReview` | src/autonomy/execution.py:580-585 | a verdict APPLIED that finds grant or transaction no longer applying and the task running always moves the task to review with nothing to rest on |
| `ExecutionRecords.ReviewEvidence` | src/autonomy/store.py:167-184 | after any such run from an empty system a task is under review or completed iff it rests on exactly one evidence row or exactly one applied transaction, never both; otherwise on neither |
| `ExecutionRecords.StepSound` | src/autonomy/execution.py:381-418 | every single permitted step, of whatever party, keeps all record invariants and never clears a durable block |
| `GrantHistory.LoggedInScope` | src/autonomy/execution.py:402-404 | over every permitted run each operation of each transaction, so of each applied plan in the log, is of one of the kinds of its grant, and its path has an initial run of segments equal to those of one of the prefixes, or a prefix is empty |
| `GrantHistory.OutOfScopeRefused` | src/autonomy/execution.py:402-404 | a plan with an operation of another kind, or on a path under no prefix, leaves files, transactions, calls and store as they were, and the grant too unless it lapses |
| `GrantHistory.BeginsBySegments` | src/autonomy/execution.py:403-404 | a path equals a prefix or continues it after a slash iff its segments begin with those of the prefix |
| `GrantHistory.IssuedExactly` | src/autonomy/execution.py:203-243 | a grant appears iff it is issued for a task running under an unexpired lease of a fresh, confirmed worker with capability and target, in a workspace registered for that target; it says what was asked for and ends with the lease or after the seconds asked for |
| `GrantHistory.ConsumedExactly` | src/autonomy/execution.py:381-418 | a grant becomes applying iff a plan begins under it that columns, workspace, scope and files allow; nothing else happens then |
| `GrantHistory.LapsedExactly` | src/autonomy/execution.py:385-393 | a grant lapses iff a plan begins under it after the grant or its lease is over |
| `GrantHistory.EnteredExactly` | src/autonomy/execution.py:326-348 | a workspace can be entered iff it is registered for the target, is the registered directory and is not blocked; otherwise exactly which blocks, durable and in memory, are set |
| `WriteHistory.ProceedsExactly` | src/autonomy/execution.py:419-495 | a call moves on iff what that place needs to know is so: fresh authority before the first backup, before every write and before the last checks, the preimage before a backup and before a write, the postimage after a write and once more at the end |
| `WriteHistory.RetreatsExactly` | src/autonomy/execution.py:496-536 | a call that raises goes back over its backups, last first, then looks at every backed-up file, and ends undone iff each is as it was, otherwise by blocking the workspace |
| `WriteHistory.FilesExactly` | src/autonomy/execution.py:428-523 | what a step of a call does to the files: the planned content before a write, one backup when rolling back, otherwise nothing |
| `WriteHistory.ClosedExactly` | src/autonomy/execution.py:528-545 | a call that cannot prove its rollback blocks the workspace first; closing gives grant and transaction the state that says whether the files were put back |
| `WriteHistory.AppliedExactly` | src/autonomy/execution.py:483-590 | a grant is applied iff its own call commits, in force at its last check, or a recovery that found every planned file written does so while the task runs; then grant, transaction, evidence, task and log say so together and no file changes |
| `WriteHistory.SurveyedExactly` | src/autonomy/execution.py:553-558 | a recovery starts iff grant and transaction apply and the workspace is open; it has read nothing |
| `WriteHistory.LookedExactly` | src/autonomy/execution.py:559-568 | a recovery reads one planned file after the other; then it decides FAILED iff all show their preimages, APPLIED iff not and all show their postimages, and otherwise blocks the workspace |
| `WriteHistory.DecidedStep` | src/autonomy/execution.py:569-589 | what a recovery writes once it has decided: the verdict in grant and transaction, or the acceptance while the task runs, or a blocked workspace when it does not |
| `WriteHistory.RaisedStep` | src/autonomy/execution.py:553-589 | a recovery in which something raises is over, with nothing written |
| `AuthorityHistory.WrittenUnderAuthority` | src/autonomy/execution.py:428-523 | over every run, with any calls, recoveries and crashes: a file changes, other than by being overwritten from outside, only by a running call, in the workspace of its grant, on a path of its plan that the grant allows, to what the plan says or what was backed up; and a write was let by a step at which the grant was in force and the file as expected |
| `AuthorityHistory.AppliedUnderAuthority` | src/autonomy/execution.py:483-590 | over every run an applied grant was applied by its own call, in force at its last check, or by a recovery that found every planned file written while the task ran |
| `AuthorityHistory.ConsumedUnderAuthority` | src/autonomy/execution.py:381-418 | over every run an applying grant was consumed by a plan that columns, workspace, scope and files allowed |
| `AuthorityHistory.IssuedUnderAuthority` | src/autonomy/execution.py:203-243 | over every run each grant was issued when it might be, with the columns it has |
| `ExecutionRecords.RouteOrWaitConserves` | src/autonomy/store.py:185-191 | the unguarded update of `route_or_wait` keeps review evidence conserved iff it writes nothing or the task is not under review |
| `RuntimeRecovery.RestartSettlesFiles` | src/autonomy/runtime.py:97-109 | after any run, once no applier and no recovery is left, one recovery pass leaves every workspace durably blocked or holding exactly its initial files with the applied plans replayed |
| `RuntimeRecovery.ExpiredNeverApplied` | src/autonomy/runtime.py:111-120 | because a cycle reconciles before it recovers, a transaction whose task has an expired lease or stale owner is never completed; with all its files in place its workspace is blocked and the files stay |
| `RuntimeRecovery.AutonomyRuntime.RecoverAll` | src/autonomy/runtime.py:97-109 | recovers the grants found applying one after the other, in order of their ids, each answered as its recovery ends; every grant applying at the start is among them, and of a workspace already blocked no grant, transaction, file or block is touched |
| `RuntimeRecovery.RunTargets` | src/autonomy/execution.py:203-243 | over every run each grant names the registered target of its workspace, so recovery never meets a target mismatch |
| `ExecutionFiles.RunFilesOk` | src/autonomy/execution.py:428-527 | over every disciplined run: the files of an applying grant are the replayed log with a prefix of its plan, and the applier stands where that prefix says |
| `ExecutionFiles.StepFilesOk` | src/autonomy/execution.py:428-527 | each step, forward, undoing, completing or recovering, keeps the files in agreement with log, counters and backups |
| `ExecutionFiles.ConcludeHandled` | src/autonomy/execution.py:569-589 | the last transaction of a recovery leaves its workspace at rest or blocked, or the transaction open with its files where the log and its plan put them |
| `ExecutionFiles.RecoverKeeps` | src/autonomy/execution.py:553-590 | a whole recovery that nobody disturbs keeps records and files in order |
| `RecoveryCalls.RecoverIsRun` | src/autonomy/execution.py:553-590 | the steps of a recovery taken without interruption, one per file read, come to one classification of the files: all preimages, all postimages or neither |
| `ExecutionFiles.RestorePlaced` | src/autonomy/execution.py:507-523 | putting back a file, last backup first, turns the files into a shorter prefix of the plan |
| `ExecutionFiles.WritePlaced` | src/autonomy/execution.py:428-465 | one written operation makes the files one operation longer a prefix of the plan |
| `ExecutionFiles.CommitHandled` | src/autonomy/execution.py:483-493 | a commit that succeeds extends the log by this plan and leaves the files equal to the longer replay; one that fails leads to the rollback |
| `ExecutionFiles.BeginFilesOk` | src/autonomy/execution.py:381-418 | consuming a grant finds the workspace at rest, with the preimages of the plan |
| `ExecutionFiles.CrashImages` | src/autonomy/execution.py:553-565 | at a crash the first `done` planned files are at their postimage and the rest at their preimage |
| `Disks.PrefixImages` | src/autonomy/execution.py:428-465 | after k operations of a plan the first k paths show postimages and the others preimages |
| `Disks.AllPreMeansUntouched` | src/autonomy/execution.py:562-566 | if every planned file shows its preimage after a prefix of the plan, nothing has changed |
| `Disks.AllPostMeansApplied` | src/autonomy/execution.py:567-568 | if every planned file shows its postimage after a prefix of the plan, the whole plan is in place |
| `Disks.UndoOne` | src/autonomy/execution.py:507-523 | restoring the backup of one operation undoes exactly that operation |
| `ApplySteps.ForeignRunKept` | src/autonomy/execution.py:419-467 | whatever other parties do while a hook runs, the grant, its transaction, its backups and its place in the plan are untouched |
| `ApplySteps.BeginStep` | src/autonomy/execution.py:381-418 | the first transaction consumes the grant iff it is issued and in force, its task runs under its unexpired lease for a fresh worker in session, its workspace is open and free, every operation is of one of its kinds and under one of its prefixes segment by segment, and every planned file shows its preimage; otherwise nothing is touched but a lapsed grant |
| `ApplySteps.CommitStep` | src/autonomy/execution.py:483-493 | the commit moves grant, transaction and task together with evidence naming plan and grant, or changes none of them |
| `ApplySteps.CloseStep` | src/autonomy/execution.py:541-545 | closing a failure gives grant and transaction the same final state and touches no file |
| `ApplySteps.HookStep` | src/autonomy/execution.py:419-467 | a hook leaves the call in charge and adds nothing to the files the call itself has changed |
| `ExecutionRecords.FinishedBooks` | src/autonomy/execution.py:483-493 | a completion adds exactly one piece of evidence, the one that puts its task under review |
| `ExecutionRecords.StoreStepBooks` | src/autonomy/store.py:101-209 | no store operation adds or removes evidence except the result that puts its task under review |
| `ExecutionRecords.RescueEffect` | src/autonomy/execution.py:553-590 | a step of a recovery that has its grant to itself changes no record, or completes, or settles grant and transaction alike |
| `ExecutionRecords.BeginEffect` | src/autonomy/execution.py:381-418 | a first transaction changes no record, or lapses an issued grant, or consumes it |
| `ExecutionRecords.NewSystemSound` | src/autonomy/execution.py:159-198 | the system of registered workspaces without grants satisfies all record invariants |
| `Controller.GovernedExecutionController.IssueGrant` | src/autonomy/execution.py:203-243 | the grants after issuing are those of the machine: authority of the running task, lease, worker and session, expiry no later than the lease |
| `Controller.GovernedExecutionController.Consume` | src/autonomy/execution.py:381-418 | succeeds iff those same conditions hold, and then grant, transaction and call are as consumed; otherwise nothing is touched but a grant that may lapse |
| `Controller.GovernedExecutionController.WorkspaceAuthority` | src/autonomy/execution.py:326-343 | refuses and blocks a workspace that is unknown, refused or swapped; a durable block refuses in memory too |
| `Controller.GovernedExecutionController.Reauthorize` | src/autonomy/execution.py:362-369 | the authority a step needs, read afresh |
| `Controller.GovernedExecutionController.BackUpAll` | src/autonomy/execution.py:421-427 | backs up every planned file after checking its preimage, or raises with what was backed up |
| `Controller.GovernedExecutionController.ApplyOne` | src/autonomy/execution.py:429-467 | one operation checked, written, verified and handed to the hook, or an exception |
| `Controller.GovernedExecutionController.ApplyAll` | src/autonomy/execution.py:428-467 | all operations in order, or an exception that keeps every backup |
| `Controller.GovernedExecutionController.Finish` | src/autonomy/execution.py:468-495 | commits only when authority is fresh and every file shows its postimage |
| `Controller.GovernedExecutionController.RestoreAll` | src/autonomy/execution.py:503-523 | walks the backups last first; it ends at their confirmation or at blocking |
| `Controller.GovernedExecutionController.ConfirmFiles` | src/autonomy/execution.py:524-527 | good iff every backed-up file read back holds its original bytes |
| `Controller.GovernedExecutionController.RollBack` | src/autonomy/execution.py:496-536 | ends FAILED with every backed-up file at its original bytes, or INTEGRITY_BLOCKED with the workspace blocked durably and in memory |
| `Controller.GovernedExecutionController.BeginRecovery` | src/autonomy/execution.py:553-558 | the checks before any file is read |
| `Controller.GovernedExecutionController.DecideVerdict` | src/autonomy/execution.py:562-568 | the verdict from the images read; mixed images block the workspace before the transaction |
| `Controller.GovernedExecutionController.ConcludeRecovery` | src/autonomy/execution.py:569-589 | guarded updates of transaction and grant, the counted update of the task, and the rollback of all of them when the task is lost |
| `Controller.GovernedExecutionController.Recover` | src/autonomy/execution.py:553-590 | state and answer of an undisturbed recovery, as a run of the machine and in closed form |
| `Plans.CanonicalPlan` | src/autonomy/execution.py:251-287 | answers iff the plan has 1 to 64 operations and at most 1 MiB of content, each operation can be planned and no two paths collide case-folded; the rows are one for each operation, say what it asks for, and ascend by path |
| `Plans.AcceptedExactly` | src/autonomy/execution.py:251-287 | those same conditions, column by column, are what the checking of a plan comes to |
| `Plans.RowExactly` | src/autonomy/execution.py:258-283 | an operation is planned iff its path fits and images and content are those of its kind; its row has that kind, path, images and content |
| `Plans.PathExactly` | src/autonomy/execution.py:64-76 | a path fits iff it is not empty, has no control character, backslash, leading slash, drive or `..` segment, and is admitted |
| `Plans.MeaningfulDrops` | src/autonomy/execution.py:71-76 | leaving an empty or `.` segment out of a path changes nothing in what it comes to |
| `Plans.MeaningfulWhole` | src/autonomy/execution.py:71-76 | and no other segment is left out |
| `Plans.PermutationInvariant` | src/autonomy/execution.py:251-287 | every permutation of the operations is accepted alike and gives the same rows, hence the same manifest |
| `Manifests.PlanHashCanonical` | src/autonomy/execution.py:284-287 | two accepted plans, whatever operations they name, have the same manifest iff they ask for the same set of rows |
| `Manifests.ManifestInjective` | src/autonomy/execution.py:285-287 | equal manifests come from equal rows: path, operation, both images and content digest, although the preimage of an unknown operation may hold newlines |
| `Manifests.LineInjective` | src/autonomy/execution.py:264-286 | a manifest line determines its row although the path may contain the separator and the preimage of an unknown operation may be any folded text |
| `Manifests.CutLine` | src/autonomy/execution.py:264-286 | a line cut at a newline inside it is told from a whole line by its last upper-case letter |
| `Plans.NormalizedConfined` | src/autonomy/execution.py:64-76 | a normalized path is relative, without control characters, and no segment is empty, `.` or `..` |
| `Plans.SegmentsOfJoin` | src/autonomy/execution.py:73-76 | joining and splitting a normalized path are inverse |
| `StoreRuns.ClaimAccounting` | src/autonomy/store.py:101-113 | over any run the claims granted to a task are its charged attempts plus one if it is leased, running, pending or completed; at most budget plus one; DEAD_LETTER iff attempts equal budget plus one |
| `StoreRuns.Progress` | src/autonomy/store.py:141-184 | every state change burns fuel ordered by remaining budget, then phase, so a task changes state boundedly often in any run |
| `StoreRuns.Fenced` | src/autonomy/store.py:120-180 | once a lease has ended, no later renewal, start, acknowledgement or result under it succeeds or changes anything, whatever happens in between |
| `StoreRuns.EndedExactly` | src/autonomy/store.py:101-180 | a lease has ended iff the task it was issued for no longer works under it unexpired |
| `StoreRuns.LeaseIsUnique` | src/autonomy/store.py:110-113 | a lease id names at most one task |
| `StoreRuns.CapacityRespected` | src/autonomy/store.py:101-113 | the live leases of a worker never exceed the largest capacity it had, nor its present one unless it was lowered |
| `StoreRuns.StepKeepsInv` | src/autonomy/store.py:55-227 | every operation keeps the accounting, lease and capacity invariants |
| `StoreRuns.RunKeepsInv` | src/autonomy/store.py:55-227 | so does every run |
| `StoreRuns.StepExplained` | src/autonomy/store.py:55-227 | every operation changes nothing, adds a row, claims one for a worker that can take it, moves one row along its life cycle (starts and results only under a lease in force), charges stale rows, or writes one worker |
| `StoreRuns.EndedRefuses` | src/autonomy/store.py:120-180 | under an ended lease renewal, start and result fail and change nothing |
| `StoreRuns.RouteOrWaitExactly` | src/autonomy/store.py:185-191 | `route_or_wait` keeps the row invariants iff it writes nothing or the task is leaseable |
| `StoreRuns.RunCounts` | src/autonomy/store.py:101-113 | the claims counted by the invariant are exactly the claims the run granted |
| `StoreRuns.ActiveGrowsByOne` | src/autonomy/store.py:109-113 | a granted claim leaves the worker within its capacity |
| `StoreHistory.CompletedByReview` | src/autonomy/store.py:181-184 | over every run a completed task was completed by a step of a review that found its evidence valid while it was under review |
| `StoreHistory.InvalidReviewChangesNothing` | src/autonomy/store.py:181-184 | a review that finds the evidence invalid changes no table, whatever the state of the task |
| `StoreHistory.ReviewedAfterResult` | src/autonomy/store.py:167-180 | over every run a task under review got there by new evidence from the fresh worker of its unexpired lease, or by a governed execution while it ran |
| `StoreHistory.LeaseWasClaimed` | src/autonomy/store.py:101-113 | over every run a lease was claimed when its fresh worker had capability, target and room for it and the task was waiting to be leased, governed and in no need of a human |
| `StoreHistory.CreatedAs` | src/autonomy/store.py:55-69 | over every run a task keeps the directive, target, capability, priority, creation time, flags and budget it was created with |
| `StoreHistory.NeverTouched` | src/autonomy/store.py:101-113 | over every run a task that needs a human, or is not governed, is never leased, charged or moved |
| `StoreHistory.ClaimedExactly` | src/autonomy/store.py:101-113 | a task gets a new lease iff it is claimed under those conditions; the lease runs from now and nothing else changes |
| `StoreHistory.RenewedExactly` | src/autonomy/store.py:120-129 | a lease is prolonged iff its worker renews it, unexpired, while the task is leased or running under it; it then runs from now |
| `StoreHistory.StartedExactly` | src/autonomy/store.py:130-140 | a task begins to run iff it is started under its unexpired lease for its fresh worker |
| `StoreHistory.ChargedExactly` | src/autonomy/store.py:141-166 | an attempt is charged iff an expired lease is reclaimed, or stale owners are reconciled and the registered worker of the running task is stale, or the worker of the lease reports a failure; the task then has no lease and retries, or is dead when its budget is spent |
| `StoreHistory.ReviewedExactly` | src/autonomy/store.py:167-180 | a task comes under review iff its worker hands in new evidence with a digest under the unexpired lease, or its governed execution is accepted; only the former stores evidence |
| `StoreHistory.FaultyExactly` | src/autonomy/store.py:171-174 | a task begins to wait for evidence iff its worker hands in a result without a digest |
| `StoreHistory.EvidenceExactly` | src/autonomy/store.py:175-180 | an evidence row appears iff such a result is handed in, and never changes or goes |
| `StoreHistory.CompletedExactly` | src/autonomy/store.py:181-184 | a task is completed iff a review finds its evidence valid while it is under review |
| `StoreHistory.WaitsExactly` | src/autonomy/store.py:192-209 | a task begins to wait for capacity iff it could be leased instead |
| `StoreHistory.CreatedExactly` | src/autonomy/store.py:55-69 | a row appears iff a task is created with a budget in range and an id and directive not in use; it waits for a human iff it needs one |
| `StoreHistory.WorkerExactly` | src/autonomy/store.py:70-95 | a worker row changes iff it is registered with a positive SLA, or a heartbeat not from the future is observed |
| `StoreHistory.AnsweredExactly` | src/autonomy/store.py:55-209 | every operation is answered with success iff the rows warrant it |
| `StoreHistory.RouteOrWaitTells` | src/autonomy/store.py:185-191 | `route_or_wait` is prohibited iff the task is completed, dead, waiting for a human or not governed; it finds a worker iff one is able, and otherwise makes the task wait |
| `AutonomyStoreObject.AutonomyStore.AddTask` | src/autonomy/store.py:55-69 | answer and tables of task creation |
| `AutonomyStoreObject.AutonomyStore.Register` | src/autonomy/store.py:70-73 | answer and tables of a registration |
| `AutonomyStoreObject.AutonomyStore.Heartbeat` | src/autonomy/store.py:78-95 | answer and tables of a heartbeat with capacity |
| `AutonomyStoreObject.AutonomyStore.ClaimTask` | src/autonomy/store.py:101-119 | answer and tables of a claim, with its order of refusals |
| `AutonomyStoreObject.AutonomyStore.RenewLease` | src/autonomy/store.py:120-129 | answer and tables of a renewal |
| `AutonomyStoreObject.AutonomyStore.StartTask` | src/autonomy/store.py:130-140 | answer and tables of a start, with or without acknowledgement |
| `AutonomyStoreObject.AutonomyStore.Reclaim` | src/autonomy/store.py:141-152 | answer and tables of a reclaim |
| `AutonomyStoreObject.AutonomyStore.ReconcileStale` | src/autonomy/store.py:153-161 | charges exactly the RUNNING tasks whose owner is stale and lists them in order |
| `AutonomyStoreObject.AutonomyStore.Fail` | src/autonomy/store.py:162-166 | answer and tables of a failed attempt |
| `AutonomyStoreObject.AutonomyStore.Submit` | src/autonomy/store.py:167-180 | answer and tables of a result, missing and duplicate evidence included |
| `AutonomyStoreObject.AutonomyStore.CompleteReviewed` | src/autonomy/store.py:181-184 | answer and tables of a completed review, which `StoreHistory.CompletedExactly` and `StoreHistory.InvalidReviewChangesNothing` tell in rows |
| `AutonomyStoreObject.AutonomyStore.WaitForCapacity` | src/autonomy/store.py:192-209 | answer and tables of waiting for capacity |
| `AutonomyStoreObject.AutonomyStore.FirstAble` | src/autonomy/store.py:185-190 | the worker found is the least by id that can take the task; none means nobody can |
| `AutonomyStoreObject.AutonomyStore.RouteOrPark` | src/autonomy/store.py:185-191 | answer and tables of `route_or_wait` |
| `AutonomyStoreObject.AutonomyStore.SchedulableTasks` | src/autonomy/store.py:229-232 | lists due tasks, each once, as many as there are up to `limit`; of two due tasks the one of larger priority, else the one created earlier, else the one of the smaller id, is listed whenever the other is and stands before it |
| `Ordering.TextLessExactly` | src/autonomy/store.py:231 | of two ids the smaller is a proper prefix or has the smaller character where they first differ |
| `AutonomyStoreObject.AutonomyStore.ExpiredLeaseTasks` | src/autonomy/store.py:239-240 | exactly the tasks on an expired lease, in order of their ids |
| `SupervisorObject.Supervisor.Reconcile` | src/autonomy/supervisor.py:15-21 | one pass charges exactly the tasks on an expired lease or running for a stale registered worker and answers them in order of their ids |
| `SupervisorObject.ReconciledExactly` | src/autonomy/supervisor.py:15-21 | a pass takes the lease of such a task, counts one attempt and sends it to retry or the dead letter, and leaves every other row alone |
| `SupervisorObject.ChargesAtMostOnce` | src/autonomy/supervisor.py:15-21 | a pass charges each task at most one attempt and changes exactly the stale and expired ones |
| `SupervisorObject.NothingOverdue` | src/autonomy/supervisor.py:15-21 | after a pass no lease is expired and no task runs under a stale owner |
| `SupervisorObject.ReconcileIdempotent` | src/autonomy/supervisor.py:15-21 | a second pass at the same clock changes nothing |
| `SupervisorObject.ReconcileKeepsInv` | src/autonomy/supervisor.py:15-21 | a pass keeps the invariants of the store |
| `LateWrites.LateChargeExactly` | src/autonomy/store.py:153-166 | the unguarded charge of `fail_attempt`, made from an earlier reading, keeps the row invariants iff the reading had budget left and the row now stands for one claim more than the attempts read |
| `LateWrites.LateChargeConserves` | src/autonomy/store.py:162-166 | it keeps review evidence conserved iff the task has not come under review since the reading |
| `LateWrites.LateCompleteExactly` | src/autonomy/store.py:181-184 | the unguarded completion of a review keeps the row invariants iff the task stands on an uncharged claim |
| `LateWrites.LateFailure` | src/autonomy/store.py:162-166 | a failure report that was due when read, written after any run of the store: at once it is the failed attempt, and later it keeps the row invariants iff the row then stands for the claim read or for its charge |
| `LateWrites.LateCompleteHarmless` | src/autonomy/store.py:181-184 | a review once read as pending may be completed however late, whatever store operations come in between; at once it is the completion of the store |
| `StoreRaces.LateFailureLosesReview` | src/autonomy/store.py:162-180 | a run from an empty system in which a failure report is read while the task runs and written after its result arrived: the evidence is left without a review |
| `StoreRaces.LateFailureLosesClaim` | src/autonomy/store.py:101-166 | a run in which it is written after the attempt was charged by somebody else and the task claimed again: one claim is charged twice and the new lease is gone |
| `StoreRaces.RouteOrWaitLosesReview` | src/autonomy/store.py:185-191 | a run in which `route_or_wait` finds a task under review whose only worker is stale: the lease is stranded on a waiting row and the evidence left behind |
| `GatewayRuns.MirrorAlways` | src/autonomy/gateway.py:155-244 | over every run, restarts included, each session is its worker row and a lease has at most one acknowledged dispatch; while nothing restarts every stored digest is that of the declared content |
| `GatewayRuns.RestartLoses` | src/autonomy/gateway.py:101-131 | what survives the loss of the gateway memory: sessions, dispatches and acknowledgements stay in agreement; that every lease past LEASED has an acknowledged dispatch iff no task is past it, that stored digests are those of declared content iff none is stored |
| `GatewayRuns.DispatchTells` | src/autonomy/gateway.py:282-428 | for a dispatch whose lease is current, also after restarts: result implies acknowledgement and review, acknowledged means running or in review, leased means no dispatch of the lease is acknowledged, and conversely while nothing restarts |
| `GatewayRaces.OneLeaseTwoDispatches` | src/autonomy/gateway.py:148-367 | a run from the empty store in which one lease is dispatched under two sessions and the second dispatch is acknowledged while the first still stands |
| `GatewayRuns.StepMirror` | src/autonomy/gateway.py:155-428 | every gateway call and every permitted store operation keeps memory and store in agreement |
| `GatewayRuns.ResultMirror` | src/autonomy/gateway.py:369-428 | an accepted or failed result keeps them in agreement; a refused one never reaches EVIDENCE_PENDING |
| `GatewayRuns.AckMirror` | src/autonomy/gateway.py:337-367 | an acknowledgement keeps them in agreement and is the first of its lease |
| `GatewayHistory.ReplacedLate` | src/autonomy/gateway.py:180-209 | over every run, between two moments without a restart, a worker is in another session only if a hello came at a reading later than the last observation of its session plus its SLA |
| `GatewayHistory.LiveSessionKept` | src/autonomy/gateway.py:180-183 | in every step other than a restart a worker whose session was observed within its SLA keeps its session id |
| `GatewayHistory.HelloExactly` | src/autonomy/gateway.py:155-209 | a hello is accepted iff it is what the profile of its worker says, neither stale nor from the future, and repeats the session as it stands or finds it gone or stale; session and worker row then say what it says |
| `GatewayHistory.BeatExactly` | src/autonomy/gateway.py:211-244 | a heartbeat is accepted iff it continues the session with a higher sequence number and a later observation, within SLA and capacity of the profile; session and worker row follow it |
| `GatewayHistory.SendExactly` | src/autonomy/gateway.py:282-335 | a dispatch is accepted iff the task is leased to the present worker under its unexpired lease, with the capability and target named and in the profile; the first writes the envelope |
| `GatewayHistory.AckExactly` | src/autonomy/gateway.py:337-367 | an acknowledgement is accepted iff it names a dispatch of the present worker on the unexpired lease, not observed before the session, and the task is leased, or acknowledged and running; the first starts the task |
| `GatewayHistory.ResultExactly` | src/autonomy/gateway.py:369-428 | a result is accepted iff the acknowledged dispatch still awaits one, its task runs, and it proves success by new evidence with the digest of declared content or reports a safe failure without evidence |
| `GatewayHistory.DispatchWasSent` | src/autonomy/gateway.py:282-335 | over every run a dispatch was sent for a task leased to its worker, in session, under its unexpired lease |
| `GatewayHistory.AckWasGiven` | src/autonomy/gateway.py:337-367 | over every run the acknowledgement of a dispatch was given by its worker in session while the task was leased under that lease |
| `GatewayHistory.ResultWasGiven` | src/autonomy/gateway.py:369-428 | over every run the result of a dispatch was awaited and proved success with declared content, or reported a safe failure |
| `Gateway.EligibleIsCanTake` | src/autonomy/gateway.py:246-266 | a session is eligible iff the store says its worker can take the task |
| `Gateway.KeyInjective` | src/autonomy/gateway.py:313-314 | a dispatch id determines task, worker, session and lease |
| `LocalGateway.LocalWorkerGateway.RegisterLocalHarness` | src/autonomy/gateway.py:148-209 | memory, store and answer of a registration, replay and takeover included; a worker whose session was observed within its SLA keeps its session id, and other workers keep theirs |
| `LocalGateway.LocalWorkerGateway.Heartbeat` | src/autonomy/gateway.py:211-244 | memory, store and answer of a heartbeat |
| `LocalGateway.LocalWorkerGateway.EligibleSessions` | src/autonomy/gateway.py:246-266 | exactly the eligible workers, least id first |
| `LocalGateway.LocalWorkerGateway.DispatchTask` | src/autonomy/gateway.py:282-335 | memory and envelope of a dispatch; repeating it returns the first envelope |
| `LocalGateway.LocalWorkerGateway.Acknowledge` | src/autonomy/gateway.py:337-367 | memory, store and answer of an acknowledgement |
| `LocalGateway.LocalWorkerGateway.AcceptResult` | src/autonomy/gateway.py:369-428 | memory, store and answer of a result |
| `LocalGateway.LocalWorkerGateway.DeclareEvidence` | src/autonomy/gateway.py:71-81 | declared content never changes; a conflicting declaration is refused |
| `Router.AgentRouter.RouteOnce` | src/autonomy/router.py:35-82 | tables, dispatches and answer are those of a greedy pass over the batch, an error recorded iff some claimed task id is not identifier-shaped; and, in rows, sessions and profiles: the batch is the most urgent due tasks, each ends leased to the least worker by id that could still take it, within its capacity, or waiting because nobody could, no other row changes, and no task is leased while one of the same needs and larger priority (else earlier, else of smaller id) is left unleased |
| `RoutingOutcome.MostUrgentFirst` | src/autonomy/router.py:40-56 | of two due tasks with the same capability and target, the one of smaller priority (else later, else of larger id) is leased only if the other is |
| `RoutingOutcome.EveryRowEnds` | src/autonomy/router.py:40-56 | each task of the batch ends leased to the least worker by id that could still take it, or waiting because no session could; other rows are as before |
| `RoutingOutcome.EligibleServes` | src/autonomy/gateway.py:246-266 | a worker is eligible iff its session was observed within its SLA and not in the future, its profile has capability and target, and it holds fewer unexpired leases than its capacity |
| `RoutingPass.EveryTaskEnds` | src/autonomy/router.py:40-76 | each batch task ends leased to a worker in session, or waiting with no session eligible at the end of the pass |
| `RoutingPass.EveryEnvelope` | src/autonomy/router.py:54-76 | an envelope exists for a batch task iff it is leased and its id is identifier-shaped, and it names that worker, session and lease |
| `RoutingPass.NeverRefused` | src/autonomy/router.py:51-56 | no eligible choice is refused by the claim, and no waiting is refused |
| `RoutingPass.WaitingMeansNobody` | src/autonomy/router.py:47-50 | a task left waiting has no eligible session even at the end of the pass |
| `RoutingPass.NeverSkipped` | src/autonomy/router.py:40-56 | of two tasks with the same capability and target the later is never served while the earlier waits |
| `RoutingPass.DispatchSucceeds` | src/autonomy/gateway.py:282-335 | after its claim a task is dispatched iff its id is identifier-shaped |
| `RoutingPass.ClaimSucceeds` | src/autonomy/store.py:101-113 | a claim for an eligible worker is granted with the lease asked for |
| `Router.AgentRouter.RouteTask` | src/autonomy/router.py:40-78 | one turn of the loop extends the greedy pass by one task |
| `Router.AgentRouter.BestWorker` | src/autonomy/router.py:42-51 | the choice is the least eligible worker, or nobody is eligible |
| `Ingestion.LongestPrefix` | src/autonomy/ingestion.py:214-268 | from empty tables exactly the longest prefix of the queue is persisted whose records pass and of which those of one directive are verified for one binding: their lines in order, that binding as provenance under its task id, and for each directive a task with exactly the target and capability of its first record, waiting for a human iff that record says so, governed, of priority 0 and retry budget 1; and nothing else |
| `Ingestion.IngestedExactly` | src/autonomy/ingestion.py:102-144 | whatever the tables: a file that cannot be read, was moved, cut short, rewritten or reordered changes nothing; otherwise records, provenance and tasks only grow, in the order of the file and to its end unless a record stops it |
| `Ingestion.ReadableExactly` | src/autonomy/ingestion.py:102-131 | a file is readable iff it is there, of at most 2 MiB and 4096 lines, and each line is blank or of at most 128 KiB and decodes to an object |
| `Ingestion.ContentExactly` | src/autonomy/ingestion.py:116-117 | the content of a line is the line without the LF and CR at its end |
| `Ingestion.IngestInPieces` | src/autonomy/ingestion.py:102-144 | whatever was ingested before, ingesting the file up to a line end and then the whole file equals ingesting the whole file, tables and outcome |
| `Ingestion.IngestAgain` | src/autonomy/ingestion.py:214-268 | ingesting the same file again changes nothing |
| `Ingestion.AlwaysLinked` | src/autonomy/ingestion.py:59-61 | over any sequence of files directive ids and task ids stay in bijection and every provenance row has its task |
| `Ingestion.TaskIdInjective` | src/autonomy/ingestion.py:59-61 | equal task ids come from equal directive ids and keys |
| `Ingestion.AdmitsExactly` | src/autonomy/ingestion.py:221-250 | the tables accept one more record iff it passes and agrees with every earlier record of its directive |
| `Ingestion.PrefixRepresented` | src/autonomy/ingestion.py:214-268 | a prefix is ingested without a stop iff it is admissible, and the tables then hold exactly its bindings; the approval flag of a repeated directive is not compared |
| `Ingestion.ReadAppended` | src/autonomy/ingestion.py:102-131 | a readable file cut at a line end is readable up to the cut and keeps its records |
| `QueueLines.AppendedLines` | src/autonomy/ingestion.py:110 | appending keeps the old lines and adds the new iff the old file ended a line, a lone CR not being completed by the new part |
| `QueueLines.LinesConcat` | src/autonomy/ingestion.py:110 | splitting into lines loses nothing |
| `Ingestor.DirectiveTaskIngestor.ReadRecords` | src/autonomy/ingestion.py:102-144 | the records read, or the reason the source is blocked |
| `Ingestor.DirectiveTaskIngestor.IngestRecord` | src/autonomy/ingestion.py:221-255 | one transaction: the record becomes durable, or nothing changes; a new task has the id, target, capability and flag its record was verified for, and no row is lost |
| `Ingestor.DirectiveTaskIngestor.Ingest` | src/autonomy/ingestion.py:214-268 | tables and outcome of an ingestion; it answers exactly the tasks it created, each of them what some record of the file was verified for |
| `ExternalGateway.RunProtected` | src/autonomy/external_gateway.py:78-152 | from a gateway over empty tables, over every run, restarts, re-authentication and revocation included: no message id accepted twice, no challenge used twice, sequence numbers and heartbeat times strictly increase within an authentication, result flag implies acknowledgement flag |
| `MessageHistory.EveryMessageGenuine` | src/autonomy/external_gateway.py:72-76 | over every run from a new gateway every accepted message came from a frame whose signature verified, of an enabled worker in the authenticated session and under the key it names, with a new sequence number and message id; and an acknowledgement or result names its dispatch |
| `MessageHistory.EverySessionProven` | src/autonomy/external_gateway.py:78-97 | over every run an authenticated session was opened by a signed hello of a worker enabled then, under its registered key, answering an unconsumed and unexpired challenge of its own |
| `MessageHistory.UnsignedRefused` | src/autonomy/external_gateway.py:99-105 | a frame whose signature does not verify is answered false by all three handlers and leaves messages, sessions, dispatches and store as they were |
| `MessageHistory.UnsignedHelloRefused` | src/autonomy/external_gateway.py:78-89 | a hello whose signature does not verify opens no session and consumes no challenge |
| `MessageHistory.AuthenticateExactly` | src/autonomy/external_gateway.py:78-97 | a hello is accepted iff it is signed, carries the registered key, digest and protocol and a capacity within the profile, answers a challenge, and no other session of the worker is alive; then challenge, session and worker row say so |
| `MessageHistory.BeatExactly` | src/autonomy/external_gateway.py:112-115 | a heartbeat is accepted iff its frame is genuine, later than the last and within SLA and capacity; session and worker row follow it, otherwise nothing changes |
| `MessageHistory.AckExactly` | src/autonomy/external_gateway.py:141-144 | an acknowledgement spends its message iff the frame is genuine and names an unacknowledged dispatch, and starts the task iff moreover it is leased under that unexpired lease to a fresh worker |
| `MessageHistory.ResultExactly` | src/autonomy/external_gateway.py:146-152 | a result spends its message iff the frame is genuine and names an acknowledged, unexpired dispatch without result whose evidence is in the spool under its digest, and is accepted iff moreover the store takes it |
| `MessageHistory.SendExactly` | src/autonomy/external_gateway.py:128-134 | a dispatch is sent iff the task is leased under an unexpired lease to a worker whose authenticated session it names |
| `MessageHistory.IssueExactly` | src/autonomy/external_gateway.py:57-64 | a challenge is issued iff the worker is enabled and the key registered |
| `LateMessages.LateAcceptExactly` | src/autonomy/external_gateway.py:99-110 | a frame accepted after anything may have happened since it was checked keeps replay protection iff its id is spent by then, or it comes after every accepted message of its authentication and does not set the counters of the present session back |
| `LateMessages.CheckedTogether` | src/autonomy/external_gateway.py:99-110 | of two frames of one session that are both checked before either is accepted, accepting one and then the other keeps replay protection iff they are in order of sequence numbers and heartbeat times |
| `LateMessages.DescendingAcceptance` | src/autonomy/external_gateway.py:99-110 | a run from a new gateway in which both frames of a session pass the checks and the later is accepted first, which breaks the order of sequence numbers |
| `ExternalGateway.RestartCutsOff` | src/autonomy/external_gateway.py:23-30 | after a restart every accepted message belongs to an authentication made since |
| `ExternalGateway.RevokedForever` | src/autonomy/external_gateway.py:154-157 | a revoked worker never has a message accepted again |
| `ExternalGateway.DisplacesExactly` | src/autonomy/external_gateway.py:95 | authenticating leaves the other sessions alone iff none has the same session id |
| `ExternalGateway.StepKeeps` | src/autonomy/external_gateway.py:57-157 | every handler keeps the replay protection |
| `ExternalGateway.AcceptKeeps` | src/autonomy/external_gateway.py:107-110 | accepting a message that passed the checks keeps ids distinct and counters increasing |
| `ExternalGateway.ResultKeeps` | src/autonomy/external_gateway.py:146-152 | a result flag is set only after its own message and an acknowledgement |
| `AuthenticatedGateway.AuthenticatedExternalGateway.IssueChallenge` | src/autonomy/external_gateway.py:57-64 | rows and answer of issuing a challenge; replay protection is handed on |
| `AuthenticatedGateway.AuthenticatedExternalGateway.AuthenticateSession` | src/autonomy/external_gateway.py:78-97 | rows and answer of an authentication; the challenge is consumed with it; an unsigned hello or a revoked worker is refused with nothing changed; replay protection is handed on |
| `AuthenticatedGateway.AuthenticatedExternalGateway.CheckMessage` | src/autonomy/external_gateway.py:99-105 | whether the frame is fresh, in order and from the authenticated session; one that is not signed, of a revoked worker or of a spent message id never is |
| `AuthenticatedGateway.AuthenticatedExternalGateway.Heartbeat` | src/autonomy/external_gateway.py:112-115 | rows and answer of a heartbeat; an unsigned frame, a revoked worker or a spent message id is refused with nothing changed; replay protection is handed on |
| `AuthenticatedGateway.AuthenticatedExternalGateway.SendDispatch` | src/autonomy/external_gateway.py:128-134 | rows and answer of a dispatch; replay protection is handed on |
| `AuthenticatedGateway.AuthenticatedExternalGateway.Acknowledge` | src/autonomy/external_gateway.py:141-144 | rows and answer of an acknowledgement; a refused start has still spent the message; an unsigned frame, a revoked worker or a spent message id is refused with nothing changed; replay protection is handed on |
| `AuthenticatedGateway.AuthenticatedExternalGateway.AcceptResult` | src/autonomy/external_gateway.py:146-152 | rows and answer of a result; an unsigned frame, a revoked worker or a spent message id is refused with nothing changed; replay protection is handed on |
| `AuthenticatedGateway.AuthenticatedExternalGateway.Revoke` | src/autonomy/external_gateway.py:154-157 | rows and answer of a revocation; replay protection is handed on |
| `AuthenticatedGateway.AuthenticatedExternalGateway.Restart` | src/autonomy/external_gateway.py:30 | sessions after the gateway is constructed again; replay protection is handed on |
| `RetryLimiter.LimitHolds` | src/directive/recovery_engine.py:210-235 | in every closed interval as long as the window at most `max_retries` attempts are authorised |
| `RetryLimiter.AuthorisedExactly` | src/directive/recovery_engine.py:210-235 | an attempt is authorised iff the window ending at it, refused attempts counted, holds at most `max_retries` attempts |
| `RetryLimiter.AuthorisedByCount` | src/directive/recovery_engine.py:210-235 | an attempt is authorised iff it is one of at most `max_retries` attempts, refused ones counted, made since `window` before it |
| `RetryLimiter.PrunedIsFiltered` | src/directive/recovery_engine.py:214-219 | the pruned history is the full attempt log filtered by the window |
| `RetryLimiter.RecoveryEngine.AttemptRetry` | src/directive/recovery_engine.py:210-235 | logs the attempt, authorises it by that rule and leaves other directives alone |
| `Ledger.TipBinds` | src/directive/red_team_engine.py:113-128 | two verifying ledgers with the same last hash have the same length and entries, index aside |
| `Ledger.VerifiesExactly` | src/directive/red_team_engine.py:113-128 | a ledger verifies iff it is what recording its own records builds, index aside |
| `Ledger.ChainVerifies` | src/directive/red_team_engine.py:95-111 | any sequence of recordings verifies and gives its records back |
| `Ledger.EditNoticed` | src/directive/red_team_engine.py:113-128 | replacing a record in place keeps a ledger verifying iff it is the same record |
| `Ledger.NotBound` | src/directive/red_team_engine.py:106 | changing an index, or cutting entries off the end, is never noticed |
| `Ledger.SignInjective` | src/directive/red_team_engine.py:101-103 | equal hashes come from equal previous hashes and equal records |
| `Ledger.GenesisIsNoSignature` | src/directive/red_team_engine.py:96 | the genesis text is never a signature |
| `Ledger.RedTeamAuditLedger.RecordAttack` | src/directive/red_team_engine.py:95-111 | appends the entry chained to the last one |
| `Ledger.RedTeamAuditLedger.VerifyLedgerIntegrity` | src/directive/red_team_engine.py:113-128 | true iff every entry follows its predecessor and carries its signature |
| `ServiceLoop.BoundedRun` | src/autonomy/service.py:299-325 | when IDLE writes succeed a bounded run ends, calls `run_once` at most `cycles * (limit + 1)` times, counts exactly the completed cycles, and never shortens a delay between failures in a row |
| `ServiceLoop.BoundedRunEnds` | src/autonomy/service.py:299-325 | it ends if IDLE writes stop failing transiently from some turn on, within a bound on turns and calls |
| `ServiceLoop.EndsExactly` | src/autonomy/service.py:290-325 | whatever the surroundings do, a bounded run ends iff some turn of theirs ends it: a stop is requested, or the last cycle is completed and its IDLE write succeeds, or the turn fails otherwise than transiently, once too often in a row, or without its failure being written down |
| `ServiceLoop.IdleEndsExactly` | src/autonomy/service.py:299-308 | with nothing but IDLE writes going wrong it ends iff some IDLE write after the requested cycles succeeds |
| `ServiceLoop.DelayGrows` | src/autonomy/service.py:321 | delays grow with the failure count and lie between the initial and the maximal delay |
| `ServiceLoop.DelayExactly` | src/autonomy/service.py:321 | the first delay is the initial one, and each further failure in a row multiplies it, up to the maximum |
| `ServiceLoop.RunTells` | src/autonomy/service.py:290-325 | a run that goes on has called `run_once` in each turn whose RUNNING write succeeded, counted the cycles whose IDLE write succeeded, and waited after each turn the cadence or a backoff for its failures in a row |
| `ServiceLoop.RunExits` | src/autonomy/service.py:299-333 | a run that is over was ended by the first turn that ends one: 0 on a stop or after the requested cycles, 4, 3 or 5 by the kind of exception, 5 after too many transient failures, and the exception itself when the last health write fails too; calls and durable count are those of that turn |
| `ServiceLoop.StepKeeps` | src/autonomy/service.py:299-323 | every turn keeps the durable count, the budget of calls and the chain of backoffs |
| `ServiceLoop.NothingLost` | src/autonomy/service.py:251-270 | successful IDLE writes lose no cycle |
| `ServiceLoop.AutonomyServiceHost.HandleFailure` | src/autonomy/service.py:309-323 | exit code or backoff for each kind of exception |
| `ServiceLoop.AutonomyServiceHost.TryOnce` | src/autonomy/service.py:300-306 | what one attempt does to calls, failures, cycles and the durable count |
| `ServiceLoop.AutonomyServiceHost.Run` | src/autonomy/service.py:278-333 | whenever some turn of the surroundings ends it, the loop ends there at the latest, as a run of turns, with its budget of calls kept |

## Left out

- SQLite locking and its error handling: each transaction is one atomic step, and an exception inside a
  transaction of `recover`, which leaves it open, is not modelled. `fail_attempt`,
  `complete_after_review`, `reconcile_stale_workers` and `route_or_wait` read and update without a
  transaction in the code (`src/autonomy/store.py:153-191`) and are atomic in the runs; `LateWrites` says
  exactly what their updates do when they come later than their readings.
- The three lease columns of a task row are one optional value, since every statement sets and clears
  them together; audit rows, error columns and `updated_at` are not modelled.
- Files are a map from paths to contents. Links, reparse points, protected prefixes, parent directories,
  temporary files and partial writes appear only as a step that raises; a temporary file left behind by
  a failed write is not part of the model.
- Unicode normalization, case folding and the secret filter of paths are parameters of `Plans`.
- JSON decoding, `_validate` and `_verify` are parameters of `Ingestion`, apart from the identity of the
  directive. Times of ingestion, two ingestors at once, and the transaction left open when a task id is
  taken by another table row are not modelled.
- Signatures, keys and message framing: whether a signature verifies is part of the message. The trusted
  registry never changes, which its persisted digest enforces (`src/autonomy/external_gateway.py:41-51`).
- `eligible_sessions` and the projections of the external gateway, and all other read-only projections.
- The plain `heartbeat` of the store, and protocol version strings of the local gateway.
- An unbounded service run, lock acquisition and the construction of the runtime before the loop.
- `ServiceLoop.AutonomyServiceHost.Run`: requires that some turn of the surroundings ends the run, because
  without one the loop never ends (`ServiceLoop.EndsExactly`).
- `ExecutionRecords.RunSound`: is about runs in which a recovery has its grant to itself, because it is
  false of the others (`RecoveryRace.RaceWithApplier`, `RecoveryRace.TwoRecoveries`);
  `RacingRecoveries.RacesRefineLogExactly` says exactly of which.
- `RuntimeRecovery.RestartSettlesFiles`: is about a pass in which no path check raises; a recovery that
  raises leaves its grant applying, for a later pass.
- Progress out of EVIDENCE_PENDING after the lease has expired: no step of the code does that
  (`src/autonomy/store.py:145`).
- `Scheduler`, `Supervisor.run_once`, the adapters, the providers, the state evaluator, the killswitch,
  the durable queues of the directive package and the certification generators.
