# Surviva: a verified model of the job daemon

Surviva checkpoints the jobs of a Spot instance before the instance is reclaimed and restores them elsewhere or later.
Its daemon keeps one row per job in a table, appends every status change to a history, and serves requests from
concurrent goroutines while an interruption fan-out may be checkpointing every RUNNING job. This project models that
daemon, its store, the IMDS poller and token cache that trigger it, and the two parsers beside it, and proves what
holds over every schedule of goroutines, every run of requests and every input.

## How the model is laid out

| module | part of the system |
|---|---|
| `Lifecycle`, `JobTable`, `JobStore` | statuses and transition table; the two tables as values; the store object that owns them |
| `Requests`, `WholeRequests`, `World` | requests and the outside world's answers; each request as one step; runs of requests, fan-outs and prunes with the disk |
| `Daemon` | the daemon object: every handler as a method over the store, proved against `World` |
| `Machine` | the same handlers as interleaved goroutines, with `UpdateStatus` and `UpdatePID` split into read and commit, and the fan-out with its latch, semaphore and wait-group |
| `MachineSafety`, `Freshness` | what survives every interleaving, and what needs updates not to overlap |
| `Provenance` | under interleaving: each row, pid, reason, history entry and signal traced back to a request, a look at the table and an answer of the outside world |
| `Marks`, `Restores`, `Images`, `Directories` | under interleaving: marks the store refuses, the processes restores start, the images dumps leave, the directories adopts claim |
| `Races` | schedules from a freshly started daemon that show each condition to be needed |
| `FanOut`, `Interruption`, `Confluence`, `Solo` | the fan-out's bound, progress and termination; who slips past the latch; the fan-out against its sequential form; one handler against its whole request |
| `WorldSafety`, `Checkpoints` | quiescence, the edges in use, directories, checkpoints on disk, prune |
| `Poller`, `TokenCache` | the edge-triggered signal loop; the IMDSv2 token cache |
| `ConfigText`, `Config`, `ConfigValues`, `ConfigLaws`, `ConfigRendering` | surviva.conf: lines, validation, the accepted files in full, layout laws, rendering |
| `Argv`, `Numerals` | argv decoding; decimal numerals |

`dafny verify dfyconfig.toml` checks the whole project.

Standing assumptions: database calls do not fail for I/O reasons; a registered process leads its own group (pid equals
pgid, positive, as `run` and `join` send it); a restored process has a positive pid; checkpoint and restore error texts
are not empty; a dump that reports success has written an image. They are the predicates `Requests.Sane` and
`Requests.Plausible`.

## Where the code and its documentation part

- `docs/specs/daemon.md:154` says a job's status arbitrates races and `docs/specs/store.md:115` that nothing leaves a
  terminal status. Both updates validate before their transaction, so a job's history is a chain, and a terminal job
  stays as it is, exactly when none of its commits is stale (`Freshness.ChainedIffFresh`, `Freshness.TerminalAbsorbs`);
  `Races.UnguardedRace` brings a job to COMPLETED and then to CANCELED.
- A RUNNING job can carry an error text (`Races.ReasonRace`): exactly when a restore is committed over a failing status
  (`Freshness.ReasonAgreesIff`).
- checkpointJob and resumeJob go ahead when their mark is refused. Even with every update one step, two resumes can start
  two processes of which one is recorded (`Races.DoubleRestore`, `Restores.EveryRestoreRecordedIff`).
- A job can claim an image that is gone, in exactly two ways (`Images.ImageKeptIff`): a failed dump overwrites it while
  the row or a report on its way counts on it, which fresh commits leave to dumps whose mark was refused
  (`Races.LateDump`, with every update one step), or an update claims it anew after it was lost, which only a stale
  commit does (`Races.StaleMark`).
- Adopt scans and inserts in two steps, as its comment admits, so two adopts can share a directory
  (`Races.DoubleAdopt`), and a stale update can bring back a terminal job whose directory was adopted since
  (`Races.RevivalRace`); `Directories.DirectoriesApartIff` says that active jobs share one in exactly these two ways.
- `docs/specs/daemon.md:409` and `:445` say prune leaves every active job's directory alone. Adopt's scan looks at
  active jobs only, so a finished job's directory can be adopted and then pruned (`Checkpoints.AdoptedThenPruned`);
  `Checkpoints.PruneKeepsIff` and `Checkpoints.PruneAllKeepsIff` give the exact condition.
- A `PollIntervalSeconds` above 9223372036 is accepted and wraps around 64 bits (`ConfigRendering.PollIntervalExact`,
  `ConfigRendering.PollIntervalOverflows`).
- A token answered empty with status 200 is not cached (`TokenCache.NextFetchIff`), so the spacing of fetches
  holds for non-empty tokens.
- Trailing empty arguments of a process are not recovered (`Argv.ArgvRoundTrip`).

## Model

| member | source | states |
|---|---|---|
| `Freshness.ChainedIffFresh` | internal/store/store.go:414-448 | for every schedule of every mix of handlers, with updates split into read and commit, a job's history is an unbroken path of table edges from its inserted status to its row's status if and only if no commit of that job acted on an outdated read |
| `Freshness.FreshJobLaws` | internal/store/store.go:39-84 | for such a job, replaying its history recovers its status, its checkpoints balance with its restores, and it has a failure reason exactly in the three failing statuses |
| `Freshness.ReasonAgreesIff` | internal/store/store.go:434-476 | for every schedule with split updates, a job's failure reason is non-empty exactly in the failing statuses all along if and only if no UpdatePID of the job is committed over a failing status |
| `Freshness.FreshNeverSmeared` | internal/store/store.go:462-476 | a fresh UpdatePID is never committed over a failing status |
| `Freshness.ReasonAgreesWithStatus` | internal/store/store.go:434-476 | so a job with fresh commits has a failure reason exactly in FAILED, CHECKPOINT_CREATION_FAILED and RESTORE_FAILED |
| `Freshness.TerminalAbsorbs` | internal/store/store.go:39-74 | from any safe state with the job terminal, along every further schedule, the job keeps its status, reason, pid and history if and only if none of its commits is stale |
| `Freshness.NeverOverlapFresh` | internal/store/store.go:414-487 | updates of one job that never overlap are fresh, whatever happens to other jobs |
| `Freshness.AtomicNeverOverlaps` | internal/store/store.go:414-487 | if every update is one step, no two updates of any job overlap |
| `Freshness.AtomicFresh` | internal/store/store.go:414-487 | if every update is one step, every job of every schedule is fresh and so keeps the laws above |
| `Freshness.StaleBreaksChain` | internal/store/store.go:419-446 | a commit from a status the row has left always breaks the chain |
| `Freshness.Overlap` | internal/store/store.go:414-487 | any two acceptable updates of a job that both read before either commits are both written, one over the other, and both recorded from the status they read |
| `Freshness.OverlapBreaksChain` | internal/store/store.go:419-446 | so the second commit breaks the chain, whatever the updates are, and its status is the one that stays |
| `Races.UnguardedRace` | internal/daemon/daemon.go:442-489 | a schedule from start-up with a completion report and a cancel: one step before its end the job is COMPLETED, at its end CANCELED, and the history is RUNNING to COMPLETED, RUNNING to CANCELED |
| `Races.ReasonRace` | internal/daemon/daemon.go:552-572 | a schedule from start-up with two resumes of an adopted job, one failing and one succeeding, leaves it RUNNING with the error text; its last step is the UpdatePID over RESTORE_FAILED |
| `Restores.RestoreAccount` | internal/daemon/daemon.go:552-572 | for every schedule, the processes started from a job's checkpoints are those recorded, those the store refused and those on their way |
| `Restores.RecordedOnes` | internal/store/store.go:453-487 | the recorded ones number the restores in the job's history |
| `Restores.RefusedIff` | internal/store/store.go:458-464 | the store refuses a restored pid if and only if the job is not RESTORE_PENDING when it is validated |
| `Restores.EveryRestoreRecordedIff` | internal/daemon/daemon.go:552-572 | with none on its way, every started process is on record if and only if no restore was refused, and otherwise as many run unrecorded |
| `Restores.OnlyRefusedMarksRefuse` | internal/daemon/daemon.go:553-567 | with fresh commits, if no resume's mark is refused then no restored process is refused |
| `Marks.SoleExec` | internal/daemon/daemon.go:530-572 | with fresh commits and accepted marks, at most one thread at a time is dumping, or restoring, a job, and the row says so |
| `Races.DoubleRestore` | internal/daemon/daemon.go:553-569 | with every update one step, two resumes of one job start two processes; one is recorded |
| `Images.ImageKeptIff` | internal/daemon/daemon.go:530-549 | for every schedule with split updates, the image of a job's last successful dump or adopt is in its directory all along whenever its row or a report on its way says so, if and only if no failed dump overwrites it while that is so and no update claims it again once it is gone |
| `Images.ResumableHasImage` | internal/daemon/daemon.go:421-432 | so under that condition a job in CHECKPOINT_CREATED, RESTORE_PENDING or RESTORE_FAILED has that image |
| `Images.FreshNeverRegained` | internal/store/store.go:419-435 | only a stale commit claims an image that is gone |
| `Images.OnlyRefusedMarksSpoil` | internal/daemon/daemon.go:531-536 | with fresh commits, only a dump that went ahead after its mark was refused can overwrite an image that is counted on |
| `Images.UndisturbedImageKept` | internal/daemon/daemon.go:530-549 | with fresh commits and accepted marks, a job that claims an image has it all along |
| `Races.LateDump` | internal/daemon/daemon.go:531-546 | with every update one step, two pauses of one job end with it CHECKPOINT_CREATED and nothing in its directory |
| `Races.StaleMark` | internal/store/store.go:414-448 | a schedule from start-up: one resume validates its mark, another resumes the job, a pause dumps it in vain, the first commits its mark; the job ends RESTORE_FAILED, resumable, with nothing in its directory |
| `Directories.DirectoriesApartIff` | internal/daemon/daemon.go:294-326 | for every schedule with default directories for registrations and adopted ones outside the base, no two active jobs share a filled-in directory all along if and only if no adopt inserts a directory taken since its scan and no update brings back a terminal job whose directory was taken since |
| `Directories.PromptScansDoNotClash` | internal/daemon/daemon.go:294-326 | neither happens when a scan and its insert are one step and all commits are fresh |
| `Races.DoubleAdopt` | internal/daemon/daemon.go:294-326 | with every update one step, two adopts of one directory both pass the scan and both jobs are active in it |
| `Races.RevivalRace` | internal/store/store.go:414-448 | a schedule from start-up: a resume validates its mark, a cancel ends the job, its directory is adopted again, the resume commits its mark; both jobs are active in one directory |
| `MachineSafety.SplitUpdatesStayOnTable` | internal/store/store.go:414-500 | under every interleaving, with split updates, every history entry is a table edge of an existing job and a job's last entry, or else its inserted status, is its row's status |
| `MachineSafety.PidProvenance` | internal/daemon/daemon.go:450-454 | under every interleaving pid equals pgid and is the latest recorded restore's, else the registered one; it is 0 exactly for adopted jobs without a recorded restore, RUNNING jobs have a process, and cancel never signals group 0 |
| `MachineSafety.RunningHasProcess` | internal/daemon/daemon.go:238-251 | in every safe state a RUNNING job has a positive process group |
| `Provenance.RowsAreAsAsked` | internal/daemon/daemon.go:238-265 | for every schedule, every row was inserted by the goroutine on record for it, for the request that goroutine serves: with its pid, pgid, hooks and times, RUNNING, if it is a registration, without a process and CHECKPOINT_CREATED if it is an adopt; its directory is the one asked for or else the base directory with the id |
| `Provenance.PidsAreAnswers` | internal/daemon/daemon.go:552-572 | for every schedule, the pid of a job without a recorded restore is the registered one, and otherwise that which a successful restore of the job answered to a resume that named it and found it resumable; so is every recorded pid |
| `Provenance.SignalsAreSightings` | internal/daemon/daemon.go:446-454 | for every schedule, each process group signalled is the one a cancel saw in the row of the job it named when it found it RUNNING |
| `Provenance.SignalsAreRecorded` | internal/daemon/daemon.go:450-454 | and every group that is signalled along a schedule is among those |
| `Provenance.EntriesAreAttributed` | internal/daemon/daemon.go:401-489 | for every schedule, each history entry is the commit, at that place in the history, of a goroutine whose request named the job, found it in the status the request is for and carries the recorded actor, with the status, text and pid that its dump, restore or report calls for; or of a fan-out worker started for the job, as "daemon"; a RUNNING job is cancelled only after its group was signalled |
| `Provenance.ReasonsAreTexts` | internal/daemon/daemon.go:475-567 | for every schedule, a failure reason is the text of a failed dump or restore of the job, or of a report of its failure, or that report's exit code |
| `Provenance.OneCaller` | internal/daemon/daemon.go:154 | a goroutine serves one request, or is one worker, so the above is unambiguous |
| `Provenance.TracedExec` | internal/daemon/daemon.go:143-155 | the invariant behind these holds after every schedule |
| `MachineSafety.SafeStep` | internal/daemon/daemon.go:223-625 | the invariant behind the two rows above is kept by every step of every handler, worker and fan-out |
| `MachineSafety.SafeExec` | internal/daemon/daemon.go:143-155 | and so by every schedule |
| `Interruption.NoJobSlipsThrough` | internal/daemon/daemon.go:577-625 | for every interleaving, a job RUNNING when the fan-out returns was restored on record after the fan-out's snapshot, or registered after it by a request that had passed the latch before it was set |
| `Interruption.LateHandlerIsTurnedAway` | internal/daemon/daemon.go:223-407 | a register, adopt or pause that has not passed the latch when it is set never changes a table, along every schedule |
| `Interruption.ShieldExec` | internal/daemon/daemon.go:582-622 | the invariant behind both: every job of the snapshot that is RUNNING is still to be marked by a worker or was restored since |
| `FanOut.SemaphoreDiscipline` | internal/daemon/daemon.go:611-622 | in every reachable state the workers inside checkpointJob number at most the tokens out, which are at most the bound; a fan-out that has returned has no token out, an empty wait-group and no worker left |
| `FanOut.FanOkExec` | internal/daemon/daemon.go:611-622 | tokens and wait-group agree with what workers and loop hold in every reachable state, with any handlers beside them |
| `FanOut.MeasureStep` | internal/daemon/daemon.go:611-622 | every effective step of the loop or a worker lowers the measure and no handler raises it |
| `FanOut.BoundedWork` | internal/daemon/daemon.go:611-622 | after its snapshot a fan-out takes at most as many steps as the measure says, under every schedule |
| `FanOut.NoDeadlock` | internal/daemon/daemon.go:613-622 | while it has not returned, the loop or one of its workers can take a step |
| `FanOut.HeldUpIff` | internal/daemon/daemon.go:612-615 | the loop waits for a token exactly when as many workers as the bound hold one |
| `FanOut.ReturnsEventually` | internal/daemon/daemon.go:613-622 | from every state its own steps bring it to its return within the measure |
| `FanOut.AllGone` | internal/daemon/daemon.go:616-622 | an empty wait-group means no token out and every worker gone |
| `FanOut.FanOutsDoNotOverlap` | internal/daemon/provider/aws/aws.go:33-46 | callbacks run inline: in every reachable state a signal during a fan-out starts nothing, and when one starts, the one before has no token out, an empty wait-group and no worker left |
| `Confluence.FanOutIsSequential` | internal/daemon/daemon.go:577-625 | with no request in flight, for every store, listing order, bound, dump outcome and worker schedule, the rows and per-job histories are those of checkpointing the RUNNING jobs one at a time |
| `Confluence.FanOutIsOneEvent` | internal/daemon/daemon.go:577-625 | so every such schedule leaves the rows and per-job histories of the interruption event of `World`, which is what Daemon.Service.HandleInterruption is proved to do |
| `WholeRequests.CheckpointAllEffect` | internal/daemon/daemon.go:530-549 | one at a time, each RUNNING job ends by its own dump's outcome with exactly two "daemon" entries and every other job is unchanged |
| `WholeRequests.CheckpointJobEffect` | internal/daemon/daemon.go:530-549 | a checkpoint of a RUNNING job changes that row only, to CHECKPOINT_CREATED without a reason or to CHECKPOINT_CREATION_FAILED with the dump's error text, with two entries |
| `WholeRequests.ResumeJobEffect` | internal/daemon/daemon.go:552-572 | a resume of a resumable job changes that row only, to RUNNING with the pid the restore answered as pid and pgid, or to RESTORE_FAILED with its error text, with two entries |
| `WholeRequests.NamedEffect` | internal/daemon/daemon.go:401-489 | pause, resume, cancel and complete rewrite the row they name exactly when it is in the right status (and the signal of a cancel went through), column by column as their outcome says, with the entries that lead there; otherwise they change nothing |
| `Solo.UndisturbedHandlerIsWholeRequest` | internal/daemon/daemon.go:223-489 | the two granularities agree: a handler's goroutine run alone ends within seven steps and leaves the table its whole-request function gives |
| `WorldSafety.Quiescence` | internal/daemon/daemon.go:401-572 | in every run of whole requests, fan-outs and prunes no job rests in CHECKPOINT_IN_PROGRESS or RESTORE_PENDING, and the edge CHECKPOINT_CREATION_FAILED to CHECKPOINT_IN_PROGRESS is never recorded |
| `WorldSafety.RecordedIff` | internal/store/store.go:47-74 | the edges on record over all runs are exactly the 13 listed: the 14 of the table but for that one |
| `WorldSafety.ActiveDirectoriesDistinct` | internal/daemon/daemon.go:256-326 | with default directories for registrations and adopted directories outside the base, no two active jobs share a directory in any run |
| `WorldSafety.RegisterServed` | internal/daemon/daemon.go:223-265 | a registration is turned away exactly by the latch or a bad hook, and otherwise adds one row with the request's pid, pgid, hooks and times, in its own or the default directory |
| `WorldSafety.AdoptServed` | internal/daemon/daemon.go:273-326 | an adopt is turned away exactly by the latch, a missing or bad directory or one a job outside FAILED, CANCELED and COMPLETED has, and otherwise adds one resumable row without a process |
| `WorldSafety.NamedServed` | internal/daemon/daemon.go:401-489 | any other request changes the row it names, or nothing; a pause that does leaves what its dump left in that row's directory, and nothing else touches the disk |
| `WorldSafety.EachStage` | internal/daemon/daemon.go:591-621 | each worker of a fan-out finds its job still RUNNING and unchanged and rewrites its row only |
| `Checkpoints.ResumableIsRestorable` | internal/daemon/daemon.go:491-572 | in every run whose job directories are pairwise non-nested, every job in CHECKPOINT_CREATED or RESTORE_FAILED still has in its directory what its last successful dump, or its adopt, left there |
| `Checkpoints.PruneKeepsIff` | internal/daemon/daemon.go:492-503 | the prune of a named terminal job changes no row and spares another job's checkpoint if and only if the terminal job's directory is not that of the other job or above it |
| `Checkpoints.PruneAllKeepsIff` | internal/daemon/daemon.go:506-519 | a prune of everything, failures included, spares a job's checkpoint if and only if no terminal job's directory contains it whose removal succeeds or takes it before failing |
| `Checkpoints.AdoptedThenPruned` | internal/daemon/daemon.go:294-326 | a run from an empty store: register a job in d, pause, cancel, adopt d, prune the cancelled job; the adopted job is CHECKPOINT_CREATED and its checkpoint gone |
| `Checkpoints.PruneTakesAdopted` | internal/daemon/daemon.go:294-326 | and so for every finished job whose directory no active job has |
| `Checkpoints.PruneExactly` | internal/daemon/daemon.go:506-519 | exactly what the removals of listed directories take is gone, and the rest is as it was |
| `Checkpoints.PruneTwice` | internal/daemon/daemon.go:506-519 | a repeat after a prune without failures changes nothing on disk, whatever the order of its own listing |
| `Lifecycle.ReplayIffChain` | internal/store/store.go:502-534 | reading a history forwards yields a status exactly when the history is a chain of table edges ending there |
| `Lifecycle.TransitionTable` | internal/store/store.go:45-74 | there are exactly these 14 edges |
| `Lifecycle.TerminalIff` | internal/store/store.go:36-43 | a status drops out of the listings exactly when it is FAILED, CANCELED or COMPLETED, and these are exactly the statuses no update leaves |
| `Lifecycle.Conservation` | internal/store/store.go:47-74 | along every recorded chain, successful checkpoints, plus one if adopted, minus successful restores is 1 in CHECKPOINT_CREATED, RESTORE_PENDING and RESTORE_FAILED, 0 or 1 in CANCELED and 0 elsewhere |
| `Lifecycle.ChainStopsAtTerminal` | internal/store/store.go:39-74 | nothing follows an entry into a terminal status in a chain |
| `JobTable.ListingsPartition` | internal/store/store.go:362-407 | every row is in exactly one of List and ListTerminal, as stored |
| `JobTable.ListingIds` | internal/store/store.go:387-407 | a listing has as many rows as the table has of its kind |
| `JobTable.RunningIdsAll` | internal/daemon/daemon.go:591-596 | the fan-out's plan is exactly the RUNNING jobs, each once |
| `JobStore.Store.Insert` | internal/store/store.go:328-346 | adds the row under the next id and returns that id formatted, or fails without any change when the 64-bit ids are used up |
| `JobStore.Store.Get` | internal/store/store.go:349-359 | the row an id string names, or none for a malformed or unknown id |
| `JobStore.Store.UpdateStatus` | internal/store/store.go:414-448 | refuses unknown ids and transitions outside the table without any change, else writes status, reason and one history entry |
| `JobStore.Store.UpdatePID` | internal/store/store.go:453-487 | likewise for pid, pgid and RUNNING, leaving the reason |
| `JobStore.Store.RecordHistory` | internal/store/store.go:492-500 | appends one entry and changes no row |
| `JobStore.Store.UpdateCheckpointDir` | internal/store/store.go:539-555 | changes the directory of the named row only |
| `JobStore.Store.History` | internal/store/store.go:504-534 | exactly the job's entries, oldest first |
| `JobStore.Store.Select` | internal/store/store.go:362-407 | exactly the terminal, or the active, rows, once each, by registration time |
| `JobStore.Store.List` | internal/store/store.go:362-382 | exactly the rows not in FAILED, CANCELED or COMPLETED, once each, by registration time |
| `JobStore.Store.ListTerminal` | internal/store/store.go:387-407 | exactly the rows in FAILED, CANCELED or COMPLETED, once each, by registration time |
| `JobStore.OrderByRegistration` | internal/store/store.go:363-381 | orders any set of rows by registration time without loss or repetition |
| `Daemon.Service.HandleRegister` | internal/daemon/daemon.go:223-265 | refuses a missing payload, a set latch, a bad hook or a full table without any change, else adds one row with the request's pid, pgid, hooks and times, RUNNING, in its own or the default directory |
| `Daemon.Service.HandleAdopt` | internal/daemon/daemon.go:273-326 | refuses in the order of the checks without any change, else adds one CHECKPOINT_CREATED row without a process, with the request's directory and hooks |
| `Daemon.Service.InUse` | internal/daemon/daemon.go:299-309 | the scan finds a directory exactly when some active job has it |
| `Daemon.Service.CheckpointJob` | internal/daemon/daemon.go:530-549 | the tables and the disk after a checkpoint, also when the store refuses an update; for a RUNNING job the new row and its two entries |
| `Daemon.Service.HandlePause` | internal/daemon/daemon.go:401-419 | every refusal and answer, and the world after it |
| `Daemon.Service.ResumeJob` | internal/daemon/daemon.go:552-572 | the tables after a restore, also when the store refuses an update; for a resumable job RUNNING with the answered pid as pid and pgid, or RESTORE_FAILED with the error text |
| `Daemon.Service.HandleResume` | internal/daemon/daemon.go:421-440 | every refusal and answer, and the world after it |
| `Daemon.Service.HandleCancel` | internal/daemon/daemon.go:442-459 | signals the process group of the job if it is RUNNING and nobody otherwise, refuses on a failed signal or an invalid transition, and the world after it |
| `Daemon.Service.HandleComplete` | internal/daemon/daemon.go:461-489 | a report for a job past RUNNING is answered as stale and changes nothing; otherwise COMPLETED or FAILED with a reason |
| `Daemon.Service.HandlePrune` | internal/daemon/daemon.go:491-520 | pruned count plus failures is the number of terminal rows, the failures are exactly the terminal jobs whose removal failed, and no row or entry changes |
| `Daemon.Service.PruneTerminal` | internal/daemon/daemon.go:506-519 | the same for the loop over all terminal jobs |
| `Daemon.Service.SelectRunnable` | internal/daemon/daemon.go:591-596 | exactly the RUNNING jobs of the listing, in order |
| `Daemon.Service.CheckpointRunnable` | internal/daemon/daemon.go:613-621 | the world after the workers have run one by one |
| `Daemon.Service.HandleInterruption` | internal/daemon/daemon.go:577-625 | sets the latch and checkpoints every RUNNING job of its listing |
| `Daemon.FindFormat` | internal/store/store.go:559-565 | the id string the store returned names its row again |
| `Machine.MaxConcurrent` | internal/daemon/daemon.go:98-102 | the bound is the configured one if that is positive and the number of CPUs otherwise |
| `Numerals.ParseFormat` | internal/store/store.go:559-565 | parsing a formatted 64-bit id gives the id back |
| `Numerals.SpellingsOf` | internal/store/store.go:557-565 | a string parses as n exactly when n fits 64 bits and the string is a fitting sign, any number of zeros and the digits of n |
| `Numerals.FormatInjective` | internal/store/store.go:341-345 | distinct ids have distinct spellings |
| `Poller.Run` | internal/imds/poller.go:43-80 | over any number of ticks the loop fires the first recommendation unless a notice came before it, and then the first notice |
| `Poller.SignalDiscipline` | internal/imds/poller.go:14-80 | each callback fires at most once, at the first tick that reports its signal, nothing fires after the notice, further ticks only extend what fired, so a run starts at most two fan-outs |
| `Poller.Settled` | internal/imds/poller.go:71-77 | once a notice was seen, later ticks change nothing |
| `Poller.Every` | internal/imds/poller.go:35-40 | the poller's interval is the given one if that is positive and five seconds otherwise |
| `TokenCache.Client.GetToken` | internal/imds/client.go:52-83 | hands out the cached token until 30s before its expiry, else the one just granted, which it keeps, else nothing, keeping what it had |
| `TokenCache.HandedOut` | internal/imds/client.go:18-19 | in nanoseconds: a token is used until 30s before six hours after its fetch; any other call hands out what the server grants, and nothing if it grants nothing |
| `TokenCache.Provenance` | internal/imds/client.go:52-83 | a cached token is that of the latest fetch |
| `TokenCache.TokenOutlivesItsUse` | internal/imds/client.go:52-100 | over any calls with a monotone clock and exchanges within 5s, every token handed out, cached or just fetched, is the one its exchange granted, has more than 25s of server-side life left and outlives the request it is used in |
| `TokenCache.FetchesAreSpaced` | internal/imds/client.go:52-83 | after a fetch of a non-empty token the next one is at least 6h minus 30s away |
| `TokenCache.NextFetchIff` | internal/imds/client.go:56-58 | a later call, with no fetch between, asks the server again if and only if the token was empty or is within 30s of its expiry |
| `ConfigText.SpellingDoesNotMatter` | internal/config/config.go:90-103 | a line with a directive's name, each letter in either case, and any white space around its parts reads as that directive with the trimmed value |
| `ConfigText.DirectiveIff` | internal/config/config.go:90-103 | a line reads as a directive exactly when it is white space, the name in any case, white space, an equals sign and the rest, which is its value once trimmed |
| `ConfigText.SkipIff` | internal/config/config.go:90-93 | a line is skipped exactly when it is white space or a comment behind white space; whatever else is no directive is a fault |
| `ConfigText.CommentIsSkipped` | internal/config/config.go:90-93 | a comment, indented or not, is skipped |
| `ConfigText.BlankIsSkipped` | internal/config/config.go:90-93 | a line of white space is skipped |
| `ConfigText.KeyOfName` | internal/config/config.go:135-151 | the 15 directive names are told apart |
| `Config.ReadLines` | internal/config/config.go:87-104 | the loop computes the fold of the lines and stops at the first faulty one |
| `Config.FoldFails` | internal/config/config.go:94-102 | reading fails if and only if some line is faulty |
| `Config.LastWins` | internal/config/config.go:98-103 | a directive is present exactly when some line sets it, with the value of the last such line |
| `Config.ValidateHost` | internal/config/config.go:168-199 | provider, poll interval, audit log and base directory, or a true complaint about one of them |
| `Config.ValidateBackend` | internal/config/config.go:210-239 | the fields of the chosen backend only, or a true complaint |
| `Config.ValidateNotify` | internal/config/config.go:241-258 | both notify directives or neither, or a true complaint |
| `Config.Validate` | internal/config/config.go:165-276 | accepts exactly the files that give every needed directive and only admissible values where they are consulted, gives their meaning, and otherwise complains about something that is so |
| `Config.JustifiedMeansUnacceptable` | internal/config/config.go:165-276 | a complaint is never made about an acceptable file |
| `ConfigValues.DocumentedLine` | internal/config/config.go:94-103 | each of the fifteen directives, spelled as documented, reads as that directive with the trimmed value |
| `ConfigValues.AcceptedIff` | internal/config/config.go:165-276 | the accepted files in full: provider aws, positive poll interval, log and base directory; DBPath, or host, positive port, user and name if DBType says mysql; both notify directives with a known type or neither; a positive bound if any; words in any case |
| `ConfigValues.HostFields` | internal/config/config.go:168-199 | provider, log, base directory, bound and socket group of an accepted file, the last two 0 and empty if not given |
| `ConfigValues.BackendFields` | internal/config/config.go:201-239 | sqlite and its path unless DBType says mysql, and then the server's fields, the password empty if not given |
| `ConfigValues.NotifyFields` | internal/config/config.go:241-258 | the notify target as given, its type in lower case, or neither |
| `ConfigValues.ValueCaseDoesNotMatter` | internal/config/config.go:172-205 | writing the provider, the DBType or the notify type in another case changes neither whether a file is accepted nor what it means |
| `ConfigLaws.Load` | internal/config/config.go:75-115 | text to Config: succeeds exactly when every line reads and the directives are acceptable; otherwise it reports the fault of the first bad line or a true complaint |
| `ConfigLaws.BlankLineAnywhere` | internal/config/config.go:90-93 | inserting a blank line anywhere changes neither the directives read nor the fault reported, hence neither the Config nor whether loading fails |
| `ConfigLaws.CommentAnywhere` | internal/config/config.go:90-93 | nor does inserting a comment |
| `ConfigLaws.SpellingAnywhere` | internal/config/config.go:94-103 | nor does changing the case of a name or the padding of a line |
| `ConfigLaws.OrderDoesNotMatter` | internal/config/config.go:87-104 | only which lines a file holds matters, not their order or number, when lines for the same directive agree |
| `ConfigLaws.PermutedLines` | internal/config/config.go:87-104 | permuting the lines of a file without duplicate directives changes nothing |
| `ConfigLaws.LastDuplicateWins` | internal/config/config.go:103-103 | a line whose directive is set again later could be left out |
| `ConfigRendering.RoundTrip` | internal/config/config.go:75-115 | a canonical rendering of any valid Config loads back to it |
| `ConfigRendering.LoadableIffValid` | internal/config/config.go:165-276 | the Configs that some text loads to are exactly the valid ones: one backend's fields, a notify target only with a supported type, positive numbers, trimmed values |
| `ConfigRendering.LastLineUnended` | internal/config/config.go:88-90 | the last line of a file counts whether or not a newline ends it |
| `ConfigRendering.ReturnsDropped` | internal/config/config.go:88-90 | a file whose lines end in a carriage return and a newline has the same lines as one with newlines alone |
| `ConfigRendering.MeaningHasOneBackend` | internal/config/config.go:201-239 | an accepted file sets exactly one backend's fields |
| `ConfigRendering.MeaningNotifies` | internal/config/config.go:241-258 | an accepted file has a notify type exactly when both notify directives are present |
| `ConfigRendering.PollIntervalExact` | internal/config/config.go:185-189 | the daemon polls at the interval asked for if and only if that is at most 9223372036 seconds |
| `ConfigRendering.PollIntervalOverflows` | internal/config/config.go:185-189 | a file that asks for any number of seconds from 9223372037 to 18446744073 is accepted, and the daemon then polls every five seconds |
| `Argv.ArgvRoundTrip` | internal/procinfo/procinfo_linux.go:18-25 | decoding the kernel's encoding of any NUL-free argv gives argv without its trailing empty arguments, and argv itself if and only if the last is non-empty or the only one |
| `Argv.DecodedArgv` | internal/procinfo/procinfo_linux.go:18-25 | for any non-empty file, the decoded arguments are NUL-free and give the file back with NULs between them and at the end; the last is empty only if it is the only one |
| `Argv.NothingToDecode` | internal/procinfo/procinfo_linux.go:18-22 | nothing is decoded exactly when the file cannot be read or is empty |

## Left out

- SQL text, drivers, DSN building, schema migration and database I/O failures: the tables are a map and a sequence, and a transaction is one step.
- MySQL's count of affected rows, which can be 0 for an update that changes nothing visible.
- CRIU, hook scripts, signalling and process attributes: each call's outcome is an arbitrary plausible answer.
- Hook-path and checkpoint-directory probes: one answer per request; an adopt that passes finds its directory on disk.
- Sockets, group ownership, JSON, request dispatch, and the list, show and ping requests, which only read.
- The notifier, the audit log and log messages; error texts are modelled as reasons, not as strings, except where stored.
- The command line and its output.
- The columns updated_at and changed_at; registered_at is an arbitrary integer.
- Directories are sequences of path components: unclean paths, symbolic links and other aliases are not modelled.
- Images.ImageKeptIff: follows one job's directory, taken to be its own and known to the dump; a job listed between its insert and its default directory, and nested directories under interleaving, are not modelled.
- The disk as a whole, and prune, under interleaving: `World` has both with whole requests only.
- Restore is taken to leave the images in place.
- Restarting the daemon on an existing database, and a crash between two store calls.
- Daemon.Service.HandleInterruption: runs its workers one by one; their concurrency is in `Machine`, `FanOut` and `Confluence`, and `Confluence.FanOutIsOneEvent` ties the two.
- Daemon.Service.CheckpointRunnable: is that one-by-one loop.
- ConfigText.SpellingDoesNotMatter: case mapping is ASCII only.
- Config.ReadLines: the scanner's limit on the length of a line, read errors and the permission warning are not modelled.
- Poller.Run: a run of ticks ends where the context is cancelled, and the contents of the notices are not modelled.
- TokenCache.Client.GetToken: the mutex is modelled by taking calls one after the other.
