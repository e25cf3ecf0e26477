# ANA workspace plane: verification model

A Dafny model of the stateful core of ANA, with proofs of what it guarantees over whole runs. `dafny verify
dfyconfig.toml` checks everything.

## What is modelled

**The workspace lifecycle** (`Lifecycle*.dfy`, `InstallPool.dfy`, `Controller.dfy`). Install workers, the probe
scheduler with its install watchdog, creates, deletes, Start and the performing Stop act on one table of workspace
rows. `Lifecycle.dfy` is the step relation: a step is one mutex-held region, one repository call, or one arbitrary
outcome of code outside (factories, Init, plugin placement, Install, Probe, Open, Uninstall, Clear, contexts,
clocks). The state holds the rows, the pool with its queue, both maps, tokens and workers, a stage per worker with
the row it read, a stage per API call, the create mutex, the scheduler and its probes, the in-flight count and the
stage of Stop. `LifecycleInv.dfy` has the invariant, the next four files show that every step keeps it, and
`LifecycleTheorems.dfy` states what follows for runs, `LifecycleShutdown.dfy` what a clean Stop leaves behind,
`LifecycleHistory.dfy` what a step owes to earlier ones, `LifecycleCancel.dfy` whom a cancel reaches,
`LifecycleInstalls.dfy`, `LifecycleRequests.dfy`, `LifecycleTicks.dfy` and `LifecycleSwitch.dfy` what installs, calls,
ticks, Start and Stop achieve, step by step and from end to end, and `LifecycleLimits.dfy` has the run in which a delete is no fence. `InstallPool.dfy` proves the pool on its own, without the
assumption that an id is submitted once; `Controller.dfy` is the class over the real fields, with the in-place filter
on a shared array, where each method that changes the fields is a step of that pool.

**The workspace repository and keyset paging** (`Base64.dfy`, `Keys.dfy`, `Paths.dfy`, `Workspaces.dfy`,
`Paging.dfy`, `WorkspaceRepository.dfy`). Rows, transitions, the cursor codec down to base64, one page, a scan over a
table that changes between pages, and the class with both maps.

**The localdir begin/clear protocol** (`LocalDir.dfy`). The lock state, its condition variable with sleepers and
broadcasts, cancelled waits and root handles.

**Registry, cycle check, clone and routing** (`RuntimeConfig.dfy`, `Registry.dfy`, `Strings.dfy`, `Protocol.dfy`).

**Plugin intake and placement** (`Metadata.dfy`, `PluginCommit.dfy`, `Attach.dfy`, `Layout.dfy`,
`WritePlan.dfy`, with `Traces.dfy` for the logs; `Insertion.dfy` is the step both sorts share) and **the command-line event stream** (`CliStream.dfy`).

## Assumptions

- Workspace ids and plugin ids from the generator are not in use; a workspace id is submitted at most once, by the
  create that issued it (`pkg/manager/manager.go:562`, `pkg/manager/manager.go:593`).
- Repository and storage calls act at once under their lock. In the lifecycle the workspace repository is the
  in-memory one: a call fails only for the reasons its code gives, closed included, never because of its context.
- A failing plugin storage or repository call has no effect.
- A reference in a runtime configuration has one list of entries; the code leaves the length of a slice out of the
  reference (`pkg/orchestrator/registry/registry.go:518`), so two slices of different length over one array count as one.
- A release function is called once, as the deferred calls of the driver do.
- The digest and the eight hexadecimal digits taken from it are functions given as parameters; so is what a JSON
  frame decodes to.
- Only the registry holds references to the cells of the clones it stores (`Registry.MemoryRegistry.kept`), which is
  what cloning on the way in and out is for; its methods ask that those cells are as it made them.
- Text is a sequence of characters, and for cursors a sequence of bytes; text that is not valid UTF-8 is not part of
  this model.

Where steps are merged: cancelling a job's context and finishTrackedInstall are one step, since nothing reads the
context in between; setting the scheduler's stopped flag and cancelling its context are one step; a call that returns
frees the create mutex and leaves the in-flight count in one step, though the deferred calls of CreateWorkspace do
one after the other; the facade's stopInProgress and shutDown are read off the stage of Stop. The worker bound of the scheduler's probes is dropped, so
more probes may overlap than in the program.

## Limits of the code

- The metadata walk admits maps nested to 32, but the clone cuts values at depth 32 counted from the root, so it is
  sure to be the identity only when maps nest to at most 30 below it: `Metadata.CloneIsIdentityIff`, with two counterexamples.
- A delete that has passed its wait is a fence for installs of an issued id if and only if nothing for it was queued
  in the meantime and no create stands between its insert, which makes the row visible, and a submit that can still be
  accepted: `LifecycleHistory.DeleteFenceIff`. A submit before the delete emptied the queue is enough
  (`LifecycleHistory.SubmittedBeforeIsFenced`); `LifecycleLimits.FenceNeedsSubmit` is a run that meets the exception.
- Overwriting a plugin is all-or-nothing except when both the row and the rollback fail:
  `PluginCommit.CreateCommitsIff`.

## Model

| member | source | states |
|---|---|---|
| `LifecycleShutdown.CleanStopLeavesNoOrphan` | pkg/manager/manager.go:728-776 | In every run from an empty repository, under every interleaving: once the Stop that performs the shutdown returns nil, no call is in flight, the queue is empty, all workers and the scheduler loop are gone, every job ever accepted has finished or was dropped by a delete, and every row left is healthy or failed, was submitted, and its install finished: none is in init, none is of a refused submit, none is of a dropped job |
| `LifecycleShutdown.DroppedJobLeavesNoRow` | pkg/manager/workspace/controller.go:351-368 | By history: the row of a job that a delete took out of the queue is gone once the shutdown is clean, whatever became of the delete |
| `LifecycleShutdown.RefusedSubmitLeavesNoRow` | pkg/manager/manager.go:593-605 | By history: a create whose submit was refused has removed its row once the shutdown is clean, also a row the watchdog had already failed |
| `LifecycleShutdown.RunTraced` | pkg/manager/manager.go:587-605 | In every state of every run in which the repository is open or was closed cleanly: a stored row has its create still at work, or was submitted, and if a delete dropped its job such a delete is still at work |
| `LifecycleShutdown.DrainCanMove` | pkg/manager/workspace/controller.go:324-429 | Until the workers of a stopped controller are gone, one of them can take its next step, inside an install too |
| `LifecycleTheorems.RunInv` | pkg/manager/manager.go:548-608 | Every state of every run meets the invariant: ids, keys and directories are unique, one ticket per submitted id, every row in init has somebody bound to move it on, and each stage of Stop has established what it waited for |
| `LifecycleTheorems.StepKeeps` | pkg/manager/workspace/controller.go:157-533 | Any step of a create, delete, install worker, scheduler, Start or Stop keeps that invariant |
| `LifecycleTheorems.WorkerStepTouchesOnlyInit` | pkg/manager/workspace/controller.go:492-533 | A step of an install worker changes no row but its own job's, and that one only while it is in init; it adds and removes none |
| `LifecycleTheorems.LateInstallIsHarmless` | pkg/manager/workspace/controller.go:492-533 | A row the watchdog, a probe or another write has moved out of init is left exactly as it is by every later worker step |
| `LifecycleTheorems.RowWriteOnInit` | pkg/storage/memory/workspace_repo.go:149-180 | The worker's whole-row Update lands only on a stored row in init, because it carries status init and Update refuses a different status |
| `LifecycleTheorems.StatusWriteOnInit` | pkg/manager/workspace/controller.go:647-665 | The worker's compare-and-set changes its own row and only from init |
| `LifecycleTheorems.NeverBackToInit` | pkg/storage/memory/workspace_repo.go:213-273 | Once a row has left init, or is gone, its id is never in init again, whatever happens |
| `LifecycleTheorems.ClosedForGood` | pkg/manager/manager.go:758-768 | From the moment Stop closes the repository, clean or not, no step changes a row |
| `LifecycleTheorems.RunLater` | pkg/manager/manager.go:548-608 | Between any two states of a run: ids stay issued and fenced, a closed repository stays closed and frozen, and no issued id reappears or returns to init |
| `LifecycleTheorems.DirectoriesStayUnique` | pkg/manager/manager.go:813-861 | In every reachable state no two localdir rows have the same cleaned directory, although deletes and updates run between the pages of the scan |
| `LifecycleTheorems.ErrorIffFailed` | pkg/manager/workspace/scheduler.go:412-459 | In every reachable state a row has a status error exactly when it is failed, although the scheduler reads rows and writes them back whole later |
| `LifecycleTheorems.DeleteIsAFence` | pkg/manager/workspace/controller.go:351-429 | A delete whose id had been submitted when it emptied the queue, once past waitInstallIdle, leaves no queued job and no worker with that id in any later state |
| `LifecycleTheorems.FencedIsSettled` | pkg/manager/workspace/controller.go:370-392 | In any sound state, an id behind the fence is in no queue entry and with no worker |
| `LifecycleTheorems.WatchdogIsRight` | pkg/manager/workspace/scheduler.go:241-263 | The watchdog only ever fails a row that is in init at that instant and, by its stored creation time, older than the timeout, although the row it judges was listed earlier; the error is the timeout error |
| `LifecycleTheorems.InstallShrinks` | pkg/manager/workspace/controller.go:431-533 | Whatever the outcomes, errors and retries, each step of an install brings it nearer its end, which is at most thirteen steps away |
| `LifecycleTheorems.InstallCanMove` | pkg/manager/workspace/controller.go:431-533 | A worker that holds a job can always take its next step |
| `LifecycleInstalls.InstallSucceeds` | pkg/manager/workspace/controller.go:431-533 | An install whose work succeeds, undisturbed, in full: exactly the job's row changes, to healthy without an error, with the plugins the work placed and the time of its probe; the job leaves the queue and has finished, and nothing else changes |
| `LifecycleInstalls.InstallFails` | pkg/manager/workspace/controller.go:431-489 | An install whose work fails, undisturbed, in full: exactly the job's row changes, to failed with that failure and that probe time |
| `LifecycleInstalls.ReadyInRuns` | pkg/manager/workspace/controller.go:405-437 | In every run a waiting worker of a controller not cancelled, with a job in front whose row is in init, is in the position the two theorems ask for |
| `LifecycleInstalls.HealthyHasSource` | pkg/manager/workspace/controller.go:431-527 | Over runs, under every interleaving: a row a worker makes healthy was in init, and gets no error, the probe time and exactly the plugins that this worker's finished work on this very job gave |
| `LifecycleInstalls.FailedHasSource` | pkg/manager/workspace/controller.go:431-533 | Over runs: a row a worker fails was in init, and gets the failure and probe time of the step at which this worker gave up this very job: its work failed, its context had ended, its row was closed off or gone, or could not be written |
| `LifecycleInstalls.ContextOutcome` | pkg/manager/workspace/controller.go:431-437 | An install ends as a shutdown at once exactly when Stop or a delete has ended its context |
| `LifecycleInstalls.ReloadOutcome` | pkg/manager/workspace/controller.go:492-513 | What the install does with the row it reloads: goes on while it is in init, fails when it is gone, leaves an install timeout for diagnosis, and cleans up after any other settled row |
| `LifecycleInstalls.UpdateOutcome` | pkg/manager/workspace/controller.go:515-522 | Writing the plugins back lands only on a row in init, keeps its creation time, and is tried at most three times |
| `LifecycleInstalls.MarkOutcome` | pkg/manager/workspace/controller.go:524-533 | Marking healthy lands only on a row in init and clears its error; a lost race is no failure; at most three tries |
| `LifecycleInstalls.FailOutcome` | pkg/manager/workspace/controller.go:647-665 | Marking failed lands only on a row in init, with the failure and probe time given; a lost race is no failure; at most three tries |
| `LifecycleCancel.DeleteCancelsInstalls` | pkg/manager/workspace/controller.go:354-368 | Over runs: once a delete that saw its id submitted has called the cancel function, the context of any install still running for the id has ended |
| `LifecycleCancel.OnlyDeletesCancel` | pkg/manager/workspace/controller.go:405-429 | Over runs: no step ends the context of one running install but the cancel call of a delete of that very id |
| `LifecycleCancel.FreshContext` | pkg/manager/workspace/controller.go:421-428 | Over runs: an install begins with a context that nobody has ended yet |
| `LifecycleRequests.CreateAlone` | pkg/manager/manager.go:520-608 | A create with a valid namespace, undisturbed, in full: it changes nothing when the directory is taken, uses up an id when the key is, and otherwise stores exactly the row the request asks for, in init, and puts its job last in the queue |
| `LifecycleRequests.RowsEnterInInit` | pkg/manager/manager.go:562-579 | Over runs: an id enters the table only by the insert of a create that passed its checks, as the row its request asks for, in init, without an error, created now |
| `LifecycleRequests.InsertOutcome` | pkg/manager/manager.go:562-581 | The insert field by field: stored exactly when the repository is open and the key is free; a refusal ends the create |
| `LifecycleRequests.SubmitOutcome` | pkg/manager/workspace/controller.go:209-230 | Accepted exactly while started and not stopped: a ticket of its own and the last place in the queue; otherwise the create goes on to take its row back |
| `LifecycleRequests.ScanAlone` | pkg/manager/manager.go:813-849 | The uniqueness scan over any number of pages, undisturbed: it ends the create exactly when a stored row past the cursor has the directory |
| `LifecycleRequests.DeleteAlone` | pkg/manager/workspace/controller.go:245-317 | A delete of a stored workspace with no install running, undisturbed, in full: its row and exactly its queued jobs go, and nothing else changes |
| `LifecycleRequests.DeletedForGood` | pkg/manager/workspace/controller.go:315-317 | Over runs: a row a delete has removed is never stored again |
| `LifecycleRequests.PassOutcome` | pkg/manager/workspace/controller.go:370-392 | The wait is over exactly when no install of the id is counted, and is given up only while one is |
| `LifecycleTicks.WatchdogMissesNobody` | pkg/manager/workspace/scheduler.go:222-270 | Over runs, whatever else runs meanwhile: when the judging of a tick is over and the repository is open, no row that was stored when the tick began is still in init and, by the tick's clock, older than the timeout |
| `LifecycleTicks.EveryoneIsProbed` | pkg/manager/workspace/scheduler.go:222-306 | Over runs: a row stored and out of init when a tick began, and still stored, is among those the tick goes on to probe |
| `LifecycleTicks.ProbeAlone` | pkg/manager/workspace/scheduler.go:337-459 | Probing one row, undisturbed, in full: the status, error and time the probe found are stored, whether they change the status or not, and nothing else |
| `LifecycleTicks.JudgeOutcome` | pkg/manager/workspace/scheduler.go:237-270 | The first entry of an id decides: in init and older than the timeout, it is failed with install.timeout if it still is in init; healthy or failed, it is kept for probing; a second entry does nothing |
| `LifecycleTicks.RecordOutcome` | pkg/manager/workspace/scheduler.go:412-459 | A finding is stored only over a row that still has the status it was listed with |
| `LifecycleSwitch.StartAlone` | pkg/manager/manager.go:703-726 | A first Start, undisturbed, in full: the given number of workers wait for jobs and the scheduler loop runs |
| `LifecycleSwitch.StartUndone` | pkg/manager/manager.go:716-723 | A Start that finds the scheduler stopped closes and cancels the pool it has just opened |
| `LifecycleSwitch.StartPoolOutcome` | pkg/manager/workspace/controller.go:129-154 | A stopped controller refuses, a started one is left alone, a fresh one opens with its workers |
| `LifecycleSwitch.StopAnswersExactly` | pkg/manager/manager.go:728-776 | Over runs: Stop returns nil if and only if none of its three waits timed out |
| `LifecycleSwitch.StopOutcome` | pkg/manager/manager.go:743-772 | Each stage of the performing Stop, when it may be passed and what it changes |
| `LifecycleHistory.FencedFromIff` | pkg/manager/workspace/controller.go:351-429 | For an issued id in any state the invariant allows: no install for it is queued or running now or later, however the run goes on, if and only if none is now and no create stands between its insert and a submit that can still be accepted; a pool not yet started can still be, until Stop begins |
| `LifecycleHistory.DeleteFenceIff` | pkg/manager/workspace/controller.go:245-256 | Exactly when a delete that has passed its wait is a fence for an issued id: nothing for it was queued in the meantime, and no create of it stands before a submit that can still be accepted |
| `LifecycleHistory.SubmittedBeforeIsFenced` | pkg/manager/workspace/controller.go:245-256 | A delete that empties the queue after its id was submitted and later passes its wait is a fence, however the run goes on |
| `LifecycleHistory.StepQuieter` | pkg/manager/workspace/controller.go:209-230 | No step brings back a create's chance to submit an issued id, none lets the pool accept again, and without that chance none queues or starts an install for the id |
| `LifecycleHistory.CleanUpHasReason` | pkg/manager/workspace/controller.go:492-548 | An install clears its directory only because an earlier step of the same worker on the same job found the row settled and not by an install timeout; the row has not been in init since |
| `LifecycleLimits.FenceNeedsSubmit` | pkg/manager/manager.go:587-595 | A complete run from the empty repository in which a delete passes its wait between a create's insert and submit, and a worker then runs the install |
| `LifecycleFlow.NobodyOwns` | pkg/manager/manager.go:728-776 | With no call in flight and the pool drained, no row can be in init |
| `LifecycleFlow.StopKeeps` | pkg/manager/manager.go:728-776 | Every step of the performing Stop keeps the invariant, including what each stage has established |
| `LifecycleFlow.StartKeeps` | pkg/manager/manager.go:703-726 | Every step of Start keeps the invariant, also one that races with Stop and has to undo |
| `LifecycleCalls.CreateKeeps` | pkg/manager/manager.go:520-608 | Every step of CreateWorkspace keeps the invariant |
| `LifecycleCalls.DeleteKeeps` | pkg/manager/workspace/controller.go:245-317 | Every step of Delete keeps the invariant |
| `LifecycleCalls.ScanAdvances` | pkg/manager/manager.go:825-848 | One page of the uniqueness scan either shows the wanted directory or leaves all rows that could have it past the next cursor; after the last page there is none |
| `LifecycleCalls.InsertedTable` | pkg/manager/manager.go:548-579 | The checks made under the create mutex are what keeps ids, keys, directories and namespaces sound through the insert |
| `LifecycleCalls.IdleMeansSettled` | pkg/manager/workspace/controller.go:370-392 | Past the wait, a job submitted before the queue was emptied has finished or was dropped |
| `LifecycleWork.WorkKeeps` | pkg/manager/workspace/controller.go:324-533 | Every step of an install worker keeps the invariant |
| `LifecycleWork.FailOk` | pkg/manager/workspace/controller.go:667-693 | Giving up on the write to failed strands no row: with the repository open, the write can only be missing its row |
| `LifecycleSched.SchedKeeps` | pkg/manager/workspace/scheduler.go:222-328 | Every step of the scheduler, its watchdog and its probes keeps the invariant |
| `LifecycleSched.RecordedProbesOk` | pkg/manager/workspace/scheduler.go:412-447 | The row a probe reloads and writes back later still agrees with the stored one on everything Update must not change |
| `LifecycleInv.UpdateNarrows` | pkg/storage/memory/workspace_repo.go:149-180 | A whole-row write of a row read earlier changes nothing fixed and brings no row into init |
| `LifecycleInv.CasNarrows` | pkg/storage/memory/workspace_repo.go:213-253 | A compare-and-set to healthy or failed changes nothing fixed, keeps the rows, and keeps error and status in agreement |
| `InstallPool.JobsAreConserved` | pkg/manager/workspace/controller.go:209-230 | In every state of every run an accepted job is in exactly one of queued, running, finished and dropped, and no other ticket is in any |
| `InstallPool.CountsAreHolders` | pkg/manager/workspace/controller.go:394-429 | installRunning[id] is the number of workers holding id, and installCancel has the same keys |
| `InstallPool.DoneMeansDrained` | pkg/manager/workspace/controller.go:324-338 | workersDone closes at most once, and then the controller is stopped, the queue and both maps are empty, and every job has finished or was dropped |
| `InstallPool.StoppedPoolDrains` | pkg/manager/workspace/controller.go:324-429 | The wait of Stop can end: from the stop on the workers take at most a fixed number of steps, whatever else happens in between; until workersDone closes one of them can take one, and when the number is used up it has closed |
| `InstallPool.StepKeeps` | pkg/manager/workspace/controller.go:129-429 | Every mutex-held region keeps FIFO order, the place of each job, the two maps and the worker count in step |
| `InstallPool.WithoutIsFilter` | pkg/manager/workspace/controller.go:358-364 | Taking a workspace out of the queue removes exactly its jobs |
| `InstallPool.WithoutKeepsOrder` | pkg/manager/workspace/controller.go:358-364 | ... and keeps the order of all others |
| `Controller.SlideDown` | pkg/manager/workspace/controller.go:358-364 | The filter that slides jobs down inside the shared slice leaves exactly the jobs of other workspaces, in order, at the front of the old slice |
| `Controller.Controller.TakeAndCancelQueuedInstalls` | pkg/manager/workspace/controller.go:354-368 | On the real fields: the queue loses that workspace's jobs, nothing else changes, and the cancel function found is returned; a TakeQueued step of the pool |
| `Controller.Controller.Dequeue` | pkg/manager/workspace/controller.go:405-429 | One pass of the loop: it exits exactly when stopped and empty; otherwise the front job leaves the queue and enters both maps in the same region; a Dequeue step of the pool |
| `Controller.Controller.Submit` | pkg/manager/workspace/controller.go:209-230 | Accepted exactly while started and not stopped, then appended last; a Submit step of the pool |
| `Controller.Controller.FinishTrackedInstall` | pkg/manager/workspace/controller.go:394-403 | The count of the id goes down and both entries go when it reaches zero; a Finish step of the pool |
| `Controller.Controller.Start` | pkg/manager/workspace/controller.go:129-154 | A stopped controller refuses, a started one is left alone, and a fresh one is started with its full count of workers; a Start step of the pool |
| `Controller.Controller.SetStopped` | pkg/manager/workspace/controller.go:157-174 | Only the first Stop finds the pool open; nothing but the flag changes; a SetStopped step of the pool |
| `Controller.Controller.CancelRoot` | pkg/manager/workspace/controller.go:177-179 | Only the install context is cancelled; a CancelRoot step of the pool |
| `Controller.Controller.WorkerExit` | pkg/manager/workspace/controller.go:324-329 | One worker fewer, and workersDone is closed exactly by the last; a Leave step of the pool |
| `Controller.Controller.InstallIdle` | pkg/manager/workspace/controller.go:370-392 | One pass of the wait: idle exactly when no worker holds the id; cancelled only when not idle |
| `Paging.PagesRefineOneListing` | pkg/storage/memory/workspace_repo.go:90-147 | On a fixed table the pages read one after the other are the sorted matching rows past the cursor, each once, for every limit |
| `Paging.PageShrinks` | pkg/storage/memory/workspace_repo.go:134-147 | A page that is not the last is full, its cursor reads back, and the listing is that page followed by the listing past the cursor |
| `Paging.PageCovers` | pkg/storage/memory/workspace_repo.go:90-147 | One page is sorted and selected, and every selected row is on it or past its cursor |
| `Paging.ScanNeverRepeats` | pkg/storage/memory/workspace_repo.go:90-147 | Under arbitrary changes of the table between pages no key is returned twice, and the whole scan is sorted |
| `Paging.ScanMissesNothing` | pkg/manager/workspace/scheduler.go:308-328 | A finished scan returned every row that was present and matching throughout |
| `Paging.ScanInventsNothing` | pkg/storage/memory/workspace_repo.go:107-129 | Everything returned was stored and matching when its page was read |
| `Paging.SortedUnique` | pkg/storage/memory/workspace_repo.go:131-133 | Two key-ordered lists of the same rows are equal, so the sort's outcome does not depend on map order |
| `Paging.PageIs` | pkg/storage/memory/workspace_repo.go:90-147 | A page by its contents alone: the first wanted rows in byte order, as many as the limit says and fifty when it is not positive, and a cursor for the last of them exactly when a wanted row is left; an undecodable cursor or one without a NUL is refused |
| `Keys.LessIsByBytes` | pkg/storage/memory/workspace_repo.go:339-344 | The order is that of the bytes, the namespace before the alias: a text stops inside the other, or has the smaller byte where they first differ |
| `Keys.CursorParses` | pkg/storage/memory/workspace_repo.go:307-325 | A cursor is read back exactly when it is base64 of text with a NUL, cut at the first one |
| `Keys.CursorIs` | pkg/storage/memory/workspace_repo.go:307-310 | A cursor is the namespace, a NUL and the alias in base64 |
| `Base64.SameBits` | pkg/storage/memory/workspace_repo.go:307-310 | Four characters carry the twenty-four bits of three bytes in their order |
| `Keys.CursorRoundTrip` | pkg/storage/memory/workspace_repo.go:307-325 | A cursor reads back as its key if and only if the namespace holds no NUL |
| `Keys.KeyOrder` | pkg/storage/memory/workspace_repo.go:339-344 | The comparison of namespace and alias is total and antisymmetric |
| `Keys.KeyTransitive` | pkg/storage/memory/workspace_repo.go:339-344 | ... and transitive |
| `Base64.RoundTrip` | pkg/storage/memory/workspace_repo.go:307-325 | Decoding unpadded base64 undoes encoding for every byte string, also though the decoder skips line breaks |
| `WorkspaceRepository.Repository.Insert` | pkg/storage/memory/workspace_repo.go:37-59 | Exactly the checks in their order: a duplicate id, an unknown status or a taken alias is refused and changes nothing; otherwise the row is added and the alias index follows |
| `WorkspaceRepository.Repository.Get` | pkg/storage/memory/workspace_repo.go:61-73 | The stored row, or the error for a closed repository or a missing id |
| `WorkspaceRepository.Repository.GetByAlias` | pkg/storage/memory/workspace_repo.go:75-88 | The alias index finds a row exactly when some row has that key, and then that row |
| `WorkspaceRepository.Repository.Update` | pkg/storage/memory/workspace_repo.go:149-180 | Refused without change on a missing row, a different status, an unknown status or a changed immutable field; otherwise stored with the old creation time |
| `WorkspaceRepository.Repository.UpdateStatusCAS` | pkg/storage/memory/workspace_repo.go:213-253 | Refused without change unless the stored status is the expected one and the writer may make the transition; otherwise only status, error and probe time change |
| `WorkspaceRepository.Repository.Delete` | pkg/storage/memory/workspace_repo.go:275-291 | The row goes from both maps, or NotFound and no change |
| `WorkspaceRepository.Repository.Close` | pkg/storage/memory/workspace_repo.go:293-298 | Closes and keeps the rows |
| `WorkspaceRepository.Repository.List` | pkg/storage/memory/workspace_repo.go:90-147 | Filtering in map order, sorting and cutting gives the page the specification defines by content alone |
| `WorkspaceRepository.Repository.ListAll` | pkg/manager/workspace/scheduler.go:308-328 | The cursor loop ends and returns the one full sorted listing |
| `WorkspaceRepository.Repository.DirectoryTaken` | pkg/manager/manager.go:813-849 | The cursor loop answers true exactly when some stored localdir row has that cleaned directory |
| `WorkspaceRepository.SortByKey` | pkg/storage/memory/workspace_repo.go:131-133 | Sorted by key, with the same rows |
| `Paths.CleanIdempotent` | pkg/manager/manager.go:851-861 | Cleaning a cleaned path changes nothing |
| `Paths.CleanEqual` | pkg/manager/manager.go:851-861 | Two directories clean to the same text exactly when they agree on being absolute and on the segments kept |
| `Paths.KeptCanonical` | pkg/manager/manager.go:851-861 | A cleaned path has no empty or dot segment, and parent references only in front and never under a root |
| `Paths.CleanRules` | pkg/manager/manager.go:851-861 | The rules of cleaning: empty and dot segments go, a parent reference goes with the segment before it, under a root one in front goes, and what then is left stays |
| `LocalDir.ClearExcludes` | pkg/manager/infraops/localdir/localdir.go:820-903 | While a Clear removes files no operation is active, every other call stands before the gate, and a turn taken there only sleeps or gives up |
| `LocalDir.HeldRootIsOpen` | pkg/manager/infraops/localdir/localdir.go:966-991 | A root handed to an operation is the current one, and not closed, until its release |
| `LocalDir.NoHandleLeaks` | pkg/manager/infraops/localdir/localdir.go:494-510 | Every handle ever opened is the current root or closed, never both; initialized exactly when the root is set |
| `LocalDir.ClearedForGood` | pkg/manager/infraops/localdir/localdir.go:883-900 | Once cleared, always cleared, with no root and no operation |
| `LocalDir.NobodyIsStuck` | pkg/manager/infraops/localdir/localdir.go:352-378 | Whenever some call is inside, one of them is awake and can take a step of its own: no wake-up is lost and no set of waits blocks itself |
| `LocalDir.OperationBegins` | pkg/manager/infraops/localdir/localdir.go:966-991 | Over runs: an operation that takes its turn while the gate is open gets the current root and is counted, exactly when there is a root |
| `LocalDir.ClearBegins` | pkg/manager/infraops/localdir/localdir.go:820-860 | Over runs: a Clear that finds the gate open shuts it, and waits exactly when some operation holds the root |
| `LocalDir.RootIsPublished` | pkg/manager/infraops/localdir/localdir.go:380-510 | Over runs: an Init or Open whose set-up goes well publishes the new handle exactly when the driver is neither initialized nor cleared |
| `LocalDir.RunInv` | pkg/manager/infraops/localdir/localdir.go:352-378 | activeOps equals the unreleased operations, clearing is set exactly while one Clear is inside, and a sleeper's wait is not yet over, in every interleaving with cancelled waits |
| `LocalDir.StepKeeps` | pkg/manager/infraops/localdir/localdir.go:380-510 | Every turn under the mutex keeps that invariant |
| `LocalDir.Ops.BeginOp` | pkg/manager/infraops/localdir/localdir.go:966-991 | One turn of beginOp on the fields: refused when cancelled, cleared or not initialized, asleep while clearing, else one more active operation on the current root |
| `LocalDir.Ops.Release` | pkg/manager/infraops/localdir/localdir.go:982-989 | One operation fewer; the broadcast happens exactly at zero |
| `LocalDir.Ops.InitOrOpen` | pkg/manager/infraops/localdir/localdir.go:380-489 | One turn of Init or Open, which differ in what they answer when the root is already there |
| `LocalDir.Ops.SetRootLocked` | pkg/manager/infraops/localdir/localdir.go:494-510 | A handle is published exactly when nothing changed in between, and otherwise closed again |
| `LocalDir.Ops.StartClear` | pkg/manager/infraops/localdir/localdir.go:820-843 | One turn of Clear up to its second wait: it shuts the gate, and a cancelled wait opens it again with a broadcast |
| `LocalDir.Ops.DrainOrAbort` | pkg/manager/infraops/localdir/localdir.go:836-843 | The second wait goes on exactly when no operation is active |
| `LocalDir.Ops.FinishClear` | pkg/manager/infraops/localdir/localdir.go:883-900 | The root is closed and unset either way; only a success marks the driver cleared |
| `RuntimeConfig.HasCycle` | pkg/orchestrator/registry/registry.go:452-553 | The search ends and answers true if and only if a reference reachable from the configuration lies on a cycle |
| `RuntimeConfig.Detector.Detect` | pkg/orchestrator/registry/registry.go:460-553 | visiting is restored on return; a false answer leaves everything below finished in an order in which each reference follows all it mentions; a true answer is backed by a trail that meets a reference twice |
| `RuntimeConfig.OrderedIsAcyclic` | pkg/orchestrator/registry/registry.go:460-553 | A finishing order of that kind rules out every cycle |
| `RuntimeConfig.Memory.CloneConfig` | pkg/orchestrator/registry/registry.go:356-445 | On an acyclic configuration the clone ends, leaves every old cell alone, and denotes the source's tree through new cells only |
| `RuntimeConfig.Memory.CloneValue` | pkg/orchestrator/registry/registry.go:381-445 | The same for any value and the tree it denotes |
| `RuntimeConfig.CloneIsIndependent` | pkg/orchestrator/registry/registry.go:381-445 | Whatever later happens to the old cells, the clone denotes the same tree and no other |
| `RuntimeConfig.AcyclicIffTree` | pkg/orchestrator/registry/registry.go:452-458 | With plain map keys the configurations the check lets in are exactly those that denote a finite tree, so exactly those the clone can finish |
| `RuntimeConfig.UnfoldsUnique` | pkg/orchestrator/registry/registry.go:381-445 | A value denotes at most one tree |
| `Registry.MemoryRegistry.Register` | pkg/orchestrator/registry/registry.go:115-154 | Accepted exactly for a factory, a valid acyclic workspace, a new id and a new alias; otherwise nothing changes; the maps agree and at most one entry is the default afterwards; what is stored is a clone of the configuration through new cells, which the registry keeps |
| `Registry.MemoryRegistry.Update` | pkg/orchestrator/registry/registry.go:156-189 | Accepted exactly for a valid workspace whose id is stored under the same alias; promoting demotes every other entry, clearing the default's flag unsets the default; the configuration stored is a clone through new cells, which the registry keeps |
| `Registry.MemoryRegistry.SetEnabled` | pkg/orchestrator/registry/registry.go:191-227 | Only the flag of that entry changes; idempotent; an unknown id is not found |
| `Registry.MemoryRegistry.FindByAlias` | pkg/orchestrator/registry/registry.go:229-241 | Found exactly through the trimmed alias, and only an enabled entry; handed out with a clone of its configuration |
| `Registry.MemoryRegistry.FindById` | pkg/orchestrator/registry/registry.go:243-250 | The entry with a clone of its configuration through new cells, or not found or disabled |
| `Registry.MemoryRegistry.Default` | pkg/orchestrator/registry/registry.go:252-261 | No default exactly when no entry carries the flag; otherwise the lookup of the entry defaultID names, with a clone of its configuration |
| `Registry.EntriesAreSealed` | pkg/orchestrator/registry/registry.go:356-379 | Since only clones come in and go out, whatever callers do to cells of their own, a stored configuration denotes the same tree |
| `Registry.Validate` | pkg/orchestrator/registry/registry.go:296-335 | Accepts exactly the workspaces whose trimmed form is normal and whose configuration has no cycle, and returns the trimmed form |
| `Registry.AliasFindsItsEntry` | pkg/orchestrator/registry/registry.go:229-241 | In every sound state an alias leads to the one entry that has it |
| `Registry.LookupFails` | pkg/orchestrator/registry/registry.go:279-294 | A lookup of an id fails exactly when it is unknown or disabled: a stored entry never lacks its factory |
| `Registry.OneDefault` | pkg/orchestrator/registry/registry.go:139-151 | At most one entry is the default, and it is the one defaultID names |
| `Registry.AddedIs` | pkg/orchestrator/registry/registry.go:139-151 | A registered entry in full: stored under its id and alias with its factory; as the default it takes the flag from all others; nothing else changes |
| `Registry.StoredIs` | pkg/orchestrator/registry/registry.go:174-188 | An updated entry in full, and what becomes of the default |
| `Registry.LookupIs` | pkg/orchestrator/registry/registry.go:229-294 | Each answer of a lookup and exactly when it is given |
| `Registry.AcceptableIff` | pkg/orchestrator/registry/registry.go:296-335 | What is let in, with every bound: alias of one to 64 letters, digits, dashes and underscores, description of at most 256, known kind, no cycle |
| `Registry.RoutingRoundTrip` | pkg/orchestrator/registry/registry.go:229-241 | For every enabled workspace and every text: the message printed with its alias parses to that text with normalized line ends and a lookup that finds that workspace |
| `Protocol.TwoPassesAreOneScan` | pkg/orchestrator/protocol/protocol.go:74-78 | The two replacements equal one scan from the left that takes CR LF, CR and LF each as one line end |
| `Protocol.NormalizeIdempotent` | pkg/orchestrator/protocol/protocol.go:74-78 | Normalizing twice is normalizing once, and the identity on text without CR |
| `Protocol.MatchIsPattern` | pkg/orchestrator/protocol/protocol.go:25-25 | The hand-written recogniser accepts exactly the headers the regular expression does, with the same groups, on every string |
| `Protocol.ParseIsExact` | pkg/orchestrator/protocol/protocol.go:28-62 | For every body with a line that is not blank: which of explicit, plain and error it is, with header, alias and payload given by its lines, and plain returning the body unchanged |
| `Protocol.BodyHasLines` | pkg/orchestrator/protocol/protocol.go:28-36 | Every body is blank or falls into blank lines, a header and the rest, with nothing lost |
| `Protocol.BlankIsPlain` | pkg/orchestrator/protocol/protocol.go:32-35 | A blank body is plain and comes back unchanged |
| `Protocol.AppearsIff` | pkg/orchestrator/protocol/protocol.go:89-112 | A line looks like a directive exactly when, past blanks, tabs and form feeds, it starts with {to in either case followed by its end, one of these, a # or a brace |
| `Protocol.PayloadIs` | pkg/orchestrator/protocol/protocol.go:40-47 | The payload is the rest of the header's line and all lines after it; an empty rest leaves no empty line |
| `Protocol.LineEnds` | pkg/orchestrator/protocol/protocol.go:74-78 | CR LF, a lone CR and LF each become one LF, and nothing else changes |
| `Protocol.FormatRoundTrip` | pkg/orchestrator/protocol/protocol.go:65-67 | Any text after a printed header comes back as the payload with normalized line ends, under that alias |
| `Protocol.ParsedIsStable` | pkg/orchestrator/protocol/protocol.go:28-67 | Printing a parsed directive and parsing it again gives the same alias and payload, and the alias is valid |
| `Metadata.Validate` | pkg/manager/plugin/manifest.go:79-82 | The budgeted walk accepts, in every map order, exactly the metadata with non-blank keys, maps nested to at most 32, scalar leaves or arrays of scalars, and at most 4096 entries and items |
| `Metadata.Walk` | pkg/manager/plugin/manifest.go:84-101 | The same at any depth and budget; on success the budget left is what was there less the nodes; it never goes below zero |
| `Metadata.WalkValue` | pkg/manager/plugin/manifest.go:103-126 | The same for one value |
| `Metadata.OverAnyOrder` | pkg/manager/plugin/manifest.go:88-99 | The number of nodes does not depend on the order in which keys are read |
| `Metadata.CutPlaces` | pkg/manager/plugin/clone.go:29-63 | Place by place: up to depth 32 the clone has the source's heads, just below it nil, and nothing deeper |
| `Metadata.CloneIsIdentityIff` | pkg/manager/plugin/clone.go:29-63 | The clone equals the source if and only if nothing but nil stands below the limit |
| `Metadata.ShapedIsCopied` | pkg/manager/plugin/clone.go:29-63 | Metadata whose maps nest to at most 30 is copied whole |
| `Metadata.AcceptedButCut` | pkg/manager/plugin/manifest.go:84-87 | A concrete metadata the walk accepts and the clone changes |
| `Metadata.ArrayAcceptedButCut` | pkg/manager/plugin/manifest.go:84-87 | Another with maps to level 31 and an array, so the margin of two levels is exact |
| `Metadata.CloneEntries` | pkg/manager/plugin/clone.go:33-45 | The map filled entry by entry is the depth-cut one |
| `Metadata.Clone` | pkg/manager/plugin/clone.go:47-63 | The recursive clone is the depth-cut value |
| `PluginCommit.RunCommitsIff` | pkg/manager/manager.go:300-375 | Over any serial run with unused ids and any failing calls, every row is backed by a blob of its hash and size at every point, if and only if no upload met the one bad case: an overwrite whose row and whose rollback both fail and whose content differs |
| `PluginCommit.CreateCommitsIff` | pkg/manager/manager.go:300-375 | The same for one upload from any sound committed store |
| `PluginCommit.CreateIsAtomic` | pkg/manager/manager.go:300-375 | A success stores that row and that blob and nothing else, over the old id and creation time when the name was taken; a failure keeps every row, and unless the rollback fails every stored blob |
| `PluginCommit.CreateAnswers` | pkg/manager/manager.go:300-375 | Exactly when an upload succeeds, and with which error it fails otherwise |
| `PluginCommit.RemoveCommits` | pkg/manager/manager.go:443-466 | A removal takes exactly that row and keeps the commit property, whatever the blob's deletion does; a failure changes nothing |
| `PluginCommit.RunStoreOk` | pkg/manager/manager.go:300-375 | Whatever fails, in every state of every serial run rows and names agree and every blob has the hash and size of its body |
| `PluginCommit.RollbackFailureBreaks` | pkg/manager/manager.go:344-356 | A concrete pair of uploads after which the commit property is lost |
| `PluginCommit.DownloadMatches` | pkg/manager/manager.go:443-466 | In a committed store the blob of every row has that row's hash and size |
| `PluginCommit.WritesKeepIndex` | pkg/storage/memory/plugin_repo.go:34-83 | Insert, Update and Delete keep rows and name index naming each other |
| `PluginCommit.Facade.CreatePlugin` | pkg/manager/manager.go:300-375 | The sequence of storage and repository calls has exactly the effect and result the properties are proved of |
| `PluginCommit.Facade.DeletePlugin` | pkg/manager/manager.go:443-466 | ... and so has the removal |
| `PluginCommit.Facade.ReplacePlugin` | pkg/manager/manager.go:313-356 | The overwrite: old blob read, new blob put, row updated, old blob put back when the row is refused |
| `PluginCommit.PluginRepository.Insert` | pkg/storage/memory/plugin_repo.go:34-55 | Both conflicts when one row holds id and name, else id conflict before name conflict; otherwise row and name are added |
| `PluginCommit.PluginRepository.Update` | pkg/storage/memory/plugin_repo.go:57-83 | The row is replaced under its old creation time and the name index moves with it; a missing row or a name held by another id is refused |
| `PluginCommit.PluginRepository.Delete` | pkg/storage/memory/plugin_repo.go:170-186 | Row and name go together |
| `PluginCommit.PluginRepository.GetByName` | pkg/storage/memory/plugin_repo.go:100-113 | The row of that name, through the index |
| `PluginCommit.PluginStorage.Put` | pkg/storage/memory/plugin_storage.go:34-69 | The blob is stored with the hash and size of exactly its body; a body over the limit is refused |
| `PluginCommit.PluginStorage.Delete` | pkg/storage/memory/plugin_storage.go:85-94 | Only that blob goes |
| `CliStream.StreamEndsOnce` | pkg/bridge/cli/agent.go:94-160 | When the channel is closed and drained the consumer has seen exactly one Done, last, and from each producer all it had to say in its order, with a failure event just before Done when the process failed |
| `CliStream.AnyPipesEndOnce` | pkg/bridge/cli/agent.go:44-163 | The same composed with both scans, for any contents of the two pipes, any stdout format and any decoding of frames |
| `CliStream.NothingAfterClose` | pkg/bridge/cli/agent.go:157-160 | No step sends on the closed channel |
| `CliStream.OrderKept` | pkg/bridge/cli/agent.go:113-155 | At every moment what was sent by each producer is a prefix of what it sends |
| `CliStream.AlwaysMoves` | pkg/bridge/cli/agent.go:94-160 | Every step uses something up and until the end some step can be taken, so under a reading consumer the stream ends |
| `CliStream.RunInv` | pkg/bridge/cli/agent.go:94-160 | Every state of every interleaving keeps the stages of the three goroutines in step with what was sent |
| `CliStream.ScansSendNoDone` | pkg/bridge/cli/agent.go:334-342 | Whatever the process prints, done markers included, no scan sends a Done |
| `CliStream.ScanTextLines` | pkg/bridge/cli/agent.go:227-254 | Each non-empty line becomes one text event, in order, then a failure when reading broke |
| `CliStream.ParseJsonLines` | pkg/bridge/cli/agent.go:256-293 | Each non-blank line's decoded events but Done, or one failure, in order, then a failure when reading broke |
| `CliStream.ParseSingleJson` | pkg/bridge/cli/agent.go:295-325 | One failure when reading or decoding fails, otherwise the events but Done |
| `CliStream.TextLines` | pkg/bridge/cli/agent.go:227-254 | Line by line: an event with the line end for each line that is not empty, none for the others |
| `CliStream.JsonLinesPass` | pkg/bridge/cli/agent.go:256-293 | Line by line: the frames of a text split anywhere are those of its parts |
| `CliStream.FramePasses` | pkg/bridge/cli/agent.go:334-342 | Event by event: all but done markers pass, in order |
| `CliStream.PipeEvents` | pkg/bridge/cli/agent.go:227-325 | What each format makes of a pipe, with every failure code |
| `Layout.SanitizePluginName` | pkg/manager/agent/claudecode/layout.go:279-324 | The builder loop gives the words of the name joined by single dashes, at most 64 characters: empty, or letters and digits with single dashes between them |
| `Layout.SanitizeIdempotent` | pkg/manager/agent/claudecode/layout.go:279-324 | Sanitizing a sanitized name changes nothing |
| `Layout.WordsApart` | pkg/manager/agent/claudecode/layout.go:279-324 | A character that is no letter or digit parts the words before it from those after it |
| `Layout.WordOfItself` | pkg/manager/agent/claudecode/layout.go:279-324 | ... and a run of letters and digits is one word |
| `Layout.WordCharacters` | pkg/manager/agent/claudecode/layout.go:279-324 | Which characters make up a word, and which others become letters of one |
| `Layout.SharedNameIff` | pkg/manager/agent/claudecode/layout.go:279-324 | Two names that are not cut share a directory exactly when they have the same words |
| `Layout.SanitizedIsName` | pkg/manager/agent/claudecode/layout.go:44-50 | A directory key exists exactly when the name has a word |
| `Layout.MapPathAccepts` | pkg/manager/agent/claudecode/layout.go:206-228 | A file is placed exactly when its path is relative, stays below, and is at the root or in a known section |
| `Layout.PlacedBelow` | pkg/manager/agent/claudecode/layout.go:206-228 | A placed file keeps its segments behind the plugin's directory |
| `Layout.UnsafeMeans` | pkg/manager/agent/claudecode/layout.go:191-204 | The string tests for an unsafe path say exactly: absolute, empty, or with a parent reference |
| `Layout.TargetsAreDisjoint` | pkg/manager/agent/claudecode/layout.go:206-228 | Targets of plugins with different directories differ, and none lies below another |
| `Layout.TargetSharedIff` | pkg/manager/agent/claudecode/layout.go:154-161 | Within a plugin two files collide exactly when their paths clean to the same text |
| `WritePlan.BuildWritePlan` | pkg/manager/agent/claudecode/layout.go:142-189 | A plan exists exactly when every visit of the walk succeeds, every file is placed with a readable mode and no two share a target; it has one entry with source, target and mode for each file, the manifest first and the others by source |
| `WritePlan.CollectPlan` | pkg/manager/agent/claudecode/layout.go:146-176 | The walk's callback: the first visit that does not fit or whose target is taken ends it and decides the error, the target looked at before the mode; otherwise one entry for each file in walk order |
| `WritePlan.OrderIsUnique` | pkg/manager/agent/claudecode/layout.go:180-187 | That order determines the list, so the plan does not depend on the walk's order |
| `WritePlan.AheadIs` | pkg/manager/agent/claudecode/layout.go:180-188 | The order of a plan: the manifest before all others, and these by the characters of their sources |
| `WritePlan.EntriesAre` | pkg/manager/agent/claudecode/layout.go:146-176 | The entries are the files of the walk, each with its target and its mode |
| `WritePlan.Apply` | pkg/manager/agent/claudecode/layout.go:52-86 | Nothing is opened or written unless the directory is free and the whole plan stands; then the files go in the plan's order up to the first that fails; every source opened is closed exactly once, after its write |
| `Attach.AttachPlugins` | pkg/manager/workspace/controller.go:550-645 | Success exactly when every check, key comparison, placement and close succeeds; the first plugin that fails its checks, else the first key that clashes or is missing, else the first placement that fails decides the error; a failed check or clash leaves nothing placed; every body and reader opened is closed exactly once on every path |
| `Attach.OpenPlugin` | pkg/manager/workspace/controller.go:569-600 | One plugin's fetch, hash comparison and opening, with its error, and everything closed when it fails |
| `Attach.CompareKeys` | pkg/manager/workspace/controller.go:602-620 | No error exactly when every plugin has a key and no two share a non-empty one; otherwise the first key that does not fit decides which error |
| `Attach.KeysFitIff` | pkg/manager/workspace/controller.go:602-620 | The keys fit exactly when every plugin has one and only empty ones are shared |
| `Attach.PlacePlugins` | pkg/manager/workspace/controller.go:622-645 | Placing stops at the first failure and closes the readers not yet used |
| `Attach.CloseReaders` | pkg/manager/workspace/controller.go:561-567 | Closes each reader that is still open, once |
| `Attach.PlacedApart` | pkg/manager/workspace/controller.go:602-620 | Once the keys are compared, no file of one plugin is written over or below a file of another |

## Left out

- UpdateStatus, the repository's write without an expected status: nothing in the lifecycle calls it.
- Later Stop calls: one after a timed-out Stop returns nil without draining, so only the performing Stop is modelled.
- Real time, tickers, delays between retries and deadlines: a retry or a context that ends is an arbitrary choice; only the watchdog's age comparison is kept.
- Order of wake-ups on the controller's condition variable: a waiting call may take its turn at any time; the localdir condition variable is modelled with its sleepers.
- Field-by-field contents of install parameters, descriptions and infra options other than the directory: carried along unchanged.
- Exec, PutFile, GetFile, Request and the root handling of localdir: file system and process work; only the handle each operation holds is kept.
- Map keys that hold references in a runtime configuration: the check follows them, the clone shares them with its source; `RuntimeConfig.AcyclicIffTree` is stated for plain keys.
- Unexported struct fields and the exact kinds of reflection: a cell carries a tag for its kind and type.
- MemoryRegistry.List: a sort of the entries, an easy member.
- Registry.MemoryRegistry.Register: the source clones the configuration twice on the way in, once in its validation, and wraps the factory so that it clones again and rejects a missing agent; one clone and the bare factory stand for these.
- Concurrent CreatePlugin calls: the code does not serialise them, so the commit property is stated for serial runs.
- PluginRepository.List and its offset cursor: not stable under deletes, nothing to promise.
- Zip and TOML decoding, manifest fields other than metadata, and isSafeArchivePath: library codecs and pure string tests.
- LayoutPaths and ensureNoPluginNameCollision: path listing and a probe of the target file system.
- CliStream: a consumer that stops reading and Close, which kills the process, are not modelled; neither is the writer of standard input.
- Bridges other than the command line, the session and task packages that exist only as plans, logging, builders and id generation: no logic or no code to model.
