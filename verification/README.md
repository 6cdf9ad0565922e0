# tunasync: models and proofs

tunasync runs mirror jobs on workers, under a concurrency limit, and records their
status at a manager. This Dafny project models the parts of it whose correctness
depends on whole runs and on interleavings, and proves what they promise. Run
`dafny verify dfyconfig.toml` in this directory.

| file | what it models |
|---|---|
| `RunJob.dfy` | one run of a job (`runJobWrapper`): the retry loop as a method, the same closure cut into steps, and the grammar of its message streams |
| `JobEngine.dfy` | any number of jobs: controllers, runners and every channel they share, as a step system; safety of all interleavings |
| `Actions.dfy` | what each action brings about once a controller has received it |
| `JobLiveness.dfy` | disable, halt and kill always come to an end |
| `LockedWait.dfy` | the bounded channel, the worker's lock and a wait for a job that is held under it |
| `JobStreams.dfy` | what a job sends over a whole run of the worker, when a run schedules the next, and the manager's record when all is delivered |
| `StatusFilter.dfy` | the worker between job and manager, which drops some messages |
| `NextRun.dfy` | engine, worker loop, command handlers and schedule queue together: what starts a job again, and when nothing does |
| `Schedule.dfy` | the schedule queue, its invariants without any assumption on times, and what it refines |
| `ConfigDiff.dfy` | the difference of two configurations and its sentinel |
| `Reload.dfy` | start-up of the worker and the replay of a difference on live jobs |
| `Contexts.dfy` | the context stack, the hooks that push and pop it, and attempts that fail anywhere |
| `Processes.dfy` | the running-flag protocol of a provider |
| `ManagerStatus.dfy` | the status handlers of the manager, alone and with any number in flight |
| `LostUpdates.dfy` | what interleaved requests do to each other's writes |
| `KvStore.dfy` | flat and nested key-value backends, and the status table on top of them |
| `Inherit.dfy` | inheritance in the mirror tree |
| `Bytes.dfy`, `Options.dfy`, `JobStates.dfy`, `MirrorConf.dfy` | byte strings and their order, optional values, job states, mirror configurations |

Code that changes state in place is a class whose methods are proved against a
function of the old state; the lemmas are about that function. Code that runs beside
other goroutines is a step system: an event is one step of one goroutine, and the
lemmas hold of every state that any sequence of events reaches.

Results that a reader of the code may not expect:

* `AddJob` is a plain update of the schedule if and only if no other job holds the
  same time (`AddJobRefines`). Otherwise the other job silently loses its slot and its
  name stays in the name set (`EvictionLeavesName`).
* The sentinel `"~" + name` of the configuration difference is greater than the name if and
  only if the first byte of the name that is not `~` is below `~`, or there is none (`SentinelIff`).
  When both lists have entries and their largest name is another, for instance one that starts with a byte
  above 126, the check panics (`DiffMirrorConfig`, `ByteAboveTildePanics`, `AccentPanics`).
* Reads and writes of the manager's handlers are under different lock sections.
  Every stored record still keeps its times in order (`StoredTimesOk`), but updates can
  be lost: a success's times (`LostUpdate`), an operator's disable (`LostDisable`), or a flush (`UndoneFlush`).
  `NothingLostIff` says exactly on which runs none is: those on which each write finds the record that its
  request read, with the fields that the request has no value for as they were read. When it also decides as it did then,
  interleaving does not show at all (`InterleavedIsSerial`).
* A job can be forgotten by its worker for good. `ForgottenIff` says exactly when: after a run whose
  provider could not be terminated (`UnterminatedRunForgets`), or when its entry leaves the queue and nothing else
  is to start it, as by a ping (`PingForgetsIff`), by another job at the same time (`EvictionForgetsIff`), or by a
  start command that comes just when its run is over (`EarlyStartForgets`).
* Disabling a job waits for its return under the worker's lock, which the loop that empties the message channel needs
  too. The wait ends as long as the channel is drained (`DisableEndsDisabled`); but it can block for good, and the
  worker with it (`DisableBlocks`). `WaitCanEndIff` says exactly from which states it can still end: the job never needs to
  send more than two messages, and there must be room for those it needs.
* The recorded start of a run is right because a job never announces two runs in a
  row (`RecordFollowsJob`). The worker drops messages of jobs that are neither ready nor halting,
  so that two announcements may meet: a reload during a pre-job hook brings this about (`ReloadHidesStart`),
  and the second start is not recorded. `StartedIff` is the exact condition.
* The comment at manager/server.go:395 says that only a meaningful size is taken over; the guard below
  it is true of every size, so any size is written. The model follows the code.
* The comment at worker/config_diff.go:41-43 says that replaying the operations yields the new list; this holds of lists without
  duplicate names (`ReplayYieldsNew`).

Assumptions: hooks, providers and the network answer at some time; the channel to the worker is drained, except in
`LockedWait.dfy`, which is about that; one `Run` goroutine per job; a provider that reports an error before it has
started reports a real error (worker/job.go:167-169 prints it); a process start that fails leaves no process.

## Model

| member | source | states |
|---|---|---|
| `RunJob.Wrapper.RunHooks` | worker/job.go:108-124 | all hooks pass and nothing is sent, or exactly one scheduling failure is sent |
| `RunJob.Wrapper.RunAttempt` | worker/job.go:144-240 | one attempt sends exactly its stream, and is followed by another exactly after a failure that was neither a kill, a hook nor a termination |
| `RunJob.Wrapper.Run` | worker/job.go:126-242 | the retry loop sends exactly the stream that its environment determines |
| `RunJob.AttemptSucceedsIff` | worker/job.go:158-222 | an attempt sends Success exactly when its provider started, its sync went well and all its pre-exec, post-exec and post-success hooks passed |
| `RunJob.GoesOnIff` | worker/job.go:144-240 | another attempt follows exactly when the sync failed, or timed out and was terminated, and all hooks of the attempt passed |
| `RunJob.StreamFacts` | worker/job.go:126-242 | every complete stream starts with its only PreSyncing, alternates Syncing with a result, has at most 1 + 2 * Retry() messages, and is silent after Success, a hook failure or a scheduling message |
| `RunJob.StreamOfMatches` | worker/job.go:126-242 | for every environment, what a run sends is in the grammar |
| `RunJob.StreamIff` | worker/job.go:126-242 | the grammar is exact: a stream is in it if and only if some hook results, sync results, kills and states produce it |
| `RunJob.RunSchedules` | worker/job.go:224-240 | the last message schedules exactly when a hook failed, or the run succeeded or gave up with the job Ready; a run neither killed nor badly terminated that finds the job Ready always schedules |
| `RunJob.StepKeepsShape` | worker/job.go:126-242 | whatever happens between two steps, a run cut at any of them still ends in the grammar |
| `RunJob.StepFollowsLoop` | worker/job.go:126-242 | each step of the closure, taken as the environment says, sends what the loop sends next in that environment |
| `RunJob.StepsRefineLoop` | worker/job.go:126-242 | a run cut into steps has sent, when it returns, exactly what the loop sends in the environment of its choices, and before that a beginning of it |
| `RunJob.StepDecreasesRank` | worker/job.go:126-242 | every step, whatever the environment chooses, brings the run nearer to its end |
| `RunJob.RankBounded` | worker/job.go:126-242 | the steps ahead are never more than at the start, a number fixed by retries and hooks |
| `RunJob.KilledRunMoves` | worker/job.go:187-191 | with kill closed, a run that has not returned can take a step |
| `JobEngine.EventKeepsInv` | worker/job.go:244-329 | every step of every goroutine keeps the invariant of the engine |
| `JobEngine.ReachableInv` | worker/job.go:244-329 | the invariant holds after any sequence of steps |
| `JobEngine.OneRunPerJob` | worker/job.go:258-329 | in every interleaving a job has at most one active run, each kill is closed at most once, each jobDone is signalled at most once and, by a runner that left, exactly once |
| `JobEngine.SpawnAfterDone` | worker/job.go:260-264 | when a controller spawns a runner, all earlier runners of the job have signalled |
| `JobEngine.TokensMatchHolders` | worker/job.go:244-256 | tokens in the semaphore are exactly the runners admitted by it that have not given theirs back, never above the limit; giving back never blocks; and bypass runs never exceed the force-starts consumed |
| `JobEngine.BypassKeepsTokens` | worker/job.go:249-251 | no step of a bypass run, from its admission to its end, takes or returns a token |
| `JobEngine.FinishedRunsAreStreams` | worker/job.go:126-256 | in every interleaving with controllers and state changes, a finished run has sent a complete stream, and a runner killed before admission nothing |
| `JobEngine.CatchAllUnreached` | worker/job.go:300-303 | the arm that returns without joining its runner is never taken |
| `Actions.StartIsCarriedOut` | worker/job.go:280-292 | after a restart of a running job, or any start of a resting one, and whatever happens next, the controller's next look at the state finds the job Ready and spawns its next run, the first since |
| `Actions.EndIsCarriedOut` | worker/job.go:270-299 | after a stop, disable or halt, and whatever happens next, the job is and stays paused, disabled or halting, spawns no run, and the run that was watched is killed and awaited |
| `Actions.StartWhileRunning` | worker/job.go:285-294 | a start of a running job leaves the run and its controller alone; a forced one leaves a permit |
| `Actions.ForceIsKept` | worker/job.go:285-291 | the permit of a forced start is there until a runner of the job takes it, and a runner at its select can |
| `Actions.PermitIsUsed` | worker/job.go:249-258 | a permit is good for one run, and none survives into a new `Run` |
| `JobLiveness.ReceiveCounts` | worker/job.go:270-328 | receiving an action brings a job that is to end nearer to its return, whichever action it was |
| `JobLiveness.ControllerEventCounts` | worker/job.go:258-328 | every step of the controller of such a job uses up some of its bound |
| `JobLiveness.RunnerEventCounts` | worker/job.go:244-256 | so does every step of the runner it is attached to |
| `JobLiveness.OtherEventKeeps` | worker/job.go:244-329 | no step of any other goroutine sets it back |
| `JobLiveness.DoomedJobMoves` | worker/job.go:276-299 | a job that was sent disable or halt can always move, whatever the other jobs hold |
| `JobLiveness.RankPaysForEvents` | worker/job.go:258-329 | along any run, the job has returned or has at most the rest of its bound ahead |
| `JobLiveness.DisableAlwaysReturns` | worker/job.go:97-103 | after disable or halt, `Run` returns and closes `disabled` within a number of own steps that depends only on retries and hooks, from every reachable state and in every continuation |
| `JobLiveness.EventKeepsDisabling` | worker/job.go:276-280 | once a disable was sent to an active controller that is not yet leaving, no event of anyone loses it or puts another state in its place |
| `JobLiveness.DisableEndsDisabled` | worker/worker.go:167-173 | what the worker waits for: from every reachable state in which a disable was sent, in every continuation, `Run` returns within its bound and leaves the job disabled |
| `JobLiveness.SentDisableEndsDisabled` | worker/worker.go:169-172 | the same from the moment the worker sends the disable, to any active controller not yet on its way out |
| `JobLiveness.KilledRunnerSignals` | worker/job.go:244-299 | once kill is closed, for whatever action, the runner takes at most a fixed number of steps, is never stuck, and then has signalled or is about to be received |
| `LockedWait.NoStepSpares` | worker/job.go:126-242 | a run cannot return with fewer messages than it is said to need, whatever the environment chooses |
| `LockedWait.SparingSpares` | worker/job.go:126-242 | and some choices bring it there with no more |
| `LockedWait.StuckStays` | worker/worker.go:167-173 | no step of anyone helps a wait under the lock for a job that needs to send more messages than there is room for |
| `LockedWait.EnoughRoom` | worker/worker.go:167-173 | with enough room the wait can end by steps of the job and the loop alone |
| `LockedWait.WaitCanEndIff` | worker/worker.go:167-173 | in every reachable state in which the lock is held until a disabled job returns, it can still return if and only if it needs to send no more messages than the channel, and the loop, have room for |
| `LockedWait.DisableBlocks` | worker/worker.go:321-327 | a run from the beginning after which the disabled job never returns and the lock is never released |
| `JobStreams.EventEmits` | worker/job.go:115-131 | each step adds to the messages of a job exactly what it sends, at the end |
| `JobStreams.RunsAreSentInTurn` | worker/job.go:126-264 | messages of different runs of a job never mix: all it ever sent is complete streams, one after the other, and at most one open stream at the end |
| `JobStreams.UnkilledRunsSchedule` | worker/job.go:115-240 | in every interleaving, a run that was never killed ends with a scheduling message if and only if no termination failed and its final report found the job Ready |
| `JobStreams.FailedStartIsNoSuccess` | worker/job.go:165-178 | in every interleaving, a runner whose provider failed to start sends no Success before it begins another sync |
| `JobStreams.RecordFollowsJob` | manager/server.go:319-348 | for every interleaving of the worker, delivering what a job sent leaves LastStarted at its latest announcement, LastUpdate at its latest Success and LastEnded at its latest Success or Failed |
| `StatusFilter.RelayedIsSent` | worker/worker.go:323-342 | as long as the worker drops nothing, all that a job sent was forwarded in order or still waits |
| `StatusFilter.TakeForwardsIff` | worker/worker.go:333-342 | a message is forwarded exactly when it finds the job Ready or Halting, and dropped otherwise |
| `StatusFilter.HaltedMessagesPass` | worker/worker.go:333-342 | from the moment a halt is received during a run, every message of the job that is taken is forwarded |
| `StatusFilter.UndroppedRecord` | worker/worker.go:333-342 | in every interleaving of engine and worker without a dropped message, LastStarted is the latest forwarded announcement |
| `StatusFilter.ReloadHidesStart` | worker/worker.go:333-336 | a run of engine and worker, with a reload during the second pre-job hook and one dropped message, that forwards two announcements in a row; at whatever times these are delivered, the start of the second run is not recorded |
| `NextRun.MoveTracked` | worker/worker.go:321-374 | every step of job, worker loop, command handlers and other jobs keeps the account of what will start the job next |
| `NextRun.TakeSchedules` | worker/worker.go:344-357 | a message that asks for the next run, and passes, puts the job into the queue at the time given and at no other; any other leaves the queue alone |
| `NextRun.TickStarts` | worker/worker.go:363-367 | a job that is first in the queue and due is taken out and sent a start |
| `NextRun.ForgottenIff` | worker/worker.go:321-374 | in every interleaving, a job that rests, ready or not yet run, will never be started again if and only if, at some step since its latest run began or it was set up, its entry left the queue or its run failed to terminate when nothing else was to start it |
| `NextRun.UnterminatedForgetsIff` | worker/job.go:193-196 | that step is a failed termination if and only if the job is then neither in the queue nor asked for by a waiting message |
| `NextRun.UnterminatedRunForgets` | worker/job.go:180-196 | a run from the beginning, of a job whose provider times out and cannot be terminated, that leaves it ready and forgotten |
| `NextRun.ForgottenStays` | worker/worker.go:321-374 | nothing but a command, a start-up or a reload gets it out of this state |
| `NextRun.PingForgetsIff` | worker/worker.go:210-212 | a command that sends no action, as a ping, forgets a resting job if and only if no message is about to schedule it |
| `NextRun.EvictionForgetsIff` | worker/schedule.go:50-60 | so does another job that is given the same time |
| `NextRun.EarlyStartForgets` | worker/job.go:285-291 | a start command that comes when the run is over but its controller still watches it: five steps after which the job is forgotten |
| `Schedule.ScheduleQueue.GetJobs` | worker/schedule.go:36-48 | lists the queue as it is |
| `Schedule.ScheduleQueue.AddJob` | worker/schedule.go:50-60 | leaves the queue in which the name has the new time only, and that time no other name |
| `Schedule.ScheduleQueue.Pop` | worker/schedule.go:63-82 | takes out the first entry exactly when its time has passed |
| `Schedule.ScheduleQueue.Remove` | worker/schedule.go:85-89 | takes out the entry of a name and says whether there was one |
| `Schedule.ScheduleQueue.UnsafeRemove` | worker/schedule.go:92-105 | the cursor finds the first entry with the name |
| `Schedule.EveryRunValid` | worker/schedule.go:50-105 | on every run, with any times, the list is strictly ordered, has each name at most once, and lists no name that is missing from the name set |
| `Schedule.EvictionLeavesName` | worker/schedule.go:50-60 | two jobs at one time: the second evicts the first, whose name stays in the set |
| `Schedule.AddJobRefines` | worker/schedule.go:50-60 | as a map from names to times: an update if and only if no other job holds the time; in general the holder of the time is lost and no one else |
| `Schedule.AddAllKeepsIff` | worker/schedule.go:50-60 | jobs with different names, added one after the other to an empty queue, all stay in it if and only if their times are all different; nothing else is in it |
| `Schedule.RemoveRefines` | worker/schedule.go:85-105 | as a map: deletion, and the result says whether the name was there |
| `Schedule.PopRefines` | worker/schedule.go:63-82 | as a map: removes a name of least time, exactly when some time is before now |
| `Schedule.GetJobsRefines` | worker/schedule.go:36-48 | the list is the map, each name once, in strictly increasing time order |
| `Schedule.PopsDrain` | worker/schedule.go:63-82 | repeated pops at one instant return exactly the entries before it, in order, keep the rest, and then nothing |
| `ConfigDiff.SortUnique` | worker/config_diff.go:46-54 | with unique names there is one sorted permutation, so nothing depends on the sort that is used |
| `ConfigDiff.DiffMirrorConfig` | worker/config_diff.go:44-97 | panics exactly when the sentinel check fails, and else returns the difference of the two lists without sentinels |
| `ConfigDiff.MergeLoop` | worker/config_diff.go:71-86 | the merge of two lists closed by a sentinel computes their difference and ends with both indices at the end |
| `ConfigDiff.OneSided` | worker/config_diff.go:87-94 | with one list empty, the other is deleted or added whole |
| `ConfigDiff.MergeClosed` | worker/config_diff.go:68-86 | the sentinel leaves no trace in the difference |
| `ConfigDiff.SentinelIff` | worker/config_diff.go:64-67 | the sentinel exceeds the name if and only if the first byte of the name other than `~` is below it or absent |
| `ConfigDiff.ByteAboveTildePanics` | worker/config_diff.go:65-67 | any two non-empty lists whose largest name starts with a byte above `~` make the check panic |
| `ConfigDiff.AccentPanics` | worker/config_diff.go:65-67 | for instance a mirror whose name is an e with an acute accent |
| `ConfigDiff.SentinelAbove` | worker/config_diff.go:59-67 | a sentinel above the larger last name is above every name of both lists |
| `ConfigDiff.MaxNameIsMax` | worker/config_diff.go:59-63 | the larger of the last names is the largest of all names |
| `ConfigDiff.DifferenceExact` | worker/config_diff.go:44-97 | for unique names: strictly increasing names, Delete for exactly the old-only, Add for exactly the new-only, Modify for exactly the common names whose configurations differ |
| `ConfigDiff.ReplayYieldsNew` | worker/config_diff.go:41-43 | replaying the difference on the old configuration yields the new one |
| `Reload.MirrorJob.SetProvider` | worker/job.go:79-86 | switches the provider exactly when the state is none or disabled |
| `Reload.Worker.InitJobs` | worker/worker.go:159-165 | one idle job per configured mirror |
| `Reload.Worker.StartUp` | worker/worker.go:274-315 | every job takes up the state the manager reports, unknown ones start, only disabled ones do not run; and the queue is that of adding each job that is neither disabled nor paused at its reported time, the unknown ones at the clock, in whatever order they are met |
| `Reload.StartUpSchedules` | worker/worker.go:292-311 | after start-up the queue lists only jobs that are neither disabled nor paused, each at the time of its report or, without one, of its start; and all of them if and only if no two times are equal |
| `Reload.StartUpConsistent` | worker/worker.go:159-165 | after start-up the job table is exactly the configuration, and runs exactly the jobs that are not disabled |
| `Reload.StartUpStates` | worker/worker.go:284-311 | after start-up a mirror reported disabled is disabled and does not run, one reported paused is paused, and every other waits for its start |
| `Reload.DisableMatchesEngine` | worker/worker.go:167-173 | in the engine, from any reachable state in which disable is sent to an active job and up to the first return of `Run`, the job ends as `AfterDisable` says |
| `Reload.Worker.DisableJob` | worker/worker.go:167-173 | the job is unscheduled and, for the rest, what `AfterDisable` makes of it: disabled and not running |
| `Reload.Worker.ReplaceProvider` | worker/worker.go:118-127 | the provider is switched in the state that a disable leaves: the error branch is never taken |
| `Reload.Worker.ModifyJob` | worker/worker.go:115-138 | a modified job keeps disabled or paused, and else starts over and is scheduled now |
| `Reload.Worker.DeleteAndModify` | worker/worker.go:102-140 | the first loop does to the live jobs and the queue what the operations say, and skips additions and unknown names |
| `Reload.Worker.AddNew` | worker/worker.go:142-154 | the second loop starts and schedules exactly the additions |
| `Reload.Worker.ReloadMirrorConfig` | worker/worker.go:93-157 | replays the difference of the stored and the new configuration on live jobs and queue, and stores the new one; if the difference panics nothing has changed |
| `Reload.ReloadAt` | worker/worker.go:93-157 | name by name: deleted jobs are gone and unscheduled; new ones started and scheduled at the reading of the clock at their operation; unchanged ones keep state and schedule; modified ones carry their new configuration and stay disabled or paused, or start over and are scheduled at the reading at their operation |
| `Reload.ReloadConsistent` | worker/worker.go:93-157 | the job table is exactly the new names, each job under its new configuration, running exactly if not disabled; so reloads compose |
| `Reload.StartIsTime` | worker/schedule.go:50-60 | the start of a name that reload speaks of is its time in the queue as a map |
| `Contexts.Context.Enter` | worker/context.go:25-32 | an empty layer on top of all others |
| `Contexts.Context.Exit` | worker/context.go:35-40 | the layers without the top one; fails exactly on the base layer |
| `Contexts.Context.Get` | worker/context.go:45-56 | the value in the topmost layer that has the key |
| `Contexts.Context.Set` | worker/context.go:59-61 | changes one key of the top layer and no other layer |
| `Contexts.BaseProvider.EnterContext` | worker/base_provider.go:38-41 | the provider's stack grows by an empty layer |
| `Contexts.BaseProvider.ExitContext` | worker/base_provider.go:43-46 | the provider's stack loses its top layer, and below the base is no context |
| `Contexts.BaseProvider.AddHooks` | worker/provider.go:200-254 | builds each configured hook once and each command as often as it is listed, success commands as such and failure commands as such, in the order log limiter, zfs, btrfs, docker or else cgroup, success commands, failure commands |
| `Contexts.BaseProvider.LogLimiterPreExec` | worker/loglimit_hook.go:32-91 | pushes one layer whose log file is the new name in the log directory, unless logs go to /dev/null or it fails, and then leaves the stack alone |
| `Contexts.BaseProvider.DockerPreExec` | worker/docker.go:43-66 | pushes one layer whose volumes map log directory, log file and working directory, as then in force, to themselves, or fails and leaves the stack alone |
| `Contexts.BaseProvider.CallHook` | worker/docker.go:68-95 | every hook changes the stack in the phases of its own only |
| `Contexts.BaseProvider.RunHooks` | worker/job.go:108-124 | a phase calls the hooks in order on the live context chain and stops at the first failure |
| `Contexts.BaseProvider.RunAttempt` | worker/job.go:144-222 | an attempt runs pre hooks forward and post hooks in reverse, and returns early on a hook or termination failure |
| `Contexts.BuiltHooks` | worker/provider.go:200-254 | in every configuration the log limiter is first and only there, and docker comes at most once |
| `Contexts.AttemptDisciplined` | worker/job.go:144-222 | with any hooks failing: no accessor panics, the layers below stay, directories stay, an attempt without hook or termination failure restores the stack exactly, and its post hooks all saw the log file its own pre-exec set |
| `Contexts.AttemptPassesIff` | worker/job.go:144-222 | an attempt passes exactly when no termination fails, no log limiter, docker or cgroup fails before the sync, no cgroup after it, and no btrfs or success command after a success, nor failure command after a failure |
| `Contexts.UnterminatedLeavesLayers` | worker/job.go:193-196 | after a failed termination no post hook is called, and the layers of the attempt stay, with its log file in force |
| `Contexts.AttemptsDisciplined` | worker/base_provider.go:38-94 | over any sequence of attempts and failures and any configuration, the base layer is never left and the directories never change |
| `Processes.EventKeepsOwner` | worker/base_provider.go:164-185 | at every step at most one `Run` owns the process, the flag and the cmdJob |
| `Processes.OneProcess` | worker/cmd_provider.go:91-147 | in every interleaving of any number of `Run` and `Terminate` calls at most one child is alive, and none when the lock is free and the flag false |
| `Processes.FlagDecides` | worker/cmd_provider.go:118-124 | under the lock a `Run` starts a process exactly when the flag is false, and a `Terminate` signals one exactly when it is true |
| `Processes.CmdIsTheChild` | worker/rsync_provider.go:132-176 | `Wait`, which reads the field without the lock, finds the process of its own call; `Terminate` never finds one that was not started |
| `ManagerStatus.Manager.UpdateJobOfWorker` | manager/server.go:307-370 | a status message sets status and schedule of its mirror, takes over times and size as the status asks, and changes no other record |
| `ManagerStatus.Manager.UpdateSchedulesOfWorker` | manager/server.go:260-305 | each known mirror that the list mentions gets the last time that the list gives it; no other field, record or key changes |
| `ManagerStatus.Manager.UpdateMirrorSize` | manager/server.go:372-414 | a known mirror gets any size that is sent; no other field, record or key changes |
| `ManagerStatus.Manager.HandleClientCmd` | manager/server.go:416-462 | sent to a registered worker, a stop leaves the mirror Paused and a disable leaves it Disabled, with all its other fields; nothing else changes anything |
| `ManagerStatus.EventKeepsInv` | manager/server.go:260-475 | every step of every request in flight keeps all stored and all snapshotted times in order |
| `ManagerStatus.StoredTimesOk` | manager/server.go:319-341 | with any number of requests in flight: LastUpdate <= LastEnded <= now, LastStarted <= now, Success implies LastUpdate == LastEnded, Success or Failed implies LastStarted <= LastEnded |
| `LostUpdates.LosesNothingIff` | manager/server.go:270-360 | a write leaves every field that its request has no value for as it is stored, and brings back no deleted record, if and only if the record that the request read is still there, with each of these fields as it was read |
| `LostUpdates.NothingLostIff` | manager/server.go:260-462 | on every run, flushes included: no update of any field and no deletion is lost if and only if every write finds the record its request read, with the fields that the request copied as they were read |
| `LostUpdates.InterleavedIsSerial` | manager/server.go:260-462 | on every run, flushes included, whose writes see what their requests read, the store is at the end that of serving the requests whole, one after the other, in the order of their writes |
| `LostUpdates.MonotoneRunsIff` | manager/server.go:319-360 | as to times alone, on runs without a flush: none ever moves back if and only if every write finds the times it does not set as they were read, and those it sets not from a later reading; and then every record is at the end where it was, or later |
| `LostUpdates.UndisturbedWrite` | manager/server.go:319-360 | in every state with the invariant, a request whose record nobody changed since it read it moves no time back |
| `LostUpdates.LostUpdate` | manager/server.go:274-291 | a run in which a schedule update puts back the times from before a success |
| `LostUpdates.LostDisable` | manager/server.go:274-291 | a run in which a schedule update undoes an operator's disable, so that a flush of disabled mirrors keeps the record, while no time moves back |
| `LostUpdates.UndoneFlush` | manager/server.go:381-405 | a run in which a set-size request brings back, enabled, a mirror that was disabled and flushed since it was read |
| `ManagerStatus.FeedTimes` | manager/server.go:332-341 | whatever is delivered, LastUpdate is the time of the latest Success and LastEnded that of the latest Success or Failed |
| `ManagerStatus.FeedRuns` | manager/server.go:326-341 | any concatenation of complete streams leaves LastStarted at the start of the latest run |
| `ManagerStatus.FeedStarted` | manager/server.go:326-330 | where no two announcements are adjacent, LastStarted is the time of the latest one |
| `ManagerStatus.StartedIff` | manager/server.go:326-330 | in any deliveries, the latest announcement sets LastStarted if and only if the record was not still PreSyncing |
| `ManagerStatus.FeedSize` | manager/server.go:343-348 | whatever is delivered, the record has the latest known size, and none if and only if none was ever known |
| `KvStore.FlatStore.Get` | manager/db_badger.go:17-27 | the value under bucket and key, if there is one |
| `KvStore.FlatStore.Put` | manager/db_badger.go:49-55 | changes the flat key of bucket and key only |
| `KvStore.FlatStore.Delete` | manager/db_leveldb.go:44-47 | removes the flat key of bucket and key only |
| `KvStore.FlatStore.GetAll` | manager/db_badger.go:29-47 | the iterator walk returns exactly the keys with the bucket as prefix, stripped of it |
| `KvStore.NestedStore.GetAll` | manager/db_bolt.go:33-44 | the cursor walk returns the whole bucket |
| `KvStore.NestedStore.InitBucket` | manager/db_bolt.go:14-22 | creates the bucket if there is none, and never empties one |
| `KvStore.PrefixesTogether` | manager/db_badger.go:34-35 | in byte order the keys with one prefix are contiguous, so the walk may stop at the first without it |
| `KvStore.Simulates` | manager/db_badger.go:17-63 | for prefix-free names, on every sequence of operations and from agreeing stores, flat and nested store give the same answers |
| `KvStore.FlatIffPrefixFree` | manager/db_leveldb.go:18-47 | flat and nested store agree on every sequence of operations that all engines accept if and only if no bucket name is a proper prefix of another |
| `KvStore.ManagerBuckets` | manager/db.go:44-45 | the manager's buckets meet this |
| `KvStore.KeyReadsBack` | manager/db.go:199-210 | splitting a status key gives back its mirror, and its worker if and only if that has no slash |
| `KvStore.KeysInjective` | manager/db.go:178-180 | no two pairs of mirror and worker share a status key |
| `KvStore.KvAdapter.UpdateMirrorStatus` | manager/db.go:178-185 | writes under the key of the pair and nowhere else |
| `KvStore.KvAdapter.GetMirrorStatus` | manager/db.go:187-197 | what is stored under the pair, or the zero record and an error |
| `KvStore.KvAdapter.ListMirrorStatus` | manager/db.go:199-218 | returns each record stored for the worker once, and no others |
| `KvStore.KvAdapter.FlushDisabledJobs` | manager/db.go:239-261 | deletes exactly the records that are disabled or have no name, and changes none |
| `KvStore.UpdateHolds` | manager/db.go:178-185 | an update keeps the bucket a table by worker and mirror, and changes one entry of it |
| `KvStore.FlushHolds` | manager/db.go:239-261 | a flush of the bucket is a flush of the table |
| `Inherit.Config.RecursiveMirrors` | worker/config.go:245-264 | appends the flattening of one tree below its parent, and leaves earlier entries alone |
| `Inherit.Config.LoadMirrors` | worker/config.go:236-240 | appends the flattening of the whole forest |
| `Inherit.LeavesExact` | worker/config.go:254-262 | the recursion meets exactly the leaves of the forest |
| `Inherit.LeavesInOrder` | worker/config.go:254-262 | it meets them in depth-first order |
| `Inherit.FlattenInherits` | worker/config.go:245-253 | below any parent, a leaf has the last non-empty value on its path, else the parent's |
| `Inherit.LoadedMirrors` | worker/config.go:236-264 | one mirror per leaf and no others, in depth-first order, each option the last non-empty value from root to leaf |

## Left out

Job engine

- Message texts and log output: a message keeps its status, its schedule flag and whether a failed hook wrote it.
- JobEngine.CatchAllUnreached: rests on the fact that no part of the worker sends `jobPing`; the engine's `Send` excludes it.
- Double start of one job by the command handler (worker/worker.go:218-223): one `Run` per job is assumed.
- JobStreams.RecordFollowsJob: assumes that every message is delivered; what the worker's filter does to it is in `StatusFilter.dfy`.
- NextRun.ForgottenIff: asks for `Retry() >= 1` of the latest runner, which holds unless a configuration gives a negative number, and leaves out the halt of the whole worker.
- LockedWait.WaitCanEndIff: is about one wait for one job; the halt of the whole worker, which waits in the same way, a send into a control channel that is full, and the time the loop spends posting a status are left out, because they only add places to wait.
- StatusFilter.UndroppedRecord: follows the messages of one job at a time; those of a job that has left the job table are not modelled.
- `Halt`, registration, signals, the worker's HTTP server and its posts to the manager: plumbing.
- `m.size` and `DataSize`: values passed through.

Schedule, difference and reload

- The skip list and the sort have contracts: a map sorted by time in which `Set` replaces, and a sorted permutation. Times are integers, without Go's monotonic part.
- Queue entries hold the name of a job, not the job.
- Lists with duplicate names: the lemmas about meaning require unique names; Go's sort does not fix the order of equal ones.
- `reflect.DeepEqual` is equality of values.
- Reload with actions still waiting in a control channel, or after a halt.
- Errors in the construction of providers and other panics there.

Contexts and hooks

- Effects of log rotation, docker, cgroup, zfs and btrfs outside the context: whether they fail is an input.
- `Volumes` and `LogFile` of the docker hook: readers of a key.
- Choice between own and global exec hooks, and exit codes: lists that are passed on.

Processes

- The protocol is modelled as steps, not as a class, since its calls interleave.
- Two-stage rsync, which drops the lock between its stages.
- Log files and data sizes of a provider; a process start that fails and leaves a process, as with cgroups.

Manager

- Routing, JSON, errors of the store, the refresh of worker records and the post of a command to the worker.
- Requests with an empty mirror name go on after their error answer, as in the code.
- Redis, and what distinguishes the engines beyond their maps: the error of a missing key, empty keys in bolt, transactions.
- The leveldb range iterator is taken to be the walk from the first key with the prefix to the last.
- KvStore.KeyReadsBack: requires a mirror name without a slash, because otherwise the part that is read as the worker is one of the mirror name.

Configuration

- `mergo` has a contract: a non-empty value overrides. The `Env` map, which it merges by key, is one value here.
- Reading and including files.
