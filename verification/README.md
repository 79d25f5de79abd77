# Kahi, verified

Kahi is a process supervisor. This project models the parts of it in which
state outlives a single call, and proves what they promise:

- **The life of a process.** `Machine`, `StateMachine`, `Lifecycle` and
  `Process` model the seven-state automaton and what drives it: starts, stops,
  exits, retirement, config updates, and the goroutines that wait for startsecs,
  for stopwaitsecs, for a backoff delay or for the lock (autorestart). A step is one
  critical section of `Process.mu`, one move of a goroutine, or one action of
  the environment. Stale goroutines stay in the model. Where the outcome can
  depend on what happens inside a section, that is an explicit interleaving:
  the promotion to RUNNING under the state machine's own lock (`Race`), and the
  time between an autorestart's checks and its start, in which it holds the
  process's lock (`Restarting`). `StateMachines.StateMachine` and
  `Processes.Process` are the classes of the program, with its fields; every
  method is proved to do what the step functions of `Machines` and `Lifecycle`
  say, and the properties are proved of all runs of those.
- **All processes together.** `World` interleaves the processes, which share
  the clock and the shutdown channel; a run of the world seen from one process
  is a run of that process. `Manager`, `Reload`, `ApplyReload`, `Supervisor`
  and `Bulk` model loading a config, reloading it while everything goes on
  running, and acting on all processes in priority order. Before each single
  action of the manager any actions of the processes, their goroutines and API
  clients may happen (`Turn.before`).
- **The output pipeline.** `AnsiStrip`, `RingBuffer`, `Capture`, `Sse`: a
  stripper that sees a stream in chunks, a ring buffer, log rotation, and the
  writer and reader of server-sent events, each against a function of the
  whole stream.
- **Config loading.** `Include`, `IncludeMeaning`, `Load`, `Expand`, `Names`,
  `Instances`, `IncludeErrors`: include resolution, the checks across files,
  variable expansion, and the names and configs of a program's processes.

Code that changes state is a class or a method with the source's loops, proved
against a function; the properties are lemmas about the functions.

## Findings

The following hold of the code and are proved here. Where they contradict a
document, the code was followed.

- A start watcher that fires while the exit of a STARTING child is handled, or
  while a failed spawn is recorded, leaves a process RUNNING without a child
  (`PhantomIff` says exactly when). No later event ends this, a stop and a
  shutdown included (`PhantomIsForever`), so the daemon then never sees all processes stopped.
- An autorestart that has read the shutdown channel just before StopAll closes
  it starts its process after StopAll has seen that EXITED and passed on
  (`OvertakenAutorestart`); without such an autorestart and without an explicit
  start, a reload's included, a shutdown is final (`ShutdownIsFinalIff`). A
  reload that has read the channel just before then starts its process after
  StopAll has passed it, and unlike startOne does not undo that
  (`OvertakenStart`).
- docs/process-lifecycle.md says that a stop in BACKOFF cancels the retry. The
  retry launched by an exit waits on a channel that the end of the exit handler
  replaces, so nothing cancels it (`ExitRetryCannotBeCancelled`). After a stop
  and a new start it is still waiting and cuts the next backoff short
  (`StopLeavesRetryPending`, `StopCutsBackoffShort`). A backoff is served in
  full exactly if, when it is entered, no waiting retry is up before its delay
  is over (`ServedInFullIff`).
- A retry reads the failure count when it begins to wait, not when it is
  launched. If the count has changed by then it waits the time of another
  failure (`LateRetryServesAnother`; exactly when: `RetryServesItsFailureIff`).
- Changing startsecs in place while a process is STARTING is harmless exactly if
  one of its start watchers, not cancelled, has not begun to wait, or waits long
  enough for the new value, or is left when the new time has passed already.
  Otherwise, even if its child just goes on running, the process can be left
  without a watcher, and then stays STARTING for as long as its child lives
  (`UpdateStrandsIff`, `CanStrandIff`, `StrandedNeverRuns`).
- The backoff delay is the documented min(2^(r-1), 60) seconds for r up to 34
  and, by luck of the wrap-around, for eight further values; for all others it is
  zero or negative, and from 56 on it is 0 (`DelayExactIff`, `DelayVanishes`).
- A program that was stuck in one reload is left with processes that can never
  be started again, until a reload changes its spawn settings against the
  recorded ones and it stops. Restoring its old config, or one that differs from
  it only in supervision settings, keeps it dead (`StuckIsDead`,
  `DeadStaysDown`, `DeadProgramRecoversIff`). The reload that recreates it does
  not start it, as it finds none of its processes up
  (`RecoveredIsNotStarted`).
- A program of the new config is not fully created if a stuck program still
  holds one of its process names (`InStepIffNamesFree`). A later reload that
  leaves it unchanged creates the missing process as the program's own
  (`MissingBecomesOwn`), but neither lists it in the program's group nor starts
  it; only a reload that restarts the program and sees it stop brings it in step
  (`ShortProgramRecoversIff`).
- A reload to a file without any program panics if a removed program does not
  stop in time (`Supervisor.ApplyReload`, the clause about `panicked`).
- The last phase of expansion takes any two adjacent % or $ for an escape, also
  when they stand for themselves: from one value with %% or $$ in it, from two
  references side by side, or from a value next to a lone sign (`ExpansionIsMeaningIff`, `AdjacentValuesMerge`).
- With numprocs > 1 an escaped %(process_num)d is replaced all the same
  (`EscapeThroughBothStagesIff`).
- A control sequence that is ill formed, or longer than 64 bytes when cut, is
  stripped differently depending on where the stream is cut; well-formedness
  within that bound is the exact condition (`CuttingNeverShowsIff`).

## Model

| member | source | states |
|---|---|---|
| Machines.TableIsChart | internal/process/state.go:33-42 | the table allows exactly the thirteen edges of the state chart |
| Machines.ApplyKeepsConsistent | internal/process/state.go:141-161 | every allowed transition keeps the retry counter equal to the failed attempts since RUNNING, the history lawful, and RUNNING earned |
| Machines.TransitionKeepsConsistent | internal/process/state.go:124-139 | so does a requested transition, allowed or refused |
| Machines.ProcessStartedKeepsConsistent | internal/process/state.go:181-195 | promotion happens only after startsecs of the current attempt |
| Machines.ProcessExitedEarlyKeepsConsistent | internal/process/state.go:199-216 | an early exit counts as one failure, whether it ends in BACKOFF or FATAL |
| Machines.ProcessExitedKeepsConsistent | internal/process/state.go:219-233 | an exit from RUNNING or STOPPING keeps the history lawful |
| StateMachines.StateMachine.ApplyTransition | internal/process/state.go:141-161 | the method has exactly the effects of entering the target state |
| StateMachines.StateMachine.TransitionTo | internal/process/state.go:122-139 | succeeds exactly for the moves of the table and changes nothing otherwise |
| StateMachines.StateMachine.SetLimits | internal/process/state.go:81-86 | new limits, everything else unchanged |
| StateMachines.StateMachine.RequestStart | internal/process/state.go:164-169 | a start request clears manualStop even when it is refused |
| StateMachines.StateMachine.RequestStop | internal/process/state.go:172-177 | a stop request sets manualStop even when it is refused |
| StateMachines.StateMachine.ProcessStarted | internal/process/state.go:181-195 | promotes a STARTING machine whose startsecs have passed, and no other |
| StateMachines.StateMachine.ProcessExitedEarly | internal/process/state.go:199-216 | BACKOFF, or FATAL once the failures exceed startretries; the state it returns is the new one |
| StateMachines.StateMachine.ProcessExited | internal/process/state.go:219-233 | RUNNING to EXITED, STOPPING to STOPPED, refused elsewhere |
| StateMachines.StateMachine.RetryFromBackoff | internal/process/state.go:253-260 | BACKOFF to STARTING, refused elsewhere |
| BackoffDelays.DelayExactUpTo34 | internal/process/state.go:237-250 | in 64-bit nanoseconds the delay is min(2^(r-1), 60) seconds for r from 1 to 34 |
| BackoffDelays.DelayVanishes | internal/process/state.go:245-249 | from r = 56 on the delay is 0 |
| BackoffDelays.DelayPast34 | internal/process/state.go:245-249 | between 35 and 55 it is a minute for eight values of r and negative for the others |
| BackoffDelays.DelayExactIff | internal/process/state.go:237-250 | the formula holds exactly for r up to 34 and those eight values; elsewhere the delay is zero or negative |
| BackoffDelays.SameDelayIff | internal/process/state.go:237-250 | when the delay computed for one count is the one documented for another |
| Processes.Process.constructor | internal/process/process.go:86-110 | a new process is STOPPED, without child, with open channels |
| Processes.Process.SpawnLocked | internal/process/process.go:228-323 | records the child and launches its start watcher, or records the failure; an interleaved promotion included |
| Processes.Process.FailStartLocked | internal/process/process.go:336-351 | a failed attempt in BACKOFF launches a retry on the current stop channel |
| Processes.Process.Start | internal/process/process.go:199-220 | succeeds exactly if the process is STOPPED, EXITED or FATAL, not retired, and the spawn does; then there was no child before and there is one now |
| Processes.Process.StopLocked | internal/process/process.go:385-441 | the whole effect of a stop, and that no channel is closed twice |
| Processes.Process.Stop | internal/process/process.go:379-383 | the same under the lock, keeping the invariant; it is accepted exactly in STARTING, RUNNING, BACKOFF and STOPPING |
| Processes.Process.Retire | internal/process/process.go:464-468 | marks the process and nothing else |
| Processes.Process.UpdateConfig | internal/process/process.go:129-136 | replaces config and limits, leaving state, child and goroutines |
| Processes.Process.ShouldRestart | internal/process/process.go:603-629 | the autorestart decision |
| Processes.Process.ExitSwitch | internal/process/process.go:543-579 | what an exit does in each state |
| Processes.Process.HandleExitStatus | internal/process/process.go:531-591 | the same followed by closing the kill channel and replacing the stop channel, keeping the invariant |
| Processes.Process.RetryAfterBackoff | internal/process/process.go:640-659 | what a retry does when its delay is over: nothing outside BACKOFF or when retired, a stop during shutdown, else a spawn |
| Processes.Process.RestartAfterExit | internal/process/process.go:665-677 | an autorestart acts only in EXITED and outside a shutdown |
| LifecycleSafety.StepKeeps | internal/process/process.go:205-323 | every step keeps: child only in STARTING, RUNNING or STOPPING; channels closed at most once; kill channel exactly in STOPPING; limits as configured |
| LifecycleSafety.RunKeeps | internal/process/process.go:385-677 | and so does every run |
| LifecycleSafety.EveryRunIsSafe | internal/process/process.go:205-677 | in every run of a new process these hold, in the source's terms |
| LifecycleSafety.EveryRunHasALawfulHistory | internal/process/state.go:141-260 | in every run: transitions follow the table, retries are the failures since RUNNING, RUNNING is entered only after startsecs of the attempt it ends |
| LifecycleSafety.ChildIsNeverOverwritten | internal/process/process.go:288-323 | a step that gives the process a new child starts from a process without one |
| LifecycleSafety.RunKeepsLock | internal/process/process.go:665-677 | in every run at most one autorestart is between its checks and its start, and the process is EXITED then |
| LifecycleSafety.AutorestartIsOneSection | internal/process/process.go:665-677 | checks and start without interruption are the whole critical section |
| LifecycleRuns.StepMoves | internal/process/process.go:205-677 | the complete state chart: which event can move which state where, and under which conditions; who changes the config, the retirement and the shutdown flag |
| LifecycleChart.StepFollowsChart | internal/process/process.go:199-677 | outside races every event leads to exactly the state and the child that a chart over states says: what starts, stops, exits, retries, restarts and watchers do in each state |
| LifecycleChart.ExitLaunchesRestartIff | internal/process/process.go:603-629 | an exit from RUNNING ends in EXITED and launches one autorestart exactly if no shutdown has begun and the policy is true, or is unexpected and the code is none of exitcodes |
| LifecycleChart.RestartBringsBack | internal/process/process.go:665-677 | that autorestart gives the process the spawned child, unless the process is retired or a shutdown has begun |
| LifecycleChart.StopAcceptedIff | internal/process/process.go:385-405 | a stop is accepted exactly if it changes the state, or one is under way already |
| LifecycleChart.StopLaunchesKillWatch | internal/process/process.go:385-441 | a stop of a STARTING or RUNNING process keeps the child, closes the stop channel and launches a watcher on a new, open kill channel |
| LifecycleChart.KillWatchWaits | internal/process/process.go:443-462 | it waits for stopwaitsecs from when it begins |
| LifecycleChart.KillIsNeverForgotten | internal/process/process.go:443-462 | in every run without an exit the process stays STOPPING, and that watcher has fired or is still there: nothing cancels it |
| LifecycleChart.ExitEndsStop | internal/process/process.go:571-591 | the exit leaves the process STOPPED without a child, with the kill channel closed and the stop channel open |
| LifecycleRuns.RetiredRun | internal/process/process.go:205-208 | a retired process that is not up never comes up, and in a terminal state it stays there, in every run |
| LifecycleRuns.RetirementIsFinal | internal/process/reload.go:47-89 | retire, look, stop if up: with anything in between and after, the process is never up again, and once terminal stays so without a child |
| LifecycleRuns.StopTakesDown | internal/process/process.go:385-441 | after a stop no process is STARTING, RUNNING or in BACKOFF; after an accepted one it is STOPPING or STOPPED |
| LifecycleRuns.StopIsRespected | internal/process/process.go:385-441 | after an accepted stop only an explicit start brings the process back: no retry, autorestart or watcher does |
| LifecycleRuns.HaltedRun | internal/process/process.go:631-677 | STOPPED, FATAL and STOPPING are closed under every run without explicit starts |
| LifecycleRuns.ShutdownIsFinalIff | internal/process/manager.go:332-346 | after StopAll has closed the shutdown channel, looked and stopped, nothing but an explicit start brings the process up, exactly if no autorestart that may start it is past its check when the channel closes |
| LifecycleRuns.OvertakenAutorestart | internal/process/process.go:669-674 | such an autorestart starts the process after StopAll has seen it EXITED and passed on |
| LifecycleRuns.OvertakenStart | internal/process/reload.go:219-231 | an explicit start that comes after StopAll has passed, its check of the shutdown made before, brings the process up during the shutdown |
| LifecycleRuns.PhantomIff | internal/process/process.go:353-376 | a process is up without a child exactly after a losing race of its start watcher |
| LifecycleRuns.PhantomIsForever | internal/process/process.go:417-432 | no event of any kind ends that |
| LifecycleRuns.WithoutLosingRaces | internal/process/process.go:543-551 | in a run without such a race a child exists exactly in the active states |
| LifecycleAttempts.TriedSince | internal/process/state.go:197-216 | from any start, with the failures since the last RUNNING counted before it: the program is tried at most as often as is left of startretries + 1, at least once, and is FATAL exactly when so many attempts have failed |
| LifecycleAttempts.TriedExactly | internal/process/state.go:197-216 | a new program that never reaches RUNNING is tried startretries + 1 times before it is FATAL |
| LifecycleTimers.OrphanIsNeverClosed | internal/process/process.go:590-590 | a channel that has been replaced without being closed is never closed |
| LifecycleTimers.ExitRetryCannotBeCancelled | internal/process/process.go:553-590 | the retry launched by an exit waits on such a channel |
| LifecycleTimers.StopCancelsIff | internal/process/process.go:389-400 | a stop in BACKOFF cancels a pending retry exactly if it waits on the current stop channel |
| LifecycleTimers.BackoffIsNeverStranded | internal/process/process.go:336-351 | in every run a process in BACKOFF that is not retired has a pending retry that nothing has cancelled |
| LifecycleDeadlines.CanStrandIff | internal/process/process.go:353-376 | a STARTING process can reach, without exit, stop or update, a STARTING state with no watcher pending exactly if none of its watchers is sure to promote it: every open one is armed for less than startsecs after the start of the attempt, and that time has not passed |
| LifecycleDeadlines.UpdateKeepsWatchedIff | internal/process/process.go:129-136 | an in-place update of a STARTING process leaves it a watcher sure to promote it exactly if one of its watchers lasts for the new startsecs |
| LifecycleDeadlines.UpdateStrandsIff | internal/process/process.go:129-136 | such an update makes it possible that the process is left STARTING without a watcher exactly if none does |
| LifecycleDeadlines.StartingIsNeverStrandedIff | internal/process/process.go:313-320 | at no point of a run can a STARTING process be left without a watcher exactly if every update along the run finds one that lasts |
| LifecycleDeadlines.LiveWatchPromotes | internal/process/process.go:367-372 | when a watcher that lasts fires, the process is RUNNING |
| LifecycleDeadlines.BackoffDelaysAreExact | internal/process/process.go:631-635 | with startretries up to 34, a retry that begins to wait in BACKOFF waits the time documented for the failure count of that moment |
| LifecycleDeadlines.RetryServesItsFailureIff | internal/process/process.go:553-558 | a retry waits the time documented for the failure that launched it exactly if the count is still the same when it begins, or both are past the cap, or the count is back to 0 and it was the first failure |
| LifecycleGaps.PhantomIsPossible | internal/process/process.go:543-551 | from every STARTING state with an armed watcher the losing race can happen |
| LifecycleGaps.StrandedNeverRuns | internal/process/state.go:188-189 | without a watcher a STARTING process stays STARTING in every run until its child exits or it is stopped |
| LifecycleGaps.StopLeavesRetryPending | internal/process/process.go:389-400 | stop and start again: the retry of the first failure is still waiting in the BACKOFF of the second |
| LifecycleGaps.AnyRetryEndsBackoff | internal/process/process.go:640-659 | when a retry whose delay is over fires in BACKOFF, whichever failure launched it, and the process is neither retired nor shut down, the next attempt begins at that moment |
| LifecycleBackoffs.ServedInFullIff | internal/process/process.go:631-659 | in every run from a BACKOFF no retry ends it before the delay of its failure is over, exactly if no retry that waits when it is entered is up earlier |
| LifecycleBackoffs.StopCutsBackoffShort | internal/process/process.go:389-400 | after fail, stop, start, fail the second BACKOFF is not served in full, as long as the delay still doubles |
| LifecycleGaps.LateRetryServesAnother | internal/process/process.go:631-635 | a retry that begins only after the next failure arms the delay of that one |
| Worlds.WorldRunProjects | internal/process/manager.go:155-158 | a run of all processes, seen from one, is a run of that one in which time passes and a shutdown may begin |
| Worlds.WorldStaysSane | internal/process/process.go:205-677 | so every process in every run of the world keeps the invariant |
| Worlds.RunEvolves | internal/process/reload.go:47-55 | whatever happens that is not a reload: same objects, same configs, no retirement; a retired process stays down |
| Managers.Manager.constructor | internal/process/manager.go:49-60 | a new manager has no process and no group |
| Managers.Manager.LoadProgram | internal/process/manager.go:112-222 | creates the missing processes of a program, and its implicit group for those if there is none |
| Managers.Manager.LoadPrograms | internal/process/manager.go:112-222 | the same for all programs, in any map order |
| Managers.Manager.LoadGroups | internal/process/manager.go:224-241 | each explicit group is there with its priority; if no group is named like a program it lists the processes of its programs, and priorities of grouped programs are rebuilt, in any map order |
| Managers.Manager.MembersOf | internal/process/manager.go:229-235 | lists exactly what the groups of the given programs list |
| Managers.MembersInOrder | internal/process/manager.go:229-235 | in the order of the programs, each program's processes in their own order |
| Managers.ExplicitGroupLists | internal/process/manager.go:224-241 | after loading, a process is in an explicit group exactly if the group of one of its programs lists it |
| Managers.Manager.LoadConfig | internal/process/manager.go:108-242 | keeps what exists, creates what is missing, with fresh objects |
| Managers.Manager.ProgramProcesses | internal/process/reload.go:155-166 | the processes of a program, sorted by name |
| Managers.Manager.WaitForStopped | internal/process/manager.go:613-626 | true exactly if the last look found a terminal state; it gives up only after the last look its time allows |
| Managers.Manager.Acquire | internal/process/process.go:199-202 | a call on a process waits until an autorestart that holds the lock has made its start |
| Managers.Manager.StartProcess | internal/process/process.go:199-203 | a start, after anything else and with any interleaving the process allows; it succeeds exactly if the process may start and the spawn does |
| Managers.Manager.StopProcess | internal/process/process.go:379-383 | a stop, after anything else; accepted exactly where the process accepts one |
| Managers.Manager.RetireProcess | internal/process/process.go:464-468 | a retirement, after anything else |
| Managers.CreatedMore | internal/process/manager.go:112-213 | no program takes a name from another one of the same config |
| Instances.ExpandNumprocs | internal/process/manager.go:253-294 | one instance per copy with its own name; with numprocs > 1 its config has the instance's number put into command, directory, user, both log files and each environment value, and is the same otherwise |
| Instances.ExpandVar | internal/process/manager.go:296-313 | replacing first occurrences until none is left ends, and is one pass from left to right |
| Instances.IndexOf | internal/process/manager.go:306-313 | the first occurrence, or -1 if there is none |
| Instances.InPlaceChangeKeepsChildren | internal/process/reload.go:110-136 | no restart is needed exactly if only supervision settings differ; then names and spawn settings of all instances are unchanged |
| Reloads.UpdateProcess | internal/process/process.go:129-136 | one process has the new config, nobody else's changes |
| Reloads.UpdateInPlace | internal/process/reload.go:137-152 | the same objects, each with the config its name has in the new program, whatever state they are in, and the group with the new priority |
| Reloads.TakenHolds | internal/process/reload.go:134-136 | a program that was in step and needs no restart is in step with its new config after that |
| Reloads.UpdateChanged | internal/process/reload.go:29-36 | every changed program is either updated in place or listed for restart |
| Reloads.WasActive | internal/process/reload.go:38-45 | active exactly if one of the states read was STARTING, RUNNING or BACKOFF, at moments of this pass, before anybody is retired; a retired process that is down is not read as such |
| Reloads.MarkActive | internal/process/reload.go:38-45 | the same for all programs to be restarted |
| Reloads.RetireProgram | internal/process/reload.go:51-55 | all processes of the program are retired |
| Reloads.RetireAll | internal/process/reload.go:51-55 | all processes of all programs to be stopped are |
| Reloads.StopProgram | internal/process/reload.go:59-67 | none of them is up any more |
| Reloads.StopAll | internal/process/reload.go:59-67 | the same for all programs to be stopped |
| Reloads.AwaitProgram | internal/process/reload.go:69-79 | stopped exactly if each wait ended in a terminal state, and then the program is at rest; a process that had not stopped was waited for to the end |
| Reloads.AwaitAll | internal/process/reload.go:69-79 | the stuck programs are exactly those with a process given up on; the others are at rest |
| Reloads.RestIsForever | internal/process/reload.go:47-50 | a process at rest has no child, and no event of any kind gives it one or changes its state |
| Reloads.RemoveProgram | internal/process/reload.go:170-195 | drops exactly the program's processes and implicit group; only called on a program at rest |
| Reloads.RemoveAll | internal/process/reload.go:85-89 | drops the programs that have stopped |
| Reloads.RemoveStaleGroups | internal/process/reload.go:200-214 | keeps exactly the groups the config defines and those of stuck programs |
| Reloads.StartProgram | internal/process/reload.go:219-231 | starts all it may, unless a shutdown begins |
| Reconfiguration.ConfigDiff | internal/process/manager.go:778-810 | added, changed and removed programs, each once, in order |
| Reconfiguration.TakeDown | internal/process/reload.go:38-79 | the passes together |
| Reconfiguration.Replace | internal/process/reload.go:81-92 | removal and loading together |
| Reconfiguration.ApplyReload | internal/process/reload.go:28-108 | from any state an earlier reload may have left: which objects survive, which are new, which names and groups there are; which programs are stuck; what is dropped is at rest; what is started, exactly; who is never touched |
| Reconfiguration.NothingStuckMeansInStep | internal/process/reload.go:12-27 | with nothing stuck, now or before, every program has exactly the processes and the group the new config asks for |
| Reconfiguration.GroupListsItsPrograms | internal/process/manager.go:224-241 | after a reload a process is in an explicit group exactly if the group of one of its programs lists it |
| Reconfiguration.GroupListsAllNames | internal/process/manager.go:224-241 | in step with a config, an explicit group lists the instance names of its programs, in the order it names them |
| Reconfiguration.ReloadMeansInStepExcept | internal/supervisor/runloop.go:267-273 | after every reload the manager is in step with the recorded config, but for stuck programs, kept ones it was not in step with, and ones that lack a name |
| Reconfiguration.InStepIffNamesFree | internal/process/manager.go:116-119 | any other program is in step exactly if no other program's process holds one of its names |
| Reconfiguration.StuckIsDead | internal/process/reload.go:69-79 | a program that is stuck is left with processes that are all retired and down |
| Reconfiguration.DeadStaysDown | internal/process/process.go:205-208 | no event of any kind, a start included, brings one of those up |
| Reconfiguration.KeptDeadIsDead | internal/process/reload.go:29-36 | a later reload that leaves such a program alone or updates it in place leaves it so |
| Reconfiguration.DeadProgramRecoversIff | internal/process/reload.go:110-136 | a later reload that keeps such a program puts it in step exactly if its spawn settings differ from the recorded ones and it stops; else it stays dead |
| Reconfiguration.RecoveredIsNotStarted | internal/process/reload.go:94-98 | the reload that recreates it does not start it |
| Reconfiguration.MissingBecomesOwn | internal/process/manager.go:134-222 | when a program's names are free a reload leaves each of them with a process of the program; one it has created has the config asked for |
| Reconfiguration.ShortProgramRecoversIff | internal/process/manager.go:112-132 | a program whose group does not list all its processes is in step after a reload that keeps it exactly if its spawn settings differ from the recorded ones and it stops |
| Reconfiguration.RevertedStuckProgramIsDead | internal/process/reload.go:47-55 | the next reload does not stop a stuck program exactly if its old config is back but for supervision settings |
| Reconfiguration.NamesAreExact | internal/config/names.go:14-26 | in step with a config, the managed names are exactly its instance names |
| Reconfiguration.KeptSettles | internal/process/reload.go:17-18 | a program that is not stopped is in step with the new config, updated in place or unchanged |
| Reconfiguration.LoadSettles | internal/process/manager.go:112-222 | loading puts a removed or new program in step, and leaves one that is in step so |
| Supervisors.Supervisor.constructor | internal/supervisor/runloop.go:113-121 | after startup the manager is in step with the config |
| Supervisors.Supervisor.ApplyReload | internal/supervisor/runloop.go:243-279 | refused during shutdown or on a bad file, changing nothing; else what the reload achieves, what is stuck and what is started, what is recorded, exactly when the write to the map panics, and that unless it does any further reload may follow |
| Supervisors.AcceptedIsValidated | internal/config/include.go:151-159 | what loading accepts meets what the process manager relies on, as long as no group is named like a program |
| Supervisors.Supervisor.Record | internal/supervisor/runloop.go:267-273 | stuck programs keep their old config; fails exactly for a nil map and something stuck |
| Supervisors.Supervisor.PreviewReload | internal/supervisor/runloop.go:283-293 | the difference between the recorded config and the file |
| Supervisors.PreviewAfterReload | internal/supervisor/runloop.go:262-293 | right after a reload a preview of the same file adds nothing and lists exactly the stuck programs |
| Ordering.StopOrderReversesStartOrder | internal/process/manager.go:359-388 | for distinct names the descending order is the reverse of the ascending one, whatever order the map yields and however ties are treated |
| Ordering.SortByPriority | internal/process/manager.go:363-388 | a rearrangement in which no element precedes one that the comparison puts before it |
| Ordering.NameLessMeans | internal/process/manager.go:375-382 | one name comes before another exactly if it is a proper beginning of it or smaller at the first difference |
| Ordering.SortNames | internal/process/manager.go:799-801 | the names in ascending order |
| Ordering.LessTransitive | internal/process/manager.go:375-382 | the comparison is transitive |
| Ordering.LessTotal | internal/process/manager.go:375-382 | and a strict total order |
| Ordering.AscendingIsUnique | internal/process/manager.go:359-362 | only one order is possible |
| Bulk.OrderedNames | internal/process/bulk.go:85-94 | all processes, each once; ascending, the lower group priority (the program's own if it is in no group) comes first, then the lower own priority, then the name; descending the reverse |
| Bulk.StopOrderIsReversed | internal/process/bulk.go:43-48 | two snapshots of the same processes, ascending and descending, are each other's reverse |
| Bulk.StopOne | internal/process/bulk.go:147-171 | Stop is called exactly on a process seen up; the answer follows from what was seen, whether Stop was refused, and whether the wait to the end saw it stopped; unless it fails the process is not up |
| Bulk.StartOne | internal/process/bulk.go:118-142 | outside a shutdown Start is called exactly on a process seen down, and Done is answered exactly if that process could be started and the spawn succeeded, which is then its child; during a shutdown nothing is started, and a start it overtook is undone |
| Bulk.StopPass | internal/process/bulk.go:107-113 | one result per name, in order; what is seen up at its moment is stopped, and what is not reported failed is not up at that moment, whatever reloads come between |
| Bulk.StartPass | internal/process/bulk.go:96-105 | one result per name that is not skipped, in order; what is seen down at its moment is started unless a shutdown has begun, whatever reloads come between; without them nothing else is |
| Bulk.SeenDownIsStarted | internal/process/bulk.go:118-142 | a name that exists, is seen neither up nor STOPPING and meets no shutdown has had Start called on it |
| Bulk.RestartAllOrdered | internal/process/bulk.go:43-74 | one result per process of the snapshot in start order; stops in reverse order, of what is seen up; then starts of what is seen down, except where the stop failed, whatever reloads come between |
| Bulk.StopAll | internal/process/manager.go:332-346 | goes through all processes in the reverse of the start order and stops what it sees up; it leaves a shutdown in which no process is up, if no autorestart is past its check when the channel closes and no client starts a process meanwhile |
| Bulk.DownStays | internal/process/manager.go:332-346 | which stays so under every run without explicit starts |
| Bulk.ShutdownLeavesNoChild | internal/supervisor/runloop.go:414-425 | once all processes are seen stopped after that, no child is left and none comes back |
| Names.InstanceNames | internal/config/names.go:14-38 | one name, process_name or the program's, or numprocs of them, numbered from numprocs_start |
| Names.NameOfTemplate | internal/config/names.go:28-38 | a process_name of literal text and placeholders gives that text with program, group, number and count filled in |
| Names.EveryTextIsWoven | internal/config/names.go:32-37 | every text consists of literal parts without a placeholder and placeholders between them |
| Names.ReplaceTells | internal/config/names.go:32-37 | different process numbers give different names exactly if the template contains the number's placeholder |
| Names.InstancesDifferIff | internal/config/names.go:28-38 | two instances share a name exactly if process_name is set and leaves out the number |
| Names.DecimalIsInjective | internal/config/names.go:34-34 | different numbers print differently |
| Basics.DecimalIsRead | internal/config/names.go:34-34 | a number prints as a sign and digits that stand for it, without leading zeros |
| Names.ValidateProcessNames | internal/config/names.go:43-67 | the errors, in the order of the sorted program names; none exactly if no two processes of the config share a name |
| Names.AcceptedIffNamesDiffer | internal/config/names.go:40-67 | no error exactly if no two processes of the config share a name |
| Names.NameErrorsAreTrue | internal/config/names.go:50-65 | every error is true: the program lacks its number, or both programs have the name, the owner being the earlier one |
| Includes.Config.MergePrograms | internal/config/include.go:92-104 | the union, refused exactly if a program is on both sides |
| Includes.Config.Absorb | internal/config/include.go:73-79 | programs united, later groups winning |
| Includes.Config.IncludeFile | internal/config/include.go:47-83 | one matched file: refused when seen, unreadable, failing below, or sharing a program |
| Includes.Config.ResolveIncludes | internal/config/include.go:21-90 | the loops compute the recursive function, end on every disk, and share one set of files seen |
| Includes.LoadWithIncludes | internal/config/include.go:126-149 | the loading part; the main file counts as seen |
| Loading.ValidateGroupReferences | internal/config/include.go:189-216 | no error exactly if every group names existing programs, at least one, and no program is named twice |
| Loading.Load | internal/config/include.go:126-165 | accepts exactly the configs whose includes load, whose groups refer to programs of their own, and whose process names differ |
| IncludeMeaning.ResolvedLoads | internal/config/include.go:47-71 | success loads each file behind the patterns exactly once, none seen before |
| IncludeMeaning.ResolvedJoins | internal/config/include.go:73-79 | success lays their contents over one another and no program is defined twice |
| IncludeMeaning.SoundResolves | internal/config/include.go:21-90 | no failure without a reason |
| IncludeMeaning.AcceptedIff | internal/config/include.go:126-149 | a config is accepted exactly if its include graph is a tree of readable files without a common program; a file reached by two routes, cycles included, is an error |
| IncludeMeaning.TreeIsLoaded | internal/config/include.go:126-149 | the result holds each reachable file once, in the order of a file, what it includes, what comes after it; every program with its own definition, every group as the last file defines it, and nothing else |
| IncludeErrors.LoadErrorHasReason | internal/config/include.go:21-90 | every error names a fault that is there: a malformed pattern, an unreadable file, a file two routes lead to, a file whose programs another one defines as well |
| Expand.ExpandTemplateVars | internal/config/expand.go:121-164 | the cursor loop computes the recursive reading of the text, errors included |
| Expand.ExpandEnvVars | internal/config/expand.go:186-218 | likewise for environment references |
| Expand.ExpansionIsMeaningIff | internal/config/expand.go:97-119 | a text written from characters, lone signs included, escapes and references expands, and to what they mean exactly if no unbroken run of % or of $, across the borders of tokens, holds two signs that stand for themselves |
| Expand.ExpansionIsMeaning | internal/config/expand.go:97-119 | in particular if no sign stands for itself |
| Expand.VariablesStandFor | internal/config/expand.go:166-184 | here, program_name, group_name, numprocs and process_num expand to what they stand for, the last to its placeholder where that is kept; every other name is refused |
| Expand.UnclosedVariable | internal/config/expand.go:121-164 | a variable that is not closed is refused as such |
| Expand.UnclosedReference | internal/config/expand.go:186-218 | so is an environment reference |
| Expand.UndefinedReference | internal/config/expand.go:186-218 | a reference to a variable the environment lacks is refused with its name |
| Expand.AdjacentValuesMerge | internal/config/expand.go:114-116 | two references whose values survive alone do not side by side |
| Expand.EnvValueSurvivesIff | internal/config/expand.go:114-116 | the value of a reference that is the whole text comes through exactly if it contains neither %% nor $$ |
| Expand.TemplateValueIsReadAgain | internal/config/expand.go:102-112 | a reference in the value of a template variable is expanded like one in the text |
| Expand.EscapeRoundTrip | internal/config/expand.go:97-218 | doubling every % and $ and expanding gives the text back, for any context and environment |
| Instances.ReplaceKeepsIff | internal/process/manager.go:296-304 | the instance's pass changes a text exactly if that contains the placeholder |
| Instances.EscapeThroughBothStagesIff | internal/process/manager.go:274-294 | an escaped text comes through config loading and the instance's pass exactly if it does not contain %(process_num)d |
| AnsiStrip.StripANSI | internal/logging/strip.go:4-25 | the index loop computes the recursive function |
| AnsiStrip.UnfinishedEscape | internal/logging/strip.go:57-74 | finds the unfinished sequence at the end exactly if there is one |
| AnsiStrip.ANSIStripper.Strip | internal/logging/strip.go:40-52 | one chunk, with what is held back before and after |
| AnsiStrip.StrippedIsScan | internal/logging/strip.go:4-25 | stripping is what a byte-by-byte automaton does |
| AnsiStrip.SequenceIsRemoved | internal/logging/strip.go:4-25 | ESC, [, bytes 0x20 to 0x3F and a byte 0x40 to 0x7E in front of a text are removed |
| AnsiStrip.OtherBytesAreKept | internal/logging/strip.go:20-22 | a byte that begins no such sequence is kept |
| AnsiStrip.UnfinishedIsHeldBack | internal/logging/strip.go:40-74 | a sequence cut off by the end of a chunk is held back whole up to 64 bytes, dropped at 65, and not recognised beyond |
| AnsiStrip.ChunkIsScan | internal/logging/strip.go:40-52 | on well-formed input a chunk continues the automaton where the last one left it |
| AnsiStrip.ChunkingDoesNotMatter | internal/logging/strip.go:31-52 | for every well-formed stream and every cutting, the outputs joined are StripANSI of the stream without its held-back tail |
| AnsiStrip.UnlawfulByteShows | internal/logging/strip.go:40-52 | cutting a stream right after its first unlawful byte gives another output than stripping it whole |
| AnsiStrip.CuttingNeverShowsIff | internal/logging/strip.go:31-52 | for every stream followed by a final byte other than [: the way it is cut never shows exactly if its sequences are well formed and no unfinished part of one exceeds 64 bytes |
| RingBuffers.RingBuffer.constructor | internal/logging/ringbuf.go:21-32 | empty, with the size clamped |
| RingBuffers.RingBuffer.Write | internal/logging/ringbuf.go:35-46 | everything written is remembered, as far as it fits |
| RingBuffers.RingBuffer.Read | internal/logging/ringbuf.go:51-86 | the last min(n, capacity, bytes since reset) bytes in order, for n in 1..65536, after any history |
| RingBuffers.RingBuffer.Len | internal/logging/ringbuf.go:89-96 | how many bytes are held |
| RingBuffers.RingBuffer.Reset | internal/logging/ringbuf.go:99-104 | forgets everything |
| Captures.LogFiles.Rotate | internal/logging/rotation.go:35-64 | each backup moves up one place and the current file becomes the first |
| Captures.LogOfRotated | internal/logging/rotation.go:50-63 | a rotation drops at most the oldest backup from the log and reorders nothing, even if the last rename fails |
| Captures.FilesAreASuffix | internal/logging/capture.go:82-169 | backups from oldest to newest and the current file are a suffix of what has reached the file |
| Captures.NothingIsLost | internal/logging/capture.go:59-110 | if nothing fails on an open file, every captured byte reaches it, reopenings included |
| Captures.BelowLimitOnlyAppends | internal/logging/capture.go:136-147 | a write that leaves the file below maxbytes, or meets no limit, is appended and changes nothing else |
| Captures.AtLimitRotates | internal/logging/capture.go:136-169 | a write that reaches maxbytes moves file and backups one place up, or truncates where there are no backups |
| Captures.EnoughIsKept | internal/logging/capture.go:136-169 | if nothing fails and the backups at the beginning hold maxbytes each without a gap, the files hold everything there was and everything captured, or at least maxbytes for each backup |
| Captures.GapLosesMore | internal/logging/rotation.go:44-49 | with a gap between the backups that can fail |
| Captures.ClosedUntilReopened | internal/logging/capture.go:59-71 | a closed file takes nothing until EnsureOpen succeeds, which keeps what is there; a write closes it exactly if it rotates and cannot reopen |
| Captures.SizesAreBounded | internal/logging/capture.go:136-169 | if nothing fails the current file is below maxbytes from the first write on and each backup below maxbytes plus one write, except for what a file already over the limit at the beginning leaves in one backup |
| Captures.FilesHoldTheStrippedStream | internal/logging/capture.go:82-169 | with strip_ansi, and if nothing fails: however a well-formed stream arrives, backups and current file are a suffix of the old ones followed by StripANSI of the stream without its held-back tail |
| Captures.CaptureWriter.EnsureOpen | internal/logging/capture.go:59-71 | opens the file if it is not open |
| Captures.CaptureWriter.Rotate | internal/logging/capture.go:136-169 | truncates, rotates and reopens, or goes on in memory if that fails |
| Captures.CaptureWriter.Capture | internal/logging/capture.go:82-110 | one write through stripper, ring buffer, file and rotation |
| Sse.Response.WriteSSEData | internal/api/api.go:662-668 | one data line per line of the text, then an empty one |
| Sse.TakeLine | internal/ctl/ctl.go:352-365 | what one line adds to the event, or that it ends it |
| Sse.CopySSEData | internal/ctl/ctl.go:347-373 | the loop writes out the events of the stream |
| Sse.RoundTrip | internal/ctl/ctl.go:343-373 | chunks written and read back are the chunks with line ends normalised: no content can end or start an event |
| Sse.PiecesOfChunk | internal/api/api.go:660-668 | the data lines of a chunk are the pieces between its line ends, CRLF, CR or LF: with those between them they are the chunk, and none contains a CR or an LF |
| Sse.TruncatedStream | internal/ctl/ctl.go:366-371 | a stream cut off at any character gives its first events whole and nothing else |
| Sse.ReadAlikeIff | internal/ctl/ctl.go:352-365 | the reader treats a line as the algorithm of section 9.2.6 of the HTML Standard does exactly if it is no data field without a colon or with a value right after the colon |
| Sse.AgreesWithStandard | internal/ctl/ctl.go:343-346 | on such lines, among them all the writer writes, the two see the same events |
| Sse.StandardRoundTrip | internal/api/api.go:655-668 | any conforming event source sees the same events |

## Left out

- `Race`: one critical section of `Process.mu` is one step, except where two sections can overlap with an effect: the promotion by the start watcher inside a start, an exit or a retry (`Race`), and the time between an autorestart's checks and its start (`Restarting`). The exit handler and the retry read the shutdown channel too; a process that StopAll can see down between that and the end of the section stays down, since what the section launches reads the channel again.
- `Processes.Process.UpdateConfig`: the config and the limits change in one step. In the code a start watcher that begins between the two reads the new startsecs against the old limit; with a new startsecs of 0 it returns without promoting and without a timer.
- `Reconfiguration.ApplyReload`: requires program and group names of the two configs to be disjoint, which config validation does not check; with a group named like a program what groups list depends on map order.
- `Managers.Manager.LoadGroups`: says which processes a group lists only if no group is named like a program, for the same reason.
- `Bulk.RestartAllOrdered`: reloads may come before each of its actions, but none runs in the middle of one.
- `Bulk.StopAll`: speaks of runs without explicit starts, because `Process.Start` does not look at the shutdown channel.
- `LifecycleAttempts.TriedSince`: for limits that are not changed during the run.
- `Expand.ExpansionIsMeaningIff`: of the token lists with the same text it speaks of those the first two phases read as meant (`Readable`): a lone % or $ must not come where it makes an escape or a reference of what follows it, nor must one in the value of a template variable, which the second phase parses again (`TemplateValueIsReadAgain`).
- `Captures.FilesAreASuffix`: failures in the middle of a backup shift are not part of the model, as rotateFile ignores them; a failing last rename, truncate, write and reopen are.
- `Captures.LogFiles.Rotate`: for the same reason the removal and the shifting renames do not fail for another cause than a missing file.
- `Includes.LoadWithIncludes`: glob results and parsed, expanded files are given; symbolic links, two spellings of one absolute path, warnings and the merging of webhooks are left out.
- `Names.ValidateProcessNames`: the errors are values, not texts.
- `Worlds.WorldRunProjects`: a removed process goes on as a process outside the world; `RestIsForever` says that nothing comes of it.
- `Managers.Manager.StartProcess`: whether the spawn succeeds, what races it, and how often a wait polls are parameters (`Turn`), as are all actions of processes and clients in between.
- Capture writers that a manager creates, reopens and closes with its processes; log and event publishing; exit codes, signals, start times, spawn error texts, uptime.
- Signals have no effect in the model: that a child obeys them, or dies of SIGKILL, is an exit event that may or may not come.
- File system, pipes, credentials, umask, resource limits, PID files, sockets, TOML decoding, defaults, field validation, HTTP, authentication, the command line, the web pages, metrics, daemonizing, migration from supervisord.
- Group actions, AutostartAll, StartAllOrdered, StopAllOrdered and Restart: the same loops over fewer processes or with one pass only.
- Reading reports a nil slice and an empty one alike, and so do config maps except for the nil map of programs in `Supervisors`.
- LineSplitter, ParseSize and the resource-limit codec, which are easier.
