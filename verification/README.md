# process-compose: a verified model

process-compose runs the processes of a project on one machine: it starts them in dependency order, restarts
them by policy, by request and when watched files change, scales them, stops whole process trees, and completes
when nothing is left to run. This project models the parts of it where goroutines, maps and loops interact, and
proves what the code's comments and tests rely on. `dafny verify dfyconfig.toml` checks everything.

## How the model is built

**Concurrent parts are transition systems.** Each block under one mutex, each atomic operation and each channel
operation is one step, except that an unbroken sequence of status changes and context cancellations by one goroutine
is taken together; a run is any sequence of enabled steps, with any number of goroutines. Theorems hold in every
state of every run.

- `RunnerProtocol` is the registry of running processes, the stop, start, restart, update and removal
  operations, and the completion loop. `StopRestart` proves that a stop beats an earlier restart, `Completion`
  and `CompletionReached` that completion is never lost but for two exceptions, and exactly then; `CompletionLimits`
  that both are real. `Launches` and `LaunchRuns` prove who launches a process and that each such operation can.
  `Runner` holds the operations as methods that update the runner's fields section by section, with any steps of
  other goroutines in between, and states what a whole call achieves.
- `IncarnationProtocol` is the life of one started process: dependency waits, run loop, shutdowns.
  `DependencyWaits` proves progress, `DependencyConditions` what every dependency had done when a process starts
  (`ConditionRuns` that each condition can be met), `StopEffect` bounds starts and restarts, `RestartPolicy` says when
  a restart follows, `Counters` what the restart counter counts, `Flags` what each flag tells about the past, and
  `ShutdownOutcome` what a shutdown has done by its end. `Process` holds the run loop and the shutdown of one process
  object as methods, again with any interference between their sections.
- `OrderedShutdown` is the shutdown of a project in reverse dependency order.

**Sequential parts are methods and classes**, proved against independent definitions: walks and cycles for the
dependency graph (`Graph`, `Types`, `CycleValidator`, `ProjectWalk`, `Cascade`, `StringOrder`), lines of descent
for process trees (`ProcTree`), counting for the file watcher (`Watcher`, `Debounce`, `Dispatch`), grids for the
terminal emulator (`TerminalParser`, `TerminalScreen`, `Terminal`; `TerminalText`, `TerminalSequences` and
`TerminalEdits` hold its laws), chains and folds for `extends` (`Extends`), numbered replicas for scaling
(`Replicas`, `Scaling`), and the shell's own reading for quoting (`ShellQuote`). `TreeStop` puts the tree walk
among other processes that fork and exit between any two system calls. A loop over a Go map takes the keys in an
arbitrary order, so every statement holds for all orders.

## What turned out not to hold without a condition

- A project can be left up forever with nothing running in two ways: a trigger that is armed when the loop checks
  and disarmed afterwards, and a re-trigger dropped on a channel full of other counts. Both have a run here, and
  there is no third way.
- An ordered shutdown is held up by a running dependent that was not listed, until that ends by itself. It is not
  listed when it is launched after the listing, when it is no longer in the configuration, or when something else it
  depends on is undefined.
- A stable tree stop has stopped all members if and only if none was created after the SIGSTOP to its number: who gets a
  number after its SIGSTOP found nobody escapes. The fixed point needs in addition that the root was seen, and that the
  supervisor, its parent and process 1 are apart from the tree.
- A stable tree stop reaches all members if and only if no member's start differs from its record: who gets a number
  before its SIGSTOP is frozen in its stead, is neither signalled nor resumed, and stays stopped.
- Waiting for the start of a process that fails its validation, or for the health of a finished process that has a
  liveness probe only, ends only when the waiter is stopped or the finished process is shut down.
- Health is looked at only when the wait ends: a dependency that was healthy once and is unready when somebody comes to
  wait for it fails that dependent for good, and its own exit code becomes 1, although it runs on.
- A stop requested before the command starts, or between two starts, lets it start once more.
- A directory one process gives up while another registers for it can end up referred to but not watched: exactly when
  it is referred to again before it leaves the backend.
- An undefined dependency that is named twice is reported as a circular dependency.
- The terminal emulator does not survive inserting characters past the right margin, nor deleting so many that the
  sum with the column overflows 64 bits. Moving right or down by so much takes the cursor off the screen, where most
  edits crash.

## Model

| member | source | states |
|---|---|---|
| StopRestart.RunKeepsInv | src/app/project_runner.go:632-697 | In every state of every run the registry holds, for each name, exactly the newest unfinished incarnation, and restartMutex is held only by a restart whose epoch comparison succeeded and still stands. |
| StopRestart.NewestAliveIsRegistered | src/app/project_runner.go:632-697 | The newest incarnation of a name is unfinished if and only if it is the registered one, and finished if and only if the name is not registered, in every interleaving. |
| StopRestart.LeavesForNewest | src/app/project_runner.go:687-697 | An incarnation that leaves while the newest of its process is another and unfinished leaves without a trace; any other clears the name and commits itself to reporting how many are left. |
| StopRestart.NoLaunchAfterNote | src/app/project_runner.go:508-512 | Once a stop has noted its request, no restart that sampled its epoch earlier registers an incarnation any more. |
| StopRestart.LookAfterLaunch | src/app/project_runner.go:730-744 | A stop that looks the process up after a launch sees that incarnation, a newer unfinished one, or none because the newest has finished. |
| StopRestart.StopBeatsEarlierRestart | src/app/project_runner.go:1016-1111 | Stop beats earlier restart, over all interleavings: both halves above for one restart and one stop. |
| StopRestart.EpochTellsNotes | src/app/project_runner.go:504-519 | Two readings of a process's stop epoch differ if and only if a stop was noted in between. |
| Launches.LaunchWasLetThrough | src/app/project_runner.go:1088-1111 | In every run, whoever launches an incarnation had found its process defined and not running (a start), defined with no stop noted since its sample (a restart), or had just defined it (an update or addition); only the start of the project launches without asking. |
| Launches.RefusedNeverLaunches | src/app/project_runner.go:1016-1086 | A start that finds its process running or undefined never launches it, and neither does a restart whose shutdown of the running incarnation fails. |
| LaunchRuns.RestartLaunches | src/app/project_runner.go:1016-1111 | From any state with the lock free, a restart of a defined process that nobody else restarts launches it by its own steps, once what it found running is shut down. |
| LaunchRuns.StartLaunches | src/app/project_runner.go:699-728 | A start launches a process that is defined and not running. |
| LaunchRuns.StopFindsNothing | src/app/project_runner.go:730-780 | A stop that finds its process neither running nor armed leaves nothing but its note, unless a restart of it is in flight. |
| LaunchRuns.UpdateLaunches | src/app/project_runner.go:1774-1787 | An update launches each process it adds, and is over with the counter as before. |
| LaunchRuns.LoopEndsOnce | src/app/project_runner.go:200-275 | Whether a project completed or was cancelled is never changed; it can be cancelled whenever its loop waits for a count. |
| Completion.RunKeepsFullInv | src/app/project_runner.go:1774-1787 | Over every run the update counter equals the number of updates between begin and end, and every registered restart belongs to exactly one operation under way. |
| Completion.NoLostCompletion | src/app/project_runner.go:217-268 | No lost completion, exactly: in a reachable quiet state a zero is queued, somebody is committed to sending one, or the loop is past receiving it, if and only if it is not the case that the last wake-up was spent on an armed trigger or dropped on a full channel and nobody has called the loop since. |
| Completion.CompletesOnlyOnQuietChecks | src/app/project_runner.go:217-265 | A project completes only after the loop has seen, in this order, no restart registered, no update in flight, nothing running and nothing armed: a stale zero alone never completes it. |
| CompletionReached.QuietProjectCompletes | src/app/project_runner.go:217-268 | From every quiet state with no trigger armed, unless its last wake-up was so wasted, goroutines that already exist can take the project to completion, whatever is queued. |
| CompletionReached.UnheardNeedsACall | src/app/project_runner.go:217-268 | After a wasted wake-up the project completes only if later a last process deregisters, a restart or last update ends, or the loop is cancelled. |
| CompletionReached.SilentNeverCompletes | src/app/project_runner.go:209-268 | A loop that waits with nobody left to wake it never completes by itself: the two stalls below are final. |
| CompletionLimits.DisarmedTriggerStallsProject | src/app/project_runner.go:252-265 | A run in which a trigger is armed at the check and disarmed later leaves a project that never completes: the first exception is real. |
| CompletionLimits.FullChannelStallsProject | src/app/project_runner.go:1791-1802 | For any CAP + 1 processes, each launched once, a run in which an update's re-trigger meets a channel full of their counts leaves a project that never completes: the second exception is real. |
| Runner.ProjectRunner.StopProcess | src/app/project_runner.go:730-780 | With any steps of others between its sections: the stop is noted before the lookup; an unfinished newest incarnation is shut down; otherwise it is an error unless a trigger is armed or a restart in flight; without such an error the triggers are paused; and in every continuation no restart already under way launches the process after the note. |
| Runner.ProjectRunner.RestartProcess | src/app/project_runner.go:1012-1086 | With any steps of others in between: it joins exactly when a restart is registered; else it shuts down what it finds after sampling the epoch, and is dropped exactly when a stop was noted between sampling and comparing the epoch; it launches a new incarnation only if none was noted up to the launch; and it always re-runs the completion check at its end. |
| Runner.ProjectRunner.Terminate | src/app/project_runner.go:340-345 | An ending incarnation is removed exactly if it is the newest of its name or nobody of the name is registered; it evicts nobody else; and the count it queues is what is left, or the channel is full. |
| Runner.ProjectRunner.Update | src/app/project_runner.go:1774-1787 | Whatever an update and others do, from its begin to its end the loop's look at the update counter finds it above zero; its end re-runs the completion check exactly when no other update is in flight. |
| Runner.ProjectRunner.LaunchUnlessStopped | src/app/project_runner.go:1096-1111 | It is dropped exactly when the epoch has changed, and otherwise launches a new incarnation unless the process is undefined; others run on while the lock is held. |
| Runner.ProjectRunner.RetriggerCompletionCheck | src/app/project_runner.go:1791-1802 | If nothing runs when it counts, a zero is in the channel after its attempt, or the channel was full, whatever others do in between. |
| Runner.ProjectRunner.HandleCount | src/app/project_runner.go:217-265 | On a zero the loop checks restarts, updates, running processes and triggers in this order, with others acting in between, up to the first that finds something; it completes exactly when all four find nothing. |
| StopEffect.StopBoundsStarts | src/app/process.go:138-233 | After a no-restart stop an incarnation's command is started at most once more, and not at all when it was running, had exited or was past its loop. |
| StopEffect.StopLetsStart | src/app/process.go:535-549 | Conversely that one start is not prevented by the stop: from any state of any run in which a stop is requested on an incarnation whose dependency, if it is parked on one, is fulfilled and whose run context is not cancelled before it is looked at, the run can go on to one more start. |
| StopEffect.OneStartMayFollow | src/app/process.go:535-549 | Such runs exist for a stop during the dependency scan, a wait, before the run loop, just before the command starts, between the restart decision and the back-off, and in the back-off. |
| StopEffect.StopWhileWaitingPreventsStart | src/app/project_runner.go:405-411 | An incarnation whose run context is cancelled while it waits for its dependencies never starts its command. |
| StopEffect.RestartsNeverExceedMax | src/app/project_runner.go:449-472 | With max_restarts m > 0 the restart counter never exceeds m across all incarnations, although each takes over the counter of the one before. |
| RestartPolicy.RestartsAsDue | src/app/process.go:358-388 | In every run, whenever an exit is judged: if no stop is noted and the policy is always, or on_failure with a code that is no success, within max_restarts, the command starts again unless its run context is cancelled first; and otherwise it never does. |
| Counters.CounterCounts | src/app/process.go:212-221 | In every run the restart counter is the one the incarnation began with and one more for each of its restarts, and its command has started as often as the starts say. |
| Counters.CarriesOver | src/app/project_runner.go:449-486 | A new incarnation takes over the counter of the one launched before it, as it stands now, unless the state was replaced or the counter reset since; then, and for the first one, it begins at 0. |
| Flags.FlagsTell | src/app/process.go:470-776 | In every state of every run each of ten flags of an incarnation (stop asked, run context cancelled, being restarted, started, done, readiness ended, healthy, log wait ended, log line seen, shown as running) is up if and only if an event that raises it has happened and none that takes it back since. |
| ShutdownOutcome.OutcomeOf | src/app/process.go:493-549 | In every run a shutdown that is over has cancelled the run context and ended the wait for a log line; it has ended the other contexts if its first look found the target running, or its second found it pending; and it has marked the target done exactly in the latter case. |
| DependencyWaits.RunKeepsInv | src/app/process.go:735-776 | In every run, an incarnation that is finished has released everybody who waits for it to finish, become ready or log its line, or a shutdown is just about to. |
| DependencyWaits.WaitsMakeProgress | src/app/project_runner.go:354-413 | With acyclic dependencies and sound conditions every parked incarnation whose event has not happened transitively waits on one that is neither parked nor finished. What the event has to be is the subject of the next rows. |
| DependencyConditions.DependenciesMet | src/app/project_runner.go:354-413 | In every run, an incarnation that got past its dependencies was let past each of them: nothing was registered under the name, or what it found was, when the wait ended, finished, finished with a success code, healthy with its readiness signalled, seen to log its line, or started or stopped, as the condition demands. |
| DependencyConditions.ConditionDecides | src/app/project_runner.go:354-413 | An incarnation that leaves a wait goes on with its other dependencies if the condition is met; otherwise the condition has failed for good, the incarnation never starts its command, and it ends with exit code 1. |
| DependencyConditions.WaitEndsWhenDecided | src/app/project_runner.go:360-398 | A wait can end if and only if its condition is met or has failed, never both. |
| DependencyConditions.UnprobedNeverHealthy | src/app/project_runner.go:377-380 | Who wants a process healthy that nobody probes never starts. |
| DependencyConditions.GivenUpNeverStarts | src/app/project_runner.go:405-411 | A wait is given up only by an incarnation whose run context is cancelled, and that never starts; after a wait for a start the other dependencies are still looked at. |
| DependencyConditions.StoppedWaitCanEnd | src/app/project_runner.go:405-411 | Stopping an incarnation that waits always lets it end, by its own steps alone, from any state. |
| DependencyConditions.ExitCodeChanges | src/app/process.go:424-436 | An exit code changes only when the command exits, when the process is skipped, and when somebody has waited for its health in vain. |
| ConditionRuns.EachConditionCanBeMet | src/app/project_runner.go:354-413 | For each of the five conditions there is a run in which it is met and the dependent starts. |
| ConditionRuns.LostHealthFailsDependent | src/app/process.go:424-436 | A dependency that was healthy and lost its health fails a dependent that comes to wait for it, although it runs on, and its exit code is overwritten. |
| DependencyWaits.DeadEndCauses | src/app/process.go:391-450 | The only waits that can be dead ends are process_started on a process that never starts and process_healthy on one with a liveness probe only. |
| DependencyWaits.DeadEndStays | src/app/process.go:396-402 | A dead end lasts until its waiter is stopped, or somebody shuts the finished process down. |
| DependencyWaits.StartedOnFailedValidationStalls | src/app/process.go:154-160 | A run that reaches such a dead end: waiting for the start of a process that failed validation. |
| DependencyWaits.HealthyOnLivenessProbeStalls | src/app/project_runner.go:377-387 | A run that reaches the other one: waiting for the health of a process with a liveness probe only, which has finished by itself, with success. |
| OrderedShutdown.DependentsCompleteFirst | src/app/project_runner.go:1205-1232 | A process's shutDown begins only after every process that was running and depends directly on it has completed, in every interleaving. |
| OrderedShutdown.AdvancesOrStalls | src/app/project_runner.go:1205-1241 | With acyclic dependencies, in every state of every run with a process still to be shut down or to end, some worker can take a step, or has only an ending process to wait for, or is stalled by a dependent nobody shuts down. |
| OrderedShutdown.CancelledWhenDone | src/app/project_runner.go:1205-1292 | In every run the application is cancelled only after every process that was listed has been shut down and has completed, unless its shutDown failed, and every dependent recorded for one of them has completed. |
| OrderedShutdown.ShutdownCanFinish | src/app/project_runner.go:1205-1292 | If everything recorded was listed, from any state the workers and the processes that have only to end can take the shutdown to the cancellation of the application. |
| OrderedShutdown.RunRegisters | src/app/project_runner.go:1256-1292 | In every run exactly the newest incarnation of a name is registered, until it has completed and leaves. |
| OrderedShutdown.CompletedCanLeave | src/app/project_runner.go:687-697 | From any state the registry can come to hold exactly the unfinished processes of those it holds. |
| OrderedShutdown.NoShutdownDeadlock | src/app/project_runner.go:1205-1292 | If everything running was listed and nothing was launched until the dependents were recorded, the last case never arises: no deadlock in any later state. |
| OrderedShutdown.StallsOnlyOnUnlisted | src/app/project_runner.go:1256-1284 | A stall is always on a dependent that was recorded but not listed. |
| OrderedShutdown.UnlistedStalls | src/app/project_runner.go:1183-1204 | Conversely every such dependent that is unfinished when the dependents are recorded stalls the shutdown. |
| OrderedShutdown.StallStays | src/app/project_runner.go:1215-1229 | A worker that waits for an unfinished process nobody shuts down waits until that process ends by itself. |
| OrderedShutdown.LateDependentStalls | src/app/project_runner.go:1256-1292 | Such a stall is reached when a dependent is launched between listing the processes and recording their dependents. |
| OrderedShutdown.UnlistedDependentStalls | src/app/project_runner.go:1264-1275 | It is also reached without any launch in between, when a running dependent is not listed because something else it depends on is undefined. |
| Process.HistoryHeedsStops | src/app/process.go:138-233 | In every history of steps on one process, after each stop request the command is started at most once more, and not at all if it was running, had exited or was past its loop. |
| Process.HistoryFollowsPolicy | src/app/process.go:358-388 | In every history of steps on one process, after each judged exit the command starts again, or is on the way to unless its run context is cancelled, if a restart was due; and otherwise that start was the last. |
| Process.ProcessObject.IsRestartable | src/app/process.go:358-388 | Says yes if and only if no stop was noted and the policy is always, or on_failure with a code that is no success, and max_restarts is 0 or above the counter; the stop flag is consumed. |
| Process.ProcessObject.OnProcessEnd | src/app/process.go:735-776 | Whatever others do in between, afterwards everybody who waits for the process to finish, log its line or pass its readiness probe is released. |
| Process.ProcessObject.ShutDownNoRestart | src/app/process.go:493-549 | With any steps of the run loop, the probes and other shutdowns in between: the run context ends up cancelled, nobody waits for a log line any more, nobody waits at all if the process was found pending, and the command starts at most once more. |
| Process.ProcessObject.Run | src/app/process.go:138-233 | With any interference between its sections, and starts that may fail: every stop request is heeded; the policy is followed at every exit; a return that did not meet a stop at its very beginning leaves everybody released; a start's waiters are released unless validation failed; the result is 0 for a stop met at the beginning, 1 for a command that is invalid or fails to start, and otherwise the code of the last exit, after which no restart was due or the run context ended; and a restart limit is never passed. |
| CycleValidator.ValidateNoCircularDependencies | src/loader/validators.go:78-89 | Rejects exactly the projects with a dependency cycle or an undefined dependency named twice, in any visiting order; with all dependencies defined, exactly the cyclic ones. |
| CycleValidator.CycleDetector.IsCyclicHelper | src/loader/validators.go:91-114 | One call explores everything reachable that is not visited yet, or finds a reason to reject; it always ends. |
| CycleValidator.Complete | src/loader/validators.go:78-114 | A search that has visited every process without rejecting proves the project acyclic. |
| CycleValidator.MissingNameTakenForCycle | src/loader/validators.go:95-98 | Two processes that name the same missing dependency are reported as circular although nothing is: the second reason to reject is real. |
| Types.ProcessCycleIsNameCycle | src/types/project.go:73-99 | A cycle among processes, however their dependencies are named, shows as a cycle among the names the load-time check explores. |
| ProjectWalk.WithProcesses | src/types/project.go:101-126 | Always ends; errs exactly when something wanted is undefined or refused; calls the visitor at most once per process and only for wanted ones; without an error, for all of them, each after everything it depends on. |
| ProjectWalk.CompleteWalk | src/types/project.go:101-126 | A walk without errors from an empty mark visits everything reachable from the names. |
| ProjectWalk.GetDependenciesOrderNames | src/types/project.go:44-54 | Errs exactly on undefined dependencies; otherwise lists the processes to run, once each, after all they depend on even through ones not to run. |
| ProjectWalk.GetProcesses | src/types/project.go:73-99 | Fails exactly when some name is neither the key of a process nor the plain name of a replica; otherwise gives, name by name in order, the process of that key, or else all replicas of that plain name, once each, so one named twice comes twice; all processes, once each, for no names. |
| Cascade.TransitiveDependents | src/types/graph.go:116-208 | For every project, exactly the non-deferred processes that reach root, each once; without cycles each after all it depends on, even through deferred ones, and equal to the filtered least topological order. |
| Cascade.OrderDependents | src/types/graph.go:124-193 | Before filtering: everything that depends on root, each once, in the least topological order unless there is a cycle. |
| Cascade.LeastTopologicalUnique | src/types/graph.go:113-115 | There is only one least topological order, so map iteration order cannot show in the result. |
| Cascade.GreedyIsLeast | src/types/graph.go:160-183 | Always taking the smallest ready name gives an order that comes before every other topological order. |
| Cascade.LeftoverHasCycle | src/types/graph.go:185-193 | Names are left over only when the dependencies contain a cycle. |
| Cascade.AcceptedIsAcyclic | src/types/graph.go:185-193 | A project the load-time check accepted has no such cycle, so the fallback never runs on it. |
| Cascade.Closure | src/types/graph.go:125-141 | The worklist ends with exactly the names that reach root. |
| ProcTree.TreeState.Collect | src/command/proc_tree_unix.go:126-198 | Returns exactly the live processes reachable by parent links from the seeds, each once, and remembers them by start token. |
| ProcTree.SurvivorsStayMembers | src/command/proc_tree_unix.go:147-153 | A member that survives with its start token is a member of the next walk, whoever its parent is now. |
| ProcTree.MembersHaveOrigin | src/command/proc_tree_unix.go:139-178 | A walk finds a live process if and only if a line of live descent leads to it from the launched process, its group, a carrier of the marker or a remembered survivor. |
| ProcTree.GroupIsFound | src/command/proc_tree_unix.go:139-178 | Every live process of the group that the launched process leads is found, whoever its parent is. |
| TreeStop.RunKeepsFrozen | src/command/proc_tree_unix.go:60-81 | Whatever others do, whoever has a number on record is stopped if and only if it was created before the SIGSTOP to that number took effect; who is stopped stays; and nobody who gets a number later is taken for the process on record. |
| TreeStop.FreezeTree | src/command/proc_tree_unix.go:57-85 | At most ten walks: a stop that does not become stable has recorded at least ten processes. When stable, all members of the last walk are on record; they are all there is to be found, they are all stopped if and only if none was created after the SIGSTOP to its number, and the fixed point is reached if and only if that holds, the root was seen, and the supervisor, its parent and process 1 are apart from the tree. |
| TreeStop.ReusedNumberEscapes | src/command/proc_tree_unix.go:66-76 | The condition fails in a run in which a number is given to a new member after its SIGSTOP found nobody: everybody is on record, and that member runs on. |
| TreeStop.NewHolderIsFrozen | src/command/proc_tree_unix.go:66-76 | It holds in a run in which the number is given away before its SIGSTOP, which hits the new holder: everybody is on record and stopped, but one of them is not the process on record. |
| TreeStop.StopTree | src/command/proc_tree_unix.go:40-104 | Stable or not, whatever others do in between: the signal reaches exactly the processes on record that are still there, once each; SIGCONT then reaches exactly those of them this stop froze, once each, unless the signal was SIGKILL or a stop signal. When stable they are the members that are the process on record, so every member is reached if and only if no member's start differs from its record; whoever else is stopped stays so, such as a member whose start differs. |
| TreeStop.SignalAll | src/command/proc_tree_unix.go:87-101 | The check by start token and the signal are two calls, yet nobody else ever receives the signal; and after a kill the members that were not reached are still a frozen tree. |
| TreeStop.ResumeAll | src/command/proc_tree_unix.go:50-58 | Letting go reaches exactly those this stop froze that are still the process on record; whoever was stopped before stays so. |
| TreeStop.KillKeepsTree | src/command/proc_tree_unix.go:87-101 | A frozen member that is killed, whoever inherits its children, leaves the others a frozen tree. |
| TreeStop.WalkReachesFixedPoint | src/command/proc_tree_unix.go:60-81 | A walk all of whose members are stopped is a fixed point. |
| TreeStop.FrozenTreeStays | src/command/proc_tree_unix.go:16-19 | From a fixed point on, whatever other processes do (fork, exit, be reaped, change group), any walk finds exactly the frozen members, each still the same live process. |
| TreeStop.AncestorsStayOutside | src/command/proc_tree_unix.go:117-125 | Orphans of processes outside the tree are never adopted by a frozen member. |
| TreeStop.WalkFindsNoMore | src/command/proc_tree_unix.go:106-115 | Walking again over the frozen tree keeps it a fixed point for the memory the walk leaves. |
| Watcher.Watcher.RetainDir | src/watcher/watcher.go:406-443 | Keeps the accounting; adds one reference, charged to the process, exactly when it has budget and the backend watches or accepts the directory; asks for the buffer of the process, or the default; and notes a refusal for lack of budget. |
| Watcher.Watcher.AddProcess | src/watcher/watcher.go:228-246 | Keeps the accounting, also while a removal is between its halves; leaves all other references alone; refers to all scanned directories when they fit the budget and the backend takes them; loses no watch. |
| Watcher.Watcher.RemoveProcess | src/watcher/watcher.go:250-281 | Undisturbed it keeps the accounting, removes exactly the process's references and from the backend exactly the directories nobody refers to any more, and loses no watch. |
| Watcher.Watcher.Deregister | src/watcher/watcher.go:252-270 | The locked half: keeps the accounting, removes exactly the process's references, and releases exactly the directories that only it referred to. |
| Watcher.Watcher.Unwatch | src/watcher/watcher.go:272-279 | The half after the unlock: a directory referred to loses its watch if and only if it was released and is referred to again by now. |
| Watcher.RemovalRacesRegistration | src/watcher/watcher.go:270-279 | Such a run: a process registers for a directory between its release and its removal from the backend, and the directory is referred to but not watched. |
| Watcher.Watcher.ReleaseGoneDir | src/watcher/loops.go:162-192 | Keeps the accounting; drops exactly the directory and everything whose path goes on from it, refunding each process charged. |
| Watcher.UnderIsBeneath | src/watcher/loops.go:344-355 | A path is beneath a directory if and only if it is that directory's path, a separator, and more. |
| Watcher.Watcher.AdoptNewDir | src/watcher/loops.go:90-113 | Keeps the accounting; interested processes are served in turn: those with room gain the reference from the first one on whose request the backend accepts, or all of them if the directory is watched already; nobody loses one. |
| Watcher.Watcher.ResizeBuffer | src/watcher/watcher.go:448-458 | The larger buffer wins; a refusal leaves the registration as it was. |
| Watcher.Watcher.ResumeProcess | src/watcher/watcher.go:297-308 | Lifts pause and suspension of that process alone and restarts its causality clock. |
| Watcher.RefsDetermined | src/watcher/watcher.go:250-281 | Without empty entries, who refers to what determines the map: adding and removing a process restores it. |
| Watcher.OneMoreDir | src/watcher/watcher.go:441-442 | A new reference raises the charge of its process by one and of no other. |
| Debounce.Debouncer.Notify | src/watcher/debounce.go:62-78 | Accepts the event unless stopped, and leaves the timer armed. |
| Debounce.Debouncer.OnElapsed | src/watcher/debounce.go:84-105 | Fires exactly when a burst is pending whose last event is a full delay ago, with all that was pending; a stale wake-up changes nothing. |
| Debounce.Debouncer.Stop | src/watcher/debounce.go:109-119 | Disarms, and discards exactly what was pending. |
| Debounce.Drive | src/watcher/debounce.go:62-119 | Over any operations with wake-ups at any times, the accepted events are cut in order into the bursts fired, then what is pending or discarded; none is lost or counted twice, and none fires early. |
| Dispatch.FlapDetector.Record | src/watcher/flap.go:31-42 | Keeps the stamps inside the window plus the new one, and reports when they reach the threshold. |
| Dispatch.LaterTwice | src/watcher/flap.go:31-42 | Pruning at every record loses nothing a later record needs: the pruned list equals the in-window part of the full history. |
| Dispatch.EveryWindowBounded | src/watcher/flap.go:31-48 | If every stamp had fewer than the threshold in the window ending with it, every window anywhere does. |
| Dispatch.Dispatcher.HandleTrigger | src/watcher/loops.go:254-329 | The trigger of an active watch is dropped if and only if its newest event is older than the watch's registration or than a stamped batch with its process; any other becomes one stamped batch, handed over unless the watch is suspended, which happens if and only if the batch reaches the threshold. |
| Dispatch.Dispatcher.Causality | src/watcher/loops.go:260-268 | In every history, a batch never restarts the process whose watch triggered it for an event that an earlier batch with that process is newer than. |
| Dispatch.Dispatcher.FlapBound | src/watcher/loops.go:299-310 | Since its last suspension every window of the configured length holds fewer than the threshold of restarts triggered by a process's own watch. |
| Terminal.AnsiTerminal.Write | src/tui/ansi_terminal.go:261-291 | Over any bytes the parser state and the screen are as specified byte by byte; an excursion to the alternate screen leaves the main screen, history and view exactly as they were, also after leaving. |
| TerminalText.TextShows | src/tui/ansi_terminal.go:261-291 | After text of any length, in characters of any number of bytes, the screen shows the rows that the text makes on from the cursor: wrapped at the margin, scrolled as far as the region reaches, with the rows scrolled off in the history; nothing else has changed, and the cursor is after the last character. |
| TerminalText.TextIsPut | src/tui/ansi_terminal.go:261-291 | Writing text is putting its characters one after the other, whatever the number of bytes they take. |
| TerminalText.PutAllShows | src/tui/ansi_terminal.go:709-733 | The same of any characters put: the deferred wrap and the scrolling add up to plain reading order. |
| Terminal.AnsiTerminal.WriteByte | src/tui/ansi_terminal.go:261-291 | One byte changes cells, cursor, history and parser exactly as the screen's specification says: one that completes a character writes it at the cursor after a pending wrap, one that does not changes no cell. It crashes exactly when an editing command finds its cells or its row missing; never touches the main screen from, into or out of the alternate one; and leaves a cursor on the screen there unless a relative movement overflows its sum. |
| Terminal.AnsiTerminal.CrashesOnScreen | src/tui/ansi_terminal.go:959-989 | With the cursor on the screen the inputs that crash are exactly insertions past the right margin and deletions whose sum with the column overflows. |
| Terminal.AnsiTerminal.OverflowsHappen | src/tui/ansi_terminal.go:513-527 | Both overflows are reached from every column but the first. |
| Terminal.AnsiTerminal.SameView | src/tui/ansi_terminal.go:867-914 | After an excursion a user sees the same cells everywhere as before. |
| Terminal.AnsiTerminal.ScrollUp | src/tui/ansi_terminal.go:771-805 | Moves the region up by one row; saves the top row exactly when the region starts at the top of the main screen; and a user viewing history keeps every cell but those of an evicted line. |
| Terminal.AnsiTerminal.ScrollDown | src/tui/ansi_terminal.go:807-822 | Moves the region down by one row, and nothing else. |
| Terminal.AnsiTerminal.InsertLine | src/tui/ansi_terminal.go:735-751 | n rows move in at the cursor at once, within the region only. |
| Terminal.AnsiTerminal.DeleteLine | src/tui/ansi_terminal.go:753-769 | n rows leave at the cursor at once, within the region only. |
| Terminal.AnsiTerminal.InsertChar | src/tui/ansi_terminal.go:959-971 | Shifts the rest of the row, and crashes if and only if the cursor is left of the margin but not on a row, or the cursor plus the count passes the margin. |
| Terminal.AnsiTerminal.DeleteChar | src/tui/ansi_terminal.go:974-989 | The rest of the row moves left by n and blanks follow, unless the cursor is off the screen or its column plus n overflows, when it crashes. |
| Terminal.AnsiTerminal.EraseDisplay | src/tui/ansi_terminal.go:824-847 | Each mode blanks exactly its part of the screen, and crashes exactly when that part is not all there. |
| Terminal.AnsiTerminal.PutChar | src/tui/ansi_terminal.go:709-733 | Writes one cell if the cursor is on the screen, keeps it there, and defers the wrap at the margin to the next character. |
| Terminal.AnsiTerminal.ExecuteCSI | src/tui/ansi_terminal.go:420-482 | Editing commands change the shown screen as stated, all others but the screen switch leave its cells alone, and a cursor on the screen leaves it exactly by a movement that overflows. |
| TerminalScreen.MovedNear | src/tui/ansi_terminal.go:504-585 | From a place on the screen a movement leads as near to the place asked for as the screen allows, if and only if its 64-bit sum does not overflow; else it leads off the screen. |
| Terminal.AnsiTerminal.HandleScrolling | src/tui/ansi_terminal.go:600-612 | Scrolling n times is moving the region's rows by n. |
| Terminal.AnsiTerminal.HandleNormal | src/tui/ansi_terminal.go:293-332 | Control characters move the cursor and touch no cell unless they scroll; a printable one is written at the cursor. |
| Terminal.AnsiTerminal.HandleEscape | src/tui/ansi_terminal.go:334-389 | ESC 8 brings the saved cursor back, ESC M scrolls down only at the top of the region, all others touch no cell; the parser moves as specified. |
| Terminal.AnsiTerminal.ReverseIndex | src/tui/ansi_terminal.go:350-359 | One row up, or the region one row down when the cursor is at its top. |
| Terminal.AnsiTerminal.SetRegion | src/tui/ansi_terminal.go:440-461 | The region is the rows asked for as far as they are on the screen, or all rows when they make no range. |
| Terminal.AnsiTerminal.SwitchToAltScreen | src/tui/ansi_terminal.go:1082-1105 | The main screen's contents are put aside intact; the alternate one starts blank and shares no cells with it. |
| Terminal.AnsiTerminal.SwitchToMainScreen | src/tui/ansi_terminal.go:1107-1118 | The very screen put aside is shown again. |
| TerminalScreen.MovedDownMore | src/tui/ansi_terminal.go:735-751 | Moving rows down by n and then by one is moving them by n + 1. |
| TerminalSequences.SequenceCommands | src/tui/ansi_terminal.go:391-418 | A control sequence of any decimal parameters, private or not, carries out its command with exactly these parameters, shows nothing of itself, and leaves the parser at rest. |
| TerminalSequences.ParsesBack | src/tui/ansi_terminal.go:614-639 | Parsing the decimal rendering of any parameters gives them back. |
| TerminalSequences.SavedAroundText | src/tui/ansi_terminal.go:334-389 | Text of any length, however it wraps and scrolls, between ESC 7 and ESC 8 leaves the cursor and the style where they were. |
| TerminalSequences.AlternateAroundText | src/tui/ansi_terminal.go:1082-1118 | Text of any length written between switching to the alternate screen and back leaves the main screen and its history as they were. |
| TerminalEdits.DeleteThenInsert | src/tui/ansi_terminal.go:959-989 | Deleting characters at the cursor and inserting as many only blanks them. |
| TerminalEdits.InsertThenDelete | src/tui/ansi_terminal.go:959-989 | Inserting and deleting as many loses only what was pushed past the margin. |
| TerminalEdits.ErasesDisplay | src/tui/ansi_terminal.go:824-864 | Erasing the display blanks what erasing in the row does and all rows below it, or above it, or everything. |
| TerminalEdits.LinesUndone | src/tui/ansi_terminal.go:735-769 | Deleting rows at the cursor and inserting as many, or the reverse, only blanks those rows, or the last ones of the region. |
| TerminalEdits.ScrollsUndone | src/tui/ansi_terminal.go:600-612 | Scrolling up and down by as many rows, or the reverse, only blanks those rows of the region, but for the history. |
| TerminalEdits.TabStops | src/tui/ansi_terminal.go:293-332 | A tab leads to the next column that is a multiple of 8, or else to the last one. |
| TerminalParser.SwitchSequenceSwitches | src/tui/ansi_terminal.go:614-639 | From the normal state the eight bytes of the private mode 1049 sequence switch screens, with the last byte. |
| TerminalParser.ExcursionPrefix | src/tui/ansi_terminal.go:1047-1080 | An excursion cut short is an excursion whose last byte was still handled on the alternate screen or entered it. |
| Extends.ResolveProcessExtends | src/loader/extends.go:31-93 | Succeeds if and only if every chain ends at a process that extends nothing and its merges succeed; then every entry is the fold of its chain with the extension cleared, in any visiting order. |
| Extends.Resolver.Resolve | src/loader/extends.go:34-85 | One call resolves the whole chain, or its process has no value; it always ends. |
| Extends.ChainUnique | src/loader/extends.go:46-57 | Following extensions is deterministic, so a value does not depend on who is resolved first. |
| Extends.NoChainInCycle | src/loader/extends.go:39-40 | A process met again while its own chain is followed has no chain that ends. |
| ShellQuote.QuoteRoundTrip | src/mcp/argshandler.go:216-227 | For every string, reading the quoted form by the double-quote rules of section 2.2.3 of POSIX.1-2017 gives the string back. |
| ShellQuote.QuoteInContext | src/mcp/argshandler.go:216-227 | In a longer line the quoted argument ends at its own closing quote, whatever it holds. |
| ShellQuote.RewriteIsEscape | src/mcp/argshandler.go:218-224 | The four successive replacements equal one escape per character. |
| Scaling.ProjectRunner.ScaleProcess | src/app/project_runner.go:1384-1408 | Fails exactly below one or for an unknown process; otherwise leaves exactly replicas 0 to n - 1 under their padded names, all other processes untouched, and whoever ran as a kept replica running as it, and states, logs and watches keyed like the processes. |
| Scaling.ProjectRunner.ScaleUp | src/app/project_runner.go:1420-1436 | Adds exactly the missing numbers, without taking a name anybody has. |
| Scaling.ProjectRunner.ScaleDown | src/app/project_runner.go:1438-1464 | Removes exactly the numbers beyond the new count and notes it in the others. |
| Scaling.ProjectRunner.UpdateReplicaCount | src/app/project_runner.go:1466-1476 | Renames every replica to its new name, although the map is changed while it is visited. |
| Scaling.ProjectRunner.RenameProcess | src/app/project_runner.go:1478-1509 | Moves configuration, running object, state, log and watch to the new name together, so that all maps stay keyed alike. |
| Scaling.RenameKeepsKeys | src/app/project_runner.go:1478-1509 | A rename to a free name leaves every process with its state and log, no log left over, and exactly the watchable ones watched. |
| Scaling.NewNameIsFree | src/app/project_runner.go:1466-1476 | No rename collides: nobody has the new name of a replica that still has its old one. |
| Scaling.RenameKeepsSlots | src/app/project_runner.go:1478-1504 | A rename keeps who runs as which replica. |
| Replicas.ReplicaNamesDiffer | src/types/process.go:85-91 | Replicas with different numbers never share a name, not even one named among m and the other among n. |
| Replicas.DigitCountIsWide | src/types/process.go:89 | As many digits as the count has are enough for every replica number. |

## Left out

- HTTP and WebSocket API, client, commands, TUI widgets, MCP server, updater: input, output and thin wrappers.
- Real processes, terminals, signals, probes, metrics and ports: they appear as choices of the environment (exit with some code, become ready, emit the log line, fork).
- Incarnations in `RunnerProtocol` leave the registry at any time; why they do is the subject of `IncarnationProtocol`. In return, a dependency lookup there finds any registered incarnation of the name, or none, which covers more than the maps of running and finished processes allow.
- `doneProcesses`, exit codes of the project, daemons, elevated processes, the internal stop after a fatal readiness check beyond its effect on the status, and the bounded wait for a process that has not started: not modelled.
- NoLostCompletion: schedules count as armed triggers; arming and disarming are steps of their own.
- StopProcess: pausing the watch and pausing the schedule are one step; a paused schedule's error is left out.
- RestartProcess: how long it waits for the old incarnation, the back-off, the reset of the restart counter (which is in `IncarnationProtocol`) and the waiting of a joined restart for the other one's result are left out.
- Terminate: when the channel is full the incarnation goes on waiting to queue its count, which is not followed further.
- WaitsMakeProgress: an incarnation just about to be released by a shutdown counts as moving.
- NoShutdownDeadlock: which running processes are listed is left open, so that the walk over the configuration, `ProjectWalk.WithProcesses`, is not repeated; two shutdowns of the project at the same time are left out.
- StopLetsStart: says nothing of an incarnation parked on a dependency that is not fulfilled yet, since that is up to the other process.
- DependentsCompleteFirst: speaks of the dependents recorded when the workers are created, which is the moment the code records them.
- Renaming a process while it exits, and replacing a process between the two locked halves of adopting a directory: each operation on these maps is one step here, except removing a process from the watcher.
- ScaleProcess: a rename leaves schedules alone, and they are left out; templates and JSON are one template value; the number of digits is any that is wide enough, since the source takes it from a floating-point logarithm.
- Collect: reading the environment of a process is a set of pids that carry the marker; a process table that cannot be read is left out.
- FreezeTree: assumes that SIGSTOP takes effect before the next call is served, that frozen processes are not continued or killed by others, and that start tokens grow.
- StopTree: a signal other than SIGKILL stays pending while its receiver is frozen, and what the receiver does with it once resumed is its own step; a signal that is refused is left out.
- FrozenTreeStays: other processes fork, exit, are reaped and start groups of their own; joining another group, changing user and replacing the environment are left out.
- ReleaseGoneDir: assumes that the backend drops its watches on a directory and on everything beneath it when the directory goes away.
- AddProcess: the scan of the tree and the patterns are parameters; replacing a registration is one step with adding the new one.
- HandleTrigger: which processes a changed path concerns, the queue that drops a trigger when it is full, the restart itself, the display of the last trigger and the quiet period after a restart are left out; a cascade's dependents stay stamped when its batch is suspended, as in the code.
- Write: resizing, deferred activation, status responses, mouse and keypad modes are left out; a screen is at most 2^31 - 1 cells wide and high; decoding UTF-8 and selecting a style are parameters.
- ResolveProcessExtends: copying and merging configurations are parameters that may fail.
- WithProcesses: the visitor is a predicate that says for which process it fails; the order of calls is stated for walks without an error, because a process given up stays marked as done and a later dependent of it may still be visited. The project is keyed by replica name, as the loader makes it.
- QuoteRoundTrip: characters are code points; the quoted string is not passed through a second shell.
- Version comparison, durations, defaults, enumerations, the log ring buffer and status displays: each is a short computation on its own input, without shared state or interplay with the rest.
