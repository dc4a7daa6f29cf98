# Verified model of the vigil service supervisor

vigil is a service manager: a daemon (`vigild`) that runs services as child processes, restarts them, orders their
start, checks their health, raises alerts and keeps their logs, and a relay that ships those logs. This project models
the parts of it where state is spread over several tasks or over many steps, and proves what they keep. Nothing in it
is executed; Dafny's verifier is the only judge. `dafny verify dfyconfig.toml` checks the whole project.

The program's own form is kept where it changes state: each handler of the service actor, the supervisor, the log
store, the check actor, the alert sender, the reaper and the TCP sink is a method of a class over the program's
fields, and each loop of the parsers and merges is a loop. Every such method is proved to compute a specification
function, and the theorems are about those functions, over all inputs, runs and interleavings.

| files | what they model |
|---|---|
| `ServiceActor`, `ActorRuns`, `ActorCommands`, `ActorHistory`, `RestartBackoff` | one service: its actor, its commands, its processes, its events and its restarts |
| `Overlord`, `Supervision`, `SnapshotTracking` | the supervisor, and its concurrent system with all actors and the bounded event queue |
| `PendingAutostart`, `AutostartCompletion`, `BootRoom`, `DependencyGap`, `QueueBound` | start order, deferred starts, boot, and the limits of the queue |
| `RequiresCascade`, `CascadeOutcome`, `CascadeCompletion`, `CascadeStart`, `CascadeRoom`, `CascadeOrder`, `CascadeMisses`, `BootThenFall` | the stop cascade along `requires`, its outcome, its end, the room it needs and whom it misses, on its own and after a boot |
| `OrderedMaps`, `LayerMerge`, `LayerCollapse`, `LayerProvenance` | configuration layers and the plan they make |
| `LogStore`, `LogHistory` | log buffers against the whole history |
| `CheckAlerts`, `AlertHistory` | debounce and alert deduplication |
| `Reaper`, `ReaperRace` | exit statuses between the kernel, the reaper and the waiters |
| `CommandLine`, `CommandRoundTrip`, `CommandQuoting` | splitting command texts |
| `TcpSink`, `SinkDelivery` | the log relay's connection and its retry slot |
| `Durations`, `NoProxy`, `Prelude` | duration texts, proxy exceptions, shared sequence facts |

## Where the code does not do what one would expect

The model follows the code. These statements are proved, most with the exact condition under which the expected
property does hold.

- A Start or Restart accepted in Backoff leaves the backoff timer armed, which later spawns a second process
  (`ActorRuns.SecondProcessExactly`). The same branch is the only way out of the clean states.
- A Stop does not cancel a restart that is pending: the service comes back (`ActorRuns.StopIsFinalExactly`).
- Restarting gives up once the delay has reached its limit, where docs/user-guide/configuration.md:193-202 shows the
  limit repeating for ever; the default first delay in the code is 500 ms, in the documentation 1 s
  (`RestartBackoff.GivesUpExactly`).
- docs/user-guide/configuration.md:145 lets a service start after its dependencies reach Active. In the code a
  dependency in Starting is enough, so a dependency whose spawn fails unblocks its dependents
  (`DependencyGap.FailedDependencyUnblocks`). The documented order holds exactly for the dependencies of which a Start
  has succeeded before (`DependencyGap.DependencyWasActiveExactly`).
- docs/user-guide/configuration.md:148-151 stops dependents when a service enters Backoff. In the code that stops
  nobody (`CascadeMisses.BackoffStopsNobody`); only Inactive and Error do, and only those dependents the supervisor
  has heard running (`CascadeMisses.StopSentExactly`). A dependent it knows everything about is missed and can come up
  again by itself exactly when it is in Backoff or has a restart pending (`CascadeMisses.MissedAndBackExactly`; a run
  that does so is `CascadeStart.BackoffEscapesCascade`).
- A service removed by a reload and added again can have the snapshot of its new actor overwritten by an event of the
  old one (`SnapshotTracking.StaleEventOverwritesNewActor`), exactly when one is under way as it is added
  (`SnapshotTracking.FollowedThroughoutExactly`).
- A round of commands whose events do not fit into the event queue deadlocks the supervisor with an actor
  (`QueueBound.RoundCompletesExactly`): more than 128 Starts at once
  (`AutostartCompletion.FirstRoundCompletesExactly`), or the fall of a service that more than 256 running services
  require (`CascadeRoom.FallNeedsRoom`). Which whole loads and whole cascades can be brought to rest is decided by the
  plan and the services that run (`BootRoom.LoadRestsExactly`, `CascadeOrder.FallRestsExactly`).
- A check respawned while an event is queued that changes what is known does not take over its status, and a failing
  first probe can then fire a recovery (`AlertHistory.RespawnKeepsStatusExactly`,
  `AlertHistory.RespawnRecoversExactly`; in a run in which no probe succeeds, `AlertHistory.SpuriousRecovery`). A probe
  under way at the respawn that reports something new after the new check's first probe leaves the alert wrong, for
  good if the check stays as it is (`AlertHistory.SettledExactly`, `AlertHistory.StragglerSticks`).
- The actions on a failing check are taken per Down event, where docs/user-guide/configuration.md:190 speaks of the
  transition; a first probe that ends in Down sends one more (`AlertHistory.FirstProbeRepeatsDown`).
- Exit statuses are dropped only when another is recorded, not after their keep time; an old one answers the waiter of
  a later process with the same PID (`ReaperRace.StaleRecordStays`, `ReaperRace.StaleRecordWins`,
  `ReaperRace.FreshPidExactly`).
- Empty words of a command and a backslash at its very end are lost (`CommandQuoting.SplitsExactly`), and default
  arguments need at least one word before the bracket (`CommandRoundTrip.CommandReadsBackExactly`).
- A log buffer of capacity 0 holds one line (`LogStore.Buffer.Push`).

## Model

| member | source | states |
|---|---|---|
| `ServiceActor.Actor.OnStart` | crates/vigild/src/service/actor/handlers.rs:22-52 | the new state of the actor and the reply for every state and spawn outcome; the backoff timer is left alone |
| `ServiceActor.Actor.OnStop` | crates/vigild/src/service/actor/handlers.rs:54-78 | a running service is signalled and given a kill deadline, a backoff is cancelled, everything else is left as it is |
| `ServiceActor.Actor.OnRestart` | crates/vigild/src/service/actor/handlers.rs:80-101 | a running or stopping service is stopped with a restart pending, any other is started |
| `ServiceActor.Actor.OnChildExit` | crates/vigild/src/service/actor/handlers.rs:103-204 | the exit is reported, the child and the deadline are dropped, and a stop is finished or the policy followed |
| `ServiceActor.Actor.FinishStop` | crates/vigild/src/service/actor/handlers.rs:129-143 | a pending restart is carried out once, after the move to Inactive |
| `ServiceActor.Actor.FollowPolicy` | crates/vigild/src/service/actor/handlers.rs:145-203 | what each exit policy does, with the restart and its delay or giving up |
| `ServiceActor.Actor.OnKillDeadline` | crates/vigild/src/service/actor/handlers.rs:206-211 | SIGKILL to the child, and the deadline is spent |
| `ServiceActor.Actor.OnBackoffExpired` | crates/vigild/src/service/actor/handlers.rs:213-227 | a new start, which ends in Active or Error, and the timer is spent |
| `ServiceActor.Actor.OnShutdown` | crates/vigild/src/service/actor/handlers.rs:229-239 | the child is stopped, killed and waited for |
| `ServiceActor.Actor.ChangeState` | crates/vigild/src/service/actor/mod.rs:78-91 | the state is set and one event is emitted |
| `ServiceActor.Actor.StartProcess` | crates/vigild/src/service/actor/spawn.rs:97-99 | a successful spawn is the new child and the service is Active |
| `ServiceActor.Actor.AdvanceBackoff` | crates/vigild/src/service/actor/backoff.rs:18-35 | the delay handed out is the current one; the next is multiplied and capped, and the count goes up |
| `ServiceActor.Actor.Loop` | crates/vigild/src/service/actor/mod.rs:137-191 | the select loop on any sequence of ready branches computes the run of the step relation |
| `ActorCommands.StartBringsUp` | crates/vigild/src/service/actor/handlers.rs:22-52 | a Start of a service that is down makes it Active with one new process, or leaves Error if the spawn fails; one that is up or stopping is left alone |
| `ActorCommands.StartReplyIsTrue` | crates/vigild/src/service/actor/handlers.rs:22-52 | the reply to a Start is success if and only if the service is then Active |
| `ActorCommands.RestartReplyIsTrue` | crates/vigild/src/service/actor/handlers.rs:80-101 | the reply to a Restart is success if and only if the service is then Active, or stopping with a process whose end will bring it back |
| `ActorCommands.RestartIsCarriedOut` | crates/vigild/src/service/actor/handlers.rs:80-143 | a Restart of a running or stopping service: in every continuation without further starts, with any Stops, signals, kills and exit policies, nothing is spawned until the process exits, and that exit spawns once and ends in Active, or in Error if the spawn fails |
| `ActorCommands.RestartComesBack` | crates/vigild/src/service/actor/handlers.rs:80-143 | and a Restart followed by an exit leaves the service Active with one more process, the new one |
| `ActorCommands.RestartStartsAtOnce` | crates/vigild/src/service/actor/handlers.rs:94-99 | a Restart of a service that is down starts it at once |
| `ActorCommands.StopIsCarriedOut` | crates/vigild/src/service/actor/handlers.rs:54-143 | a Stop of a running service ends in Inactive with the next exit of its process, whatever the exit policies, and spawns nothing |
| `ActorCommands.ExpiryBringsUp` | crates/vigild/src/service/actor/handlers.rs:213-227 | the end of a backoff makes the service Active with one new process, or leaves Error |
| `ActorCommands.ForwardedExactly` | crates/vigild/src/service/actor/mod.rs:156-158 | over any run the signals forwarded to processes are exactly those asked for while there was a process, to that process and in order |
| `ActorCommands.ShutdownIsFinal` | crates/vigild/src/service/actor/handlers.rs:229-239 | shutting down sends the stop signal and SIGKILL to the process, none is left alive, and nothing can happen afterwards |
| `ActorRuns.RunKeepsLoopHead` | crates/vigild/src/service/actor/mod.rs:137-191 | at every loop head of every run: never Starting, a child in Active and Stopping, deadlines only while stopping, a pending restart only while stopping and without a timer, Backoff with its timer |
| `ActorRuns.ExitIsAnswered` | crates/vigild/src/service/actor/handlers.rs:145-203 | an exit nobody asked for ends the daemon exactly under a shutdown policy, with the exit code of the policy, arms a restart exactly when the service is to come back, and spawns nothing at once |
| `ActorRuns.StepKeepsClean` | crates/vigild/src/service/actor/handlers.rs:22-52 | a step leaves the timer armed exactly in Backoff and the children exactly right if and only if it is not a Start or Restart accepted in Backoff |
| `ActorRuns.CleanRunsExactly` | crates/vigild/src/service/actor/handlers.rs:22-227 | that holds throughout a run if and only if no Start or Restart is accepted in Backoff during it |
| `ActorRuns.CleanMeansOneProcess` | crates/vigild/src/service/actor/handlers.rs:22-227 | then at most one process is alive, and exactly one in Active and Stopping |
| `ActorRuns.SecondProcessExactly` | crates/vigild/src/service/actor/handlers.rs:22-52 | a step opens the way to two live processes, without a further mistake, if and only if it starts the service in Backoff |
| `ActorRuns.StaleTimerSpawnsSecond` | crates/vigild/src/service/actor/handlers.rs:94-99 | the run that does so: the stale timer fires and a second process is alive |
| `ActorRuns.SettledSpawnsNothing` | crates/vigild/src/service/actor/handlers.rs:54-78 | once nothing is running or pending, no process is spawned until the next Start or Restart |
| `ActorRuns.StopIsFinalExactly` | crates/vigild/src/service/actor/handlers.rs:61-64 | after a Stop nothing is spawned until the next Start or Restart, whatever the policy, if and only if no restart was pending |
| `ActorRuns.RestartSurvivesStop` | crates/vigild/src/service/actor/handlers.rs:61-64 | with one pending, the process comes back after the Stop |
| `ActorHistory.HistoryOfRun` | crates/vigild/src/service/actor/mod.rs:78-91 | along any run the events form a legal chain of states that ends in the actor's state, and every spawned process is alive or has one exit event |
| `ActorHistory.HistoryFromStart` | crates/vigild/src/service/actor/mod.rs:78-91 | the same from a new actor |
| `ActorHistory.StepSpawns` | crates/vigild/src/service/actor/handlers.rs:103-143 | per step, spawns are balanced by live processes and exits |
| `ActorHistory.ProcessesAreCounted` | crates/vigild/src/service/actor/handlers.rs:103-239 | in every run, with two processes at once or not, each process spawned is alive or has ended once |
| `RestartBackoff.RunSchedules` | crates/vigild/src/service/actor/backoff.rs:18-45 | the count, the current delay and all delays handed out follow from the number of restarts since the last reset |
| `RestartBackoff.GivesUp` | crates/vigild/src/service/actor/handlers.rs:192-203 | with a factor of at least 2 there are never more automatic restarts in a row than doublings that take the first delay to the limit |
| `RestartBackoff.GivesUpFromStart` | crates/vigild/src/service/actor/handlers.rs:192-203 | the same from a new actor |
| `RestartBackoff.GivesUpExactly` | crates/vigild/src/service/actor/handlers.rs:192-203 | for every factor an exit leads to Error if and only if there was a restart before and the delay after that many restarts has reached the limit; otherwise to Backoff with exactly that delay |
| `RestartBackoff.GivesUpWhenDoubled` | crates/vigild/src/service/actor/handlers.rs:192-203 | with factor 2 that is when doubling the first delay that often has reached the limit |
| `RestartBackoff.NeverGivesUp` | crates/vigild/src/service/actor/handlers.rs:192-203 | with a factor of at most 1 and a first delay below the limit it never gives up |
| `RestartBackoff.DelaysGrow` | crates/vigild/src/service/actor/backoff.rs:18-35 | every delay after the first is below the limit, and delays never decrease when the factor is at least 1 |
| `RestartBackoff.RestartsAsConfigured` | crates/vigild/src/service/actor/backoff.rs:18-55 | in terms of the texts in the configuration: a restart after k others waits the first delay doubled k times, or the service is given up once that has reached the limit; texts that are no duration count as 500 ms and 30 s |
| `RestartBackoff.NextDelayIsRounded` | crates/vigild/src/service/actor/backoff.rs:28-30 | for every factor the next delay is the exact product rounded down, or the limit where that is reached |
| `RestartBackoff.CountsRestarts` | crates/vigild/src/service/actor/backoff.rs:33-38 | the count that decides about giving up is that of the exits answered by a restart since the last successful start from outside |
| `Overlord.Supervisor.StartEnabled` | crates/vigild/src/overlord/lifecycle.rs:92-113 | ready services are sent a Start in plan order, waiting ones are deferred once |
| `Overlord.Supervisor.StartPending` | crates/vigild/src/overlord/lifecycle.rs:155-170 | every deferred service whose dependencies run is taken off the list and sent a Start, the others stay |
| `Overlord.Supervisor.HandleServiceEvent` | crates/vigild/src/overlord/events.rs:21-97 | the new supervisor state, the commands sent and the exit code for every event |
| `Overlord.Supervisor.CascadeStop` | crates/vigild/src/overlord/events.rs:58-87 | a Stop to each service whose snapshot runs and that requires the fallen one, in plan order |
| `Overlord.Supervisor.ReloadLayers` | crates/vigild/src/overlord/lifecycle.rs:230-259 | snapshots of kept services stay, new ones are Inactive, removed ones go, and autostart begins afresh |
| `Overlord.Supervisor.SendCommand` | crates/vigild/src/overlord/lifecycle.rs:290-309 | only services with an actor are sent anything |
| `Supervision.RunKeepsWellFormed` | crates/vigild/src/overlord/mod.rs:185-215 | in every interleaving of supervisor, actors and queue, actors, snapshots and counters stay consistent |
| `SnapshotTracking.SnapshotsFollowActors` | crates/vigild/src/overlord/events.rs:23-27 | for a service that no reload brings back while an event of a former actor is under way, the snapshot is the state after the events heard so far, and the actor's own state once none is on the way |
| `SnapshotTracking.LoadFollowsExactly` | crates/vigild/src/overlord/lifecycle.rs:230-244 | a reload keeps track of a service if and only if it does not drop it with an event under way |
| `SnapshotTracking.AddingFollowsExactly` | crates/vigild/src/overlord/lifecycle.rs:21-46 | a service brought back is tracked if and only if no event of a former actor is under way |
| `SnapshotTracking.FollowedThroughoutExactly` | crates/vigild/src/overlord/lifecycle.rs:21-46 | a service is tracked throughout a run if and only if no reload of the run brings it back too early |
| `SnapshotTracking.StaleEventOverwritesNewActor` | crates/vigild/src/overlord/lifecycle.rs:33-46 | for a service removed and added again, an old event in the queue overwrites the snapshot of the new actor |
| `PendingAutostart.WakeupsAreNeverLost` | crates/vigild/src/overlord/lifecycle.rs:155-170 | at every moment of every run the deferred list has no duplicates and every entry has a dependency that does not run in the snapshots |
| `PendingAutostart.BootHasNoLostWakeup` | crates/vigild/src/overlord/lifecycle.rs:92-113 | it holds right after the first load |
| `PendingAutostart.StartsAreOrdered` | crates/vigild/src/overlord/lifecycle.rs:115-153 | with only autostart and exits, whatever is started is enabled, and each of its dependencies was started strictly earlier |
| `PendingAutostart.NeverStarted` | crates/vigild/src/overlord/lifecycle.rs:115-153 | so nothing that depends, directly or not, on a cycle or on a missing or disabled service is ever started |
| `PendingAutostart.NoStartOnCycle` | crates/vigild/src/overlord/lifecycle.rs:115-153 | nothing on a dependency cycle is ever started |
| `PendingAutostart.OnlyEnabledStart` | crates/vigild/src/overlord/lifecycle.rs:92-99 | whatever is started automatically has its startup set to enabled in the plan |
| `PendingAutostart.DisabledStaysDown` | crates/vigild/src/overlord/lifecycle.rs:92-99 | a service with startup disabled is sent no Start in any unattended run, and its actor stays as it was made |
| `PendingAutostart.ActorsRunByThePlan` | crates/vigild/src/overlord/lifecycle.rs:26-32 | in every run without reloads each actor runs by the exit policies and backoff settings the plan gives its service |
| `AutostartCompletion.LoadStartsEverything` | crates/vigild/src/overlord/lifecycle.rs:92-170 | a load or reload into a synchronised system (nothing under way, no service stopping or in Backoff): if the enabled services' dependencies are complete and acyclic and every spawn succeeds, then once all is quiet nothing is deferred, every enabled service is Active, and the system is synchronised again |
| `AutostartCompletion.BootStartsEverything` | crates/vigild/src/overlord/lifecycle.rs:92-170 | the same for the first load |
| `AutostartCompletion.LoadComesToRest` | crates/vigild/src/overlord/lifecycle.rs:92-170 | with at most 128 enabled services a load gets there: it takes a bounded number of steps and can always go on until then |
| `AutostartCompletion.BootComesToRest` | crates/vigild/src/overlord/lifecycle.rs:92-170 | the same for the first load |
| `AutostartCompletion.FirstRoundCompletesExactly` | crates/vigild/src/overlord/mod.rs:132 | the services started right away are all started if and only if there are at most 128 |
| `BootRoom.LoadRestsExactly` | crates/vigild/src/overlord/lifecycle.rs:92-170 | a load or reload into a synchronised system, every spawn succeeding and nothing exiting meanwhile, can be brought to rest if and only if, going through the services in the order they come up, never more than 128 stand in line, counted from the one being heard of |
| `BootRoom.BootRestsExactly` | crates/vigild/src/overlord/lifecycle.rs:92-170 | the same for the first load, where nothing is up |
| `BootRoom.LoadEndsExactly` | crates/vigild/src/overlord/mod.rs:132 | and the schedule does not matter: a load that has no step left is at rest if there is that room and deadlocked if there is not, after a bounded number of steps |
| `BootRoom.FewHaveRoom` | crates/vigild/src/overlord/lifecycle.rs:92-170 | there is room whenever at most 128 services are to be started |
| `DependencyGap.DependencyWasActiveExactly` | crates/vigild/src/overlord/lifecycle.rs:115-153 | in every unattended run a dependency of an automatically started service had been Active before, if and only if some earlier Start of it had succeeded |
| `DependencyGap.FailedDependencyUnblocks` | crates/vigild/src/state.rs:35-37 | a run in which it had not: the dependency's spawn fails and its dependent is started, because Starting counts as running |
| `QueueBound.CommandEmitsAtMostTwo` | crates/vigild/src/service/actor/handlers.rs:22-101 | how many events each command makes an actor send before its reply, by state: two at most |
| `QueueBound.RoundCompletesExactly` | crates/vigild/src/overlord/lifecycle.rs:290-309 | a round of any commands, whatever its spawns come to, can complete if and only if its events fit into what is left of the queue |
| `QueueBound.RoundOfOnceCompletesExactly` | crates/vigild/src/overlord/lifecycle.rs:290-309 | if each service is named once, the states before the round decide that |
| `QueueBound.StartsCompleteExactly` | crates/vigild/src/overlord/lifecycle.rs:92-113 | Starts of services that are down take two places each |
| `QueueBound.StopsCompleteExactly` | crates/vigild/src/overlord/events.rs:77-86 | Stops of running services take one place each |
| `QueueBound.TooManyEventsGetStuck` | crates/vigild/src/overlord/lifecycle.rs:290-309 | beyond that, every schedule of the round ends in the deadlock |
| `QueueBound.Deadlock` | crates/vigild/src/overlord/lifecycle.rs:290-309 | from the deadlock, no step of any task ever changes the queue or the commands waiting |
| `RequiresCascade.StepKeepsCascading` | crates/vigild/src/overlord/events.rs:58-87 | every step of a cascade keeps: only reached services are stopped, and a running service that requires a fallen one the supervisor knows of is about to be stopped |
| `CascadeOutcome.CascadeOutcome` | crates/vigild/src/overlord/events.rs:58-87 | at rest a service runs if and only if it ran before and does not require a fallen one through running services; all others are untouched, and only reached ones were sent anything, always a Stop |
| `CascadeCompletion.CascadeIsFinite` | crates/vigild/src/overlord/events.rs:58-87 | a cascade ends after a bounded number of steps on any graph, cycles included |
| `CascadeCompletion.CascadeComesToRest` | crates/vigild/src/overlord/events.rs:58-87 | if the queue has room for all events that can come of the fall, three for a running service, two for a stopping one and those under way, every cascade from there is bounded and short of rest has a next step |
| `CascadeCompletion.CascadeCanComeToRest` | crates/vigild/src/overlord/events.rs:58-87 | so there is a run to rest |
| `CascadeRoom.FallComesToRest` | crates/vigild/src/overlord/events.rs:58-87 | with at most 85 services running in a resting system, the fall of any of them comes to rest |
| `CascadeRoom.FallRoundCompletesExactly` | crates/vigild/src/overlord/events.rs:62-86 | hearing of a fall, the round of Stops can complete if and only if the queue has a place for each running dependent |
| `CascadeRoom.FallNeedsRoom` | crates/vigild/src/overlord/events.rs:62-86 | from a resting system: if and only if at most 256 running services require the fallen one |
| `CascadeRoom.FallWithoutRoomGetsStuck` | crates/vigild/src/service/actor/handlers.rs:74-77 | beyond that every schedule of the round ends in the deadlock |
| `CascadeRoom.CascadeEndsAtRest` | crates/vigild/src/overlord/events.rs:58-87 | a cascade at rest leaves the system resting again, ready for the next fall, and ready for the next load if no service was in Backoff |
| `CascadeStart.FallStartsCascade` | crates/vigild/src/service/actor/handlers.rs:145-203 | a service that falls by its own exit in a resting system, where other services may be in Backoff, starts a cascade with itself as the root |
| `CascadeStart.FallsExactly` | crates/vigild/src/service/actor/handlers.rs:145-203 | an exit counts as a fall if and only if it leaves the service Inactive or in Error and does not ask the daemon to end |
| `CascadeStart.StopStartsCascade` | crates/vigild/src/service/actor/handlers.rs:54-78 | so does a service that is sent a Stop |
| `CascadeOrder.FallRestsExactly` | crates/vigild/src/overlord/events.rs:58-87 | the fall of a service in a resting system can be brought to rest, by some schedule of events, kills and exits, if and only if the running services can be taken down in some order in which each fall that is heard of stops at most 256 of those still up |
| `CascadeOrder.StopRestsExactly` | crates/vigild/src/overlord/events.rs:58-87 | the same of a Stop that is sent to a running service, from the reply on |
| `CascadeOrder.NarrowFalls` | crates/vigild/src/overlord/events.rs:62-86 | which is so when at most 256 running services require any one service |
| `CascadeMisses.StopSentExactly` | crates/vigild/src/overlord/events.rs:58-87 | on an event of a service, a dependent is sent a Stop if and only if the event is a move to Inactive or Error and the dependent runs as far as its heard events tell; no other state stops anyone |
| `CascadeMisses.StopsInPlanOrder` | crates/vigild/src/overlord/events.rs:62-86 | the Stops go to those dependents in the order of the plan, to each once |
| `CascadeMisses.BackoffStopsNobody` | crates/vigild/src/overlord/events.rs:58-62 | a service entering Backoff makes the supervisor send nothing |
| `CascadeMisses.MissedAndBackExactly` | crates/vigild/src/overlord/events.rs:67-76 | a dependent of a fallen service whose events have all been heard gets no Stop and can come up again without a command if and only if it is in Backoff or has a restart pending |
| `CascadeStart.BackoffEscapesCascade` | crates/vigild/src/overlord/events.rs:67-76 | a dependent in Backoff is not stopped, and its timer brings it up although what it requires is down |
| `BootThenFall.BootEndsSynchronised` | crates/vigild/src/overlord/lifecycle.rs:92-170 | a boot that has come to rest leaves no event, timer, restart or stop under way |
| `BootThenFall.FallAfterBoot` | crates/vigild/src/overlord/events.rs:58-87 | after a boot of a plan with sound dependencies and the fall of one service, once the cascade is at rest an enabled service runs if and only if it does not require the fallen one through running services |
| `BootThenFall.FallAfterBootComesToRest` | crates/vigild/src/overlord/events.rs:58-87 | with at most 85 enabled services it does come to rest |
| `LayerMerge.MergeServiceInto` | crates/vigil-types/src/plan/service.rs:128-184 | field by field overwriting computes the merge: options overlaid, lists united, maps extended, startup replaced |
| `LayerMerge.MergeCheckInto` | crates/vigil-types/src/plan/check.rs:119-138 | the same for checks |
| `LayerMerge.MergeAlertInto` | crates/vigil-types/src/plan/alert.rs:137-175 | the same for alerts, with the url kept when the overlay has none |
| `LayerMerge.PushMissing` | crates/vigil-types/src/plan/service.rs:128-184 | pushing what is missing is the order-preserving union |
| `OrderedMaps.ExtendInPlace` | crates/vigil-types/src/plan/service.rs:128-184 | extending a map keeps places of old keys and appends new ones |
| `LayerCollapse.FromLayers` | crates/vigil-types/src/plan/layer.rs:48-115 | the loop over layers computes the fold of overlays |
| `LayerCollapse.ModeDecides` | crates/vigil-types/src/plan/layer.rs:56-68 | one layer over what is there, for services, checks and alerts: an entry that is new or in Replace mode stands as it is, one in Merge mode is merged into the one there, the rest stays |
| `LayerCollapse.MergesAreAssociative` | crates/vigil-types/src/plan/service.rs:128-184 | all three merges are associative, together with the Replace mode |
| `LayerCollapse.OverlayAssociative` | crates/vigil-types/src/plan/layer.rs:48-115 | overlaying maps entry by entry is associative, with key order and Replace entries |
| `LayerCollapse.ResolveConcat` | crates/vigil-types/src/plan/layer.rs:48-115 | resolving a sequence of layers is applying the second half to the first |
| `LayerCollapse.CollapseKeepsPlan` | crates/vigil-types/src/plan/layer.rs:48-115 | replacing any run of layers by the one layer made of its merged contents leaves the plan unchanged |
| `LayerProvenance.EntryMergesContributions` | crates/vigil-types/src/plan/layer.rs:48-115 | a name is in the plan if and only if some layer mentions it, and its entry merges the mentions from the last Replace on |
| `LayerProvenance.PlanStartsAtReplace` | crates/vigil-types/src/plan/layer.rs:56-110 | for every kind of entry, the mentions that count are those from the last one in Replace mode on, or all if there is none |
| `LayerProvenance.NamesInFirstMentionOrder` | crates/vigil-types/src/plan/layer.rs:48-115 | names stand in the order of their first mention |
| `LayerProvenance.ListsAreUnions` | crates/vigil-types/src/plan/service.rs:128-184 | ordering lists hold exactly what some contribution lists |
| `LayerProvenance.ListsUnite` | crates/vigil-types/src/plan/service.rs:128-184 | and in that order: the first contribution's list, then what the others add |
| `LayerProvenance.ServiceOfPlan` | crates/vigil-types/src/plan/service.rs:128-184 | every optional field and map entry of a service is the last one set, the ordering lists are united, startup is the last layer's |
| `LayerProvenance.CheckOfPlan` | crates/vigil-types/src/plan/check.rs:119-138 | the same for checks |
| `LayerProvenance.AlertOfPlan` | crates/vigil-types/src/plan/alert.rs:137-175 | the same for alerts, with the list of checks united |
| `LayerProvenance.QueueSettingsOfPlan` | crates/vigil-types/src/plan/layer.rs:84-90 | the limits of the alert queue are those of the last layer that sets them |
| `LogStore.Buffer.Push` | crates/vigild/src/logs/store.rs:31-37 | a buffer holds the last entries up to its capacity, and one even with capacity 0 |
| `LogStore.Store.Push` | crates/vigild/src/logs/store.rs:69-89 | the store holds what the whole history of pushes leaves in one buffer per service, and followers get the entry |
| `LogStore.Store.Tail` | crates/vigild/src/logs/store.rs:92-103 | the walk over the buffers in any order, the sort and the cut |
| `LogHistory.StoreHoldsTheEnd` | crates/vigild/src/logs/store.rs:31-37 | each buffer is the end of its service's history |
| `LogHistory.TailOfSurvivors` | crates/vigild/src/logs/store.rs:92-103 | with increasing timestamps a tail is the end of the surviving entries, whatever the order of the walk |
| `LogHistory.TailIsExact` | crates/vigild/src/logs/store.rs:92-103 | a tail is the last n entries of the whole history if and only if none of the services has more of them than its buffer holds |
| `LogHistory.TailWithinCapacity` | crates/vigild/src/logs/store.rs:92-103 | so it is for every n up to the capacity |
| `LogHistory.SortIsStable` | crates/vigild/src/logs/store.rs:100 | entries come out in the order of time, and those of one moment in the order they came in |
| `CheckAlerts.CheckActor.Tick` | crates/vigild/src/check/actor/mod.rs:121-150 | the failures, status and events after one probe, with the extra event of the first run |
| `CheckAlerts.CheckActor.Loop` | crates/vigild/src/check/actor/mod.rs:89-152 | any sequence of probes, with all its events |
| `CheckAlerts.Listeners` | crates/vigild/src/alert/mod.rs:180-183 | the names collected are exactly those of the alerts that list the check |
| `CheckAlerts.AlertSender.HandleCheckEvent` | crates/vigild/src/alert/mod.rs:166-210 | the status is remembered, and on a transition the listening alerts are queued as far as there is room |
| `CheckAlerts.AlertSender.Loop` | crates/vigild/src/overlord/mod.rs:207-209 | any sequence of events of any checks: what is known of each, and the jobs queued as far as there is room |
| `AlertHistory.StateIsLastEvent` | crates/vigild/src/alert/mod.rs:166-176 | what the sender keeps of a check is its last event |
| `AlertHistory.ChecksDoNotMix` | crates/vigild/src/alert/mod.rs:166-176 | the transitions of a check are those of its own events alone |
| `AlertHistory.AlertsAreToldOfChanges` | crates/vigild/src/alert/mod.rs:166-210 | from a new sender on, an alert that lists a check is queued exactly the changes of its status, down and up in turn, and nothing of other checks; what there is no room for is missing at the end |
| `AlertHistory.RoomIsUsedUp` | crates/vigild/src/alert/mod.rs:192-207 | the delivery queue takes all jobs there is room for and never more |
| `AlertHistory.DownExactly` | crates/vigild/src/check/actor/mod.rs:124-143 | a check is down if and only if the current run of failures has reached max(1, threshold), or it started down and has never succeeded |
| `AlertHistory.AlertsAreStatusChanges` | crates/vigild/src/alert/mod.rs:166-176 | over any run with any respawns in which probes left over from before a respawn report nothing new, the fired transitions are the changes of the probed status, down and up in turn |
| `AlertHistory.InStepExactly` | crates/vigild/src/alert/mod.rs:166-176 | that holds throughout a run if and only if no left-over probe reports anything but the last status |
| `AlertHistory.StraggleExactly` | crates/vigild/src/alert/mod.rs:166-176 | per left-over probe |
| `AlertHistory.FirstProbeSettles` | crates/vigild/src/check/actor/mod.rs:144-149 | the first probe of a check settles what is known of it, whatever was reported before |
| `AlertHistory.SettledExactly` | crates/vigild/src/overlord/lifecycle.rs:59-81 | throughout a run the alert state follows the check that is running if and only if every left-over probe reports before that check's first one, or nothing new |
| `AlertHistory.TransitionsAreEarned` | crates/vigild/src/overlord/lifecycle.rs:59-81 | if no respawn finds an event queued that would change what is known, a recovery follows a successful probe and a failure a long enough run of failures |
| `AlertHistory.RespawnKeepsStatusExactly` | crates/vigild/src/overlord/lifecycle.rs:67-80 | a respawned check takes over its predecessor's status if and only if no queued event changes what the alert sender knows |
| `AlertHistory.RespawnRecoversExactly` | crates/vigild/src/overlord/lifecycle.rs:67-80 | after a respawn a failing first probe turns down into up if and only if the new check takes more than one failure to go down, its predecessor was last probed down, and the alert sender has not handled that yet |
| `AlertHistory.UnearnedRecoveryExactly` | crates/vigild/src/check/actor/mod.rs:124-149 | at any moment a failing probe turns down into up if and only if the check counts itself up below its threshold while it was last reported down, and that can only be at its first run |
| `AlertHistory.SpuriousRecovery` | crates/vigild/src/overlord/lifecycle.rs:67-80 | so a recovery can fire although every probe failed |
| `AlertHistory.StragglerSticks` | crates/vigild/src/overlord/lifecycle.rs:59-80 | otherwise an alert can stay down through any number of successful probes |
| `AlertHistory.StragglerCanBeLeft` | crates/vigild/src/overlord/lifecycle.rs:59-80 | the state that starts from is reached by one respawn |
| `AlertHistory.FirstProbeRepeatsDown` | crates/vigild/src/check/actor/mod.rs:137-149 | a probe sends a Down event beyond the transition if and only if it is the first and leaves the check down |
| `Reaper.DecodesExactly` | crates/vigild/src/reaper.rs:136-143 | the raw status decodes to the same exit code or signal if and only if the code is a byte and the signal is in 1..126 |
| `Reaper.RawLayout` | crates/vigild/src/reaper.rs:136-143 | the layout of the raw status: the code times 256, or the signal with the core flag at 128 |
| `Reaper.ReaperTask.RecordReaped` | crates/vigild/src/reaper.rs:133-148 | old records are dropped, the new one is kept with its time, other statuses are ignored |
| `Reaper.ReaperTask.ReapChildren` | crates/vigild/src/reaper.rs:88-106 | one drain records what is collected up to the first empty answer |
| `Reaper.DrainLeaves` | crates/vigild/src/reaper.rs:88-148 | what a drain leaves for each PID: its last collected exit, or else the old record, unless an exit recorded a minute later has dropped it; stopped children change nothing |
| `Reaper.ReaperTask.TakeReaped` | crates/vigild/src/reaper.rs:152-156 | the record is handed out once |
| `Reaper.ReaperTask.Look` | crates/vigild/src/reaper.rs:170-179 | one turn of the lookup loop |
| `ReaperRace.OwnStatus` | crates/vigild/src/reaper.rs:88-183 | in every interleaving in which nothing is left of earlier processes of a PID, an answered waiter has its own process's exit |
| `ReaperRace.LookFindsRecord` | crates/vigild/src/reaper.rs:164-183 | a lookup succeeds once the exit is recorded and while it is kept; a failed one was too early for the record or too late |
| `ReaperRace.LookupEndsInTime` | crates/vigild/src/reaper.rs:170-179 | whatever happens meanwhile, a lookup takes the record if there is one, goes on without one for 200 ms, and gives up from then on |
| `ReaperRace.StaleRecordStays` | crates/vigild/src/reaper.rs:145-148 | a record of any age is still there if nothing else was recorded |
| `ReaperRace.StaleRecordWins` | crates/vigild/src/reaper.rs:152-156 | and it answers the waiter of a later process with its PID, whatever that one's exit |
| `ReaperRace.FreshPidExactly` | crates/vigild/src/reaper.rs:88-183 | a PID can go to an awaited process without any waiter ever being answered wrongly, in every continuation, if and only if nothing is left of an earlier process with it: no unanswered waiter, and no record other than one that goes when the status the reaper is holding is recorded |
| `CommandLine.FindUnquoted` | crates/vigild/src/process_util/parse.rs:46-73 | the first place outside quotes where the needle begins |
| `CommandLine.ShellWords` | crates/vigild/src/process_util/parse.rs:77-110 | the loop computes the split of the text |
| `CommandLine.ParseCommand` | crates/vigild/src/process_util/parse.rs:16-41 | base and default arguments, or the error |
| `CommandRoundTrip.InLockstep` | crates/vigild/src/process_util/parse.rs:46-110 | both scans keep the same account of quotes and escapes |
| `CommandRoundTrip.BaseIsTerminated` | crates/vigild/src/process_util/parse.rs:24-39 | the base before the bracket never ends inside a quote |
| `CommandRoundTrip.RefusedExactly` | crates/vigild/src/process_util/parse.rs:16-41 | exactly when a command is refused, and with which error |
| `CommandRoundTrip.SplitPrinted` | crates/vigild/src/process_util/parse.rs:77-110 | words printed in single quotes are split back into the non-empty ones among them |
| `CommandRoundTrip.PlainCommandReadsBack` | crates/vigild/src/process_util/parse.rs:16-41 | a printed command reads back as its words |
| `CommandRoundTrip.CommandReadsBackExactly` | crates/vigild/src/process_util/parse.rs:16-41 | a printed command with default arguments reads back as base and defaults if and only if the base is not empty |
| `CommandQuoting.SplitsExactly` | crates/vigild/src/process_util/parse.rs:77-110 | a text splits into exactly the words it writes, in single quotes, double quotes, bare, escaped or mixed, with any blanks between them, empty words and a lone backslash at the end left out; a text that writes none is refused |
| `CommandQuoting.WrittenReadsBack` | crates/vigild/src/process_util/parse.rs:77-110 | so words written in any of these ways are split back into what they mean |
| `CommandQuoting.OpensAtFirst` | crates/vigild/src/process_util/parse.rs:46-73 | default arguments open at the first bracket between spaces before which the text is made of whole written words |
| `CommandQuoting.WrittenCommandReadsBack` | crates/vigild/src/process_util/parse.rs:16-41 | a command written in any of these ways, no word starting with a bare bracket, reads back as its words; brackets in quotes are part of words |
| `CommandQuoting.WrittenDefaultsReadBack` | crates/vigild/src/process_util/parse.rs:16-41 | with default arguments in brackets, however written, it reads back as its words and then the default ones |
| `TcpSink.Sink.Loop` | crates/vigil-log-relay/src/tcp_sink.rs:47-136 | the loops compute the run of the step relation, whatever the connection and the sources do |
| `TcpSink.Sink.NextLine` | crates/vigil-log-relay/src/tcp_sink.rs:75-97 | the kept line first, else the next from the channel, or giving up, or the end |
| `TcpSink.Sink.WriteLine` | crates/vigil-log-relay/src/tcp_sink.rs:99-121 | a line is written, or kept in the slot |
| `SinkDelivery.LinesAreConserved` | crates/vigil-log-relay/src/tcp_sink.rs:47-136 | written lines are the first of those sent, in order, with at most one in hand |
| `SinkDelivery.ExitMeansDelivered` | crates/vigil-log-relay/src/tcp_sink.rs:75-97 | when the task returns, every line ever sent has been written once and in order |
| `SinkDelivery.WaitsDouble` | crates/vigil-log-relay/src/tcp_sink.rs:124-133 | waits between failed connects start at the delay and double up to the ceiling |
| `SinkDelivery.ReturnsExactly` | crates/vigil-log-relay/src/tcp_sink.rs:75-97 | the task can return if and only if it is connected with the sources gone and every line written |
| `SinkDelivery.ConnectionsEndExactly` | crates/vigil-log-relay/src/tcp_sink.rs:47-136 | connections made and connections lost to failed writes and idle timeouts balance; without an idle timeout only failed writes end one |
| `SinkDelivery.IdleMeansDelivered` | crates/vigil-log-relay/src/tcp_sink.rs:78-87 | a connection is given up as idle only when every line sent has been written |
| `Durations.ParseDuration` | crates/vigild/src/duration.rs:10-54 | the scanning loop computes the parse |
| `Durations.ParseExact` | crates/vigild/src/duration.rs:10-54 | a text parses to v if and only if it is a non-empty chain of number and unit whose exact sum is v and fits in 64 bits |
| `Durations.ParseIsAdditive` | crates/vigild/src/duration.rs:10-54 | concatenated durations add up, or fail if the sum does not fit |
| `Durations.ParseInvertsPrint` | crates/vigild/src/duration.rs:10-54 | every 64-bit count survives printing in h, m, s and ms |
| `Durations.FaultIsNamed` | crates/vigild/src/duration.rs:10-54 | a text whose first fault after a valid duration is a missing number, a number or sum that does not fit in 64 bits or a missing unit is refused with that error |
| `Durations.RefusedHasFault` | crates/vigild/src/duration.rs:10-54 | and every text that is refused is empty or has such a fault |
| `NoProxy.MatchesExactly` | crates/vigil-types/src/no_proxy/mod.rs:93-124 | comparing shifted addresses is comparing the first bits, and longer prefixes or other families never match (section 3.1 of RFC 4632, section 2.3 of RFC 4291) |
| `NoProxy.ShorterKeepsMatch` | crates/vigil-types/src/no_proxy/mod.rs:93-124 | a shorter prefix keeps every match |
| `NoProxy.CidrExactly` | crates/vigil-types/src/no_proxy/mod.rs:93-96 | an entry is a network if and only if it is an address and a prefix length with the first slash between |
| `NoProxy.NameMatchesExactly` | crates/vigil-types/src/no_proxy/mod.rs:59-63 | the byte test holds if and only if the host is the entry or ends with a dot and the entry |
| `NoProxy.NamesNest` | crates/vigil-types/src/no_proxy/mod.rs:59-63 | matching names is transitive |
| `NoProxy.PortIsStripped` | crates/vigil-types/src/no_proxy/mod.rs:72-88 | a host is recovered from host and port |
| `NoProxy.BracketsAreStripped` | crates/vigil-types/src/no_proxy/mod.rs:73-78 | an IPv6 address is recovered from its brackets |
| `NoProxy.StripPortExactly` | crates/vigil-types/src/no_proxy/mod.rs:72-88 | what is stripped is brackets with what follows, or else one port of digits behind the only colon; every other host stays as it is |
| `NoProxy.StrippedStays` | crates/vigil-types/src/no_proxy/mod.rs:72-88 | what is left of a host without brackets has no port to strip |
| `NoProxy.BypassesExactly` | crates/vigil-types/src/no_proxy/mod.rs:38-65 | a host bypasses the proxy if and only if some entry covers it: a network entry its address, by itself alone, any other entry its name |
| `NoProxy.DotAndCaseIgnored` | crates/vigil-types/src/no_proxy/mod.rs:44-50 | a leading dot of an entry and the case of the host do not matter |
| `NoProxy.StripPortIgnoresCase` | crates/vigil-types/src/no_proxy/mod.rs:72-88 | stripping the port commutes with lower-casing the host |
| `NoProxy.LowerExactly` | crates/vigil-types/src/no_proxy/mod.rs:44-45 | lowering tells hosts apart if and only if they differ in more than the case of ASCII letters, and leaves no capitals |

## Left out

- The HTTP interface, the command line tool, TLS, identities, metrics text and printing are not modelled.
- Spawning, credentials, signals and probes are outcomes that may go either way; time is the order of timer firings, except in the reaper, where it is a clock in milliseconds.
- Reading and writing YAML and JSON: the layer model starts from parsed layers, and comparing configurations at a reload is not modelled.
- The backoff factor is a real number with the product rounded down; the rounding of 64-bit floats and the saturation of 32-bit and 64-bit counters are not modelled, except for the 64-bit limit in durations.
- Supervision.RunKeepsWellFormed: does not model the shutdown of all services after a daemon shutdown event; the run ends there.
- RequiresCascade.StepKeepsCascading: does not model new starts, restarts or reloads during a cascade, nor processes that exit by themselves other than the one that sets it off.
- Overlord.Supervisor.ReloadLayers: leaves out checks, alerts and the shutdown message to removed services; their remaining events are in the concurrent system.
- Overlord.Supervisor.SendCommand: leaves out the result an actor replies with, which no handler of the supervisor acts on.
- A changed configuration does not reach a running actor in the program either; the model gives an actor its configuration once.
- The commands of the daemon's users are modelled as rounds of Start, Stop and Restart; waiting for their results and change records are left out, and so is the change of the plan when a service is started for autostart.
- The actions that services take on a failing check are counted as events but not carried out.
- LogStore.Store.Push: is one atomic step; two first pushes of one service racing for its buffer are not modelled.
- LogHistory.TailIsExact: is about timestamps that increase in the order of the pushes; with equal or reordered timestamps only `LogStore.Store.Tail` holds.
- CheckAlerts.AlertSender.HandleCheckEvent: leaves out the payload, delivery and retries, and the replacement of a delivery queue at a reload.
- AlertHistory.AlertsAreStatusChanges: takes a delivered transition as fired; a full delivery queue, which drops the job of a fired transition, is in `CheckAlerts.AlertSender.HandleCheckEvent` only.
- CommandLine.ParseCommand: is on characters where the program is on bytes; all special symbols are ASCII.
- SinkDelivery.ExitMeansDelivered: a line counts as written when its write succeeds; what a failed write has already put on the wire is not modelled.
- ReaperRace.OwnStatus: takes the direct wait of a process to be answered by the kernel for that very process.
- NoProxy.BypassesExactly: takes reading addresses and numbers from text as given functions; splitting the comma-separated list is left out.
- Log following, log lines of services themselves, other log sources and sinks, the Kubernetes source and SSE are left out.
