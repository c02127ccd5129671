# Anito: verified model

Anito is a process supervisor that keeps a stable proxy port in front of processes while they are
replaced. This project models its service layer with the three components it drives, and four smaller
protocols, and proves what they are for: that the stable port never points half way between two
processes, that a failed deployment leaves the old release serving, that ports never change, that every
start-up result is accounted for, that the issue store loses nothing, and that a setup is applied as a
whole or not at all.

`dafny verify dfyconfig.toml` checks all of it.

## How it is built

Each component has three layers.

* A specification on values, one function per region the source runs under a lock: `RegistrySpec`,
  `ProcessSpec`, `ProxySpec`, `ServiceSpec`, `IssueSpec`, `RestoreSpec`, `SetupSpec`. What the environment
  decides - bind, health and ownership results, new PIDs and ephemeral ports, when a process exits, clock
  readings, the order in which a Go map is walked - is an argument, so every theorem is about all of its
  choices. Go pointers that are shared (`runningProc`, `serviceRoute`, `routingGeneration`) are indices into
  arenas, so aliasing is part of the model.
* Classes that update their fields in place, with the loops of the source: `Registry.Store`,
  `ProcessManager.Supervisor`, `ProxyManager.Manager`, `Service.Daemon`, `RestoreAll.Reconciler`,
  `RestoreAll.StartupTracker`, `Issues.Store`, `SetupApply.Workspace`, `Debounce.Watcher`. Each method is
  proved to be the transition of the specification; `DaemonRuns` lifts this to whole runs of the daemon, and
  `Issues.PerformAll` to whole runs of the issue store.
* Theorems about the specification: `ProxyProofs` and `ProxyRuns`, `ProcessProofs` and `ReplaceProcess`,
  `RegistryProofs`, then `HotSwap` (one replacement, every failure), `Coupling` (the invariant tying the
  three states together), `Startup`, `Operations` (every operation keeps it), `Routes` (traffic, over whole
  runs), `StablePorts`, `RequestedPorts`, `ListenerPorts`, `StrayListeners` and `Histories` (ports, listeners
  and start history over whole runs), `Endings` (crashes, stops, signals and drains), `Deployments` and
  `Directories` (what a caller can rely on), `IssueProofs` and `IssueRuns`, `RestoreProofs` and
  `RestoreOutcomes`, `SetupProofs` and `SetupOutcomes`.

## Where the code is narrower than its documentation

Each of these is a lemma: an exact condition, and where a state is needed to show it, a concrete one.

* After a failed replacement the old route is restored, except if the candidate had been swapped in, exited
  before its activation, and the listeners could then not be registered as before
  (`Coupling.FailureRoutes`, `Counterexamples.RouteIsLost`).
* A service without stable ports - one that was reserved with none - is given listeners by a reservation or a
  failed deployment, which its record does not list (`StrayListeners.ApplyTidy`,
  `StrayListeners.FailedDeployOfPortless`); its restart depends on one of them
  (`Deployments.RestartOfPortless`), and a refused allocation closes them under a running process
  (`Operations.ReserveKeeps`, `Routes.DeployRoutes`).
* A failed restart of a service without a process points its ports at the last process's ports
  (`Deployments.FailedRestartOfStopped`, `Counterexamples.StoppedServiceIsMisrouted`).
* A failed rollback leaves the rolled-back configuration in the registry
  (`Deployments.FailedRollbackStaysStaged`).
* Deploying or rolling back to a directory does not stop a running process
  (`Deployments.StaticDeployBreaks`, `Deployments.StaticRollbackBreaks`), and that is exactly when the two break
  the invariant (`Deployments.DeployStaticKeepsExactly`, `Deployments.RollbackKeepsExactly`); a static
  deployment under a new name can leave a failed record behind (`Deployments.FailedStaticDeployOfNewName`).
* `RegisterPortsWithBind` closes the listeners it has just created when a new port cannot be bound, but not
  when an existing one cannot be re-bound (`ProxyProofs.RegisterConserves`), and no later call closes those
  (`ProxyRuns.RunsConserve`); the re-binds before a failure stay (`ProxyProofs.FailedRegisterExact`).
* `Remove` does not validate its argument; a name with a colon can take another service's listeners
  (`Operations.RemoveKeeps`, `ProxyProofs.RemovePortsReaches`, `Names.PrefixMatchCanCollide`).
* The exited flag that `Restore` checks protects only a handle taken from the entry the process was started
  with (`ProcessProofs.RestoreRevivesExactly`, `ProcessProofs.RestoreCanRevive`); it is the one way in which a
  tracked process can have been seen to exit (`ProcessProofs.RunIsLiveExactly`).
* A restore worker that finds the context cancelled reports a failure without telling the registry
  (`RestoreProofs.AtTheEnd`).
* Undoing a setup restores contents, but not the mode of a file that was replaced by one with another mode
  (`SetupProofs.FailedCommitModes`), and releases services that existed before if the reserver cannot say
  which do (`SetupProofs.ReleaseUndoes`).
* Generated source patches are indented, so applying one again indents it once more
  (`ManagedBlock.ReplaceTwice`).
* The primary port depends on map order if a port name is empty (`PrimaryPort.PickDependsOnOrder`).

## Model

| member | source | states |
|---|---|---|
| `HotSwap.ReplaceProcesses` | internal/service/service.go:301-371 | the course Deploy and Restart share: it succeeds exactly if the candidate starts, is healthy, owns its ports, is swapped in and lives until it is activated; then it alone is tracked and recorded with its PID, ports, start and deploy time, the old process is marked and scheduled, and nobody is signalled; otherwise the old process is tracked again with its PID and ports, a candidate that is alive then, and nobody else, is signalled and marked with the code of the step that failed, and the record is the old one but for the last start and its history, which gains the candidate's start exactly if it was spawned and its exit exactly if it came at a moment that was reached; no other service is touched |
| `HotSwap.LaunchKeeps` | internal/service/service.go:304-321 | start, health check and ownership check: either the candidate is up and tracked, or it has been stopped or has exited; its start and exit are recorded exactly if they happened, and routes are untouched in both cases |
| `HotSwap.TakeOverKeeps` | internal/service/service.go:326-344 | bind, swap, activate: the candidate goes live exactly if the new routes were published and it did not exit before activation |
| `HotSwap.UndoKeeps` | internal/service/service.go:388-398 | what restoring a failed replacement does to the routes: nothing but the old upstreams, and those exactly if the listeners could be registered again and the old upstreams' ports have listeners |
| `Coupling.FailureRoutes` | internal/service/service.go:373-406 | after a failed replacement of a running, served process every generation in between was wholly old or wholly new, and the old route is back if and only if it was not lost to a swap, an exit before activation and a refused re-registration together |
| `Coupling.FailureServes` | internal/service/service.go:373-406 | and whatever was served before: the old process is wholly served afterwards if and only if the undo points its ports at it, or it was served before and no swap took a port of it |
| `Coupling.ReplaceKeepsWorld` | internal/service/service.go:301-406 | one replacement, any outcome: process, record and listeners of the service agree afterwards and every other service is as before |
| `Routes.ReplaceRoutes` | internal/service/service.go:301-406 | a running process being replaced: traffic goes wholly to the old or wholly to the new process at every point, and afterwards to the tracked one exactly if the replacement succeeds, or its undo serves the old process, or that was routed before and its route was not lost; a lost route is neither |
| `Routes.DeployRoutes` | internal/service/service.go:199-406 | over a whole Deploy of a running service: if it was routed, traffic goes wholly to the old or wholly to the new process at every point; afterwards it goes to the tracked one exactly if Deploy succeeds, or its undo serves the old process, or that was routed and its route not lost - in the replacement, or to a refused allocation for a service without stable ports |
| `Routes.RestartRoutes` | internal/service/service.go:487-567 | over a whole Restart, also of a service without stable ports, whose candidate gets the port name "default": traffic goes wholly to the old or wholly to the new process, and afterwards to the tracked one exactly if Restart succeeds, or its undo serves the old process, or that was routed and its route not lost |
| `Routes.RollbackRoutes` | internal/service/service.go:663-726 | over a whole Rollback of a running service every generation goes wholly to the old or wholly to the new process, a process runs afterwards, and it is routed exactly if Rollback succeeds, or its undo serves the old process, or that was routed and its route not lost |
| `Routes.StaticRoutes` | internal/service/service.go:283-299 | a static Deploy that fails over a running process: the process stays, routed exactly if the undo of the failed swap serves it, or it was routed before and ports were not refused |
| `Routes.RunsStayCoupled` | internal/service/service.go:199-1030 | over every run of all operations, exits and drains that RunsSettleExactly characterises: a tracked process is the one the registry calls running, with its PID and ports, its listeners are held, and its named ports lead to it if and only if its route was not lost, or was renewed since |
| `Routes.ApplyRoutes` | internal/service/service.go:199-1030 | one operation, any outcome: a tracked process of its service is routed afterwards if and only if the operation renews the route, or it was routed before and the operation is not one that loses it; whatever is newly tracked is routed |
| `Routes.StartedIsOk` | internal/service/service.go:150-163 | a daemon that has just started satisfies the invariant, whatever services, ports and statuses its records hold, if each is filed under its colon-free name and has a bind address |
| `Operations.ApplyKeeps` | internal/service/service.go:199-1030 | every operation, any outcome, keeps the coupling invariant and leaves records, processes, listeners and routes of all other services alone; which calls do not is ApplyKeepsExactly |
| `Operations.DeployKeeps` | internal/service/service.go:199-371 | Deploy keeps the coupling invariant whichever of its steps fails, and touches no other service |
| `Operations.DeployStaticKeeps` | internal/service/service.go:283-299 | deploying a directory keeps the invariant and the process table, whichever registration fails, over a service without a process, and also over one with if it fails |
| `Operations.RestartKeeps` | internal/service/service.go:487-567 | Restart keeps the invariant whichever of its steps fails, with or without stable ports; after a successful one the new process is routed |
| `Operations.RollbackKeeps` | internal/service/service.go:663-726 | Rollback keeps the invariant even when it fails with the old configuration already staged, and is routed if it succeeds; to a directory it is taken over a service without a process, which RollbackKeepsExactly shows to be the exact condition |
| `Operations.StopKeeps` | internal/service/service.go:456-474 | Stop keeps the invariant, also when the process does not end in time; what it does is Endings.StopExact |
| `Operations.RemoveKeeps` | internal/service/service.go:746-766 | Remove keeps the invariant and takes nothing from other services, if and only if its argument has no colon or matches no listener |
| `Operations.ReserveKeeps` | internal/service/service.go:1259-1340 | reserving ports, also none at all, keeps the invariant; the service stays routed exactly unless the allocation is refused while a process without stable ports runs, whose listener that closes |
| `Operations.ArchiveKeeps` | internal/service/archive.go:10-43 | archiving and restoring a record that is not running keep the invariant |
| `Operations.PruneKeeps` | internal/service/archive.go:47-64 | pruning an archived record keeps the invariant and takes nothing from other services |
| `Operations.ExitKeeps` | internal/process/process.go:189-231 | an exit of any process at any time keeps it, affects at most the service it was tracked for, and neither gives nor takes a route if that still has a process; what a crash does is Endings.CrashExact |
| `Operations.RestoreOneKeeps` | internal/service/restore.go:221-306 | bringing a service back after a start keeps it; the service is tracked and routed exactly if the outcome is "running" |
| `Operations.BindKeeps` | internal/service/restore.go:109-135 | the bind pass after a start keeps the invariant: all ports of the service are listened on, or it is called failed |
| `Directories.BindExact` | internal/service/restore.go:109-135 | one service in the bind pass: it is bound exactly if no port of it is refused that is not listened on as recorded already; then each port has its listener and the record is unchanged, else the service is called failed and no other is touched |
| `Operations.DrainKeeps` | internal/service/service.go:352-362 | when a drain window ends, the process that is signalled has been marked before; that it is signalled is Endings.DrainedIsSignalled |
| `Endings.CrashExact` | internal/service/service.go:966-1030 | a process that exits unmarked: all listeners of its service answer "unavailable", the record says failed without a PID and its history has the exit; the policy decides whether the crash counts, with "" as "on-watch", which restarts only watched services; one of the first five is counted in the record, at five the service is given up, and nothing else is counted |
| `Endings.RunsCount` | internal/service/service.go:997-1030 | over every run, how many crashes a service has to its account: one more for each that is followed by a restart, none again once it comes up, and never more than five |
| `Endings.StopExact` | internal/service/service.go:456-474 | the process that was tracked, and no other, is untracked, marked with code 0 and signalled; the record says stopped if and only if there was one and it ended in time, and is otherwise unchanged; every listener answers "unavailable" in each case and stays open |
| `Endings.RemoveExact` | internal/service/service.go:746-766 | the process ends as with Stop; the record goes without a tombstone; for a name without a colon its entries and route go, exactly its listeners are closed, and all others stay as they were |
| `Endings.ArchiveExact` | internal/service/archive.go:10-43 | archiving and bringing back succeed exactly in their states, change only status, PID and the archive fields, and touch neither listeners nor processes |
| `Endings.PruneExact` | internal/service/archive.go:47-64 | of an archived service, and no other, record and listeners go; the tombstone says when it was archived and pruned and on which ports it was |
| `Endings.ApplyBooks` | internal/service/service.go:199-1030 | one operation, any outcome: exactly who is signalled, who is scheduled for a drain, and whose crash count changes or starts again |
| `Endings.RunsSignal` | internal/service/service.go:345-362 | over every run: signals are those of the operations in order, none is withdrawn, and the scheduled processes are exactly those whose drain is pending and those that were drained, each once |
| `Endings.DrainedIsSignalled` | internal/service/service.go:352-362 | a replaced process is signalled once its drain window has ended |
| `Deployments.FailedDeployRestores` | internal/service/service.go:373-406 | a failed Deploy of a registered service: the old record except the last start and the candidate's start and exit in its history, exactly as they happened; the old process tracked again with PID and ports, nothing scheduled to be drained, and nobody signalled but a candidate that was alive |
| `Deployments.FailedDeployRoutes` | internal/service/service.go:388-398 | after a failed Deploy of a running, served service its ports have listeners and lead to the old process, if and only if the failure is not one that loses the route; every generation on the way was whole |
| `Deployments.FailedDeployOfNewName` | internal/service/service.go:401-405 | a failed Deploy under a new name leaves no record, process, route or listener |
| `Deployments.DeploySucceeds` | internal/service/service.go:301-371 | a Deploy that goes through: candidate tracked, active, registered with the requested settings on unchanged ports, its start and the deploy time recorded, crash state reset, and wholly routed; old process marked, scheduled, not yet signalled; previous configuration kept for a rollback |
| `RequestedPorts.DeployGives` | internal/service/service.go:227-232 | a Deploy that goes through for a name without ports: the record has exactly the port names asked for, or "default" alone if none are named; each has a listener on its port, which is the number asked for if that is set, unreserved, unused, bindable and not given to an earlier name, and else the lowest free one of the range |
| `RequestedPorts.DeployStaticGives` | internal/service/service.go:227-232 | the same for a directory |
| `RequestedPorts.AllocationExact` | internal/service/service.go:1318-1365 | a service without ports is given them name by name, each the number asked for if it can be had and else the lowest free one; the allocation is refused exactly if some name in turn can have none, for the reason that holds there |
| `RequestedPorts.ReserveExact` | internal/service/service.go:1287-1311 | reserving for a new name: a stopped binary with default settings on the ports given as above, each with a listener; or, refused, no record and no listener; an invalid name changes nothing |
| `RequestedPorts.ReserveAgain` | internal/service/service.go:1318-1330 | reserving for a service that has ports gives it those, and its listeners again if none is refused |
| `Deployments.RestartKeepsConfig` | internal/service/service.go:487-567 | Restart changes nothing that a snapshot captures, whether it succeeds or not |
| `Directories.RestartRuns` | internal/service/service.go:487-567 | a restart that goes through: the candidate is tracked, active and recorded with PID, ports and start, crash state reset, deploy time kept |
| `Directories.RestartOfOthers` | internal/service/service.go:476-500 | an invalid or unknown name is refused and a directory restarts without effect, as a success |
| `Deployments.RollbackRestores` | internal/service/service.go:663-726 | a successful Rollback puts the previous configuration in force on the same ports and keeps what it replaced |
| `Directories.RollbackRuns` | internal/service/service.go:663-726 | what then runs: a binary as a new tracked, active process with PID, ports and start on record and crash state reset, a directory served on the default port with no process touched; the time of the rollback is recorded as the last deploy time |
| `Deployments.RollbackTwiceRestores` | internal/service/service.go:663-726 | two successful Rollbacks restore every field a snapshot captures, and the previous deployment itself if and only if the snapshot was current |
| `Deployments.DeployThenRollback` | internal/service/service.go:663-726 | Deploy, then Rollback: the configuration from before the Deploy |
| `Deployments.FailedRollbackStaysStaged` | internal/service/service.go:698-720 | a Rollback that fails after staging leaves the rolled-back configuration in the registry, with a snapshot to return from it |
| `Deployments.StaticRollbackBreaks` | internal/service/service.go:707-717 | rolling back to a directory over a running process leaves it tracked under its PID, while the registry says running with PID 0 |
| `Deployments.RollbackKeepsExactly` | internal/service/service.go:663-726 | Rollback, any outcome, keeps the coupling invariant if and only if it is not one to a directory over a running process |
| `Deployments.StaticDeploySucceeds` | internal/service/service.go:283-299 | a deployed directory is served on the default port; no process is started or stopped |
| `Directories.StaticDeployExact` | internal/service/service.go:283-299 | the whole state after a directory is deployed: served on the default port, the record with the requested settings and address, called running without a PID, deploy time set, running state otherwise kept, the old configuration kept for a rollback; processes, drains, crash counts and other records unchanged |
| `Directories.FailedStaticDeployRestores` | internal/service/service.go:569-605 | a static Deploy that fails over a service puts its record back as it was - except, exactly, if its listeners were refused and the record calls a binary running that is not tracked: then that is called failed and taken down |
| `Directories.FailedDeployServesFiles` | internal/service/service.go:388-398 | a binary deployed over a directory that does not come up: the directory is served again if its listeners can be had |
| `Directories.UndoServesFiles` | internal/service/service.go:388-398 | the undo of a replacement re-points a directory exactly if its listeners could be registered again and it has a default one, and else leaves the routes at that registration |
| `Deployments.StaticDeployBreaks` | internal/service/service.go:283-299 | deploying a directory over a running process leaves that process tracked but unregistered |
| `Deployments.DeployStaticKeepsExactly` | internal/service/service.go:283-299 | deploying a directory keeps the coupling invariant if and only if it is not one that succeeds over a running process; one that fails there leaves process, record and listeners agreeing |
| `Deployments.ApplyKeepsExactly` | internal/service/service.go:199-1030 | as long as the environment does its part, an operation keeps the invariant and leaves other services alone, if and only if it is not a Remove that matches other listeners, nor a directory deployed or rolled back to over a running process |
| `Deployments.RunsSettleExactly` | internal/service/service.go:199-1030 | the runs in which every operation does so are exactly the runs without such an operation |
| `Deployments.FailedStaticDeployOfNewName` | internal/service/service.go:283-291 | a failed static Deploy under a new name removes its record, if and only if it was not the second listener registration that failed; then the record stays, marked failed, with its ports |
| `Deployments.FailedRestartOfIdle` | internal/service/service.go:373-400 | what the ports of a service without a process answer after a failed Restart: as before, then the candidate's ports if it was swapped in, then the ports of the last process if they have listeners and these could be registered again |
| `Deployments.FailedRestartOfStopped` | internal/service/service.go:373-400 | a stopped service, whose listeners answered "unavailable", answers as before after a failed Restart, if and only if the candidate was not swapped in and no ports of an earlier process were put back |
| `Deployments.RestartOfPortless` | internal/process/process.go:599-624 | the candidate of a service without stable ports gets the port "default": its restart fails at the swap exactly if there is no listener of that name, and succeeds exactly if there is one and the candidate is launched and lives |
| `StrayListeners.FailedDeployOfPortless` | internal/service/service.go:1318-1340 | exactly which listeners a service without stable ports has after a failed Deploy: those it had and those of the ports allocated, or none if the allocation was refused |
| `Counterexamples.RouteIsLost` | internal/service/service.go:527-540 | a concrete Restart that fails, keeps the old process, and leaves the port pointing at the dead candidate |
| `Counterexamples.StoppedServiceIsMisrouted` | internal/service/service.go:394-398 | a concrete failed Restart of a stopped service after which its port points at a process that ended long ago |
| `Startup.RestoreOneEnds` | internal/service/restore.go:221-306 | restoreOne ends in each of its outcomes exactly under the stated conditions - running: binary present, spawned, not cancelled, healthy, swapped, and alive at all three looks - and leaves a tracked, active, registered process on swapped routes, or no process, the status of the outcome with PID 0, and one of four proxy states; the candidate's start and exit are recorded exactly if they happened |
| `Startup.Revives` | internal/service/restore.go:283-305 | between swap and activation: the service runs exactly if the candidate is up and exits neither before its PID is read nor before it is activated; otherwise it is called failed and its ports answer "unavailable" |
| `Service.Daemon.Deploy` | internal/service/service.go:199-371 | the method, branch by branch, is the transition the theorems are about, for binaries and for directories; what that makes of the request is RequestedPorts.DeployGives, Deployments.DeploySucceeds and Directories.StaticDeployExact |
| `Service.Daemon.DeployBinary` | internal/service/service.go:301-371 | Deploy from Detach on is the transition Replace with registered listeners |
| `Service.Daemon.RestartLocked` | internal/service/service.go:487-567 | restartLocked is the same transition without listeners |
| `Service.Daemon.LaunchCandidate` | internal/service/service.go:304-321 | start, health check, ownership check, and which exit code a stopped candidate gets |
| `Service.Daemon.TakeOver` | internal/service/service.go:326-344 | register, swap, PID check, activate, in this order |
| `Service.Daemon.Commit` | internal/service/service.go:345-362 | the state after activation, and the mark on the old process |
| `Service.Daemon.RestoreFailedDeploy` | internal/service/service.go:373-406 | after a failure: the old process is put back first, the record next, the old upstreams last; a new name is taken down altogether |
| `Service.Daemon.RestorePrevious` | internal/service/service.go:569-605 | the undo of a static Deploy: the previous record returns, but marked failed and unrouted if it claims a running process that is not tracked; a new name is marked failed |
| `Service.Daemon.Restart` | internal/service/service.go:476-485 | refuses an invalid name without any effect, else is the transition RestartLocked |
| `Service.Daemon.Rollback` | internal/service/service.go:663-726 | the method is the transition of that name, with the staged record left behind on failure |
| `Service.Daemon.Stop` | internal/service/service.go:456-474 | the record becomes stopped only if the process ended in time, the routes are taken off in either case, an unknown name changes nothing; the transition is pinned by Endings.StopExact |
| `Service.Daemon.Remove` | internal/service/service.go:746-766 | process untracked and marked, listeners closed and record gone, for any name and whether or not it is registered |
| `Service.Daemon.ReservePorts` | internal/service/service.go:1287-1311 | ports for a name; a record is added only if there was none, an existing one is left as it is |
| `Service.Daemon.AllocatePorts` | internal/service/service.go:1318-1340 | a service with ports keeps them; otherwise one port per name, each avoiding those given out before it, and a failure removes the listeners opened so far |
| `Service.Daemon.AllocateOnePort` | internal/service/service.go:1343-1365 | a reserved preference is refused, a free one is taken, else the scan of the range takes the first port that is unused and can be bound |
| `Service.Daemon.Archive` | internal/service/archive.go:10-27 | refused without effect for a missing, running or archived service; ports survive in the archived record |
| `Service.Daemon.RestoreArchived` | internal/service/archive.go:31-43 | an archived record is stopped again, whatever it was before, with its ports; refused without effect unless archived |
| `Service.Daemon.Prune` | internal/service/archive.go:47-64 | refused without effect unless archived; else listeners and record go and a tombstone keeps the ports |
| `Service.Daemon.HandleCrash` | internal/service/service.go:966-1030 | routes are taken off unless the service was stopped; then the restart policy decides; an attempt is counted, or after five counted ones the service is given up and marked failed; the transition is pinned by Endings.CrashExact |
| `Service.Daemon.Reap` | internal/process/process.go:189-219 | an exit seen by the watcher: the verdict is the specification's, no name gets another process by it, and its start is completed in the history |
| `Service.Daemon.ProcessExits` | internal/process/process.go:189-231 | the watcher of a process from Wait to OnCrash: a crash verdict and nothing else reaches the crash handler, whose whole effect is Endings.CrashExact |
| `Service.Daemon.BindListeners` | internal/service/restore.go:109-135 | one service in the bind pass: nothing without ports, else its listeners, or the status failed |
| `Service.Daemon.RestoreOne` | internal/service/restore.go:221-306 | bringing one service back, with each failure branch and the two looks at the candidate, is the transition the start-up theorems are about |
| `DaemonRuns.Perform` | internal/service/service.go:199-1030 | each call on the daemon object, with any outcome, is one step of the specification |
| `DaemonRuns.PerformAll` | internal/service/service.go:199-1030 | any sequence of calls, exits and drains is a run of the specification, so that all of this holds of it; in particular one without the calls of RunsSettleExactly keeps the coupling invariant and the distinctness of ports |
| `StablePorts.PortsNeverChange` | internal/service/service.go:1259-1365 | over every run: no port is zero, reserved or given out twice, archived services included, and a service that has ports keeps them until it is removed or pruned |
| `StablePorts.ApplyPorts` | internal/service/service.go:1318-1340 | one operation: a service is gone exactly after Remove, or Prune if archived; ports of one that stays are unchanged, or fresh if it had none; those of one that appears are fresh |
| `StablePorts.AllocateOneExact` | internal/service/service.go:1343-1365 | a port under a name without a listener is the preferred one if set and free, else the lowest free one of 8100-8200; refused exactly for 7700 and 7701 or an exhausted range |
| `StablePorts.AllocatedPorts` | internal/service/service.go:1318-1340 | a registered service gets the ports it has; a new one distinct ports that are unused, unreserved and preferred or from the range |
| `StablePorts.FirstFreeExact` | internal/service/service.go:1355-1363 | the scan finds the lowest free port, or there is none |
| `ListenerPorts.RunsStayListed` | internal/service/service.go:1259-1365 | over every run a listener of a registered service under the name of a stable port is on that port, whatever was allocated, re-bound, undone or rolled back; what other listeners there are is RunsStayTidy |
| `ListenerPorts.ApplyListed` | internal/proxy/proxy.go:103-190 | one operation, any outcome, any service: its listeners under the names of stable ports stay on those ports |
| `StrayListeners.RunsStayTidy` | internal/service/service.go:1259-1365 | over every run a service has listeners for its stable ports only, and none if it is not registered, if and only if it has not been left others, or has been rid of them since |
| `StrayListeners.ApplyTidy` | internal/service/service.go:1318-1340 | one operation, any outcome: what leaves a service other listeners is exactly a Deploy that fails after its ports were allocated, or a reservation that is granted ports, over a record without stable ports; and exactly when an operation rids it of them |
| `Histories.HistoriesAreWindows` | internal/registry/registry.go:540-612 | over every run of all operations the stored history of a service is the last ten entries of the log of exactly the starts and exits of its processes since it was registered, however often configurations were staged, undone or rolled back |
| `Histories.HistoryOfRun` | internal/registry/registry.go:540-612 | for a service neither removed nor pruned in the run: the last ten entries of its log, continued by exactly the starts and exits of the run |
| `Histories.ApplyRecords` | internal/process/process.go:189-231 | one operation, any outcome, any service: its history gains exactly the starts and exits of its own processes that happen in it - a start if the candidate is spawned, an exit if a watcher observes it, with the start time and the code the watcher settles on - and nothing of another's |
| `ProcessProofs.RunKeepsSound` | internal/process/process.go:135-386 | over every interleaving of all operations with all watchers: what is tracked was started under its name, each exit has one verdict, and OnCrash was called once per crash verdict and for nothing else |
| `ProcessProofs.RunIsLiveExactly` | internal/process/process.go:346-386 | nothing tracked has been seen to exit, at any point of a run, if and only if no step of it is a restore that revives |
| `ProcessProofs.LiveExactly` | internal/process/process.go:361-384 | the same for one step |
| `ProcessProofs.ObserveExact` | internal/process/process.go:189-231 | an exit is a drain exactly if marked, else a candidate exit or a crash; it frees its own table entry only and uses up its mark - also after a restore that revived something |
| `ProcessProofs.ExitRecordedOnce` | internal/process/process.go:207-211 | over every interleaving a recorded exit never changes: one verdict per exit |
| `ProcessProofs.StoppedNeverCrashes` | internal/process/process.go:250-285 | Stop and StopFailed never make a crash, in any interleaving: a process not yet seen to exit is recorded with 0 or 1 and never reported, one re-attached after its exit keeps its record |
| `ProcessProofs.StopFailedRecordsOne` | internal/process/process.go:270-285 | with code 1 if it exits unmarked by anything else |
| `ProcessProofs.StoppedIsSignalled` | internal/process/process.go:250-285 | over every interleaving: whatever process Stop or StopFailed finds under its name has a PID and is among those signalled |
| `ProcessProofs.RunSignals` | internal/process/process.go:250-285 | over every interleaving the signals are exactly those of the stops of tracked processes and of the drains, in order; none is lost or added |
| `ProcessProofs.MarkRecords` | internal/process/process.go:100-120 | the code an intended exit is recorded with: 0 for a drain or a stop, 1 for a failed candidate |
| `ProcessProofs.IntendedForever` | internal/process/process.go:100-120 | over every interleaving an exit that is intended stays so: marked until seen, then recorded as a drain with 0 or 1 |
| `ProcessProofs.RestoreNeverRevives` | internal/process/process.go:322-386 | Detach of an original entry, any interleaving at all, Restore: re-attached only if the exit has not been observed |
| `ProcessProofs.RestoreRevivesExactly` | internal/process/process.go:361-384 | for any handle: the locked part re-attaches a process already seen to exit, if and only if the handle's flag was never set, done is still open and the name is free |
| `ProcessProofs.RestoreCanRevive` | internal/process/process.go:379-384 | a handle detached a second time can be re-attached after its exit was reported: the concrete run |
| `ProcessProofs.RestoredStaysActive` | internal/process/process.go:379-386 | a restored process is active again |
| `ProcessProofs.ActiveExitIsCrash` | internal/process/process.go:189-231 | an active process that nobody stops or drains ends in a crash report, in any interleaving, and has then left the table unless a restore revives |
| `ProcessManager.Supervisor.Start` | internal/process/process.go:135-186 | table entry and watcher of a new process, unless the name is taken |
| `ProcessManager.Supervisor.Activate` | internal/process/process.go:238-247 | the candidate flag of the tracked process is cleared |
| `ProcessManager.Supervisor.Stop` | internal/process/process.go:250-285 | untrack, mark with the exit code to record, signal; what that means over runs is ProcessProofs.StoppedIsSignalled and ProcessProofs.MarkRecords |
| `ProcessManager.Supervisor.Detach` | internal/process/process.go:322-342 | untrack without a signal |
| `ProcessManager.Supervisor.Restore` | internal/process/process.go:346-386 | the checks of Restore in their order, and the new table entry |
| `ProcessManager.Supervisor.MarkDraining` | internal/process/process.go:100-120 | the mark on an intended exit |
| `ProcessManager.Supervisor.WatcherObserves` | internal/process/process.go:192-204 | the locked region of the watcher and the verdict |
| `ProcessTree.ProcessTreePids` | internal/process/process.go:475-494 | the queue loop ends on every finite table and returns exactly the reachable PIDs, or fails exactly if a query in the tree fails |
| `ProcessTree.VerifyPortsOwned` | internal/process/process.go:445-473 | passes exactly if the root is a PID, its whole tree can be queried and every port has a listener in it |
| `ProxyProofs.RegisterKeeps` | internal/proxy/proxy.go:103-190 | registering keeps the table sound; at most one generation is published, in which new ports answer "starting" and the others as before; none if it fails |
| `ProxyProofs.RegisterOutcome` | internal/proxy/proxy.go:103-190 | when it succeeds, and that afterwards every requested port is registered |
| `ProxyProofs.RegisterConserves` | internal/proxy/proxy.go:124-158 | no listener is lost track of, if and only if the call does not stop at a refused re-bind behind a new port |
| `ProxyProofs.RegisterMoves` | internal/proxy/proxy.go:124-158 | the existing entries of the ports before the first refused listen call end up as requested, those that were so already and all others are untouched |
| `ProxyProofs.FailedRegisterExact` | internal/proxy/proxy.go:124-158 | a failing call leaves the entries as they were, if and only if no port before the refused one had to move |
| `ProxyProofs.RegisterGrows` | internal/proxy/proxy.go:103-190 | no entry is ever taken away |
| `ProxyProofs.RegisterIsolated` | internal/proxy/proxy.go:103-190 | other services keep entries, route and handlers |
| `ProxyProofs.SwapPortsExact` | internal/proxy/proxy.go:308-347 | one publication that changes exactly the named ports, or none |
| `ProxyProofs.SwapServes` | internal/proxy/proxy.go:192-208 | what a request to each entry is answered with after a swap |
| `ProxyProofs.SwapAfterRegister` | internal/proxy/proxy.go:308-347 | right after registering the same names it can only fail if there are none and no route |
| `ProxyProofs.SwapStaticKeeps` | internal/proxy/proxy.go:350-363 | one publication that changes the default port only |
| `ProxyProofs.UnswapPortsExact` | internal/proxy/proxy.go:371-386 | all ports of the service answer "unavailable" |
| `ProxyProofs.RemovePortsExact` | internal/proxy/proxy.go:394-408 | exactly the listeners of a colon-free service are closed and its route forgotten |
| `ProxyProofs.RemovePortsReaches` | internal/proxy/proxy.go:394-408 | for any name at all, which entries the prefix scan takes |
| `ProxyRuns.RunsConserve` | internal/proxy/proxy.go:103-408 | over every run: entries hold their own open listeners, published generations are frozen, services not named are untouched, and open listeners are exactly those of the entries if and only if they were at the start and no call leaked |
| `Names.PrefixMatchExact` | internal/proxy/proxy.go:76-83 | which keys of a service the scan for a name matches, in both directions |
| `Names.PrefixMatchIsolated` | internal/proxy/proxy.go:76-83 | between colon-free names only its own |
| `Names.PrefixMatchCanCollide` | internal/service/service.go:746-766 | a name with a colon, which Remove does not refuse, reaches another service |
| `Names.EntryKeyInjective` | internal/proxy/proxy.go:76-78 | keys of colon-free services determine service and port name |
| `Names.ValidNamesAreColonFree` | internal/service/service.go:67-95 | accepted service names have no colon |
| `Names.ValidNamesExact` | internal/service/service.go:67-91 | accepted are exactly the names of one to 64 characters that start with an ASCII letter or digit, go on with these or ".", "_", "-", and have no two dots in a row |
| `ProxyManager.Manager.RegisterPorts` | internal/proxy/proxy.go:103-190 | the loop over the ports with its three outcomes per port, then the commit |
| `ProxyManager.Manager.Turn` | internal/proxy/proxy.go:124-158 | one port: kept, re-bound, collected, or an error - which closes the collected listeners in one of its two places |
| `ProxyManager.Manager.CommitPending` | internal/proxy/proxy.go:160-189 | one generation and the new entries, all on the service's route |
| `ProxyManager.Manager.SwapPorts` | internal/proxy/proxy.go:308-347 | an unknown port name fails before anything is published; else one publication |
| `ProxyManager.Manager.SwapStatic` | internal/proxy/proxy.go:350-363 | one publication that sends the default port to the directory, or an error that changes nothing |
| `ProxyManager.Manager.UnswapPorts` | internal/proxy/proxy.go:371-386 | the placeholder for every entry with the prefix |
| `ProxyManager.Manager.RemovePorts` | internal/proxy/proxy.go:394-408 | close and forget every entry with the prefix |
| `ProxyManager.Manager.Publish` | internal/proxy/proxy.go:429-436 | a new generation becomes the current one; the earlier generations stay as they were |
| `RegistryProofs.HistoryIsWindow` | internal/registry/registry.go:540-612 | whatever starts and exits are recorded, the stored history is the last ten entries of the log that is never trimmed |
| `RegistryProofs.RegisterExact` | internal/registry/registry.go:274-311 | registering over a record: settings, address and snapshot are those asked for, with the defaults for what is missing; ports and everything about how the service runs stay, crash state and deploy times included; no other record is touched |
| `RegistryProofs.CompletionTouchesOwn` | internal/registry/registry.go:596-612 | with distinct start times an exit fills in its own entry only |
| `RegistryProofs.RegisterKeepsSnapshotCurrent` | internal/registry/registry.go:274-351 | the snapshot Register takes agrees with the record on ports and deploy time |
| `RegistryProofs.RunningStateKeepsDeployments` | internal/registry/registry.go:491-639 | recording starts, exits, crashes, status and deploy time changes no configuration, port or snapshot of any service |
| `RegistryProofs.ArchiveRoundTrip` | internal/registry/registry.go:423-465 | archiving and bringing back gives the old record, stopped and without a PID |
| `RegistryProofs.RestoreUndoesRegister` | internal/registry/registry.go:274-323 | restoring the record that Register staged over gives back the old registry |
| `RegistryProofs.RemoveAndPruneExact` | internal/registry/registry.go:467-488 | pruning removes as much as Remove and keeps the ports in a tombstone |
| `RegistrySpec.LastStart` | internal/registry/registry.go:603-610 | the backward scan finds the last entry with that start time, or none |
| `Registry.Store.Register` | internal/registry/registry.go:274-311 | new configuration over preserved ports and running state |
| `Registry.Store.Restore` | internal/registry/registry.go:315-323 | puts a record as a whole; what that undoes is RestoreUndoesRegister |
| `Registry.Store.UpdateStatus` | internal/registry/registry.go:491-505 | unknown names are refused, an unchanged status is not written again |
| `Registry.Store.UpdateProcessStarted` | internal/registry/registry.go:540-556 | records ports and start time and appends to the history, of which the last ten entries stay |
| `Registry.Store.MarkRunning` | internal/registry/registry.go:559-575 | running with the PID, crash state cleared, deploy time kept unless given |
| `Registry.Store.CompleteStart` | internal/registry/registry.go:596-612 | the backward loop completes the last entry with that start time, or none |
| `Registry.Store.UpdateCrashState` | internal/registry/registry.go:628-639 | attempts and given-up flag; what stays is RunningStateKeepsDeployments |
| `Registry.Store.UpdateLastDeployed` | internal/registry/registry.go:508-518 | the deploy time; what stays is RunningStateKeepsDeployments |
| `Registry.Store.Archive` | internal/registry/registry.go:423-445 | refused for missing, archived and running records; remembers the status it came from |
| `Registry.Store.RestoreArchived` | internal/registry/registry.go:447-465 | an archived record, and no other, is stopped again and forgets that it was archived |
| `Registry.Store.Prune` | internal/registry/registry.go:467-488 | an archived record, and no other, becomes a tombstone with its ports |
| `Registry.Store.Remove` | internal/registry/registry.go:706-711 | the record goes and leaves no tombstone; compared with pruning by RemoveAndPruneExact |
| `Registry.Store.UsedPorts` | internal/registry/registry.go:642-658 | the nested loop collects exactly the non-zero stable ports of all records |
| `PrimaryPort.PickPort` | internal/registry/registry.go:175-197 | the method picks what the specification says for the order of its walk |
| `PrimaryPort.PickExact` | internal/registry/registry.go:175-197 | without empty port names: the port of the name the health check asks for, else of "default", else of the least name; 0 without ports |
| `StringOrder.StringLessExact` | internal/registry/registry.go:188-196 | the order of names: decided where the strings first differ, by the smaller character or the end |
| `PrimaryPort.PickIsDeterministic` | internal/registry/registry.go:188-196 | without empty port names the order of the map does not matter |
| `PrimaryPort.EmptyNameWins` | internal/registry/registry.go:190-195 | with one, the walk ends at it exactly if it comes last |
| `PrimaryPort.PickDependsOnOrder` | internal/registry/registry.go:190-195 | two orders of one map with two results |
| `RestoreProofs.AtTheEnd` | internal/service/restore.go:71-211 | for every schedule and cancellation point: one result per service, in order, counters adding up to their number; a failed service is marked in the registry exactly unless its worker dropped it, which takes a cancellation |
| `RestoreOutcomes.OutcomesExact` | internal/service/restore.go:71-211 | for every schedule and cancellation point, the outcome of each service: skipped without ports or if not running before, a bind failure if its ports were refused, else what its worker reported, or failed if that left or nobody came to it - which takes a cancellation; exactly whom the registry calls failed; and each counter is the number of results of its kind |
| `RestoreOutcomes.WorkersExact` | internal/service/restore.go:137-157 | as many workers as services to bring back, but no more than the limit, which is 4 if none is given |
| `RestoreProofs.AtEveryPoint` | internal/service/restore.go:137-186 | at most maxParallel services in restoreOne, none before all listeners are bound; sending a result never blocks; mutators are refused until the end |
| `RestoreProofs.RunsEnd` | internal/service/restore.go:152-191 | no schedule is longer than five steps per service and five more, and one without a next step is finished |
| `RestoreProofs.NeverStuck` | internal/service/restore.go:152-191 | while the run is not over some step other than a cancellation is possible |
| `RestoreProofs.StepKeeps` | internal/service/restore.go:71-211 | each step of each goroutine keeps every service in exactly one place |
| `RestoreProofs.SortedIsExact` | internal/service/restore.go:332-346 | sorted results, one per service, are the results in the order of the services |
| `RestoreAll.Reconciler.RecordRestoreResult` | internal/service/restore.go:332-351 | the counter of the outcome, insertion at its place in the order, one more completed |
| `RestoreAll.Reconciler.BindService` | internal/service/restore.go:109-135 | one turn of the bind loop: a service is queued, or reported as skipped or as not bound |
| `RestoreAll.Reconciler.StartWorkers` | internal/service/restore.go:137-157 | no more workers than targets; nothing to do without targets |
| `RestoreAll.Reconciler.RecordCancelled` | internal/service/restore.go:192-209 | after a cancellation, a failure for each target without a result |
| `RestoreAll.Reconciler.ReportResult` | internal/service/restore.go:159-171 | a worker sends its outcome and is free again; a failure is in the registry by then |
| `RestoreAll.Reconciler.DropJob` | internal/service/restore.go:159-166 | a worker that sees the cancellation sends a failure the registry is not told of |
| `RestoreAll.Reconciler.Take` | internal/service/restore.go:152-211 | each step of feeder, workers and collector |
| `RestoreAll.Reconciler.TakeSoundly` | internal/service/restore.go:152-211 | each step keeps the invariant and brings the end nearer |
| `RestoreAll.StartupTracker.Begin` | internal/service/startup_state.go:99-109 | the gate closes |
| `RestoreAll.StartupTracker.Finish` | internal/service/startup_state.go:123-130 | the gate opens, progress is complete |
| `RestoreAll.StartupTracker.EnsureMutable` | internal/service/startup_state.go:83-97 | refuses exactly while binding or reconciling |
| `IssueProofs.MergeGroups` | internal/issues/issues.go:381-411 | merging one occurrence into the fingerprint classes of a log gives the classes of the longer log |
| `IssueProofs.TogetherExactly` | internal/issues/issues.go:381-411 | occurrences with the same source, tool, input and error are held by one issue whatever else they say, and by different ones otherwise if fingerprints do not collide |
| `IssueProofs.ReplayGroups` | internal/issues/issues.go:315-330 | so does replaying a legacy log |
| `IssueProofs.LegacyAgrees` | internal/issues/issues.go:315-330 | a store filled by Append and a legacy log of the same occurrences hold the same issues |
| `IssueProofs.LoadIsIdentity` | internal/issues/issues.go:332-362 | loading what was saved changes no issue |
| `IssueProofs.LoadedAlone` | internal/issues/issues.go:338-357 | a record without occurrences: its own fields, cleaned, are its one occurrence, and its lifecycle stays, active if it had no state |
| `IssueProofs.ReorderedGroups` | internal/issues/issues.go:364-379 | nor does sorting |
| `IssueProofs.AggregatesExact` | internal/issues/issues.go:413-457 | first and last sight are the extremes of the class; the top-level fields are the latest occurrence's, ties to the last appended |
| `IssueProofs.TransitionsExact` | internal/issues/issues.go:164-242 | acknowledge, resolve and reopen succeed exactly in their states and keep the history a path of allowed transitions, with a resolution exactly while resolved |
| `IssueProofs.TransitionRecords` | internal/issues/issues.go:164-242 | what each transition records: state, time, the trimmed actor, the event and its note; a tracker URL replaces the old one only if given |
| `IssueProofs.ReoccurredExact` | internal/issues/issues.go:402-407 | a new occurrence reopens a resolved issue and changes no other |
| `IssueRuns.RunsKeepIssues` | internal/issues/issues.go:125-242 | over every run of appends and transitions the store groups the log by fingerprint with sound lifecycles; no issue is lost or changes its ID, and no occurrence or lifecycle event is lost or rewritten |
| `IssueRuns.RunsEvolve` | internal/issues/issues.go:125-242 | while no two issues share an ID, each issue is after a run exactly what the calls make of it one by one, however often the file was sorted, saved and loaded |
| `IssueRuns.AppendExact` | internal/issues/issues.go:381-411 | an append merges the occurrence into its class, which reopens it if resolved, leaves every other issue as it is, and adds one exactly if the class is new |
| `IssueRuns.AppendJoins` | internal/issues/issues.go:381-411 | the issue an occurrence joins keeps its ID and occurrences, has the new one last, and is active again with an event in its history exactly if it had been resolved |
| `IssueRuns.MoveExact` | internal/issues/issues.go:164-242 | with IDs of their own, a transition changes the one issue it names if its state allows it, and no other |
| `IssueRuns.StepOutlives` | internal/issues/issues.go:381-411 | whatever the IDs, one call loses no issue and only extends occurrences and histories |
| `IssueSpec.NormalizeSettles` | internal/issues/issues.go:473-491 | normalising makes normal, and what is normal is exactly what no normalisation changes |
| `IssueSpec.TrimSpace` | internal/issues/issues.go:484-489 | the result is trimmed and trimmed text is kept; which part is kept is TrimExact |
| `IssueSpec.TrimExact` | internal/issues/issues.go:484-489 | the result of trimming is the one string left when exactly the white space at both ends is cut off |
| `IssueSpec.SpacesExact` | internal/issues/issues.go:484-489 | white space are the 25 characters Unicode calls so |
| `IssueSpec.NormalizeExact` | internal/issues/issues.go:473-491 | field by field, in both directions: given values are kept, texts trimmed, and a missing ID, time or severity becomes the generated ID, the clock reading or "error" |
| `IssueSpec.LatestIndex` | internal/issues/issues.go:424-433 | the latest occurrence, ties to the last |
| `IssueSpec.Earliest` | internal/issues/issues.go:422-428 | the earliest time |
| `IssueSpec.FindIssue` | internal/issues/issues.go:384-387 | the first issue with the fingerprint |
| `Issues.Store.Append` | internal/issues/issues.go:125-137 | load, normalise, merge, sort and save: the occurrence stored is the given one cleaned field by field, and some issue holds it; the file stays the grouping of everything appended, and is the old one with this occurrence merged in - other issues keep ID, occurrences and lifecycle |
| `Issues.Store.MergeOccurrence` | internal/issues/issues.go:381-411 | the loop and the in-place update |
| `Issues.RebuildIssue` | internal/issues/issues.go:413-457 | the single pass over the occurrences |
| `Issues.Store.Load` | internal/issues/issues.go:332-362 | record by record, then sorted: the same issues |
| `Issues.Store.LoadIssue` | internal/issues/issues.go:338-357 | a record without occurrences counts as one |
| `Issues.SortIssues` | internal/issues/issues.go:624-631 | a permutation in the order of last sight, then ID |
| `Issues.Store.ReplayLegacy` | internal/issues/issues.go:315-330 | the loop over the lines groups them as Append would |
| `Issues.Store.Acknowledge` | internal/issues/issues.go:164-242 | succeeds if the first issue with the ID is active: its old lifecycle takes the transition, its history is extended, all else stays; refused, it changes nothing |
| `Issues.Store.Resolve` | internal/issues/issues.go:168-197 | succeeds if the first issue with the ID is not resolved: its old lifecycle takes the transition, its history is extended, all else stays; refused, it changes nothing |
| `Issues.Store.Reopen` | internal/issues/issues.go:199-242 | succeeds if the first issue with the ID is resolved: its old lifecycle takes the transition, its history is extended, all else stays; refused, it changes nothing |
| `Issues.Store.Recent` | internal/issues/issues.go:246-268 | the n latest issues of a source, in order |
| `Issues.Store.Clear` | internal/issues/issues.go:141-145 | nothing is left |
| `Issues.Perform` | internal/issues/issues.go:125-242 | each writing call on the store object is one step of the specification |
| `Issues.PerformAll` | internal/issues/issues.go:125-242 | any sequence of calls on the store object is a run, so all of this holds of it |
| `SetupProofs.ApplyIsAtomic` | internal/setup/apply.go:70-117 | whatever fails, every file has its old content or absence and no temporary file remains; and exactly the reservations of this call are gone, if the reserver knows its services and can remove them |
| `SetupProofs.ApplySucceeds` | internal/setup/apply.go:70-117 | on success every generated file is in place, patches are applied exactly where there is a managed block, no file but these and the new temporary names changed, and the three lists split the plan; what exactly is written is SetupOutcomes.AppliedExact |
| `SetupOutcomes.ApplyExact` | internal/setup/apply.go:70-117 | a plan is applied if and only if a single-service repository has no configuration, the root is a directory, every path lies below it and is written once, every port is granted as planned, no target is unreadable, and no staging and no rename fails |
| `SetupOutcomes.AppliedExact` | internal/setup/apply.go:197-374 | and then: allocations and reserver have exactly the granted ports, the port is filled in in the first config file only, scripts have mode 0755, other generated files 0644, patched files their old mode, every other path is as before, and the three lists are those of the plan in order |
| `SetupProofs.FailedCommitModes` | internal/setup/apply.go:394-407 | a failed commit also restores all file modes, if and only if no replaced file had another mode than its replacement |
| `SetupProofs.PrepareStages` | internal/setup/apply.go:285-374 | preparing either changes nothing or adds the temporary files only; their names are new and not those of the plan's own targets |
| `SetupProofs.TmpsExist` | internal/setup/apply.go:350-479 | no setup is shut out by the demand for new temporary names: with a root-joining resolver, under which the temporary files' own spellings resolve to them, every disk and plan leaves room for such names |
| `SetupProofs.CommitEnds` | internal/setup/apply.go:376-407 | either all renames, or all of them undone |
| `SetupProofs.ReleaseUndoes` | internal/setup/apply.go:86-95 | reserving and releasing is the identity for a reserver that knows its services; otherwise it also removes those that were there |
| `SetupProofs.ReserveAllExact` | internal/setup/apply.go:218-239 | the names to release are exactly the new ones |
| `SetupProofs.ListsSplit` | internal/setup/apply.go:285-392 | applied files, applied patches and unapplied patches split the plan, each in order |
| `SetupApply.Workspace.Run` | internal/setup/apply.go:70-117 | the method with its three kinds of undo is the transition the atomicity theorems are about |
| `SetupApply.Workspace.ReservePlanPorts` | internal/setup/apply.go:197-241 | a single-service plan reserves its name unless it has ports already, a composite one all its names and fails without a reserver; the result is the effective plan and the names to release |
| `SetupApply.Workspace.ReserveNames` | internal/setup/apply.go:218-239 | the loop stops at the first refusal; the names collected are those the reserver did not know before |
| `SetupApply.Workspace.RollbackReservations` | internal/setup/apply.go:84-92 | releases the reserved names, last reserved first |
| `SetupApply.Workspace.PrepareApplication` | internal/setup/apply.go:285-328 | both loops, with the cleanup on failure |
| `SetupApply.Workspace.StageFile` | internal/setup/apply.go:330-374 | what is remembered and what is written |
| `SetupApply.Workspace.CommitAll` | internal/setup/apply.go:376-392 | the renames and the lists |
| `SetupApply.Workspace.RollBack` | internal/setup/apply.go:394-407 | undoes renames from the last to the first: the old content is written back, or a created file removed |
| `SetupApply.Workspace.CleanUp` | internal/setup/apply.go:409-415 | every staged temporary file is removed, whatever else happened |
| `ManagedBlock.ReplaceExact` | internal/setup/apply.go:486-504 | fails exactly without a start marker followed by an end marker; else what is replaced goes from the first start marker to the first end marker behind it and one line break, and nothing else changes |
| `ManagedBlock.ReplaceTwice` | internal/setup/apply.go:486-504 | a generated block applied twice is the block applied once, if and only if it is not indented |
| `SetupPorts.AllocatePorts` | internal/setup/coordinate.go:131-163 | a plan that is total, injective and avoids used and reserved ports; it exists exactly if the range has enough free ports for the services that claimed none |
| `SetupPorts.FreePortsExact` | internal/setup/coordinate.go:131-163 | the ports for services that claimed none: from 8100 to 8200, neither taken nor asked for by any service |
| `SetupPorts.HonourPreferences` | internal/setup/coordinate.go:138-144 | the first pass: the first claimant of each free preference |
| `SetupPorts.FirstClaimantGets` | internal/setup/coordinate.go:138-144 | with distinct names the first claimant has its port |
| `Debounce.RunConserves` | internal/watcher/watcher.go:98-135 | reported plus pending events are the events seen; reports are consecutive, non-empty blocks named after their last event |
| `Debounce.RunSees` | internal/watcher/watcher.go:149-157 | over every run the events seen are exactly those that write, create or rename a file whose name starts with neither "." nor "#", in order |
| `Debounce.SupersededIsSilent` | internal/watcher/watcher.go:122-126 | a timer replaced by a newer event never fires the trigger, however late |
| `Debounce.NewestReportsAll` | internal/watcher/watcher.go:127-133 | the newest timer reports everything pending |
| `Debounce.Watcher.OnFileEvent` | internal/watcher/watcher.go:106-116 | a relevant event is counted, supersedes the timer and becomes the latest path; an irrelevant one changes nothing |
| `Debounce.Watcher.TimerFires` | internal/watcher/watcher.go:116-134 | a timer fires once and reports all that is pending, or nothing if a newer event came or the watcher was closed |

## Left out

- Operations of the service are atomic steps: that `Stop`, `Remove` and `Reserve` do not take the deploy lock
  is not modelled, nor are interleavings of two operations. Within one, only the candidate exits; the process
  being replaced is taken to live until it is marked or put back.
- Service-level gating: that each mutator asks the startup gate first is not repeated per operation; the gate
  itself is `RestoreAll.StartupTracker`.
- Registry and issue files: encoding, saving and save errors. The singular port fields kept for old files, and
  requests defaulting, trimming and validation beyond the service name and the combined "accepted" outcome.
- `runningProc`, `serviceRoute` and `routingGeneration` are arena entries of their manager's class, not objects
  of their own.
- The IPv4 and IPv6 listener of a port are one handle; HTTP proxying, flushing and time-outs are not modelled.
- Health polling, exec, signals, SIGKILL after a time-out and the drain window's length: outcomes and order of
  events only.
- Crash recovery as liveness: the restart after the backoff is an operation of its own.
- Reserve: modelled as ReservePorts for the one name "default".
- Runs of the service hold neither a successful deployment of a directory over a running process, nor a rollback
  to one, nor a Remove that matches another service's listeners: these three break the invariant, and no other
  call does (`Deployments.ApplyKeepsExactly`, `Deployments.RunsSettleExactly`).
- The fields of a service that only a deployment sets are one group, `Settings`.
- File watching apart from the debounce, which counts events without the wrap-around of its 64-bit counter;
  build commands, receipts, notifications, logs and metrics.
- Fingerprints are a given function of source, tool, input and error of an occurrence; the normalisers and the
  hash behind it are not modelled. Which of several issues with equal time and ID is sorted first is left open.
- Directories created while staging a setup stay after a failure; the file system of the model has none. Undoing
  is taken to succeed, and temporary names to be new.
- The path rules of `safeJoin` beyond "joined below the root or refused", plan inspection, generated file texts and the composite dry run.
- The HTTP API, MCP tools, command line, launchd integration, sessions, configuration and the web interface.
- Daemon.RestoreOne: the results list, durations and recorded issues around it are those of `RestoreAll.Reconciler`
  or left out.
