# GoShip: a verified model of its stateful core

GoShip runs each project in a virtual machine. A daemon on the host keeps projects, instances and apps in a store,
routes `hostname.domain` to apps through an in-memory table, and talks to an agent inside each machine over a serial
line. The agent supervises app processes, receives binaries and images in chunks, and hands out logs.

This project models that core in Dafny 4.11 and proves what it is meant to guarantee, over all runs and all failures of
the operating system calls involved. Where a guarantee does not hold, the exact condition under which it does is
proved instead, together with a witness of the failure. Nothing here executes the original program.

`dafny verify dfyconfig.toml` checks everything.

## Files

- `Supervisor.dfy`, `SupervisorProperties.dfy`, `ProcessManager.dfy`: the process supervisor as a transition system
  whose steps are the uninterruptible pieces of the code (a critical section, or the stretch between two points where
  a goroutine can be descheduled); its invariant; safety, stop, restart-budget, termination and deadlock theorems;
  and the class whose methods are whole calls and whole monitors, proved for every behaviour of the rest.
- `Restarts.dfy`, `RestartWitnesses.dfy`: exactly when a monitor starts its app again and why it gives up; runs of both.
- `StopOutcomes.dfy`: when Stopped is overwritten, and when an app that reads Running has no process.
- `Paths.dfy`, `Transfer.dfy`, `TransferProperties.dfy`, `TransferReplies.dfy`, `Host.dfy`, `InitAgent.dfy`: the begin/data/finish transfer
  protocol over a file system in which every operation may fail, both ends, and the agent's handlers as a class.
- `Store.dfy`, `Routes.dfy`, `RouteProperties.dfy`, `DerivedRoutes.dfy`, `Server.dfy`: store, route table, request
  handlers and daemon restarts; reload invariant, route soundness, the routes derived from the store, and the handlers
  as methods of a class.
- `RouteSync.dfy`, `RouteWitnesses.dfy`: exactly which requests keep the maintained table equal to the derived one, and
  runs in which a guarantee fails.
- `Requests.dfy`: what each request does to store, table and state file, said without the handlers.
- `Durability.dfy`: exactly which of the requests modelled leave changes unsaved, and what a restart loses.
- `Options.dfy`: a value that may be absent.
- `Substitution.dfy`: variable references in compose values.
- `Sizes.dfy`: the size parser against its printer.
- `LogTail.dfy`: the last-n-lines buffer and the host loop that prints its readings.
- `Framing.dfy`: the request/reply line protocol with lost bytes, timeouts and failed writes.

A method of a class that changes state is proved against the old state, directly or by a function of it; most theorems
are lemmas about those functions. Where a call waits, what the rest of the system does meanwhile is an argument.

## Where the code differs from its documentation

- ADR-043 says routes are derived from the store, so that the two never disagree. The maintained table can lack derived
  routes (`RouteWitnesses.DerivedButNotBound`) and have others (`RouteWitnesses.BoundButNotDerived`);
  `RouteSync.RunKeepsSync` says exactly when it is the derived one all along. Dotted hostnames can make keys of
  different projects collide, and a domain update can then cut another project's route
  (`RouteWitnesses.DomainUpdateCuts`, `DerivedRoutes.DomainUpdateAtKey`).
- A failing update-init finish is meant to put the old binary back; `TransferProperties.FailedUpdateKeepsBinary` says
  exactly when it does, `TransferProperties.UpdateLosesBinary` and `TransferProperties.StaleBackupAppears` are runs in
  which it does not.
- The HTTP upload handlers pass an empty checksum, which every agent refuses (`Host.EmptyChecksumRefused`).
- As long as the guest loses no reply, a command that times out leaves its reply to the next caller and shifts every
  later reply on its connection (`Framing.StaleReply`, `Framing.TimeoutShiftsReplies`). If the deadline passes inside a
  reply line, the next caller gets the rest of that line only (`Framing.DeadlineCutsReply`); if the guest cannot write a
  reply whole, what it wrote stands in front of the next one (`Framing.LostReplyGarblesNext`).
  `Framing.OwnReplyExactly` says exactly which line and which bytes of it a caller gets.
- Once a boot log exceeds the lines of one reading, or has a line too long for the scanner, the host no longer prints all
  of it (`LogTail.PrintedIsWhole`, `LogTail.LongBootLog`, `LogTail.OverlongBootLog`).
- A refused restart policy, a refused size and a failed resize leave the fields written before in memory, unsaved, until
  the next save or restart (`Durability.RunKeepsDurable`, `Durability.RefusedUpdateIsLost`,
  `Durability.FailedResizeIsLost`).
- The recorded state of an app can read Failed after a Stop, and Running without a process (`StopOutcomes.StoppedOrFailed`,
  `StopOutcomes.RunningButDead`).

## Model

| member | source | states |
|---|---|---|
| SupervisorProperties.AtMostOneLiveProcess | internal/init/process.go:75-158 | In every interleaving of Deploy, Stop, Remove, Close, status probes, monitors and process exits, an app name has at most one live OS process, and each live process is the current one of the entry tracked under its name |
| SupervisorProperties.ChannelClosedOnce | internal/init/process.go:296-303 | A monitor waits for its own process and closes its own, still open channel although it reads `proc.cmd` and `proc.done` without the mutex; the close cannot panic |
| SupervisorProperties.StoppingIsFinal | internal/init/process.go:352-370 | Once `stopping` is set, no continuation of the run starts another OS process for that entry, also when the stop lands inside the unlocked backoff |
| SupervisorProperties.NothingRunsAfterStop | internal/init/process.go:177-209 | When Stop, Remove or Close has returned nothing of the app is alive, and stays so in every run that does not deploy the app again |
| SupervisorProperties.QuietForever | internal/init/process.go:362-370 | If no Deploy of an app is pending and its tracked entry, if any, is stopping and reaped, nothing of it is alive at any later moment before it is deployed again |
| SupervisorProperties.BindingsOnlyByDeploy | internal/init/process.go:75-158 | Only a Deploy of a name binds the name to another entry |
| SupervisorProperties.RestartBudget | internal/init/process.go:22-29 | OS starts of one managed process are at most `restartCount` + 1 and at most 6; its sleeps add up to 2^restartCount - 1 and at most 31 s; the 30 s cap never binds |
| SupervisorProperties.MonitorChainEnds | internal/init/process.go:296-404 | Lexicographic measure (restarts left, phase): whatever else is scheduled, the monitors of one entry take at most 41 more steps |
| SupervisorProperties.MonitorDescends | internal/init/process.go:345-370 | Every step of an entry's monitors lowers the measure |
| SupervisorProperties.EndedChainIsSettled | internal/init/process.go:313-349 | When all monitors of a tracked entry have ended the entry reads Stopped or Failed, never Running, on every exit path and with status probes interleaved |
| SupervisorProperties.RestartsFollowPolicy | internal/init/process.go:322-349 | A run is succeeded by another only after an exit its policy restarts on; an unstopped entry ends as Stopped only after a clean exit |
| Restarts.InspectionDecides | internal/init/process.go:322-361 | A monitor whose app is tracked and not stopped goes to sleep for 1, 2, 4, 8 or 16 seconds and counts a restart if and only if the policy asks for one after this exit and there were fewer than five; otherwise it ends, and the app reads Stopped only after a clean exit that asks for no restart |
| Restarts.InspectionOfStopped | internal/init/process.go:305-321 | A monitor of a stopped or untracked app ends; a stopped one reads Failed or Stopped by its exit |
| Restarts.RecheckDecides | internal/init/process.go:362-404 | After the backoff there is one more process if and only if the app is still tracked and not stopped and the start succeeds; a failing start leaves it as Failed |
| Restarts.GivesUpOnlyThen | internal/init/process.go:322-404 | In every run: when the last monitor of a tracked app that nobody stopped has ended, the policy did not ask for a restart after that exit, or there were five, or the start failed; the app reads Stopped after a clean exit that asked for none, else Failed |
| RestartWitnesses.ComesBack | internal/init/process.go:322-404 | For every policy and exit that ask for a restart, a run in which the app is live again |
| RestartWitnesses.StaysDown | internal/init/process.go:339-348 | For every policy and exit that ask for none, a run in which the app stays down |
| SupervisorProperties.HolderUnblocks | internal/init/process.go:277-291 | Whoever holds the mutex inside `stopProcess` is released by finitely many enabled steps, none of which needs the mutex |
| SupervisorProperties.EveryCallReturns | internal/init/process.go:260-303 | No deadlock: from every reachable state the call holding the mutex runs to its end, Close over however many processes are left |
| StopOutcomes.StoppedOrFailed | internal/init/process.go:313-320 | In every run, after Stop has returned and as long as the app stays tracked and is not stopped again, it reads Failed if and only if the monitor of its last process held a failed exit and was waiting for the mutex at the return, and has had it since; otherwise it reads Stopped |
| StopOutcomes.StoppedThenFailed | internal/init/process.go:313-320 | A run in which the monitor overwrites the Stopped that Stop has just written with Failed |
| StopOutcomes.RunningButDead | internal/init/process.go:345-370 | In every reachable state a tracked app that reads Running has no live process if and only if its current process has exited; its monitor has then not ended, and in every phase but the first the process has exited |
| StopOutcomes.RunningWithoutProcess | internal/init/process.go:296-370 | A run that shows each of the five phases in which the state reads Running without a process: exited, noticed, waiting for the mutex, backoff, waiting for the mutex again |
| Supervisor.StepKeepsInv | internal/init/process.go:75-404 | Every step of every call, monitor and process keeps the invariant (identities, channel and phase agreement, holder, states, restart and sleep budget) |
| Supervisor.BackoffUncapped | internal/init/process.go:356-360 | For every restart count the limit allows, the doubled backoff is below the cap |
| ProcessManagers.ProcessManager.StopProcess | internal/init/process.go:277-291 | For every behaviour of the rest of the system, of which everything that can happen does, the wait for `done` ends, without the mutex having been given up and with tracking and entries as they were |
| ProcessManagers.ProcessManager.Stop | internal/init/process.go:177-190 | A whole call, with anything in between: on return nothing of the app is alive, exactly its entry is marked stopping and Stopped, tracking is unchanged, and the call is a run of the system |
| ProcessManagers.ProcessManager.Remove | internal/init/process.go:193-209 | On return nothing of the app is alive and exactly its name is no longer tracked |
| ProcessManagers.ProcessManager.Deploy | internal/init/process.go:75-175 | A specification that validation refuses changes nothing, and what ran under the name goes on. Otherwise: if the start succeeds exactly one process runs under the name, fresh, tracked and with a full restart budget; if not, nothing runs under it and it is not tracked |
| ProcessManagers.ProcessManager.Close | internal/init/process.go:260-273 | On return no process of any app is alive and nothing is tracked, for every order in which the apps are visited |
| ProcessManagers.ProcessManager.GetStatus | internal/init/process.go:212-248 | The probing loop sets exactly the tracked entries that read Running and whose process is gone to Stopped |
| ProcessManagers.ProcessManager.MonitorProcess | internal/init/process.go:296-404 | A whole monitor goroutine, with anything in between: it starts a successor, and one only, if and only if it gets to its end with the app still tracked and not stopped, the policy asks for a restart after this exit, there were fewer than five, and the start succeeds; if it ends without one, the app, if still its own, does not read Running |
| Paths.OwnersDisjoint | pkg/domain/entities/project.go:10-19 | The temp and target paths of the three transfer actions are pairwise disjoint |
| Paths.ComponentsAreValid | pkg/domain/entities/project.go:10-19 | A name is valid if and only if it is not empty, `.` or `..` and holds neither a slash nor a NUL |
| Paths.DestInjective | internal/init/init.go:653-712 | With validated names a destination determines app and file |
| Paths.TmpMeetsDest | internal/init/init.go:653-701 | The temp file of one upload is the destination of another if and only if the other is called like it with `.new` appended, in the same app |
| Transfer.HandleKeepsGood | internal/init/init.go:483-977 | Every command, whichever of its file operations fail, keeps slots and files consistent: an open slot's temp file holds what was received and hashed |
| Transfer.HandleOnlyOwn | internal/init/init.go:467-481 | A command touches only slots, files and images of its own action |
| TransferProperties.NonInterference | internal/init/init.go:467-977 | Projecting any command sequence on one action gives the same slot, files, images and replies for that action |
| TransferProperties.SlotIsFaithful | internal/init/init.go:467-977 | The slot of an action is at any time the last accepted begin with the payloads accepted since, computed from the trace alone |
| TransferProperties.NoiseInvisible | internal/init/init.go:467-481 | Commands of other actions leave everything of an action as it was |
| TransferProperties.FinishInstalls | internal/init/init.go:552-624 | After any command sequence, a successful finish has put exactly the payloads accepted since the last accepted begin at that begin's destination (or loaded them into Docker), their hash being its checksum, and the temp file is gone |
| TransferProperties.ReportedBytes | internal/init/init.go:521-550 | The byte count reported for a chunk is the number of bytes accepted since the begin |
| TransferReplies.PathsOf | internal/init/init.go:653-712 | The temp file and destination of each kind of transfer, as paths |
| TransferReplies.SlotsAreInProgress | internal/init/init.go:483-800 | After any command sequence the agent holds a transfer of an action if and only if the action's last accepted begin is later than its last finish, failed chunk and failed well-formed begin |
| TransferReplies.BeginAnswers | internal/init/init.go:653-712 | A begin is accepted if and only if its size is positive, it has a checksum, its names are single path components or its image has a name, and the temp file can be opened |
| TransferReplies.DataAnswers | internal/init/init.go:714-743 | A chunk is accepted if and only if a transfer is in progress, its payload decodes and it is written |
| TransferReplies.FinishAnswers | internal/init/init.go:745-800 | A finish is answered Ok if and only if a transfer is in progress, the bytes accepted since its begin have the hash it announced, and every file operation that matters succeeds |
| TransferReplies.FinishEnds | internal/init/init.go:552-624 | After any finish no transfer is left, whatever it was answered; the temp file is gone if it could be removed, unless the final rename of an update failed; a finish without a transfer changes nothing |
| TransferReplies.FailedChunkEnds | internal/init/init.go:521-550 | A chunk that fails ends the transfer; its temp file is gone if it could be removed, else it holds the accepted bytes and what was written of the chunk |
| TransferReplies.BeginReplaces | internal/init/init.go:483-519 | A well-formed begin removes the temp file of the transfer it replaces and starts with an empty one |
| TransferReplies.RefusedChangesNothing | internal/init/init.go:467-488 | A begin that is not well-formed, and an unknown phase, change nothing |
| TransferProperties.DestinationUntouched | internal/init/init.go:653-800 | From an accepted begin until its finish succeeds its destination does not change, whatever arrives and fails, except for a further accepted begin of the same action and the two update failures that `FailedUpdateKeepsBinary` names |
| TransferProperties.FailedUpdateKeepsBinary | internal/init/init.go:589-615 | A failing update-init finish leaves `goship-init` as it was if and only if it is not one of two named failures: backup made but not restored, or a stale backup restored |
| TransferProperties.UpdateLosesBinary | internal/init/init.go:589-611 | A run of begin and failing finish after which there is no `goship-init` |
| TransferProperties.StaleBackupAppears | internal/init/init.go:589-611 | The same twice, the second time with a backup that cannot be removed: a failing finish puts the stale backup in place |
| TransferProperties.RefusedBegin | internal/init/init.go:483-519 | A refused begin leaves the running transfer alone if and only if validation refused it |
| TransferProperties.FailedBeginCancels | internal/init/init.go:653-712 | A run in which a begin refused for a failing open ends the transfer that was running |
| TransferProperties.TempFileCollision | internal/init/init.go:653-701 | With no upload running, an accepted begin for file x changes an installed, non-empty file if and only if that file is `x.new` of the same app |
| TransferProperties.UploadEmptiesNamesake | internal/init/init.go:653-701 | The begin of an upload of x empties the installed file x.new of the same app |
| TransferProperties.OnlyTargetsChange | internal/init/init.go:653-800 | Over every command sequence an installed file changes only if it is the destination of an accepted begin or is called like one with `.new` appended in the same app |
| TransferProperties.SwapIsCrashSafe | internal/init/init.go:552-615 | When a finish reaches the swap after any commands, with `goship-init` in place, then after every file operation, whichever fail, the old binary is at `goship-init` or `goship-init.old`, and `goship-init` is absent, the old binary, or exactly the bytes accepted since the last accepted begin, whose hash is that begin's checksum |
| TransferProperties.StaleBackupReturns | internal/init/init.go:589-615 | Without a `goship-init` at the start, the exact failure pattern that brings a stale backup into its place |
| TransferProperties.UpdateSwaps | internal/init/init.go:589-624 | A successful update has the new binary in place and the replaced one as backup |
| Host.SendFile | internal/agent/runtime/libvirt/runtime.go:623-781 | The host loop, end to end: success implies the guest holds the stream byte for byte with the announced hash, for every split by Read and all commands of other actions in between, and that the begin, one data command for each read that brought anything, and the finish were all answered; and it succeeds when nothing fails and the checksum is right |
| Host.SendData | internal/agent/runtime/libvirt/runtime.go:664-691 | The chunk loop: what the guest has stored is what the reader delivered so far |
| Host.DataStores | internal/agent/runtime/libvirt/runtime.go:666-683 | One acknowledged chunk extends what the guest has stored by exactly that chunk, with commands of other actions handled in between |
| Host.FinishStores | internal/agent/runtime/libvirt/runtime.go:690-702 | An acknowledged finish means the stored bytes are installed and hash to the checksum |
| Host.EmptyChecksumRefused | internal/api/upload_handlers.go:61 | An empty checksum, as the HTTP upload handlers pass, is refused by every guest |
| InitAgent.Init.Begin | internal/init/init.go:653-701 | The begin handler of an action equals the specified outcome for every combination of failing file operations |
| InitAgent.Init.Data | internal/init/init.go:714-743 | The data handler, with its short writes and its failed decodes |
| InitAgent.Init.Swap | internal/init/init.go:589-615 | The swap passes through exactly the specified file states, one per file operation |
| InitAgent.Init.Finish | internal/init/init.go:745-800 | The finish handlers: close, hash, compare, install or load |
| InitAgent.Init.Dispatch | internal/init/init.go:467-481 | Reply and new guest state of every command are those of the specification |
| Stores.InvLoads | internal/shared/state/local.go:72-122 | Unique names, one instance per project, valid bindings and names imply that `load` accepts the state |
| Stores.LoadRefuses | internal/shared/state/local.go:72-122 | `load` refuses a bad project or app name, and an instance of no project or with the machine of another |
| Stores.LookupsDetermined | internal/shared/state/local.go:181-198 | Under the invariant, lookup by ID or name and by project do not depend on map order |
| Stores.PutProjectKeeps | internal/shared/state/local.go:141-178 | Storing a project under a valid name that no other project has, and that is its old name if it exists already, keeps the invariant |
| Stores.PutInstanceKeeps | internal/shared/state/local.go:264-317 | A validated instance of a project with no other keeps the invariant |
| Stores.DropInstanceKeeps | internal/shared/state/local.go:328-335 | Deleting an instance keeps the invariant |
| Stores.PutAppKeeps | internal/shared/state/local.go:338-351 | Setting an app with a valid name under an existing project keeps the invariant |
| Stores.DropAppKeeps | internal/shared/state/local.go:377-384 | Deleting an app keeps the invariant |
| Stores.DeleteProjectAlone | internal/shared/state/local.go:235-261 | DeleteProject on its own leaves a loadable state if and only if the project has no instance under an ID other than the project's |
| RouteWitnesses.DeleteAloneIsRefused | internal/shared/state/local.go:235-261 | After a create, DeleteProject on its own would leave a state that `load` refuses |
| Stores.InstanceThenProject | internal/api/project_handlers.go:147-170 | Deleting the instance first, as the handler does, always keeps the invariant and leaves nothing of the project |
| RouteProperties.RoutesAreSound | internal/api/app_handlers.go:435-509 | Over all runs of handlers and restarts every route key is the hostname of a current, available app, or its name if it has no hostname, followed by a dot and a current domain of its stored project |
| RouteProperties.EverySaveLoads | internal/shared/state/local.go:125-138 | Over all runs every state ever written to disk, also halfway through a request, is one `load` accepts |
| RouteProperties.StepKeepsInv | internal/api/project_handlers.go:37-174 | Every request keeps store invariant, loadable saves and route soundness |
| RouteProperties.FailedCreateLeavesNoTrace | internal/api/project_handlers.go:77-92 | A project whose machine does not come up leaves the store as it was |
| Requests.FoundByIdOrName | internal/shared/state/local.go:181-198 | A key finds the project with that ID; a key that is no ID finds the project with that name; any other finds nothing |
| Requests.DerivedSites | internal/api/server.go:131-147 | A route is derived if and only if its key is the site of an available app with a port in a project with an address; it leads to that address and the first port |
| Requests.RegisterBinds | internal/api/app_handlers.go:466-477 | Registering binds exactly `hostname.domain`, or `name.domain` without a hostname, for every domain, if the app is available and has a port |
| Requests.CreateProjectDoes | internal/api/project_handlers.go:37-101 | When a project is created, what is stored then, and what is left if its machine does not come up |
| Requests.DeleteProjectDoes | internal/api/project_handlers.go:122-174 | Exactly which projects, instances, apps and routes are left |
| Requests.StartProjectDoes | internal/api/project_handlers.go:219-264 | Exactly the project's instance gets the new address |
| Requests.UpdateProjectDoes | internal/api/project_handlers.go:351-455 | The new resources are in memory whether or not the update succeeds, and saved if it does |
| Requests.UpdateDomainsDoes | internal/api/project_handlers.go:512-575 | For every key: bound to an app the project now offers there, or dropped as a former site, or as before |
| Requests.CreateAppDoes | internal/api/app_handlers.go:54-130 | An app is stored if and only if the request is well-formed and its name new; a missing mode becomes container |
| Requests.UpdateAppStores | internal/api/app_handlers.go:365-463 | Every field given is stored and no other; those after a refused restart policy are not |
| Requests.UpdateAppRoutes | internal/api/app_handlers.go:435-496 | For every key: bound as a present site, or dropped as a former one, or as before |
| Requests.DeployAppDoes | internal/api/app_handlers.go:152-213 | The image given is stored; for every key: bound as a site if the deployment gets that far, or as before |
| Requests.StopAppDoes | internal/api/app_handlers.go:215-255 | Exactly the app's sites are dropped, if the stop succeeds |
| Requests.DeleteAppDoes | internal/api/app_handlers.go:257-298 | Exactly the app and its sites are dropped |
| Requests.NotFound | internal/api/app_handlers.go:365-380 | A request for a project or app that is not there changes nothing |
| Requests.WritesWhen | internal/api/app_handlers.go:365-463 | Exactly which requests write the state file |
| Requests.CreateProjectWrites | internal/api/project_handlers.go:37-101 | Creating a project writes the state file if and only if the name is acceptable and free |
| Requests.TouchWrites | internal/api/env_handlers.go:27-76 | A request that changes nothing modelled writes the store as it is |
| Requests.RestartDoes | cmd/goship/commands/server.go:97-103 | A restart brings back what was saved last, with the derived routes |
| Requests.RenamedAppMoves | internal/api/app_handlers.go:435-496 | A run from a fresh daemon: an app is deployed at its hostname, and after a change of the hostname is reached at the new one only |
| Durability.StepSavesOrKeeps | internal/api/app_handlers.go:365-463 | A request saves what it changes, unless it is an app update refused for its restart policy after an earlier field has changed, or a project update that fails after the resources have changed; these leave the change in memory alone |
| Durability.StepKeepsDurable | internal/api/app_handlers.go:419-429 | From a world whose state file is up to date a request keeps it so if and only if it is neither of the two |
| Durability.RunKeepsDurable | internal/shared/state/local.go:125-138 | Over every run of a fresh daemon the state file is up to date all along if and only if no request is one of the two |
| Durability.RestartGivesBack | internal/shared/state/local.go:72-138 | After the last save, and with at most one such request since, a restart gives back the store as it was if and only if there was none |
| Durability.RefusedUpdateIsLost | internal/api/app_handlers.go:419-429 | A run from a fresh daemon: refused new ports stay in memory while the state file has the old ones |
| Durability.FailedResizeIsLost | internal/api/project_handlers.go:351-441 | A run from a fresh daemon: the resources of a failed resize stay in memory while the state file has the old ones |
| DerivedRoutes.KeyInjective | internal/api/app_handlers.go:466-477 | With dot-free hostnames a key determines hostname and domain |
| DerivedRoutes.DotFreeCollisions | internal/api/app_handlers.go:466-477 | With dot-free hostnames keys collide if and only if two apps share hostname and domain |
| DerivedRoutes.DottedHostnamesCollide | internal/api/app_handlers.go:466-477 | A dotted hostname collides with somebody else's longer domain |
| DerivedRoutes.RebuildIsDerived | internal/api/server.go:131-147 | Without collisions a table is a rebuild of the empty table if and only if it holds exactly the derived routes, whatever the map order |
| DerivedRoutes.RebuildCovers | internal/api/server.go:131-147 | A rebuild has every key the maintained table had, if each project with a route has an address and each such app a port |
| RouteSync.StepKeepsSync | internal/api/app_handlers.go:152-509 | From a world in which the table is exactly the derived one, and without colliding keys, a request keeps it so if and only if it satisfies a guard: a stopped or new app derives no route, a deployment has an address or nothing to register, a start keeps the address or there is nothing to route to, an app update gives hostname or availability or leaves the first port or is not exposed, a deletion takes along no other project's instance; all other requests always do |
| RouteSync.RunKeepsSync | internal/api/server.go:131-147 | Over every run of a fresh daemon without colliding keys, the table is the derived one all along if and only if every request satisfied the guard |
| RouteWitnesses.DerivedButNotBound | internal/api/app_handlers.go:215-255 | A run from a fresh daemon after which the store derives a route that the table lacks: create, deploy, stop |
| RouteWitnesses.BoundButNotDerived | internal/api/app_handlers.go:397-400 | A run from a fresh daemon after which the table has a route the store does not derive: create, deploy, edit the ports |
| RouteWitnesses.DomainUpdateCuts | internal/api/project_handlers.go:554-575 | A run from a fresh daemon in which a domain update of one project removes the route of another whose key collides |
| DerivedRoutes.DomainUpdateAtKey | internal/api/project_handlers.go:554-575 | With or without collisions, after a domain update a key is as the store derives it if and only if the project has an address and serves an app under it, or it was the project's and no other project derives it, or it was not and was right before |
| DerivedRoutes.DomainUpdateIsExact | internal/api/project_handlers.go:554-575 | Without collisions, after a domain update the project's old and new keys are bound exactly as derived, not at all if it has no address |
| DerivedRoutes.DomainUpdateIsLocal | internal/api/project_handlers.go:554-575 | A domain update changes no key of another project |
| DerivedRoutes.DeployedAppIsRouted | internal/api/app_handlers.go:152-213 | A deployed, available app is routed under every domain at the derived target |
| DerivedRoutes.ChangedAppIsRerouted | internal/api/app_handlers.go:481-496 | Reconciling binds every derived key of the changed app and drops the keys of its former hostname unless it still serves them |
| Servers.Server.GetProject | internal/shared/state/local.go:181-198 | The scan over projects finds by ID or name exactly when there is one |
| Servers.Server.GetInstance | pkg/domain/entities/state.go:60-67 | The scan finds the instance of a project exactly when there is one |
| Servers.Server.HasName | internal/shared/state/local.go:141-178 | The scan finds a taken project name exactly when it is taken |
| Servers.Server.RegisterAppRoutes | internal/api/app_handlers.go:466-477 | The loop over domains binds exactly the app's keys |
| Servers.Server.RemoveAppRoutes | internal/api/app_handlers.go:499-509 | The loop over domains removes exactly the app's keys |
| Servers.Server.ReconcileAppRoutes | internal/api/app_handlers.go:481-496 | Old keys out, new keys in when available and addressed |
| Servers.Server.ReconcileRoutesOnDomainChange | internal/api/project_handlers.go:554-575 | Two nested loops: all keys of the old domains out, all available apps registered again |
| Servers.Server.RebuildRoutes | internal/api/server.go:131-147 | The nested loops produce a rebuilt table for every iteration order |
| Servers.Server.Accepts | internal/shared/state/local.go:72-122 | The checks of `load`, loop by loop, accept exactly the loadable states |
| Servers.Server.Reopen | cmd/goship/commands/server.go:97-103 | A daemon start: load or refuse, then rebuild from an empty table |
| Servers.Server.HandleProjectCreate | internal/api/project_handlers.go:37-101 | The create handler is the specified step, with the machine failing or coming up |
| Servers.Server.HandleProjectDelete | internal/api/project_handlers.go:122-174 | The delete handler: routes, then instance, then project |
| Servers.Server.HandleProjectStart | internal/api/project_handlers.go:219-264 | The start handler: a new address for the instance |
| Servers.Server.HandleProjectUpdate | internal/api/project_handlers.go:351-455 | The resource update handler, including what a refused size or a failed resize leaves changed in memory |
| Servers.Server.HandleEnvSet | internal/api/env_handlers.go:27-76 | A handler that saves the whole state and changes nothing else that is modelled; a refused environment or a failing vault saves nothing |
| Servers.Server.HandleDomainsUpdate | internal/api/project_handlers.go:512-552 | The domain update handler |
| Servers.Server.HandleAppCreate | internal/api/app_handlers.go:54-130 | The app create handler with its validations |
| Servers.Server.HandleAppUpdate | internal/api/app_handlers.go:365-463 | The app update handler, including what a refused restart policy leaves changed in memory |
| Servers.Server.HandleAppDeploy | internal/api/app_handlers.go:152-213 | The deploy handler |
| Servers.Server.HandleAppStop | internal/api/app_handlers.go:215-255 | The stop handler |
| Servers.Server.HandleAppDelete | internal/api/app_handlers.go:257-298 | The app delete handler |
| Substitution.MatchIsLongest | internal/compose/substitute.go:10 | The matcher finds the longest reference of the pattern's language at a place, and none only if there is none |
| Substitution.ScanSplits | internal/compose/substitute.go:25-53 | Every string splits into leftmost-first references and single characters that concatenate back to it |
| Substitution.ScanUnique | internal/compose/substitute.go:25-53 | That split is the only leftmost-first one |
| Substitution.ScanSplitsAtBoundary | internal/compose/substitute.go:25-53 | Two texts can be scanned apart if and only if no reference runs across the seam |
| Substitution.ResolveIsPiecewise | internal/compose/substitute.go:25-53 | The result is the concatenation of the pieces' values; inserted values are never scanned |
| Substitution.ResolveSplits | internal/compose/substitute.go:25-53 | Resolution splits at every seam no reference runs across |
| Substitution.DefaultForm | internal/compose/substitute.go:28-38 | `${name:-default}` is the value if set and not empty, else the default |
| Substitution.BracedForm | internal/compose/substitute.go:39-43 | `${NAME}` is the value in the context, else in the environment, else nothing |
| Substitution.BareForm | internal/compose/substitute.go:46-51 | `$NAME` is the same |
| Substitution.NamesAreAscii | internal/compose/substitute.go:10 | Which characters a name is made of |
| Substitution.NoReference | internal/compose/substitute.go:10 | Empty braces, a digit after the dollar sign and text without one stay as they are |
| Substitution.CutAt | internal/compose/substitute.go:32 | The first place of the separator, the end of the text if there is none |
| Substitution.SubstituteVars | internal/compose/substitute.go:16-22 | The loop resolves every value and keeps the keys |
| Sizes.RoundTrip | cmd/goship/commands/deploy.go:511-519 | For every 64-bit n, parsing the printed size gives n if and only if n > 0; zero is refused as invalid, negatives as negative |
| Sizes.DecimalReadsBack | internal/shared/size/parse.go:24-34 | A number in decimal is read as itself if it has 64 bits, else refused |
| Sizes.GigabytesExact | internal/shared/size/parse.go:36-44 | The G branch gives the exact product if and only if the value is at most (2^63 - 1) / 1024, and always a 64-bit number that is the product modulo 2^64 |
| Sizes.MegabytesExact | internal/shared/size/parse.go:24-34 | A number with `M`, `m` or no suffix is taken as it is, and refused if negative |
| Sizes.NoNumber | internal/shared/size/parse.go:13-17 | Blank text is an empty size, a suffix behind no number an invalid one |
| Sizes.PlusIsIgnored | internal/shared/size/parse.go:24-34 | A plus sign does not matter |
| Sizes.SpacesAre | internal/shared/size/parse.go:13-17 | Blanks, tabs and newlines are white space, what sizes are made of is not |
| Sizes.ShownAs | cmd/goship/commands/deploy.go:511-519 | Whole gigabytes are shown as such, 0 as the default, everything else in megabytes |
| Sizes.AcceptedButNegative | internal/shared/size/parse.go:36-44 | 2^53 gigabytes is accepted and becomes -2^63 |
| Sizes.SurroundingSpaceIsIgnored | internal/shared/size/parse.go:13-17 | White space around a size never matters |
| Sizes.FormatInjective | cmd/goship/commands/deploy.go:511-519 | No two sizes print alike |
| LogTail.ReadLastNLines | internal/init/init.go:284-314 | The shifting buffer returns the lines that come last, n of them or all when there are fewer, joined by newlines, and fails exactly on a line too long for the scanner |
| LogTail.Shift | internal/init/init.go:295-302 | One line enters the buffer in place at the end; when full every line moves down one place and the oldest leaves |
| LogTail.Requested | internal/init/init.go:230-234 | A logs command asks for the lines it says, or 100 if that is no positive number |
| LogTail.LinesMakeText | internal/init/init.go:284-314 | Joining the lines of a text without carriage returns gives the text back, but for a last newline |
| LogTail.OneLineIsReadable | internal/init/init.go:284-314 | A line is too long from 65536 characters on |
| LogTail.PrintNewContent | internal/agent/runtime/libvirt/runtime.go:316-333 | The host loop prints the slices past its offset |
| LogTail.ReadingsGrow | internal/init/init.go:284-314 | While an append-only log has at most n lines an earlier reading is a prefix of a later one |
| LogTail.PrintedIsWhole | internal/agent/runtime/libvirt/runtime.go:316-333 | However an append-only log is cut into readings and whichever fail, the slices printed add up to the whole log if and only if it has at most as many lines as one reading asks for and no line is too long for the scanner, or the one that is was read just before the carriage return that made it so |
| LogTail.LongBootLog | internal/agent/runtime/libvirt/runtime.go:316-333 | A boot log of more than 100 lines is not printed whole, in whatever readings it comes |
| LogTail.OverlongBootLog | internal/init/init.go:284-314 | A run in which one overlong line keeps the whole log from being printed |
| Framing.Listen | internal/init/comm.go:157-197 | The listen loop answers every line heard, in order: with the reply of the handler registered for its action, or that the action is unknown, or that it is no command; it ends with the specified exit |
| Framing.OneLinePerNewline | internal/init/comm.go:157-197 | While the loop runs, the lines answered are as many as the newlines read |
| Framing.LineSinceBoundary | internal/init/comm.go:157-216 | A line is what was read since the last newline or transient error |
| Framing.ErrorDecides | internal/init/comm.go:159-170 | After a failed read the loop goes on exactly at an end of file or I/O error of a character device; otherwise it ends, without error exactly at an end of file |
| Framing.ReadErrorCuts | internal/init/comm.go:159-170 | A failed read of the guest can happen at any time and loses exactly what it had of the line |
| Framing.VMCommunicator.SendCommand | internal/agent/runtime/libvirt/comm.go:42-78 | One call, byte by byte, for every interleaving with the guest and every failure of write and read: the write, then every turn that can happen until the line is there, then the deadline if it is not. It adds its command exactly if the write was complete, and records the text it returns as its own call's result, or one timeout; that text lacks exactly the bytes of the line that earlier calls had read |
| Framing.AllTaken | internal/agent/runtime/libvirt/comm.go:42-78 | A schedule that can happen while a call waits is the one that happens |
| Framing.StepKeepsInv | internal/agent/runtime/libvirt/comm.go:42-78 | Every byte moved, every error on either side and every timeout keeps the session invariant |
| Framing.HandlerAnswers | internal/agent/runtime/libvirt/comm.go:42-78 | For every guest and registered action, a run in which the caller gets what the handler returns for its command |
| Framing.ShortSendPrecedes | internal/agent/runtime/libvirt/comm.go:59-62 | What a failed write got out stands in front of the next command, in one line |
| Framing.OwnReply | internal/agent/runtime/libvirt/comm.go:42-78 | Without timeouts and failed writes every call gets the reply to its own line; the guest saw all of that line if and only if no read failed inside it |
| Framing.OwnReplyExactly | internal/agent/runtime/libvirt/comm.go:42-78 | Under all faults the k-th call to return reads the k-th complete reply line, whose reply is to its own line if and only if the timeouts before it are as many as the lost replies; the text it returns is that reply, whole and alone, if and only if the deadlines inside the line took as many bytes as lost replies had left in front of it |
| Framing.TimeoutShiftsReplies | internal/agent/runtime/libvirt/comm.go:42-78 | If the guest loses no reply, a call after t timeouts reads the reply to the line t places earlier, the whole of it if and only if no deadline took bytes of that line, else what is left of it; no later call is less far behind |
| Framing.StaleReply | internal/agent/runtime/libvirt/comm.go:64-67 | For every guest and every two commands, a timeout of the first before the guest has answered makes the second call return the reply to the first, whole |
| Framing.LostReplyGarblesNext | internal/init/comm.go:219-234 | A run in which one byte of a lost reply stands in front of the next caller's reply, which it gets with that byte |
| Framing.DeadlineCutsReply | internal/agent/runtime/libvirt/comm.go:64-67 | A run in which a deadline passes inside a reply line and the next caller gets what is left of it |
| Framing.CallReturns | internal/agent/runtime/libvirt/comm.go:42-78 | Without further faults a waiting call returns, if its reply line is written already, or the guest runs and lost no more replies than calls gave up |
| Framing.CallReturnsExactly | internal/agent/runtime/libvirt/comm.go:42-78 | A waiting call returns in some continuation without faults if and only if its reply line is written already, or the guest runs and lost no more replies than calls gave up |
| Framing.LostReplyHangs | internal/init/comm.go:219-234 | A run after which a call waits for a lost reply: no continuation without faults ends it |
| Framing.NeverStuck | internal/agent/runtime/libvirt/comm.go:64-67 | A waiting call has a byte to read if a complete line is unread; otherwise the guest has one, unless more replies were lost than calls gave up |

## Left out

- Supervisor: critical sections that do not block are one step; `managedProcess` pointers are indices into a growing sequence; pid and log files, environments, and working directories are left out (a failure in any of them is a launch that does not start). A specification that validation refuses is no step of the transition system; `Deploy` returns before it takes the mutex. Process exits, failing starts and the 10 s kill timeout are nondeterministic; backoff is a number of seconds.
- Supervisor: the read lock of the status call is treated like the write lock. A live process is the one the supervisor started; what that process has started itself is not tracked, since the signals of `stopProcess` go to the process and not to its group. `ExecutorManager`, which returns as soon as Docker reports success, is not modelled; the stop theorems are about `ProcessManager`.
- Transfer: no other program touches the agent's directories, so an open file is its path; directories always have room to be created or fail as a step; base64 is a decoded payload or a decoding failure; SHA-256 is a parameter; a Docker load takes all bytes or none. `Size` is only checked to be positive, as in the code, and its later storage is not modelled.
- Transfer: the three copies of the begin, data and finish handlers are one function with the action as a parameter; where they differ (destinations, commit, cleanup) it branches.
- Host: the progress output and the text of errors.
- Store and routes: handlers are atomic and saves succeed; concurrent handlers that change shared entities are outside the claims. A JSON round trip is the identity. Resources are one value, as are binary, environment, description and tags of an app. Nodes, registry, project environments and the default domain change neither routes nor reloading; a handler that saves only those is a `Touch`, and one that saves twice is two. The recorded state of a machine and timestamps are not represented; they change in memory without a save. Restarting a machine is starting it. The restart branch of `handleUpdateInit` (internal/api/upload_handlers.go:125-155) starts the machine and saves no new address; it is not a request, since the handler passes an empty checksum before it, which every agent refuses (`Host.EmptyChecksumRefused`), so that the branch is never reached. The command line tool, which opens the store in a process of its own, is not modelled.
- Store and routes: a server without a runtime or without a route table (both `nil`), reads of the table by the proxy, and the sorting of `RouteTable.All`.
- Substitution: the regular expression library; its pattern is a concrete matcher whose language is stated separately. The host environment does not change during one call.
- Sizes: the wording of errors; text is a sequence of characters, so invalid UTF-8 is not represented.
- LogTail: opening the file and its read errors, the path check of the logs command, and how the console prefixes lines and skips empty ones; a slice that starts inside a line is printed as it is.
- Framing: the guest's moves during a call are an argument of `SendCommand`, which stands for every interleaving; a broken guest is not restarted; dialling a new connection is not part of the model, nor is what a dialled socket has left over.
- Framing: marshalling cannot fail and yields no raw newline (JSON escapes it); a reply that cannot be written is written up to some byte.
- libvirt, QEMU, cloud-init, Docker calls, HTTP routing, compose parsing, name-prefix helpers and the reconciler loop: foreign calls or easy members.
