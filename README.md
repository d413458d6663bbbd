# keiji CLI service and task lifecycle, in Dafny

keiji is a task scheduler. Its CLI starts, stops, restarts, installs and
uninstalls two background services, the scheduler and the TCP bus. It also
reports their status and disables, deletes or restarts tasks by asking the
bus. This project models that lifecycle layer as it is written in
`cli/execute.go`, next to the older variant in `main.go`, together with the
CLI's own error types from `errors/errors.go`.

The operating system is one mutable object, `Environment.Env`. Its fields are:

- the effective user id and the Go path;
- the set of existing paths and the entries of the module-cache directory;
- the PID directory and the PID files;
- the processes that accept a signal from the CLI (`live`) and those that refuse one (`foreign`);
- the task repository;
- append-only logs of the effects the CLI causes: interrupts, launches, go commands, bus calls and removals.

Its value is `Env.State()`, a `World`. What the CLI cannot see or decide is
read from a `Script`:

- what launching a service yields;
- what each liveness check after an interrupt observes;
- what `go install` and `go clean -modcache` do;
- what the bus answers;
- which paths cannot be removed.

Every command is a specification function from a `World` to a `Step` (the
new world and the returned `error`), and its properties are proved as
postconditions and lemmas. A method performs the command on an `Env` with
the source's own loops, and is proved to follow that function. Every step
function keeps a world `Coherent` (a PID file exists only inside the PID
directory), so an `Env` built from a coherent world stays coherent through
every method.

Modules:

- `CmdErrors` (errors.dfy): the error values, `Error()`, both `Is` methods, the constructors, `errors.Is`.
- `Text` (text.dfy): PID-file parsing (`ReadBytes('\n')`, `ReplaceAll`, `strconv.Atoi` with its 64-bit range check), `strconv.Itoa`, `strings.Contains`, `strings.EqualFold`, path joining.
- `Registry` (registry.dfy): the fixed services and their repositories and logs, binary naming, the package-deletion test, `valid`, the editor choice.
- `Environment` (environment.dfy): the world, the `Env` class, `readPID`, `isServiceRunning`, the primitive effects, the stop-at-first-error batch loop.
- `Cli` (cli.dfy): the commands of `cli/execute.go`.
- `LegacyMain` (legacy.dfy): the commands of `main.go` that differ, with lemmas stating each difference.

`readPID`, `isServiceRunning`, `valid`, `disableTask`, `restartTask` and
the first half of `stopService` are the same code in both files. Each is
modelled once, and its row below cites `cli/execute.go`. `uninstallService`
reads the same in both files but calls each file's own `getServicePath`, so
`main.go`'s copy is modelled separately. `getServiceLogPath`, `handleGetLogs` and `OpenInEditor`
differ between the files and are modelled for `cli/execute.go` only (see
"Left out").

The source uses `cmdErrors.ErrServiceNotFound` (`cli/execute.go:194`, `:383`,
`:396`; `main.go` likewise), but `errors/errors.go` does not declare it. The
model treats it as a sentinel value, `ServiceNotFound`, that `errors.Is`
compares by identity.

## Model

| member | source | states |
|---|---|---|
| CmdErrors.Message | errors/errors.go:11-31 | `Error()` of both error types returns exactly the stored message |
| CmdErrors.NewPIDNotFound | errors/errors.go:16-18 | builds a PIDNotFound whose message is "PID file not found" |
| CmdErrors.NewWorkSpaceInitError | errors/errors.go:32-34 | builds a WorkSpaceInitError whose message is the argument |
| CmdErrors.Is | errors/errors.go:20-39 | each `Is` method matches a target exactly when it has the same type, whatever the messages |
| CmdErrors.ErrWorkSpaceInit | errors/errors.go:42-46 | always a WorkSpaceInitError; a format without verbs and no arguments becomes its message verbatim |
| CmdErrors.Sprintf | errors/errors.go:44 | a format with no `%` and no arguments is printed verbatim |
| CmdErrors.ErrorsIs | cli/execute.go:194 | `errors.Is` matches the two custom types by type and ServiceNotFound by identity only |
| CmdErrors.KindsNeverMatch | errors/errors.go:20-46 | a PIDNotFound never matches a WorkSpaceInitError or the reverse; each matches its package-level value |
| Text.Atoi | cli/execute.go:895 | succeeds exactly on an optionally signed, non-empty decimal in the int64 range, with its value; otherwise a NumError naming the input |
| Text.ReadLine | cli/execute.go:891 | the text up to and including the first newline; none when there is no newline |
| Text.ParsePidText | cli/execute.go:886-901 | no newline yields EOF; otherwise the result is Atoi of the text before the first newline, so only the first line counts; a success lies in the int64 range |
| Text.StripNewlines | cli/execute.go:895 | `ReplaceAll(s, "\n", "")` keeps exactly the characters of s other than newline |
| Text.Itoa | cli/execute.go:1076 | the decimal form of an int, whose decimal value is that int and which holds no newline |
| Text.PidLine | cli/execute.go:1076 | what `echo $!` writes is one line whose newline-free text is the decimal PID |
| Text.AtoiItoa | cli/execute.go:895 | parsing the decimal form of any int64 gives it back |
| Text.PidLineRoundTrip | cli/execute.go:1076 | what `echo $! > pidfile` writes reads back through readPID's parse as the same PID, whatever follows it |
| Text.Contains | cli/execute.go:426 | `strings.Contains` holds exactly when the needle occurs at some offset |
| Text.EqualFold | cli/execute.go:372 | equal strings fold equal; strings that fold equal have the same length |
| Registry.ServiceRepo | cli/execute.go:40-43 | a repository URL exists exactly for the two registered services |
| Registry.InstallTarget | cli/execute.go:229 | `go install` gets the repository URL followed by `@main` |
| Registry.ServiceLogsMapping | cli/execute.go:33-37 | the scheduler maps to its log file, the bus to the bus log file, any other name to the empty path |
| Registry.ServiceLogPath | cli/execute.go:847-856 | a log path exactly for a registered service, its mapped path; otherwise the "invalid service name" error |
| Registry.IsMainProgram | cli/execute.go:372 | `EqualFold(s, "keiji")` holds exactly for the five-letter case variants, including the Kelvin sign for k |
| Registry.BinaryName | cli/execute.go:365-378 | `keiji` exactly for a spelling of "keiji", otherwise `keiji-` followed by the service name |
| Registry.BinaryPath | cli/execute.go:365-386 | the binary name directly inside `<GOPATH>/bin` |
| Registry.BinaryPathInjective | cli/execute.go:365-386 | two services share a binary path only when both are spellings of "keiji" |
| Registry.RegisteredBinariesDistinct | cli/execute.go:365-386 | scheduler, bus and CLI binaries are three different paths |
| Registry.PkgPath | cli/execute.go:350-356 | the project's directory in the module cache, `<GOPATH>/pkg/mod/github.com/aodr3w` |
| Registry.PkgEntryDoomed | cli/execute.go:426 | with Go's precedence, a directory naming "keiji" or any entry naming "logger" is deleted; a file named logger.go is deleted |
| Registry.Valid | cli/execute.go:1045-1060 | non-empty strings and services, ints from 1, every bool, exactly the three editors, nothing else |
| Registry.ChosenEditor | cli/execute.go:971-981 | the last set flag wins in the order code, vim, nano; none set gives the empty editor |
| Registry.HandleGetLogs | cli/execute.go:971-993 | opens an editor exactly when a flag is set, otherwise prints the log's lines |
| Registry.HandleGetServiceLogs | cli/execute.go:963-969 | a service's logs are shown exactly when its mapped log path is non-empty; an unregistered service gets the "logs path ... not found" error |
| Environment.ReadPID | cli/execute.go:876-902 | ErrPIDNotFound exactly when the PID directory is missing; an open error for a missing PID file; otherwise the parse of that file |
| Environment.KillCheck | cli/execute.go:461 | `kill(pid, 0)` succeeds exactly for a live process, fails with EPERM for one that refuses the CLI's signals and with ESRCH otherwise |
| Environment.IsServiceRunning | cli/execute.go:454-473 | running exactly when the PID file exists, parses, and names a process that accepts signal 0; ESRCH, EPERM and read errors read as not running |
| Environment.LocateBinary | cli/execute.go:365-386 | the Go path's error, or the binary path when it exists, else ServiceNotFound |
| Environment.InstalledFrom | cli/execute.go:191-200 | installed when the path was found, not installed on ServiceNotFound, any other error passed on |
| Environment.RemoveAllStep | cli/execute.go:344 | `os.RemoveAll` removes exactly the path and every path under it and logs the removal; a failure returns the path's error, keeps the path itself and removes below it only the entries it reached before failing; either way every path outside it is kept, and the PID files and Go path are untouched |
| Environment.InterruptStep | cli/execute.go:940 | SIGINT is delivered and logged exactly when the process accepts signals; otherwise a syscall error and no change |
| Environment.RunServiceCmdStep | cli/execute.go:1062-1083 | an unregistered service is refused unchanged; a successful launch records the new PID as one decimal line in the PID file |
| Environment.RunGoStep | cli/execute.go:1085-1100 | every go command is logged; clean passes the tool's outcome on; install succeeds exactly when the tool installs |
| Environment.StopTaskStep | cli/execute.go:648 | exactly one bus call is logged and its answer returned |
| Environment.ForEach | cli/execute.go:1026-1043 | the service loop: an empty list passes unchanged; a failing first step is the loop's result; a passing loop passed its first step |
| Environment.ForEachSplit | cli/execute.go:1026-1043 | running the service loop over a list in two parts equals running it once; the second part is skipped after a failure |
| Environment.ForEachCoherent | cli/execute.go:1072 | loops of steps that keep PID files inside the PID directory keep them there |
| Environment.ForEachShrinks | cli/execute.go:393-437 | loops of removals never create a path and never change the Go path or the walked entries |
| Environment.ForEachExtend | cli/execute.go:1026-1043 | one more loop iteration either stops with that service's error or passes |
| Environment.ForEachPrefixFails | cli/execute.go:1026-1043 | once a loop iteration fails, later services are not touched |
| Environment.ForEachPair | cli/execute.go:1026-1043 | the loop over the two services, unfolded |
| Environment.Env.RemoveAll | cli/execute.go:344 | performs `os.RemoveAll` as RemoveAllStep states, partial removal on failure included |
| Environment.Env.SendInterrupt | cli/execute.go:940 | performs `syscall.Kill(pid, SIGINT)` as InterruptStep states |
| Environment.Env.ProcessExited | cli/execute.go:945-951 | the interrupted process exits between two checks |
| Environment.Env.RunServiceCmd | cli/execute.go:1062-1083 | performs runServiceCMD as RunServiceCmdStep states |
| Environment.Env.RunGo | cli/execute.go:1085-1100 | performs runCMD for the go tool as RunGoStep states |
| Environment.Env.StopTask | cli/execute.go:648 | performs `bc.StopTask` as StopTaskStep states |
| Environment.Env.DeleteTaskRecord | cli/execute.go:669 | the repository drops exactly the named task |
| Cli.ServicePath | cli/execute.go:365-386 | found exactly when the service's binary exists under $GOPATH/bin, else ServiceNotFound |
| Cli.IsServiceInstalled | cli/execute.go:191-200 | with a Go path, installed exactly when the binary exists; a Go-path error is passed on |
| Cli.StartStep | cli/execute.go:858-875 | a running service is left alone; otherwise succeeds exactly when a registered service's launch spawns, recording its PID and launch; a failure changes nothing |
| Cli.StartThenRunning | cli/execute.go:858-875 | after a successful start the service runs, unless the launched process died at once |
| Cli.StartIdempotent | cli/execute.go:860-864 | a second start after a successful one changes nothing |
| Cli.StartKeepsOthersRunning | cli/execute.go:858-875 | starting one service never stops another |
| Cli.FirstExit | cli/execute.go:945-953 | the first check that sees the service gone; none exactly when all MaxRetries checks see it running |
| Cli.InterruptService | cli/execute.go:926-943 | gets through to SIGINT exactly when the service is running, recording only the interrupt; otherwise the pid-path, read or kill error |
| Cli.StopStep | cli/execute.go:926-954 | succeeds exactly when the service ran and exited within 10 checks, after which it no longer runs; otherwise the timeout error with the service still running; PID files are untouched and PID files stay inside the PID directory |
| Cli.StopKeepsOthersStopped | cli/execute.go:926-954 | stopping one service never starts another |
| Cli.RestartStep | cli/execute.go:914-925 | a service that is not running is left alone; a stop that times out returns the timeout error with no launch, the PID file untouched and the service running; after a stop that succeeds, the result is the start from the stopped world |
| Cli.RestartRelaunches | cli/execute.go:914-925 | a successful restart interrupts the old PID, records the new one, logs one launch and leaves a surviving service running |
| Cli.StartAll | cli/execute.go:1026-1034 | starting all services never stops a process, never interrupts one, and keeps PID files inside the PID directory |
| Cli.StopAll | cli/execute.go:1035-1043 | stopping all services never launches a process and never touches a PID file; processes only disappear |
| Cli.RestartAll | cli/execute.go:903-913 | restarting all services touches no file, no Go path and issues no go command |
| Cli.StartAllRunsAll | cli/execute.go:1026-1034 | a successful start-all with surviving launches leaves every service running |
| Cli.StopAllStopsAll | cli/execute.go:1035-1043 | a successful stop-all leaves no service running |
| Cli.RestartAllIdle | cli/execute.go:903-913 | with nothing running, restart-all changes nothing and succeeds |
| Cli.StartService | cli/execute.go:858-875 | performs startService as StartStep states |
| Cli.SignalService | cli/execute.go:926-943 | performs stopService's interrupt as InterruptService states |
| Cli.StopService | cli/execute.go:926-954 | the polling loop performs stopService as StopStep states |
| Cli.RestartService | cli/execute.go:914-925 | performs restartService as RestartStep states |
| Cli.StartAllServices | cli/execute.go:1026-1034 | the loop follows the stop-at-first-error start of every service |
| Cli.StopAllServices | cli/execute.go:1035-1043 | the loop follows the stop-at-first-error stop of every service |
| Cli.RestartAllServices | cli/execute.go:903-913 | the loop follows the stop-at-first-error restart of every service |
| Cli.InstallStep | cli/execute.go:202-243 | an installed service without update is left alone; a lookup error is returned unchanged; installing a missing service needs a registered one and issues its `go install`; an update whose go commands succeed is the restart from the world after `go install`; without update no process, PID file, launch or interrupt changes; with no cache cleaning only installs are issued |
| Cli.BuildStep | cli/execute.go:211-242 | a failing cache cleaning or `go install` (or an unregistered service) fails with no process effect; otherwise without update the result is the world after `go install`, and with update the restart from that world; success puts the binary in place |
| Cli.AfterGoInstall | cli/execute.go:211-232 | the optional `go clean -modcache` and the `go install` are logged in that order and touch no process, PID file, launch or interrupt |
| Cli.InstallThenInstalled | cli/execute.go:202-243 | when `go install` writes the binary where getServicePath looks, a successful install leaves the service installed |
| Cli.UpdateRelaunchesRunning | cli/execute.go:236-241 | updating a running service whose install succeeds interrupts its old PID, logs one launch and records the new PID |
| Cli.UpdateLeavesIdleServiceAlone | cli/execute.go:236-241 | updating a service that is not running launches, interrupts and records nothing |
| Cli.InstallAll | cli/execute.go:314-329 | a failed cache cleaning ends install-all with that error after one clean command; without cleaning only installs are issued |
| Cli.InstallAllCleansOnce | cli/execute.go:314-333 | install-all cleans the module cache at most once, first, and otherwise only installs |
| Cli.InstallBatchInstallsOnly | cli/execute.go:322-327 | the per-service installs of install-all never clean the cache |
| Cli.InstallService | cli/execute.go:202-243 | performs InstallService as InstallStep states |
| Cli.InstallAllServices | cli/execute.go:314-329 | performs installAllServices as InstallAll states |
| Cli.InstallEach | cli/execute.go:322-327 | the loop follows the stop-at-first-error install of every service |
| Cli.UninstallServiceStep | cli/execute.go:338-345 | a success removes the binary; a missing binary gives ServiceNotFound and no change; nothing is ever created; PID files are untouched |
| Cli.SkipMissing | cli/execute.go:394-401 | a ServiceNotFound failure counts as a pass; every other outcome, error value included, is returned as it was |
| Cli.PkgPathOf | cli/execute.go:350-364 | the project's module-cache directory when it exists, else PathNotFound for it |
| Cli.WalkStep | cli/execute.go:419-435 | a doomed entry is gone after a passing visit; other entries are left alone |
| Cli.RemoveSystemFiles | cli/execute.go:403-439 | a success leaves no workspace, no system folder and no doomed package entry |
| Cli.UninstallSystemStep | cli/execute.go:387-449 | refused unchanged unless run as root; a service failure other than ServiceNotFound ends the uninstall with that failure, before any later removal; never creates a path; keeps PID files inside the PID directory |
| Cli.UninstallStopsAtServiceError | cli/execute.go:393-402 | when the scheduler's uninstall fails with anything but ServiceNotFound, the whole uninstall is exactly that failed step |
| Cli.UninstallServicesClear | cli/execute.go:393-402 | after the service loop passes, no service binary is left |
| Cli.WalkClears | cli/execute.go:419-439 | after the walk passes, no doomed entry is left |
| Cli.UninstallSystemClears | cli/execute.go:387-449 | a successful uninstall ran as root and left no service or CLI binary, workspace, system folder or doomed package entry |
| Cli.SiblingNotUnder | cli/execute.go:344 | removing an entry of a directory never removes a sibling entry |
| Cli.BinaryNamesPlain | cli/execute.go:365-386 | the service and CLI binaries are plain names without a path separator |
| Cli.UninstallKeepsOtherBinaries | cli/execute.go:338-345 | uninstalling one service or the CLI keeps the binaries of the others |
| Cli.TaskSignalStep | cli/execute.go:674-681 | a missing task gives RecordNotFound; otherwise exactly one bus call with the task's id and the given flags, and the repository is untouched |
| Cli.DisableTaskStep | cli/execute.go:643-649 | a missing task gives RecordNotFound; otherwise one bus call with the task's id and (disable, no delete), the bus answer returned and the repository untouched |
| Cli.RestartTaskStep | cli/execute.go:674-681 | a missing task gives RecordNotFound; otherwise one bus call with the task's id and neither flag, the bus answer returned and the repository untouched |
| Cli.DeleteTaskStep | cli/execute.go:651-672 | an active task is deleted through the scheduler; a disabled or failed task loses its executable and log, then its record, with no bus call; a failed removal keeps the record |
| Cli.TaskCommandsAddressTheTask | cli/execute.go:643-681 | disable and restart send the task's id with flags (true,false) and (false,false); a delete either calls the bus or removes locally, never both |
| Cli.GetServiceInfo | cli/execute.go:478-509 | reports exactly the installed registered services, online exactly when running |
| Cli.UninstallService | cli/execute.go:338-345 | performs uninstallService as UninstallServiceStep states |
| Cli.UninstallSystem | cli/execute.go:387-449 | performs uninstallSystem as UninstallSystemStep states, the abort on a service error included |
| Cli.RemoveSystem | cli/execute.go:403-439 | the walk loop performs the removals as RemoveSystemFiles states |
| Cli.DisableTask | cli/execute.go:643-649 | performs disableTask as DisableTaskStep states |
| Cli.RestartTask | cli/execute.go:674-681 | performs restartTask as RestartTaskStep states |
| Cli.DeleteTask | cli/execute.go:651-672 | performs deleteTask as DeleteTaskStep states |
| LegacyMain.LegacyServicePath | main.go:357-371 | always looks for `keiji-<service>`; a Go-path error is passed on |
| LegacyMain.LegacyServicePathAgrees | main.go:357-371 | for every name but a spelling of "keiji" both versions find the same binary |
| LegacyMain.LegacyMissesTheCli | main.go:362 | with only the CLI's `keiji` binary present, the old lookup reports it missing |
| LegacyMain.LegacyStartStep | main.go:803-816 | launches without a running check; succeeds exactly when a registered service's launch spawns |
| LegacyMain.LegacyStartRelaunchesRunning | main.go:803-816 | starting a running service launches a second copy, where the new version does nothing |
| LegacyMain.LegacyStopLeavesRunning | main.go:862-881 | the old stop succeeds only on a running service and returns while it still runs |
| LegacyMain.LegacyRestartStep | main.go:855-861 | on a running service: the interrupt, then the old start on the world it leaves; otherwise it fails and changes nothing |
| LegacyMain.RestartOfIdleService | main.go:855-861 | on an idle service the old restart fails while the new one is a no-op |
| LegacyMain.LegacyRestartOverlaps | main.go:855-861 | the old restart never waits for the interrupted process, so in the model its PID is still live when the new launch is recorded |
| LegacyMain.LegacyStartAll | main.go:944-952 | the old start-all succeeds exactly when both launches spawn, logging both launches, whether or not the services already ran |
| LegacyMain.LegacyStopAll | main.go:953-961 | the old stop-all succeeds exactly when both services were running, and changes no process or PID file |
| LegacyMain.LegacyRestartAll | main.go:844-854 | a successful old restart-all needs the scheduler running; no file or go command is involved |
| LegacyMain.LegacyStopAllInterruptsAll | main.go:953-961 | the old stop-all succeeds only when every service was running, interrupting both |
| LegacyMain.LegacyDeleteTaskStep | main.go:625-632 | a missing task gives RecordNotFound; any other task, disabled or not, is one `StopTask(id, false, true)` request with the bus's reply; the repository is untouched |
| LegacyMain.DeleteOfActiveTaskAgrees | main.go:625-632 | for a task neither disabled nor failed, the old and new delete are the same single request |
| LegacyMain.DeleteOfDisabledTask | main.go:625-632 | for a disabled task the old delete asks the scheduler and keeps the record; the new one deletes it locally with no bus call |
| LegacyMain.LegacyUninstallServiceStep | main.go:331-337 | on success `keiji-<s>` under `$GOPATH/bin` is gone; a missing binary gives ServiceNotFound and changes nothing; removes only, never creates a path |
| LegacyMain.LegacyUninstallSystemStep | main.go:372-425 | refused unchanged unless run as root; a service failure other than ServiceNotFound ends it with that failure, before any later removal; never creates a path |
| LegacyMain.UninstallExtendsLegacy | main.go:372-425 | the new uninstaller is the old one followed by removing the CLI's binary, with the same failures before that |
| LegacyMain.LegacyStartService | main.go:803-816 | performs the old startService as LegacyStartStep states |
| LegacyMain.LegacyRestartService | main.go:855-861 | performs the old restartService as LegacyRestartStep states: interrupt, then start |
| LegacyMain.LegacyStartAllServices | main.go:944-952 | the loop follows the old start of every service |
| LegacyMain.LegacyStopAllServices | main.go:953-961 | the loop follows the old stop of every service |
| LegacyMain.LegacyRestartAllServices | main.go:844-854 | the loop follows the old restart of every service |
| LegacyMain.LegacyDeleteTask | main.go:625-632 | performs the old deleteTask as LegacyDeleteTaskStep states: always the forward to the scheduler |
| LegacyMain.LegacyUninstallService | main.go:331-337 | performs the old uninstallService as LegacyUninstallServiceStep states |
| LegacyMain.LegacyUninstallSystem | main.go:372-425 | performs the old uninstallSystem as LegacyUninstallSystemStep states, the abort on a service error included |

## Left out

- Logging, colouring, `log.Printf` and the status table's printing are left out. `getServiceInfo` is modelled as the report map it prints.
- Time is left out: `time.Sleep(retryInterval)` between checks. Stop's checks are read from the script instead.
- `utils.PathExists` I/O errors are left out, with their "error retrieving pidPath" wrapping. A path is simply present or absent.
- `getGoPath` is not part of this model. The world holds its answer.
- `paths.PID_PATH`, `paths.WORKSPACE`, `paths.SYSTEM_ROOT`, `paths.SCHEDULER_LOGS` and `paths.BUS_LOGS` are not part of this model. They are given as a `Layout`.
- `c.SCHEDULER` and `c.TCP_BUS` are not part of this model. They are the strings "scheduler" and "tcp-bus", in that order in `c.SERVICES`.
- `logging.NewFileLogger`, `os.MkdirAll` and the `sh -c` launch are one scripted outcome per service. The log file, and a PID file left by a failing shell, are not modelled.
- `runCMD`'s error text is not modelled. The script gives the error runCMD returns. `go clean -modcache` does not change the modelled paths.
- The bus client, the task repository's storage and `utils.DeleteTaskExecutable`/`DeleteTaskLog` are not part of this model. The bus is one scripted answer, a task lookup fails only as RecordNotFound, and the two file deletions are removals that may fail.
- Repository errors from `cmdRepo.DeleteTask` are not modelled.
- `filepath.WalkDir` is a pre-ordered list of entries. An entry under an already-removed directory is passed over, as the callback ignores "no such file or directory". Other walk errors are not modelled.
- PID files are kept apart from the path set, so removing the system folder does not remove them.
- Environment.RemoveAllStep: which entries a failing `os.RemoveAll` has already removed is given by the script, not derived from permissions or the order of the directory listing, and the error is always `unlinkat` on the path itself rather than on the entry that failed.
- `strings.EqualFold` folds ASCII letters and the Kelvin sign only. No other Unicode folding is modelled.
- `filepath.Join` is plain "/" concatenation, without path cleaning.
- `OpenInEditor` and `utils.GetLogLines` run external programs and read files. Only the choice between them is modelled.
- Cobra command wiring and the task scaffolding commands are outside the lifecycle core and are left out.
- main.go's `InstallService`, `isServiceInstalled`, `getServiceInfo`, `disableTask`, `restartTask` and `runServiceCMD` are not modelled separately. Apart from logging they are the same as cli/execute.go's, and only main.go's InstallService update path reaches main.go's restart.
- main.go's `getServiceLogPath` and its log mapping (main.go:30-34, 792-802) are left out: they give the bus the log file `paths.TCP_BUS_LOGS` where cli/execute.go uses `paths.BUS_LOGS`. Log locations are given as a `Layout`, so the difference is one of the core library's constants.
- main.go's `handleGetLogs` and `OpenInEditor` (main.go:898-942) are left out: main.go always opens vim and nano through osascript, while cli/execute.go:995-1017 switches on the operating system (the editor directly on linux, osascript on darwin, an error elsewhere). Both run external programs; only the editor choice is modelled.
- Environment.KillCheck: `kill` with a pid of 0 or a negative pid (a process-group or broadcast signal) and the truncation of a 64-bit PID to the 32-bit `pid_t` are not modelled. A PID names one process here.
- Environment.IsServiceRunning: the same `kill(pid, 0)` simplification as KillCheck. A PID file holding 0 or a negative number is read as naming one process.
- Environment.InterruptStep: the same simplification for `kill(pid, SIGINT)`.
- LegacyMain.LegacyRestartOverlaps: in the model an interrupted process leaves `live` only when a later check sees it exit. The old restart never checks, so the old PID is still live. In the running system it is a race whether the old process has exited when the new one starts.
- Environment.IsServiceRunning: the error text logged for an unexpected errno is not modelled.
