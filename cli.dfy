// The service and task commands of cli/execute.go. Each command is a
// specification function from a World to a Step, with its properties as
// postconditions and lemmas, and a method that performs it on an Env and is
// proved to follow that function.

module Cli {
  import opened CmdErrors
  import opened Text
  import opened Registry
  import opened Environment

  /** `maxRetries`: how often stopService checks whether the service exited. */
  const MaxRetries: nat := 10
  const StopTimeout: string := "failed to stop service after 10 retries, run ps aux to inspect"
  const NotRoot: string := "this command must be run as root. Please use sudo"

  // ---------------------------------------------------------------- paths

  /** `getServicePath(s)`: the binary of s in $GOPATH/bin if it is there. */
  function ServicePath(w: World, s: Service): (r: Result<Path>)
    ensures w.goPath.Ok? ==> (r.Ok? <==> BinaryPath(w.goPath.value, s) in w.paths)
    ensures w.goPath.Ok? && r.Err? ==> r.error == ServiceNotFound
    ensures r.Ok? ==> w.goPath.Ok? && r.value == BinaryPath(w.goPath.value, s)
  {
    LocateBinary(w, BinaryName(s))
  }

  /** `isServiceInstalled(s)`: whether the binary is present; a Go-path failure is passed on. */
  function IsServiceInstalled(w: World, s: Service): (r: Result<bool>)
    ensures w.goPath.Ok? ==> r == Ok(BinaryPath(w.goPath.value, s) in w.paths)
    ensures w.goPath.Err? && w.goPath.error != ServiceNotFound ==> r == Err(w.goPath.error)
  {
    InstalledFrom(ServicePath(w, s))
  }

  // ---------------------------------------------------------------- start

  /** `startService(s)`: nothing when s already runs; otherwise launch it and
      read back the PID the launch recorded. */
  function StartStep(layout: Layout, sc: Script, w: World, s: Service): (st: Step)
    ensures IsServiceRunning(layout, w, s) ==> st == Step(w, Pass)
    ensures st.result.Pass? <==> IsServiceRunning(layout, w, s) || (s in SERVICES && sc.launch(s).Spawned?)
    ensures st.result.Fail? ==> st.world == w
    ensures st.result.Pass? && !IsServiceRunning(layout, w, s) ==>
              st.world.pidFiles == w.pidFiles[s := PidLine(sc.launch(s).pid)]
              && st.world.log.launches == w.log.launches + [s]
    ensures st.world.paths == w.paths && st.world.goPath == w.goPath && st.world.log.commands == w.log.commands
    ensures st.world.log.interrupts == w.log.interrupts
    ensures w.live <= st.world.live && (st.world.pidDirExists || st.world == w)
    ensures Coherent(w) ==> Coherent(st.world)
  {
    if IsServiceRunning(layout, w, s) then Step(w, Pass)
    else
      var run := RunServiceCmdStep(layout, sc, w, s);
      if run.result.Fail? then run
      else
        PidLineRoundTrip(sc.launch(s).pid, []);
        assert PidLine(sc.launch(s).pid) + [] == PidLine(sc.launch(s).pid);
        match ReadPID(layout, run.world, s)
        case Err(e) => Step(run.world, Fail(e))
        case Ok(_) => run
  }

  /** A successful start leaves the service running, unless the launched
      process died at once. */
  lemma StartThenRunning(layout: Layout, sc: Script, w: World, s: Service)
    requires StartStep(layout, sc, w, s).result.Pass?
    requires IsServiceRunning(layout, w, s) || sc.launch(s).survives
    ensures IsServiceRunning(layout, StartStep(layout, sc, w, s).world, s)
  {
    if !IsServiceRunning(layout, w, s) {
      var pid := sc.launch(s).pid;
      PidLineRoundTrip(pid, []);
      assert PidLine(pid) + [] == PidLine(pid);
    }
  }

  /** Starting twice is starting once: the second start finds the service
      running and changes nothing. */
  lemma StartIdempotent(layout: Layout, sc: Script, w: World, s: Service)
    requires StartStep(layout, sc, w, s).result.Pass?
    requires IsServiceRunning(layout, w, s) || sc.launch(s).survives
    ensures var once := StartStep(layout, sc, w, s);
            StartStep(layout, sc, once.world, s) == Step(once.world, Pass)
  {
    StartThenRunning(layout, sc, w, s);
  }

  /** Starting one service does not stop another. */
  lemma StartKeepsOthersRunning(layout: Layout, sc: Script, w: World, s: Service, t: Service)
    requires t != s && IsServiceRunning(layout, w, t)
    ensures IsServiceRunning(layout, StartStep(layout, sc, w, s).world, t)
  {
    var st := StartStep(layout, sc, w, s);
    if st.world != w {
      assert st.world.pidFiles == w.pidFiles[s := PidLine(sc.launch(s).pid)];
      assert st.world.pidFiles[t] == w.pidFiles[t];
    }
  }

  // ---------------------------------------------------------------- stop

  /** What the k-th liveness check after the interrupt sees: true while the
      process still runs; checks past the end of the list see it running. */
  predicate Observed(polls: seq<bool>, k: nat) {
    k >= |polls| || polls[k]
  }

  /** The first of the checks c .. MaxRetries-1 that sees the service gone. */
  function FirstExit(polls: seq<bool>, c: nat): (r: Option<nat>)
    requires c <= MaxRetries
    ensures r.Some? ==> c <= r.value < MaxRetries && !Observed(polls, r.value)
                        && forall k :: c <= k < r.value ==> Observed(polls, k)
    ensures r.None? <==> forall k :: c <= k < MaxRetries ==> Observed(polls, k)
    decreases MaxRetries - c
  {
    if c == MaxRetries then None
    else if !Observed(polls, c) then Some(c)
    else FirstExit(polls, c + 1)
  }

  /** The first half of `stopService(s)`: find the PID file, read it and
      send SIGINT to the recorded process. Gets through exactly when s is
      running, and then only the interrupt is recorded. */
  function InterruptService(layout: Layout, w: World, s: Service): (st: Step)
    ensures st.result.Pass? <==> IsServiceRunning(layout, w, s)
    ensures st.result.Pass? ==>
              st.world == w.(log := w.log.(interrupts := w.log.interrupts + [Interrupt(s, ParsePidText(w.pidFiles[s]).value)]))
    ensures st.result.Fail? ==> st.world == w
    ensures s !in w.pidFiles ==> st.result == Fail(Plain("pid path not found for service: " + s))
    ensures Coherent(w) ==> Coherent(st.world)
  {
    if s !in w.pidFiles then Step(w, Fail(Plain("pid path not found for service: " + s)))
    else
      match ReadPID(layout, w, s)
      case Err(e) => Step(w, Fail(Plain("error reading service PID: " + Message(e))))
      case Ok(pid) =>
        var sent := InterruptStep(w, s, pid);
        if sent.result.Fail? then Step(w, Fail(Plain("kill error: " + Message(sent.result.error))))
        else sent
  }

  /** `stopService(s)`: interrupt the recorded process, then check up to
      MaxRetries times whether it exited. Succeeds exactly when s was running
      and exited within the retries; after success it no longer runs. */
  function StopStep(layout: Layout, sc: Script, w: World, s: Service): (st: Step)
    ensures st.result.Pass? <==> IsServiceRunning(layout, w, s) && FirstExit(sc.exitPolls(s), 0).Some?
    ensures st.result.Pass? ==> !IsServiceRunning(layout, st.world, s)
    ensures s !in w.pidFiles ==> st == Step(w, Fail(Plain("pid path not found for service: " + s)))
    ensures IsServiceRunning(layout, w, s) ==>
              st.world.log.interrupts == w.log.interrupts + [Interrupt(s, ParsePidText(w.pidFiles[s]).value)]
    ensures IsServiceRunning(layout, w, s) && FirstExit(sc.exitPolls(s), 0).None? ==>
              st.result == Fail(Plain(StopTimeout)) && IsServiceRunning(layout, st.world, s)
    ensures !IsServiceRunning(layout, w, s) ==> st.world == w
    ensures st.world.pidFiles == w.pidFiles && st.world.pidDirExists == w.pidDirExists && st.world.live <= w.live
    ensures st.world.paths == w.paths && st.world.goPath == w.goPath && st.world.log.commands == w.log.commands
    ensures st.world.log.launches == w.log.launches
    ensures Coherent(w) ==> Coherent(st.world)
  {
    var sent := InterruptService(layout, w, s);
    if sent.result.Fail? then sent
    else
      var pid := ParsePidText(w.pidFiles[s]).value;
      if FirstExit(sc.exitPolls(s), 0).Some? then Step(sent.world.(live := sent.world.live - {pid}), Pass)
      else Step(sent.world, Fail(Plain(StopTimeout)))
  }

  /** Stopping one service does not start another. */
  lemma StopKeepsOthersStopped(layout: Layout, sc: Script, w: World, s: Service, t: Service)
    requires !IsServiceRunning(layout, w, t)
    ensures !IsServiceRunning(layout, StopStep(layout, sc, w, s).world, t)
  {
  }

  // ---------------------------------------------------------------- restart

  /** `restartService(s)`: nothing when s is not running; otherwise stop it
      and start it again, so a success always relaunches it. */
  function RestartStep(layout: Layout, sc: Script, w: World, s: Service): (st: Step)
    ensures !IsServiceRunning(layout, w, s) ==> st == Step(w, Pass)
    ensures IsServiceRunning(layout, w, s) ==>
              (st.result.Pass? <==> FirstExit(sc.exitPolls(s), 0).Some? && s in SERVICES && sc.launch(s).Spawned?)
    ensures IsServiceRunning(layout, w, s) && FirstExit(sc.exitPolls(s), 0).None? ==>
              && st.result == Fail(Plain(StopTimeout))
              && st.world.log.launches == w.log.launches && st.world.pidFiles == w.pidFiles
              && IsServiceRunning(layout, st.world, s)
    ensures IsServiceRunning(layout, w, s) && FirstExit(sc.exitPolls(s), 0).Some? ==>
              st == StartStep(layout, sc, StopStep(layout, sc, w, s).world, s)
    ensures st.world.paths == w.paths && st.world.goPath == w.goPath && st.world.log.commands == w.log.commands
    ensures Coherent(w) ==> Coherent(st.world)
  {
    if !IsServiceRunning(layout, w, s) then Step(w, Pass)
    else
      var stop := StopStep(layout, sc, w, s);
      if stop.result.Fail? then stop else StartStep(layout, sc, stop.world, s)
  }

  /** A successful restart of a running service interrupts the old process,
      records the new one and leaves the service running if it survives. */
  lemma RestartRelaunches(layout: Layout, sc: Script, w: World, s: Service)
    requires IsServiceRunning(layout, w, s)
    requires RestartStep(layout, sc, w, s).result.Pass?
    ensures var st := RestartStep(layout, sc, w, s);
            && Interrupt(s, ParsePidText(w.pidFiles[s]).value) in st.world.log.interrupts
            && st.world.log.launches == w.log.launches + [s]
            && st.world.pidFiles == w.pidFiles[s := PidLine(sc.launch(s).pid)]
            && (sc.launch(s).survives ==> IsServiceRunning(layout, st.world, s))
  {
    var stop := StopStep(layout, sc, w, s);
    assert stop.result.Pass?;
    assert !IsServiceRunning(layout, stop.world, s);
    var start := StartStep(layout, sc, stop.world, s);
    assert RestartStep(layout, sc, w, s) == start;
    var pid := ParsePidText(w.pidFiles[s]).value;
    assert start.world.log.interrupts == w.log.interrupts + [Interrupt(s, pid)];
    assert start.world.log.interrupts[|w.log.interrupts|] == Interrupt(s, pid);
    if sc.launch(s).survives {
      StartThenRunning(layout, sc, stop.world, s);
    }
  }

  // ---------------------------------------------------------------- all services

  function StartFn(layout: Layout, sc: Script): (World, Service) -> Step {
    (w, s) => StartStep(layout, sc, w, s)
  }

  function StopFn(layout: Layout, sc: Script): (World, Service) -> Step {
    (w, s) => StopStep(layout, sc, w, s)
  }

  function RestartFn(layout: Layout, sc: Script): (World, Service) -> Step {
    (w, s) => RestartStep(layout, sc, w, s)
  }

  /** `startAllServices`: the scheduler, then the bus; the first error ends
      the batch and is returned. Starting never stops a process. */
  function StartAll(layout: Layout, sc: Script, w: World): (r: Step)
    ensures w.live <= r.world.live && r.world.log.interrupts == w.log.interrupts
    ensures Coherent(w) ==> Coherent(r.world)
  {
    ForEachPair(StartFn(layout, sc), w, SCHEDULER, TCP_BUS);
    ForEachCoherent(StartFn(layout, sc), w, SERVICES);
    ForEach(StartFn(layout, sc), w, SERVICES)
  }

  /** `stopAllServices`: the scheduler, then the bus; the first error ends
      the batch and is returned. Stopping never launches a process and never
      touches a PID file. */
  function StopAll(layout: Layout, sc: Script, w: World): (r: Step)
    ensures r.world.log.launches == w.log.launches && r.world.live <= w.live
    ensures r.world.pidFiles == w.pidFiles && r.world.pidDirExists == w.pidDirExists
    ensures Coherent(w) ==> Coherent(r.world)
  {
    ForEachPair(StopFn(layout, sc), w, SCHEDULER, TCP_BUS);
    ForEach(StopFn(layout, sc), w, SERVICES)
  }

  /** `restartAllServices`: the scheduler, then the bus; the first error ends
      the batch and is returned. No file and no go command is involved. */
  function RestartAll(layout: Layout, sc: Script, w: World): (r: Step)
    ensures r.world.paths == w.paths && r.world.goPath == w.goPath && r.world.log.commands == w.log.commands
    ensures Coherent(w) ==> Coherent(r.world)
  {
    ForEachPair(RestartFn(layout, sc), w, SCHEDULER, TCP_BUS);
    ForEachCoherent(RestartFn(layout, sc), w, SERVICES);
    ForEach(RestartFn(layout, sc), w, SERVICES)
  }

  /** When every registered service that launches survives, a successful
      start of all services leaves all of them running. */
  lemma StartAllRunsAll(layout: Layout, sc: Script, w: World)
    requires StartAll(layout, sc, w).result.Pass?
    requires forall s :: s in SERVICES && sc.launch(s).Spawned? ==> sc.launch(s).survives
    ensures forall s :: s in SERVICES ==> IsServiceRunning(layout, StartAll(layout, sc, w).world, s)
  {
    ForEachPair(StartFn(layout, sc), w, SCHEDULER, TCP_BUS);
    var first := StartStep(layout, sc, w, SCHEDULER);
    var second := StartStep(layout, sc, first.world, TCP_BUS);
    assert first.result.Pass? && second.result.Pass?;
    assert StartAll(layout, sc, w) == Step(second.world, Pass);
    StartThenRunning(layout, sc, w, SCHEDULER);
    StartKeepsOthersRunning(layout, sc, first.world, TCP_BUS, SCHEDULER);
    StartThenRunning(layout, sc, first.world, TCP_BUS);
  }

  /** A successful stop of all services leaves none of them running. */
  lemma StopAllStopsAll(layout: Layout, sc: Script, w: World)
    requires StopAll(layout, sc, w).result.Pass?
    ensures forall s :: s in SERVICES ==> !IsServiceRunning(layout, StopAll(layout, sc, w).world, s)
  {
    ForEachPair(StopFn(layout, sc), w, SCHEDULER, TCP_BUS);
    var first := StopStep(layout, sc, w, SCHEDULER);
    var second := StopStep(layout, sc, first.world, TCP_BUS);
    assert first.result.Pass? && second.result.Pass?;
    assert StopAll(layout, sc, w) == Step(second.world, Pass);
    StopKeepsOthersStopped(layout, sc, first.world, TCP_BUS, SCHEDULER);
  }

  /** With no service running, restarting all of them changes nothing. */
  lemma RestartAllIdle(layout: Layout, sc: Script, w: World)
    requires forall s :: s in SERVICES ==> !IsServiceRunning(layout, w, s)
    ensures RestartAll(layout, sc, w) == Step(w, Pass)
  {
    ForEachPair(RestartFn(layout, sc), w, SCHEDULER, TCP_BUS);
    assert RestartStep(layout, sc, w, SCHEDULER) == Step(w, Pass);
    assert RestartStep(layout, sc, w, TCP_BUS) == Step(w, Pass);
  }

  // ---------------------------------------------------------------- methods

  method StartService(env: Env, s: Service) returns (err: Outcome)
    modifies env
    ensures env.State() == StartStep(env.layout, env.script, old(env.State()), s).world
    ensures err == StartStep(env.layout, env.script, old(env.State()), s).result
  {
    var running := IsServiceRunning(env.layout, env.State(), s);
    if running {
      return Pass;
    }
    err := env.RunServiceCmd(s);
    if err.Fail? {
      return;
    }
    var pid := ReadPID(env.layout, env.State(), s);
    match pid {
      case Err(e) => return Fail(e);
      case Ok(_) => return Pass;
    }
  }

  method SignalService(env: Env, s: Service) returns (err: Outcome)
    modifies env
    ensures env.State() == InterruptService(env.layout, old(env.State()), s).world
    ensures err == InterruptService(env.layout, old(env.State()), s).result
  {
    if s !in env.pidFiles {
      return Fail(Plain("pid path not found for service: " + s));
    }
    var read := ReadPID(env.layout, env.State(), s);
    if read.Err? {
      return Fail(Plain("error reading service PID: " + Message(read.error)));
    }
    err := env.SendInterrupt(s, read.value);
    if err.Fail? {
      return Fail(Plain("kill error: " + Message(err.error)));
    }
  }

  method StopService(env: Env, s: Service) returns (err: Outcome)
    modifies env
    ensures env.State() == StopStep(env.layout, env.script, old(env.State()), s).world
    ensures err == StopStep(env.layout, env.script, old(env.State()), s).result
  {
    ghost var w0 := env.State();
    err := SignalService(env, s);
    if err.Fail? {
      return;
    }
    var pid := ParsePidText(env.pidFiles[s]).value;
    ghost var w1 := env.State();
    var polls := env.script.exitPolls(s);
    var c := 0;
    while c < MaxRetries
      invariant 0 <= c <= MaxRetries
      invariant env.State() == w1
      invariant FirstExit(polls, c) == FirstExit(polls, 0)
    {
      if !Observed(polls, c) {
        // the process exits while the CLI waits
        env.ProcessExited(pid);
      }
      var running := IsServiceRunning(env.layout, env.State(), s);
      if !running {
        return Pass;
      }
      c := c + 1;
    }
    return Fail(Plain(StopTimeout));
  }

  method RestartService(env: Env, s: Service) returns (err: Outcome)
    modifies env
    ensures env.State() == RestartStep(env.layout, env.script, old(env.State()), s).world
    ensures err == RestartStep(env.layout, env.script, old(env.State()), s).result
  {
    var running := IsServiceRunning(env.layout, env.State(), s);
    if !running {
      return Pass;
    }
    err := StopService(env, s);
    if err.Fail? {
      return;
    }
    err := StartService(env, s);
  }

  method StartAllServices(env: Env) returns (err: Outcome)
    modifies env
    ensures env.State() == StartAll(env.layout, env.script, old(env.State())).world
    ensures err == StartAll(env.layout, env.script, old(env.State())).result
  {
    ghost var w0 := env.State();
    ghost var op := StartFn(env.layout, env.script);
    var i := 0;
    while i < |SERVICES|
      invariant 0 <= i <= |SERVICES|
      invariant ForEach(op, w0, SERVICES[..i]) == Step(env.State(), Pass)
    {
      ghost var before := env.State();
      err := StartService(env, SERVICES[i]);
      ForEachExtend(op, w0, SERVICES, i, before);
      if err.Fail? {
        ForEachPrefixFails(op, w0, SERVICES, i + 1);
        return;
      }
      i := i + 1;
    }
    assert SERVICES[..i] == SERVICES;
    err := Pass;
  }

  method StopAllServices(env: Env) returns (err: Outcome)
    modifies env
    ensures env.State() == StopAll(env.layout, env.script, old(env.State())).world
    ensures err == StopAll(env.layout, env.script, old(env.State())).result
  {
    ghost var w0 := env.State();
    ghost var op := StopFn(env.layout, env.script);
    var i := 0;
    while i < |SERVICES|
      invariant 0 <= i <= |SERVICES|
      invariant ForEach(op, w0, SERVICES[..i]) == Step(env.State(), Pass)
    {
      ghost var before := env.State();
      err := StopService(env, SERVICES[i]);
      ForEachExtend(op, w0, SERVICES, i, before);
      if err.Fail? {
        ForEachPrefixFails(op, w0, SERVICES, i + 1);
        return;
      }
      i := i + 1;
    }
    assert SERVICES[..i] == SERVICES;
    err := Pass;
  }

  method RestartAllServices(env: Env) returns (err: Outcome)
    modifies env
    ensures env.State() == RestartAll(env.layout, env.script, old(env.State())).world
    ensures err == RestartAll(env.layout, env.script, old(env.State())).result
  {
    ghost var w0 := env.State();
    ghost var op := RestartFn(env.layout, env.script);
    var i := 0;
    while i < |SERVICES|
      invariant 0 <= i <= |SERVICES|
      invariant ForEach(op, w0, SERVICES[..i]) == Step(env.State(), Pass)
    {
      ghost var before := env.State();
      err := RestartService(env, SERVICES[i]);
      ForEachExtend(op, w0, SERVICES, i, before);
      if err.Fail? {
        ForEachPrefixFails(op, w0, SERVICES, i + 1);
        return;
      }
      i := i + 1;
    }
    assert SERVICES[..i] == SERVICES;
    err := Pass;
  }

  // ---------------------------------------------------------------- install

  /** The go commands issued between two logs are all `go install`s. */
  predicate InstallsOnly(before: seq<GoCommand>, after: seq<GoCommand>) {
    before <= after && forall i :: |before| <= i < |after| ==> after[i].GoInstall?
  }

  /** Whether InstallService's go commands for s all succeed: the optional
      cache cleaning and the `go install` of its repository. */
  predicate InstallSucceeds(sc: Script, s: Service, cc: bool) {
    && s in SERVICES
    && (cc ==> sc.cleanCache.Pass?)
    && sc.goInstall(InstallTarget(ServiceRepo(s).value)).Installed?
  }

  /** The world after InstallService's optional cache cleaning and its
      `go install` of s: only files and the go log have changed, no process. */
  function AfterGoInstall(sc: Script, w: World, s: Service, cc: bool): (w': World)
    requires s in SERVICES
    ensures w'.pidFiles == w.pidFiles && w'.pidDirExists == w.pidDirExists && w'.live == w.live
    ensures w'.log.launches == w.log.launches && w'.log.interrupts == w.log.interrupts
    ensures w'.log.commands == w.log.commands + (if cc then [GoCleanModCache] else [])
                               + [GoInstall(InstallTarget(ServiceRepo(s).value))]
  {
    var cleaned := if cc then RunGoStep(sc, w, GoCleanModCache).world else w;
    RunGoStep(sc, cleaned, GoInstall(InstallTarget(ServiceRepo(s).value))).world
  }

  /** `InstallService(s, update, cc)`: nothing to do when s is installed and
      no update is asked for; otherwise build it. */
  function InstallStep(layout: Layout, sc: Script, w: World, s: Service, update: bool, cc: bool): (st: Step)
    ensures IsServiceInstalled(w, s).Err? ==> st == Step(w, Fail(IsServiceInstalled(w, s).error))
    ensures IsServiceInstalled(w, s) == Ok(true) && !update ==> st == Step(w, Pass)
    ensures IsServiceInstalled(w, s) == Ok(false) && st.result.Pass? ==>
              s in SERVICES && GoInstall(InstallTarget(ServiceRepo(s).value)) in st.world.log.commands
    ensures IsServiceInstalled(w, s).Ok? && s !in SERVICES && (update || !IsServiceInstalled(w, s).value) ==>
              st.result.Fail?
    ensures update && IsServiceInstalled(w, s).Ok? && InstallSucceeds(sc, s, cc) ==>
              st == RestartStep(layout, sc, AfterGoInstall(sc, w, s, cc), s)
    ensures !update ==>
              && st.world.log.interrupts == w.log.interrupts && st.world.log.launches == w.log.launches
              && st.world.pidFiles == w.pidFiles && st.world.pidDirExists == w.pidDirExists && st.world.live == w.live
    ensures !cc ==> InstallsOnly(w.log.commands, st.world.log.commands)
    ensures st.world.goPath == w.goPath && w.paths <= st.world.paths
    ensures Coherent(w) ==> Coherent(st.world)
  {
    match IsServiceInstalled(w, s)
    case Err(e) => Step(w, Fail(e))
    case Ok(installed) =>
      if installed && !update then Step(w, Pass)
      else BuildStep(layout, sc, w, s, update, cc)
  }

  /** The rest of `InstallService`: optionally clean the module cache,
      `go install` the service's repository at main, and on an update
      restart the service. Only a registered service can be built. */
  function BuildStep(layout: Layout, sc: Script, w: World, s: Service, update: bool, cc: bool): (st: Step)
    ensures s !in SERVICES ==> st.result.Fail?
    ensures st.result.Pass? ==> GoInstall(InstallTarget(ServiceRepo(s).value)) in st.world.log.commands
    ensures st.result.Pass? && w.goPath.Ok? && sc.goInstall(InstallTarget(ServiceRepo(s).value)).Installed? ==>
              sc.goInstall(InstallTarget(ServiceRepo(s).value)).binary in st.world.paths
    ensures !InstallSucceeds(sc, s, cc) ==>
              && st.result.Fail?
              && st.world.log.interrupts == w.log.interrupts && st.world.log.launches == w.log.launches
              && st.world.pidFiles == w.pidFiles && st.world.pidDirExists == w.pidDirExists && st.world.live == w.live
    ensures InstallSucceeds(sc, s, cc) && !update ==> st == Step(AfterGoInstall(sc, w, s, cc), Pass)
    ensures InstallSucceeds(sc, s, cc) && update ==> st == RestartStep(layout, sc, AfterGoInstall(sc, w, s, cc), s)
    ensures !cc ==> InstallsOnly(w.log.commands, st.world.log.commands)
    ensures st.world.goPath == w.goPath && w.paths <= st.world.paths
    ensures Coherent(w) ==> Coherent(st.world)
  {
    var cleaned := if cc then RunGoStep(sc, w, GoCleanModCache) else Step(w, Pass);
    if cleaned.result.Fail? then cleaned
    else
      match ServiceRepo(s)
      case None => Step(cleaned.world, Fail(Plain("please provide repo url for " + s)))
      case Some(url) =>
        var built := RunGoStep(sc, cleaned.world, GoInstall(InstallTarget(url)));
        assert built.world.log.commands[|cleaned.world.log.commands|] == GoInstall(InstallTarget(url));
        if built.result.Fail? || !update then built
        else RestartStep(layout, sc, built.world, s)
  }

  /** When `go install` puts the binary where getServicePath looks, a
      successful install leaves the service installed. */
  lemma InstallThenInstalled(layout: Layout, sc: Script, w: World, s: Service, update: bool, cc: bool)
    requires w.goPath.Ok? && s in SERVICES
    requires sc.goInstall(InstallTarget(ServiceRepo(s).value)).Installed? ==>
               sc.goInstall(InstallTarget(ServiceRepo(s).value)).binary == BinaryPath(w.goPath.value, s)
    requires InstallStep(layout, sc, w, s, update, cc).result.Pass?
    ensures IsServiceInstalled(InstallStep(layout, sc, w, s, update, cc).world, s) == Ok(true)
  {
    if IsServiceInstalled(w, s) == Ok(false) || update {
      assert InstallStep(layout, sc, w, s, update, cc) == BuildStep(layout, sc, w, s, update, cc);
    }
  }

  /** An update of a running service whose install succeeds restarts it:
      the old process is interrupted and a new one launched and recorded. */
  lemma UpdateRelaunchesRunning(layout: Layout, sc: Script, w: World, s: Service, cc: bool)
    requires IsServiceInstalled(w, s).Ok? && IsServiceRunning(layout, w, s)
    requires InstallStep(layout, sc, w, s, true, cc).result.Pass?
    ensures var st := InstallStep(layout, sc, w, s, true, cc);
            && Interrupt(s, ParsePidText(w.pidFiles[s]).value) in st.world.log.interrupts
            && st.world.log.launches == w.log.launches + [s]
            && st.world.pidFiles == w.pidFiles[s := PidLine(sc.launch(s).pid)]
  {
    assert InstallStep(layout, sc, w, s, true, cc) == BuildStep(layout, sc, w, s, true, cc);
    assert InstallSucceeds(sc, s, cc);
    var w1 := AfterGoInstall(sc, w, s, cc);
    assert IsServiceRunning(layout, w1, s);
    RestartRelaunches(layout, sc, w1, s);
  }

  /** An update of a service that is not running launches and interrupts nothing. */
  lemma UpdateLeavesIdleServiceAlone(layout: Layout, sc: Script, w: World, s: Service, cc: bool)
    requires !IsServiceRunning(layout, w, s)
    ensures var st := InstallStep(layout, sc, w, s, true, cc);
            && st.world.log.launches == w.log.launches && st.world.log.interrupts == w.log.interrupts
            && st.world.pidFiles == w.pidFiles && st.world.live == w.live
  {
    if IsServiceInstalled(w, s).Ok? && InstallSucceeds(sc, s, cc) {
      assert !IsServiceRunning(layout, AfterGoInstall(sc, w, s, cc), s);
    }
  }

  function InstallFn(layout: Layout, sc: Script, update: bool): (World, Service) -> Step {
    (w, s) => InstallStep(layout, sc, w, s, update, false)
  }

  /** `installAllServices(update, cc)`: clean the cache at most once, then
      install each service without cleaning again. A failed cleaning ends
      the batch before any install. */
  function InstallAll(layout: Layout, sc: Script, w: World, update: bool, cc: bool): (r: Step)
    ensures cc && sc.cleanCache.Fail? ==>
              r.result == sc.cleanCache && r.world.log.commands == w.log.commands + [GoCleanModCache]
    ensures !cc ==> r == ForEach(InstallFn(layout, sc, update), w, SERVICES)
    ensures !cc ==> InstallsOnly(w.log.commands, r.world.log.commands)
    ensures Coherent(w) ==> Coherent(r.world)
  {
    var cleaned := if cc then RunGoStep(sc, w, GoCleanModCache) else Step(w, Pass);
    ForEachCoherent(InstallFn(layout, sc, update), cleaned.world, SERVICES);
    assert !cc ==> InstallsOnly(w.log.commands, ForEach(InstallFn(layout, sc, update), w, SERVICES).world.log.commands) by {
      InstallBatchInstallsOnly(layout, sc, update, w, SERVICES);
    }
    if cleaned.result.Fail? then cleaned
    else ForEach(InstallFn(layout, sc, update), cleaned.world, SERVICES)
  }

  lemma InstallsOnlyTrans(a: seq<GoCommand>, b: seq<GoCommand>, c: seq<GoCommand>)
    requires InstallsOnly(a, b) && InstallsOnly(b, c)
    ensures InstallsOnly(a, c)
  {
    forall i | |a| <= i < |c| ensures c[i].GoInstall? {
      if i < |b| {
        assert c[i] == b[i];
      }
    }
  }

  lemma {:induction false} InstallBatchInstallsOnly(layout: Layout, sc: Script, update: bool, w: World, ss: seq<Service>)
    ensures InstallsOnly(w.log.commands, ForEach(InstallFn(layout, sc, update), w, ss).world.log.commands)
    decreases |ss|
  {
    if ss != [] {
      var first := InstallStep(layout, sc, w, ss[0], update, false);
      if first.result.Pass? {
        InstallBatchInstallsOnly(layout, sc, update, first.world, ss[1..]);
        InstallsOnlyTrans(w.log.commands, first.world.log.commands,
                          ForEach(InstallFn(layout, sc, update), first.world, ss[1..]).world.log.commands);
      }
    }
  }

  /** Installing all services cleans the module cache exactly once when asked
      to, before anything else, and otherwise only installs. */
  lemma InstallAllCleansOnce(layout: Layout, sc: Script, w: World, update: bool, cc: bool)
    ensures InstallsOnly(w.log.commands + (if cc then [GoCleanModCache] else []),
                         InstallAll(layout, sc, w, update, cc).world.log.commands)
  {
    var cleaned := if cc then RunGoStep(sc, w, GoCleanModCache) else Step(w, Pass);
    assert cleaned.world.log.commands == w.log.commands + (if cc then [GoCleanModCache] else []);
    if cleaned.result.Pass? {
      InstallBatchInstallsOnly(layout, sc, update, cleaned.world, SERVICES);
    }
  }

  // ---------------------------------------------------------------- uninstall

  /** `uninstallService(s)`: remove the binary getServicePath finds. */
  function UninstallServiceStep(sc: Script, w: World, s: Service): (st: Step)
    ensures st.result.Pass? ==> w.goPath.Ok? && BinaryPath(w.goPath.value, s) !in st.world.paths
    ensures w.goPath.Ok? && BinaryPath(w.goPath.value, s) !in w.paths ==> st == Step(w, Fail(ServiceNotFound))
    ensures st.result.Fail? && st.result.error == ServiceNotFound ==> st.world == w
    ensures st.world.paths <= w.paths && st.world.goPath == w.goPath
    ensures st.world.euid == w.euid && st.world.pkgEntries == w.pkgEntries
    ensures st.world.pidFiles == w.pidFiles && st.world.pidDirExists == w.pidDirExists
  {
    match ServicePath(w, s)
    case Err(e) => Step(w, Fail(e))
    case Ok(p) => RemoveAllStep(sc, w, p)
  }

  /** The uninstaller's loop body: a service that is not installed is skipped. */
  function SkipMissing(st: Step): (r: Step)
    ensures r.world == st.world
    ensures r.result.Pass? <==> st.result.Pass? || st.result == Fail(ServiceNotFound)
    ensures st.result != Fail(ServiceNotFound) ==> r == st
  {
    if st.result.Fail? && ErrorsIs(st.result.error, ServiceNotFound) then Step(st.world, Pass) else st
  }

  function UninstallSkipFn(sc: Script): (World, Service) -> Step {
    (w, s) => SkipMissing(UninstallServiceStep(sc, w, s))
  }

  /** `getPkgPath`: the project's directory in the module cache, if present. */
  function PkgPathOf(w: World): (r: Result<Path>)
    ensures r.Ok? ==> w.goPath.Ok? && r.value == PkgPath(w.goPath.value) && r.value in w.paths
    ensures w.goPath.Ok? && PkgPath(w.goPath.value) !in w.paths ==> r == Err(PathNotFound(PkgPath(w.goPath.value)))
  {
    match w.goPath
    case Err(e) => Err(e)
    case Ok(goPath) =>
      var pkgPath := PkgPath(goPath);
      if pkgPath in w.paths then Ok(pkgPath) else Err(PathNotFound(pkgPath))
  }

  /** One visit of the package walk. An entry that vanished with a removed
      ancestor is passed over, as the callback ignores "no such file or
      directory"; a doomed entry is removed. */
  function WalkStep(sc: Script, w: World, e: DirEntry): (st: Step)
    ensures st.result.Pass? && PkgEntryDoomed(e.isDir, e.name) ==> e.path !in st.world.paths
    ensures !PkgEntryDoomed(e.isDir, e.name) ==> st == Step(w, Pass)
    ensures st.world.paths <= w.paths && st.world.goPath == w.goPath && st.world.pkgEntries == w.pkgEntries
    ensures st.world.pidFiles == w.pidFiles && st.world.pidDirExists == w.pidDirExists
  {
    if e.path !in w.paths then Step(w, Pass)
    else if PkgEntryDoomed(e.isDir, e.name) then RemoveAllStep(sc, w, e.path)
    else Step(w, Pass)
  }

  function WalkFn(sc: Script): (World, DirEntry) -> Step {
    (w, e) => WalkStep(sc, w, e)
  }

  /** The part of `uninstallSystem` after the service loop: remove the
      workspace, the system folder, and every doomed entry of the project's
      packages in the module cache. */
  function RemoveSystemFiles(layout: Layout, sc: Script, w: World): (st: Step)
    ensures st.world.goPath == w.goPath && st.world.paths <= w.paths && st.world.pkgEntries == w.pkgEntries
    ensures st.result.Pass? ==> layout.workspace !in st.world.paths && layout.systemRoot !in st.world.paths
    ensures st.result.Pass? ==> w.goPath.Ok?
    ensures st.result.Pass? ==>
              forall e :: e in w.pkgEntries && PkgEntryDoomed(e.isDir, e.name) ==> e.path !in st.world.paths
    ensures Coherent(w) ==> Coherent(st.world)
  {
    var workspace := RemoveAllStep(sc, w, layout.workspace);
    if workspace.result.Fail? then workspace
    else
      var system := RemoveAllStep(sc, workspace.world, layout.systemRoot);
      if system.result.Fail? then system
      else
        match PkgPathOf(system.world)
        case Err(e) => Step(system.world, Fail(e))
        case Ok(_) =>
          var walk := ForEach(WalkFn(sc), system.world, system.world.pkgEntries);
          ForEachShrinks(WalkFn(sc), system.world, system.world.pkgEntries);
          ForEachCoherent(WalkFn(sc), system.world, system.world.pkgEntries);
          WalkClearsIfPassed(sc, system.world, system.world.pkgEntries);
          walk
  }

  /** `uninstallSystem`: as root only; remove the services' binaries (skipping
      missing ones) and the system's files, and finally the CLI's own binary. */
  function UninstallSystemStep(layout: Layout, sc: Script, w: World): (st: Step)
    ensures w.euid != 0 ==> st == Step(w, Fail(Plain(NotRoot)))
    ensures w.euid == 0 && ForEach(UninstallSkipFn(sc), w, SERVICES).result.Fail? ==>
              st == ForEach(UninstallSkipFn(sc), w, SERVICES)
    ensures st.world.goPath == w.goPath && st.world.paths <= w.paths
    ensures Coherent(w) ==> Coherent(st.world)
  {
    if w.euid != 0 then Step(w, Fail(Plain(NotRoot)))
    else
      var services := ForEach(UninstallSkipFn(sc), w, SERVICES);
      ForEachShrinks(UninstallSkipFn(sc), w, SERVICES);
      ForEachCoherent(UninstallSkipFn(sc), w, SERVICES);
      if services.result.Fail? then services
      else
        var files := RemoveSystemFiles(layout, sc, services.world);
        if files.result.Fail? then files
        else UninstallServiceStep(sc, files.world, MAIN_PROGRAM)
  }

  /** After the service loop passes, none of its services' binaries is left. */
  lemma {:induction false} UninstallServicesClear(sc: Script, w: World, ss: seq<Service>)
    requires w.goPath.Ok?
    requires ForEach(UninstallSkipFn(sc), w, ss).result.Pass?
    ensures forall s :: s in ss ==> BinaryPath(w.goPath.value, s) !in ForEach(UninstallSkipFn(sc), w, ss).world.paths
    decreases |ss|
  {
    if ss != [] {
      var first := SkipMissing(UninstallServiceStep(sc, w, ss[0]));
      assert BinaryPath(w.goPath.value, ss[0]) !in first.world.paths;
      UninstallServicesClear(sc, first.world, ss[1..]);
      ForEachShrinks(UninstallSkipFn(sc), first.world, ss[1..]);
      forall s | s in ss ensures BinaryPath(w.goPath.value, s) !in ForEach(UninstallSkipFn(sc), w, ss).world.paths {
        if s != ss[0] {
          assert s in ss[1..];
        }
      }
    }
  }

  /** After the package walk passes, no doomed entry is left. */
  lemma {:induction false} WalkClears(sc: Script, w: World, es: seq<DirEntry>)
    requires ForEach(WalkFn(sc), w, es).result.Pass?
    ensures forall e :: e in es && PkgEntryDoomed(e.isDir, e.name) ==> e.path !in ForEach(WalkFn(sc), w, es).world.paths
    decreases |es|
  {
    if es != [] {
      var first := WalkStep(sc, w, es[0]);
      WalkClears(sc, first.world, es[1..]);
      ForEachShrinks(WalkFn(sc), first.world, es[1..]);
      forall e | e in es && PkgEntryDoomed(e.isDir, e.name)
        ensures e.path !in ForEach(WalkFn(sc), w, es).world.paths
      {
        if e != es[0] {
          assert e in es[1..];
        }
      }
    }
  }

  lemma WalkClearsIfPassed(sc: Script, w: World, es: seq<DirEntry>)
    ensures ForEach(WalkFn(sc), w, es).result.Pass? ==>
              forall e :: e in es && PkgEntryDoomed(e.isDir, e.name) ==> e.path !in ForEach(WalkFn(sc), w, es).world.paths
  {
    if ForEach(WalkFn(sc), w, es).result.Pass? {
      WalkClears(sc, w, es);
    }
  }

  /** A successful uninstall leaves no binary of the services or of the CLI,
      no workspace, no system folder and no doomed package entry. */
  lemma UninstallSystemClears(layout: Layout, sc: Script, w: World)
    requires UninstallSystemStep(layout, sc, w).result.Pass?
    ensures var st := UninstallSystemStep(layout, sc, w);
            && w.euid == 0 && w.goPath.Ok?
            && (forall s :: s in SERVICES ==> BinaryPath(w.goPath.value, s) !in st.world.paths)
            && BinaryPath(w.goPath.value, MAIN_PROGRAM) !in st.world.paths
            && layout.workspace !in st.world.paths && layout.systemRoot !in st.world.paths
            && (forall e :: e in w.pkgEntries && PkgEntryDoomed(e.isDir, e.name) ==> e.path !in st.world.paths)
  {
    var services := ForEach(UninstallSkipFn(sc), w, SERVICES);
    ForEachShrinks(UninstallSkipFn(sc), w, SERVICES);
    var files := RemoveSystemFiles(layout, sc, services.world);
    UninstallServicesClear(sc, w, SERVICES);
  }

  /** A service whose uninstall fails with anything but ServiceNotFound ends
      the uninstall with that error: nothing after it is removed. */
  lemma UninstallStopsAtServiceError(layout: Layout, sc: Script, w: World)
    requires w.euid == 0
    requires UninstallServiceStep(sc, w, SCHEDULER).result.Fail?
    requires UninstallServiceStep(sc, w, SCHEDULER).result.error != ServiceNotFound
    ensures UninstallSystemStep(layout, sc, w) == UninstallServiceStep(sc, w, SCHEDULER)
  {
    ForEachPair(UninstallSkipFn(sc), w, SCHEDULER, TCP_BUS);
  }

  /** Two entries of one directory are never inside one another. */
  lemma SiblingNotUnder(dir: Path, a: string, b: string)
    requires '/' !in a
    ensures !Under(Join(dir, a), Join(dir, b))
  {
    var q, p := Join(dir, a), Join(dir, b);
    if |q| > |p| {
      assert q[|p|] == a[|b|];
      assert q[..|p| + 1][|p|] != (p + "/")[|p|];
    }
  }

  /** The binaries of the services and of the CLI are plain names in $GOPATH/bin. */
  lemma BinaryNamesPlain(s: Service)
    requires s in SERVICES + [MAIN_PROGRAM]
    ensures '/' !in BinaryName(s)
  {
    assert !IsMainProgram(SCHEDULER) && !IsMainProgram(TCP_BUS) && IsMainProgram(MAIN_PROGRAM);
    assert BinaryName(SCHEDULER) == "keiji-scheduler";
    assert BinaryName(TCP_BUS) == "keiji-tcp-bus";
  }

  /** Uninstalling one of the services or the CLI itself leaves the binaries
      of the others in place. */
  lemma UninstallKeepsOtherBinaries(sc: Script, w: World, s: Service, t: Service)
    requires s in SERVICES + [MAIN_PROGRAM] && t in SERVICES + [MAIN_PROGRAM] && s != t
    requires w.goPath.Ok? && BinaryPath(w.goPath.value, t) in w.paths
    ensures BinaryPath(w.goPath.value, t) in UninstallServiceStep(sc, w, s).world.paths
  {
    var g := w.goPath.value;
    var q, p := BinaryPath(g, t), BinaryPath(g, s);
    RegisteredBinariesDistinct(g);
    assert q != p;
    BinaryNamesPlain(t);
    SiblingNotUnder(Join(g, "bin"), BinaryName(t), BinaryName(s));
    assert !Under(q, p);
    var st := UninstallServiceStep(sc, w, s);
    if ServicePath(w, s).Ok? {
      assert st == RemoveAllStep(sc, w, p);
    }
  }

  // ---------------------------------------------------------------- tasks

  /** A bus command for the named task: `GetTaskByName`, then one
      `bc.StopTask(taskId, disable, delete)`; the repository is untouched. */
  function TaskSignalStep(sc: Script, w: World, name: string, disable: bool, delete: bool): (st: Step)
    ensures name !in w.tasks ==> st == Step(w, Fail(RecordNotFound(name)))
    ensures name in w.tasks ==> st.result == sc.bus
    ensures name in w.tasks ==>
              st.world == w.(log := w.log.(busCalls := w.log.busCalls + [StopTaskCall(w.tasks[name].taskId, disable, delete)]))
    ensures Coherent(w) ==> Coherent(st.world)
  {
    if name !in w.tasks then Step(w, Fail(RecordNotFound(name)))
    else StopTaskStep(sc, w, StopTaskCall(w.tasks[name].taskId, disable, delete))
  }

  /** `disableTask(name)`: asks the scheduler to disable the task. */
  function DisableTaskStep(sc: Script, w: World, name: string): (st: Step)
    ensures name !in w.tasks ==> st == Step(w, Fail(RecordNotFound(name)))
    ensures name in w.tasks ==> st.result == sc.bus && st.world.tasks == w.tasks
    ensures name in w.tasks ==>
              st.world.log.busCalls == w.log.busCalls + [StopTaskCall(w.tasks[name].taskId, true, false)]
  {
    TaskSignalStep(sc, w, name, true, false)
  }

  /** `restartTask(name)`: asks the scheduler to stop the task without
      disabling or deleting it, so that it is picked up again. */
  function RestartTaskStep(sc: Script, w: World, name: string): (st: Step)
    ensures name !in w.tasks ==> st == Step(w, Fail(RecordNotFound(name)))
    ensures name in w.tasks ==> st.result == sc.bus && st.world.tasks == w.tasks
    ensures name in w.tasks ==>
              st.world.log.busCalls == w.log.busCalls + [StopTaskCall(w.tasks[name].taskId, false, false)]
  {
    TaskSignalStep(sc, w, name, false, false)
  }

  /** `deleteTask(name)`: a disabled or failed task is deleted locally (its
      executable, then its log, then its record) without telling the
      scheduler, which ignores such tasks; any other task is deleted by the
      scheduler on request. */
  function DeleteTaskStep(sc: Script, w: World, name: string): (st: Step)
    ensures name !in w.tasks ==> st == Step(w, Fail(RecordNotFound(name)))
    ensures name in w.tasks && !w.tasks[name].isDisabled && !w.tasks[name].isError ==>
              st == TaskSignalStep(sc, w, name, false, true)
    ensures name in w.tasks && (w.tasks[name].isDisabled || w.tasks[name].isError) ==>
              && st.world.log.busCalls == w.log.busCalls
              && (st.result.Pass? <==> w.tasks[name].executable !in sc.removeFails && w.tasks[name].logPath !in sc.removeFails)
              && (st.result.Pass? ==> st.world.tasks == w.tasks - {name}
                                      && st.world.log.removed == w.log.removed + [w.tasks[name].executable, w.tasks[name].logPath])
              && (st.result.Fail? ==> st.world.tasks == w.tasks)
    ensures Coherent(w) ==> Coherent(st.world)
  {
    if name !in w.tasks then Step(w, Fail(RecordNotFound(name)))
    else
      var task := w.tasks[name];
      if task.isDisabled || task.isError then
        var exe := RemoveAllStep(sc, w, task.executable);
        if exe.result.Fail? then exe
        else
          var logs := RemoveAllStep(sc, exe.world, task.logPath);
          if logs.result.Fail? then logs
          else Step(logs.world.(tasks := logs.world.tasks - {name}), Pass)
      else TaskSignalStep(sc, w, name, false, true)
  }

  /** Every task command addresses the task's own id, and a task is either
      deleted locally or through the scheduler, never both. */
  lemma TaskCommandsAddressTheTask(sc: Script, w: World, name: string)
    requires name in w.tasks
    ensures DisableTaskStep(sc, w, name).world.log.busCalls == w.log.busCalls + [StopTaskCall(w.tasks[name].taskId, true, false)]
    ensures RestartTaskStep(sc, w, name).world.log.busCalls == w.log.busCalls + [StopTaskCall(w.tasks[name].taskId, false, false)]
    ensures var st := DeleteTaskStep(sc, w, name);
            (st.world.log.busCalls == w.log.busCalls) != (st.world.log.busCalls == w.log.busCalls + [StopTaskCall(w.tasks[name].taskId, false, true)])
    ensures var st := DeleteTaskStep(sc, w, name);
            name !in st.world.tasks ==> st.world.log.busCalls == w.log.busCalls
  {
    var call := StopTaskCall(w.tasks[name].taskId, false, true);
    assert w.log.busCalls != w.log.busCalls + [call] by {
      assert |w.log.busCalls + [call]| == |w.log.busCalls| + 1;
    }
  }

  // ---------------------------------------------------------------- status

  /** `c.ONLINE` and `c.OFFLINE`. */
  datatype Status = Online | Offline

  /** `getServiceInfo`'s report: every registered service whose binary is
      installed, online exactly when it is running; a failure to tell whether
      a service is installed leaves it out. */
  method GetServiceInfo(env: Env) returns (report: map<Service, Status>)
    ensures forall s :: s in report <==> s in SERVICES && IsServiceInstalled(env.State(), s) == Ok(true)
    ensures forall s :: s in report ==> (report[s] == Online <==> IsServiceRunning(env.layout, env.State(), s))
  {
    report := map[];
    var i := 0;
    while i < |SERVICES|
      invariant 0 <= i <= |SERVICES|
      invariant forall s :: s in report <==> s in SERVICES[..i] && IsServiceInstalled(env.State(), s) == Ok(true)
      invariant forall s :: s in report ==> (report[s] == Online <==> IsServiceRunning(env.layout, env.State(), s))
    {
      var s := SERVICES[i];
      var installed := IsServiceInstalled(env.State(), s);
      if installed.Ok? && installed.value {
        var running := IsServiceRunning(env.layout, env.State(), s);
        report := report[s := if running then Online else Offline];
      }
      assert SERVICES[..i + 1] == SERVICES[..i] + [s];
      i := i + 1;
    }
    assert SERVICES[..i] == SERVICES;
  }

  // ---------------------------------------------------------------- more methods

  method InstallService(env: Env, s: Service, update: bool, cc: bool) returns (err: Outcome)
    modifies env
    ensures env.State() == InstallStep(env.layout, env.script, old(env.State()), s, update, cc).world
    ensures err == InstallStep(env.layout, env.script, old(env.State()), s, update, cc).result
  {
    var installed := IsServiceInstalled(env.State(), s);
    if installed.Err? {
      return Fail(installed.error);
    }
    if installed.value && !update {
      return Pass;
    }
    if cc {
      err := env.RunGo(GoCleanModCache);
      if err.Fail? {
        return;
      }
    }
    var repoURL := ServiceRepo(s);
    if repoURL.None? {
      return Fail(Plain("please provide repo url for " + s));
    }
    err := env.RunGo(GoInstall(InstallTarget(repoURL.value)));
    if err.Fail? || !update {
      return;
    }
    err := RestartService(env, s);
  }

  method InstallAllServices(env: Env, update: bool, cc: bool) returns (err: Outcome)
    modifies env
    ensures env.State() == InstallAll(env.layout, env.script, old(env.State()), update, cc).world
    ensures err == InstallAll(env.layout, env.script, old(env.State()), update, cc).result
  {
    if cc {
      err := env.RunGo(GoCleanModCache);
      if err.Fail? {
        return;
      }
    }
    err := InstallEach(env, update);
  }

  /** The loop of installAllServices: each service, without cleaning the cache. */
  method InstallEach(env: Env, update: bool) returns (err: Outcome)
    modifies env
    ensures env.State() == ForEach(InstallFn(env.layout, env.script, update), old(env.State()), SERVICES).world
    ensures err == ForEach(InstallFn(env.layout, env.script, update), old(env.State()), SERVICES).result
  {
    ghost var w0 := env.State();
    ghost var op := InstallFn(env.layout, env.script, update);
    var i := 0;
    while i < |SERVICES|
      invariant 0 <= i <= |SERVICES|
      invariant ForEach(op, w0, SERVICES[..i]) == Step(env.State(), Pass)
    {
      ghost var before := env.State();
      err := InstallService(env, SERVICES[i], update, false);
      ForEachExtend(op, w0, SERVICES, i, before);
      if err.Fail? {
        ForEachPrefixFails(op, w0, SERVICES, i + 1);
        return;
      }
      i := i + 1;
    }
    assert SERVICES[..i] == SERVICES;
    err := Pass;
  }

  method UninstallService(env: Env, s: Service) returns (err: Outcome)
    modifies env
    ensures env.State() == UninstallServiceStep(env.script, old(env.State()), s).world
    ensures err == UninstallServiceStep(env.script, old(env.State()), s).result
  {
    var servicePath := ServicePath(env.State(), s);
    if servicePath.Err? {
      return Fail(servicePath.error);
    }
    err := env.RemoveAll(servicePath.value);
  }

  method UninstallSystem(env: Env) returns (err: Outcome)
    modifies env
    ensures env.State() == UninstallSystemStep(env.layout, env.script, old(env.State())).world
    ensures err == UninstallSystemStep(env.layout, env.script, old(env.State())).result
  {
    if env.euid != 0 {
      return Fail(Plain(NotRoot));
    }
    ghost var w0 := env.State();
    ghost var op := UninstallSkipFn(env.script);
    var i := 0;
    while i < |SERVICES|
      invariant 0 <= i <= |SERVICES|
      invariant ForEach(op, w0, SERVICES[..i]) == Step(env.State(), Pass)
    {
      ghost var before := env.State();
      err := UninstallService(env, SERVICES[i]);
      ForEachExtend(op, w0, SERVICES, i, before);
      if err.Fail? {
        if !ErrorsIs(err.error, ServiceNotFound) {
          ForEachPrefixFails(op, w0, SERVICES, i + 1);
          return;
        }
        // a service that is not installed is logged and skipped
      }
      i := i + 1;
    }
    assert SERVICES[..i] == SERVICES;
    err := RemoveSystem(env);
    if err.Fail? {
      return;
    }
    err := UninstallService(env, MAIN_PROGRAM);
  }

  method RemoveSystem(env: Env) returns (err: Outcome)
    modifies env
    ensures env.State() == RemoveSystemFiles(env.layout, env.script, old(env.State())).world
    ensures err == RemoveSystemFiles(env.layout, env.script, old(env.State())).result
  {
    err := env.RemoveAll(env.layout.workspace);
    if err.Fail? {
      return;
    }
    err := env.RemoveAll(env.layout.systemRoot);
    if err.Fail? {
      return;
    }
    var pkgPath := PkgPathOf(env.State());
    if pkgPath.Err? {
      return Fail(pkgPath.error);
    }
    var entries := env.pkgEntries;
    ghost var w1 := env.State();
    ghost var walk := WalkFn(env.script);
    var j := 0;
    while j < |entries|
      invariant 0 <= j <= |entries|
      invariant ForEach(walk, w1, entries[..j]) == Step(env.State(), Pass)
    {
      ghost var before := env.State();
      var e := entries[j];
      if e.path in env.paths && PkgEntryDoomed(e.isDir, e.name) {
        err := env.RemoveAll(e.path);
      } else {
        err := Pass;
      }
      ForEachExtend(walk, w1, entries, j, before);
      if err.Fail? {
        ForEachPrefixFails(walk, w1, entries, j + 1);
        return;
      }
      j := j + 1;
    }
    assert entries[..j] == entries;
    err := Pass;
  }

  method DisableTask(env: Env, name: string) returns (err: Outcome)
    modifies env
    ensures env.State() == DisableTaskStep(env.script, old(env.State()), name).world
    ensures err == DisableTaskStep(env.script, old(env.State()), name).result
  {
    if name !in env.tasks {
      return Fail(RecordNotFound(name));
    }
    err := env.StopTask(StopTaskCall(env.tasks[name].taskId, true, false));
  }

  method RestartTask(env: Env, name: string) returns (err: Outcome)
    modifies env
    ensures env.State() == RestartTaskStep(env.script, old(env.State()), name).world
    ensures err == RestartTaskStep(env.script, old(env.State()), name).result
  {
    if name !in env.tasks {
      return Fail(RecordNotFound(name));
    }
    err := env.StopTask(StopTaskCall(env.tasks[name].taskId, false, false));
  }

  method DeleteTask(env: Env, name: string) returns (err: Outcome)
    modifies env
    ensures env.State() == DeleteTaskStep(env.script, old(env.State()), name).world
    ensures err == DeleteTaskStep(env.script, old(env.State()), name).result
  {
    if name !in env.tasks {
      return Fail(RecordNotFound(name));
    }
    var task := env.tasks[name];
    if task.isDisabled || task.isError {
      err := env.RemoveAll(task.executable);
      if err.Fail? {
        return;
      }
      err := env.RemoveAll(task.logPath);
      if err.Fail? {
        return;
      }
      env.DeleteTaskRecord(name);
      return Pass;
    }
    err := env.StopTask(StopTaskCall(task.taskId, false, true));
  }
}
