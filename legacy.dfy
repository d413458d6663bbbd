// The older lifecycle commands of main.go, next to the ones of
// cli/execute.go. readPID, isServiceRunning, valid, disableTask,
// restartTask and the first half of stopService are the same code in both
// files and are modelled once, in Environment, Registry and Cli; this module
// holds what differs, and lemmas that state each difference. main.go's
// getServiceLogPath and handleGetLogs differ too (another bus log path, an
// editor launch per operating system) and are not part of this model.

module LegacyMain {
  import opened CmdErrors
  import opened Text
  import opened Registry
  import opened Environment
  import opened Cli

  // ---------------------------------------------------------------- paths

  /** main.go's `getServicePath(s)`: always `keiji-<service>`, the CLI included. */
  function LegacyServicePath(w: World, s: Service): (r: Result<Path>)
    ensures w.goPath.Ok? ==> (r.Ok? <==> Join(Join(w.goPath.value, "bin"), MAIN_PROGRAM + "-" + s) in w.paths)
    ensures w.goPath.Err? ==> r == Err(w.goPath.error)
  {
    LocateBinary(w, MAIN_PROGRAM + "-" + s)
  }

  /** For any name but a spelling of "keiji" both versions look in the same place. */
  lemma LegacyServicePathAgrees(w: World, s: Service)
    requires !IsMainProgram(s)
    ensures LegacyServicePath(w, s) == ServicePath(w, s)
  {
    assert BinaryName(s) == MAIN_PROGRAM + "-" + s;
  }

  /** For the CLI itself the old version looks for `keiji-keiji`, which the
      new one replaced by `keiji`. */
  lemma LegacyMissesTheCli(w: World)
    requires w.goPath.Ok?
    requires BinaryPath(w.goPath.value, MAIN_PROGRAM) in w.paths
    requires Join(Join(w.goPath.value, "bin"), "keiji-keiji") !in w.paths
    ensures ServicePath(w, MAIN_PROGRAM).Ok?
    ensures LegacyServicePath(w, MAIN_PROGRAM) == Err(ServiceNotFound)
  {
    assert MAIN_PROGRAM + "-" + MAIN_PROGRAM == "keiji-keiji";
  }

  // ---------------------------------------------------------------- start

  /** main.go's `startService(s)`: launch without first asking whether s runs. */
  function LegacyStartStep(layout: Layout, sc: Script, w: World, s: Service): (st: Step)
    ensures st.result.Pass? <==> s in SERVICES && sc.launch(s).Spawned?
    ensures st.result.Fail? ==> st.world == w
    ensures st.result.Pass? ==> st.world.pidFiles == w.pidFiles[s := PidLine(sc.launch(s).pid)]
                                && st.world.log.launches == w.log.launches + [s]
    ensures st.world.log.interrupts == w.log.interrupts && w.live <= st.world.live
    ensures st.world.paths == w.paths && st.world.goPath == w.goPath && st.world.log.commands == w.log.commands
    ensures Coherent(w) ==> Coherent(st.world)
  {
    var run := RunServiceCmdStep(layout, sc, w, s);
    if run.result.Fail? then run
    else
      PidLineRoundTrip(sc.launch(s).pid, []);
      assert PidLine(sc.launch(s).pid) + [] == PidLine(sc.launch(s).pid);
      match ReadPID(layout, run.world, s)
      case Err(e) => Step(run.world, Fail(e))
      case Ok(_) => run
  }

  /** Starting a running service: the old version launches a second copy and
      overwrites its PID file, the new one does nothing. */
  lemma LegacyStartRelaunchesRunning(layout: Layout, sc: Script, w: World, s: Service)
    requires IsServiceRunning(layout, w, s) && s in SERVICES && sc.launch(s).Spawned?
    ensures StartStep(layout, sc, w, s) == Step(w, Pass)
    ensures LegacyStartStep(layout, sc, w, s).world.log.launches == w.log.launches + [s]
  {
  }

  // ---------------------------------------------------------------- stop

  /** main.go's `stopService(s)` is the interrupt alone: it reports success as
      soon as SIGINT is delivered, while the service still runs. */
  lemma LegacyStopLeavesRunning(layout: Layout, w: World, s: Service)
    requires InterruptService(layout, w, s).result.Pass?
    ensures IsServiceRunning(layout, w, s)
    ensures IsServiceRunning(layout, InterruptService(layout, w, s).world, s)
  {
  }

  // ---------------------------------------------------------------- restart

  /** main.go's `restartService(s)`: stop (the interrupt alone), then start. */
  function LegacyRestartStep(layout: Layout, sc: Script, w: World, s: Service): (st: Step)
    ensures st.result.Pass? ==> IsServiceRunning(layout, w, s)
    ensures !IsServiceRunning(layout, w, s) ==> st.result.Fail? && st.world == w
    ensures IsServiceRunning(layout, w, s) ==> st == LegacyStartStep(layout, sc, InterruptService(layout, w, s).world, s)
    ensures st.world.paths == w.paths && st.world.goPath == w.goPath && st.world.log.commands == w.log.commands
    ensures Coherent(w) ==> Coherent(st.world)
  {
    var stop := InterruptService(layout, w, s);
    if stop.result.Fail? then stop else LegacyStartStep(layout, sc, stop.world, s)
  }

  /** Restarting a service that is not running: the old version fails, the
      new one succeeds without doing anything. */
  lemma RestartOfIdleService(layout: Layout, sc: Script, w: World, s: Service)
    requires !IsServiceRunning(layout, w, s)
    ensures RestartStep(layout, sc, w, s) == Step(w, Pass)
    ensures LegacyRestartStep(layout, sc, w, s).result.Fail?
  {
  }

  /** The old restart never waits for the interrupted process: it launches
      the new one straight after SIGINT is delivered. In the model a process
      leaves `live` only when a later check sees it exit, and the old restart
      makes no such check, so the old PID is still live when the new one is
      recorded; in the running system the old process may or may not have
      exited by then. */
  lemma LegacyRestartOverlaps(layout: Layout, sc: Script, w: World, s: Service)
    requires LegacyRestartStep(layout, sc, w, s).result.Pass?
    ensures s in w.pidFiles && ParsePidText(w.pidFiles[s]).Ok?
    ensures ParsePidText(w.pidFiles[s]).value in LegacyRestartStep(layout, sc, w, s).world.live
  {
    var stop := InterruptService(layout, w, s);
    assert stop.world.live == w.live;
  }

  // ---------------------------------------------------------------- all services

  function LegacyStartFn(layout: Layout, sc: Script): (World, Service) -> Step {
    (w, s) => LegacyStartStep(layout, sc, w, s)
  }

  function LegacyStopFn(layout: Layout): (World, Service) -> Step {
    (w, s) => InterruptService(layout, w, s)
  }

  function LegacyRestartFn(layout: Layout, sc: Script): (World, Service) -> Step {
    (w, s) => LegacyRestartStep(layout, sc, w, s)
  }

  /** main.go's `startAllServices`: the scheduler, then the bus; the first
      error ends the batch and is returned. */
  function LegacyStartAll(layout: Layout, sc: Script, w: World): (r: Step)
    ensures r.result.Pass? <==> sc.launch(SCHEDULER).Spawned? && sc.launch(TCP_BUS).Spawned?
    ensures r.result.Pass? ==> r.world.log.launches == w.log.launches + [SCHEDULER, TCP_BUS]
    ensures w.live <= r.world.live && r.world.log.interrupts == w.log.interrupts
    ensures Coherent(w) ==> Coherent(r.world)
  {
    ForEachCoherent(LegacyStartFn(layout, sc), w, SERVICES);
    var first := LegacyStartStep(layout, sc, w, SCHEDULER);
    var second := LegacyStartStep(layout, sc, first.world, TCP_BUS);
    ForEachPair(LegacyStartFn(layout, sc), w, SCHEDULER, TCP_BUS);
    assert ForEach(LegacyStartFn(layout, sc), w, SERVICES) ==
             if first.result.Fail? then first else if second.result.Fail? then second else Step(second.world, Pass);
    ForEach(LegacyStartFn(layout, sc), w, SERVICES)
  }

  /** main.go's `stopAllServices`: interrupt the scheduler, then the bus; the
      first error ends the batch. Nothing is launched and no PID file or
      process changes; only interrupts are sent. */
  function LegacyStopAll(layout: Layout, w: World): (r: Step)
    ensures r.result.Pass? <==> IsServiceRunning(layout, w, SCHEDULER) && IsServiceRunning(layout, w, TCP_BUS)
    ensures r.world.pidFiles == w.pidFiles && r.world.pidDirExists == w.pidDirExists && r.world.live == w.live
    ensures r.world.log.launches == w.log.launches && w.log.interrupts <= r.world.log.interrupts
    ensures Coherent(w) ==> Coherent(r.world)
  {
    var first := InterruptService(layout, w, SCHEDULER);
    var second := InterruptService(layout, first.world, TCP_BUS);
    ForEachPair(LegacyStopFn(layout), w, SCHEDULER, TCP_BUS);
    assert ForEach(LegacyStopFn(layout), w, SERVICES) ==
             if first.result.Fail? then first else if second.result.Fail? then second else Step(second.world, Pass);
    ForEach(LegacyStopFn(layout), w, SERVICES)
  }

  /** main.go's `restartAllServices`: the scheduler, then the bus; the first
      error ends the batch and is returned, so a success needs the scheduler
      running. No file and no go command is involved. */
  function LegacyRestartAll(layout: Layout, sc: Script, w: World): (r: Step)
    ensures r.result.Pass? ==> IsServiceRunning(layout, w, SCHEDULER)
    ensures r.world.paths == w.paths && r.world.goPath == w.goPath && r.world.log.commands == w.log.commands
    ensures Coherent(w) ==> Coherent(r.world)
  {
    ForEachCoherent(LegacyRestartFn(layout, sc), w, SERVICES);
    var first := LegacyRestartStep(layout, sc, w, SCHEDULER);
    var second := LegacyRestartStep(layout, sc, first.world, TCP_BUS);
    ForEachPair(LegacyRestartFn(layout, sc), w, SCHEDULER, TCP_BUS);
    assert ForEach(LegacyRestartFn(layout, sc), w, SERVICES) ==
             if first.result.Fail? then first else if second.result.Fail? then second else Step(second.world, Pass);
    ForEach(LegacyRestartFn(layout, sc), w, SERVICES)
  }

  /** The old stop-all only succeeds when every service was running, and
      interrupts each in order. */
  lemma LegacyStopAllInterruptsAll(layout: Layout, w: World)
    requires LegacyStopAll(layout, w).result.Pass?
    ensures forall s :: s in SERVICES ==> IsServiceRunning(layout, w, s)
    ensures |LegacyStopAll(layout, w).world.log.interrupts| == |w.log.interrupts| + 2
  {
    ForEachPair(LegacyStopFn(layout), w, SCHEDULER, TCP_BUS);
    var first := InterruptService(layout, w, SCHEDULER);
    assert first.result.Pass?;
    assert IsServiceRunning(layout, first.world, TCP_BUS);
  }

  // ---------------------------------------------------------------- tasks

  /** main.go's `deleteTask(name)`: always a request to the scheduler. */
  function LegacyDeleteTaskStep(sc: Script, w: World, name: string): (st: Step)
    ensures name !in w.tasks ==> st == Step(w, Fail(RecordNotFound(name)))
    ensures name in w.tasks ==> st == TaskSignalStep(sc, w, name, false, true)
    ensures name in w.tasks ==>
              && st.result == sc.bus
              && st.world == w.(log := w.log.(busCalls := w.log.busCalls + [StopTaskCall(w.tasks[name].taskId, false, true)]))
    ensures st.world.tasks == w.tasks
    ensures Coherent(w) ==> Coherent(st.world)
  {
    TaskSignalStep(sc, w, name, false, true)
  }

  /** For a task that is neither disabled nor failed both versions make the
      same single request to the scheduler. */
  lemma DeleteOfActiveTaskAgrees(sc: Script, w: World, name: string)
    requires name in w.tasks && !w.tasks[name].isDisabled && !w.tasks[name].isError
    ensures LegacyDeleteTaskStep(sc, w, name) == DeleteTaskStep(sc, w, name)
    ensures LegacyDeleteTaskStep(sc, w, name).world.log.busCalls
              == w.log.busCalls + [StopTaskCall(w.tasks[name].taskId, false, true)]
  {
  }

  /** Deleting a disabled task: the old version asks the scheduler, which
      ignores disabled tasks, so the record stays; the new one deletes it
      locally when its files can be removed. */
  lemma DeleteOfDisabledTask(sc: Script, w: World, name: string)
    requires name in w.tasks && w.tasks[name].isDisabled
    requires w.tasks[name].executable !in sc.removeFails && w.tasks[name].logPath !in sc.removeFails
    ensures name in LegacyDeleteTaskStep(sc, w, name).world.tasks
    ensures |LegacyDeleteTaskStep(sc, w, name).world.log.busCalls| == |w.log.busCalls| + 1
    ensures DeleteTaskStep(sc, w, name).result.Pass? && name !in DeleteTaskStep(sc, w, name).world.tasks
    ensures DeleteTaskStep(sc, w, name).world.log.busCalls == w.log.busCalls
  {
  }

  // ---------------------------------------------------------------- uninstall

  /** main.go's `uninstallService(s)`. */
  function LegacyUninstallServiceStep(sc: Script, w: World, s: Service): (st: Step)
    ensures st.result.Pass? ==>
              w.goPath.Ok? && Join(Join(w.goPath.value, "bin"), MAIN_PROGRAM + "-" + s) !in st.world.paths
    ensures w.goPath.Ok? && Join(Join(w.goPath.value, "bin"), MAIN_PROGRAM + "-" + s) !in w.paths ==>
              st == Step(w, Fail(ServiceNotFound))
    ensures st.result.Fail? && st.result.error == ServiceNotFound ==> st.world == w
    ensures st.world.paths <= w.paths && st.world.goPath == w.goPath && st.world.pkgEntries == w.pkgEntries
    ensures st.world.pidFiles == w.pidFiles && st.world.pidDirExists == w.pidDirExists
  {
    match LegacyServicePath(w, s)
    case Err(e) => Step(w, Fail(e))
    case Ok(p) => RemoveAllStep(sc, w, p)
  }

  function LegacyUninstallSkipFn(sc: Script): (World, Service) -> Step {
    (w, s) => SkipMissing(LegacyUninstallServiceStep(sc, w, s))
  }

  /** main.go's `uninstallSystem`: the same as the new one up to the package
      walk, whose error it returns; it never removes the CLI's binary. */
  function LegacyUninstallSystemStep(layout: Layout, sc: Script, w: World): (st: Step)
    ensures w.euid != 0 ==> st == Step(w, Fail(Plain(NotRoot)))
    ensures w.euid == 0 && ForEach(LegacyUninstallSkipFn(sc), w, SERVICES).result.Fail? ==>
              st == ForEach(LegacyUninstallSkipFn(sc), w, SERVICES)
    ensures st.world.goPath == w.goPath && st.world.paths <= w.paths
    ensures Coherent(w) ==> Coherent(st.world)
  {
    if w.euid != 0 then Step(w, Fail(Plain(NotRoot)))
    else
      var services := ForEach(LegacyUninstallSkipFn(sc), w, SERVICES);
      ForEachShrinks(LegacyUninstallSkipFn(sc), w, SERVICES);
      ForEachCoherent(LegacyUninstallSkipFn(sc), w, SERVICES);
      if services.result.Fail? then services
      else RemoveSystemFiles(layout, sc, services.world)
  }

  /** The new uninstaller is the old one followed by the removal of the CLI's
      binary: they agree on every failure before that step. */
  lemma UninstallExtendsLegacy(layout: Layout, sc: Script, w: World)
    ensures UninstallSystemStep(layout, sc, w) ==
      (var old_ := LegacyUninstallSystemStep(layout, sc, w);
       if old_.result.Fail? then old_ else UninstallServiceStep(sc, old_.world, MAIN_PROGRAM))
  {
    if w.euid == 0 {
      ForEachPair(UninstallSkipFn(sc), w, SCHEDULER, TCP_BUS);
      ForEachPair(LegacyUninstallSkipFn(sc), w, SCHEDULER, TCP_BUS);
      assert !IsMainProgram(SCHEDULER) && !IsMainProgram(TCP_BUS);
      LegacyServicePathAgrees(w, SCHEDULER);
      var first := UninstallServiceStep(sc, w, SCHEDULER);
      assert LegacyUninstallServiceStep(sc, w, SCHEDULER) == first;
      LegacyServicePathAgrees(SkipMissing(first).world, TCP_BUS);
      assert LegacyUninstallServiceStep(sc, SkipMissing(first).world, TCP_BUS)
          == UninstallServiceStep(sc, SkipMissing(first).world, TCP_BUS);
    }
  }

  // ---------------------------------------------------------------- methods

  method LegacyStartService(env: Env, s: Service) returns (err: Outcome)
    modifies env
    ensures env.State() == LegacyStartStep(env.layout, env.script, old(env.State()), s).world
    ensures err == LegacyStartStep(env.layout, env.script, old(env.State()), s).result
  {
    err := env.RunServiceCmd(s);
    if err.Fail? {
      return;
    }
    var pid := ReadPID(env.layout, env.State(), s);
    match pid {
      case Err(e) => return Fail(e);
      case Ok(_) => return Pass;
    }
  }

  method LegacyRestartService(env: Env, s: Service) returns (err: Outcome)
    modifies env
    ensures env.State() == LegacyRestartStep(env.layout, env.script, old(env.State()), s).world
    ensures err == LegacyRestartStep(env.layout, env.script, old(env.State()), s).result
  {
    err := SignalService(env, s);
    if err.Fail? {
      return;
    }
    err := LegacyStartService(env, s);
  }

  method LegacyStartAllServices(env: Env) returns (err: Outcome)
    modifies env
    ensures env.State() == LegacyStartAll(env.layout, env.script, old(env.State())).world
    ensures err == LegacyStartAll(env.layout, env.script, old(env.State())).result
  {
    ghost var w0 := env.State();
    ghost var op := LegacyStartFn(env.layout, env.script);
    var i := 0;
    while i < |SERVICES|
      invariant 0 <= i <= |SERVICES|
      invariant ForEach(op, w0, SERVICES[..i]) == Step(env.State(), Pass)
    {
      ghost var before := env.State();
      err := LegacyStartService(env, SERVICES[i]);
      ForEachExtend(op, w0, SERVICES, i, before);
      if err.Fail? {
        ForEachPrefixFails(op, w0, SERVICES, i + 1);
        return;
      }
      i := i + 1;
    }
    assert SERVICES[..i] == SERVICES;
    err := Pass;
  }

  method LegacyStopAllServices(env: Env) returns (err: Outcome)
    modifies env
    ensures env.State() == LegacyStopAll(env.layout, old(env.State())).world
    ensures err == LegacyStopAll(env.layout, old(env.State())).result
  {
    ghost var w0 := env.State();
    ghost var op := LegacyStopFn(env.layout);
    var i := 0;
    while i < |SERVICES|
      invariant 0 <= i <= |SERVICES|
      invariant ForEach(op, w0, SERVICES[..i]) == Step(env.State(), Pass)
    {
      ghost var before := env.State();
      err := SignalService(env, SERVICES[i]);
      ForEachExtend(op, w0, SERVICES, i, before);
      if err.Fail? {
        ForEachPrefixFails(op, w0, SERVICES, i + 1);
        return;
      }
      i := i + 1;
    }
    assert SERVICES[..i] == SERVICES;
    err := Pass;
  }

  method LegacyRestartAllServices(env: Env) returns (err: Outcome)
    modifies env
    ensures env.State() == LegacyRestartAll(env.layout, env.script, old(env.State())).world
    ensures err == LegacyRestartAll(env.layout, env.script, old(env.State())).result
  {
    ghost var w0 := env.State();
    ghost var op := LegacyRestartFn(env.layout, env.script);
    var i := 0;
    while i < |SERVICES|
      invariant 0 <= i <= |SERVICES|
      invariant ForEach(op, w0, SERVICES[..i]) == Step(env.State(), Pass)
    {
      ghost var before := env.State();
      err := LegacyRestartService(env, SERVICES[i]);
      ForEachExtend(op, w0, SERVICES, i, before);
      if err.Fail? {
        ForEachPrefixFails(op, w0, SERVICES, i + 1);
        return;
      }
      i := i + 1;
    }
    assert SERVICES[..i] == SERVICES;
    err := Pass;
  }

  method LegacyDeleteTask(env: Env, name: string) returns (err: Outcome)
    modifies env
    ensures env.State() == LegacyDeleteTaskStep(env.script, old(env.State()), name).world
    ensures err == LegacyDeleteTaskStep(env.script, old(env.State()), name).result
  {
    if name !in env.tasks {
      return Fail(RecordNotFound(name));
    }
    err := env.StopTask(StopTaskCall(env.tasks[name].taskId, false, true));
  }

  method LegacyUninstallService(env: Env, s: Service) returns (err: Outcome)
    modifies env
    ensures env.State() == LegacyUninstallServiceStep(env.script, old(env.State()), s).world
    ensures err == LegacyUninstallServiceStep(env.script, old(env.State()), s).result
  {
    var servicePath := LegacyServicePath(env.State(), s);
    if servicePath.Err? {
      return Fail(servicePath.error);
    }
    err := env.RemoveAll(servicePath.value);
  }

  method LegacyUninstallSystem(env: Env) returns (err: Outcome)
    modifies env
    ensures env.State() == LegacyUninstallSystemStep(env.layout, env.script, old(env.State())).world
    ensures err == LegacyUninstallSystemStep(env.layout, env.script, old(env.State())).result
  {
    if env.euid != 0 {
      return Fail(Plain(NotRoot));
    }
    ghost var w0 := env.State();
    ghost var op := LegacyUninstallSkipFn(env.script);
    var i := 0;
    while i < |SERVICES|
      invariant 0 <= i <= |SERVICES|
      invariant ForEach(op, w0, SERVICES[..i]) == Step(env.State(), Pass)
    {
      ghost var before := env.State();
      err := LegacyUninstallService(env, SERVICES[i]);
      ForEachExtend(op, w0, SERVICES, i, before);
      if err.Fail? {
        if !ErrorsIs(err.error, ServiceNotFound) {
          ForEachPrefixFails(op, w0, SERVICES, i + 1);
          return;
        }
        // a service that is not installed is logged and skipped
      }
      i := i + 1;
    }
    assert SERVICES[..i] == SERVICES;
    err := RemoveSystem(env);
  }
}
