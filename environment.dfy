// The world the CLI acts on: PID files, live processes, installed binaries,
// the task repository and logs of the effects it causes, together with the
// answers of the collaborators the model does not contain (the launch shell,
// the go tool, the bus, the kernel's view of an interrupted process).

module Environment {
  import opened CmdErrors
  import opened Text
  import opened Registry

  /** A PID as the shell's `$!` reports it. */
  type Pid = p: int | 0 < p <= MaxInt64 witness 1

  /** What launching a service does: the log-file or PID-directory setup fails
      (returned as is), the `sh -c` command fails (returned wrapped), or the
      binary is backgrounded under `pid`, staying alive or dying at once. */
  datatype Launch =
    | SetupFailed(reason: Error)
    | ShellFailed(reason: Error)
    | Spawned(pid: Pid, survives: bool)

  /** What `go install <target>` does: installs a binary, or fails with the error runCMD returns. */
  datatype InstallReply = Installed(binary: Path) | InstallFailed(reason: Error)

  /** The answers of the outside world during one CLI invocation. `exitPolls(s)`
      lists what the successive liveness checks see after service s has been
      sent SIGINT (true: still running); checks beyond the list see it running.
      `removeFails` maps each path whose `os.RemoveAll` fails to the entries
      under it that were already removed when it gave up. */
  datatype Script = Script(
    launch: Service -> Launch,
    exitPolls: Service -> seq<bool>,
    goInstall: string -> InstallReply,
    cleanCache: Outcome,
    bus: Outcome,
    removeFails: map<Path, set<Path>>)

  /** A task record of the repository. */
  datatype Task = Task(
    taskId: string,
    name: string,
    executable: Path,
    logPath: Path,
    isDisabled: bool,
    isError: bool)

  /** An entry met while walking the package directory. */
  datatype DirEntry = DirEntry(path: Path, name: string, isDir: bool)

  datatype GoCommand = GoInstall(target: string) | GoCleanModCache
  /** A call `bc.StopTask(taskId, disable, delete)` on the bus client. */
  datatype StopTaskCall = StopTaskCall(taskId: string, disable: bool, delete: bool)
  /** A SIGINT delivered to `pid`, the recorded process of `service`. */
  datatype Interrupt = Interrupt(service: Service, pid: int)

  /** Append-only logs of the CLI's effects on the outside world. */
  datatype Effects = Effects(
    interrupts: seq<Interrupt>,
    launches: seq<Service>,
    commands: seq<GoCommand>,
    busCalls: seq<StopTaskCall>,
    removed: seq<Path>)

  datatype World = World(
    euid: int,
    goPath: Result<Path>,
    paths: set<Path>,
    pkgEntries: seq<DirEntry>,
    pidDirExists: bool,
    pidFiles: map<Service, string>,
    live: set<int>,
    foreign: set<int>,
    tasks: map<string, Task>,
    log: Effects)

  /** A world and the `error` an operation returned in it. */
  datatype Step = Step(world: World, result: Outcome)

  /** A PID file can only exist inside the PID directory. */
  predicate Coherent(w: World) {
    w.pidFiles != map[] ==> w.pidDirExists
  }

  // ---------------------------------------------------------------- reading

  /** `readPID(paths.PID_PATH(s))`: ErrPIDNotFound exactly when the PID
      directory is missing; an open error when the file is; otherwise the
      parse of its first line. */
  function ReadPID(layout: Layout, w: World, s: Service): (r: Result<int>)
    ensures (r.Err? && r.error.PIDNotFound?) <==> !w.pidDirExists
    ensures w.pidDirExists && s !in w.pidFiles ==> r == Err(OsError("open", layout.pidPath(s)))
    ensures w.pidDirExists && s in w.pidFiles ==> r == ParsePidText(w.pidFiles[s])
    ensures r.Ok? ==> s in w.pidFiles && ParsePidText(w.pidFiles[s]) == r
  {
    if !w.pidDirExists then Err(ErrPIDNotFound)
    else if s !in w.pidFiles then Err(OsError("open", layout.pidPath(s)))
    else ParsePidText(w.pidFiles[s])
  }

  /** The errno `syscall.Kill(pid, sig)` returns, if any: none exactly for a
      process that accepts the CLI's signals, EPERM for one that exists but
      refuses them, ESRCH otherwise. */
  function KillCheck(w: World, pid: int): (r: Option<Errno>)
    ensures r.None? <==> pid in w.live
    ensures r == Some(EPERM) <==> pid !in w.live && pid in w.foreign
    ensures r == Some(ESRCH) <==> pid !in w.live && pid !in w.foreign
  {
    if pid in w.live then None
    else if pid in w.foreign then Some(EPERM)
    else Some(ESRCH)
  }

  /** `isServiceRunning`: true exactly when the PID record exists, parses and
      names a process that accepts signal 0; every failure (no directory, no
      file, bad text, ESRCH, EPERM) reads as not running. */
  function IsServiceRunning(layout: Layout, w: World, s: Service): (r: bool)
    ensures r <==> w.pidDirExists && s in w.pidFiles
                   && ParsePidText(w.pidFiles[s]).Ok? && ParsePidText(w.pidFiles[s]).value in w.live
  {
    match ReadPID(layout, w, s)
    case Err(_) => false
    case Ok(pid) => KillCheck(w, pid).None?
  }

  /** `getServicePath` with the binary name already chosen: the Go path's
      error, ServiceNotFound when the binary is absent, else its path. */
  function LocateBinary(w: World, name: string): (r: Result<Path>)
    ensures w.goPath.Err? ==> r == Err(w.goPath.error)
    ensures w.goPath.Ok? ==> r.Ok? || r == Err(ServiceNotFound)
    ensures w.goPath.Ok? ==> (r.Ok? <==> Join(Join(w.goPath.value, "bin"), name) in w.paths)
    ensures r.Ok? ==> w.goPath.Ok? && r.value == Join(Join(w.goPath.value, "bin"), name)
  {
    match w.goPath
    case Err(e) => Err(e)
    case Ok(goPath) =>
      var binPath := Join(Join(goPath, "bin"), name);
      if binPath in w.paths then Ok(binPath) else Err(ServiceNotFound)
  }

  /** `isServiceInstalled` given getServicePath's answer: a missing binary is
      "not installed", any other failure is passed on. */
  function InstalledFrom(located: Result<Path>): (r: Result<bool>)
    ensures r == Ok(true) <==> located.Ok?
    ensures r == Ok(false) <==> located == Err(ServiceNotFound)
    ensures r.Err? <==> located.Err? && located.error != ServiceNotFound
  {
    match located
    case Ok(_) => Ok(true)
    case Err(e) => if ErrorsIs(e, ServiceNotFound) then Ok(false) else Err(e)
  }

  // ---------------------------------------------------------------- effects

  /** q lies strictly inside directory p. */
  predicate Under(q: Path, p: Path) {
    |q| > |p| && q[..|p| + 1] == p + "/"
  }

  /** `os.RemoveAll(p)`: removes p and everything under it. On a path the
      script marks as failing it removes what it can below p (the entries the
      script names), keeps p itself, and returns the error. */
  function RemoveAllStep(sc: Script, w: World, p: Path): (st: Step)
    ensures st.result.Fail? <==> p in sc.removeFails
    ensures st.result.Fail? ==> st.result.error == OsError("unlinkat", p)
    ensures st.result.Fail? ==> st.world == w.(paths := st.world.paths) && (p in st.world.paths <==> p in w.paths)
    ensures st.result.Fail? ==>
              forall q :: q in w.paths && Under(q, p) ==> (q in st.world.paths <==> q !in sc.removeFails[p])
    ensures st.result.Pass? ==> p !in st.world.paths && st.world.log.removed == w.log.removed + [p]
    ensures st.result.Pass? ==> forall q :: q in w.paths && Under(q, p) ==> q !in st.world.paths
    ensures st.world.paths <= w.paths
    ensures forall q :: q in w.paths && q != p && !Under(q, p) ==> q in st.world.paths
    ensures st.world.pidFiles == w.pidFiles && st.world.pidDirExists == w.pidDirExists
    ensures st.world.goPath == w.goPath && st.world.euid == w.euid && st.world.pkgEntries == w.pkgEntries
  {
    if p in sc.removeFails then
      Step(w.(paths := set q | q in w.paths && !(Under(q, p) && q in sc.removeFails[p])), Fail(OsError("unlinkat", p)))
    else
      Step(w.(paths := (set q | q in w.paths && q != p && !Under(q, p)),
              log := w.log.(removed := w.log.removed + [p])), Pass)
  }

  /** `syscall.Kill(pid, SIGINT)` for the recorded process of s: logged when delivered. */
  function InterruptStep(w: World, s: Service, pid: int): (st: Step)
    ensures st.result.Pass? <==> pid in w.live
    ensures st.result.Pass? ==> st.world == w.(log := w.log.(interrupts := w.log.interrupts + [Interrupt(s, pid)]))
    ensures st.result.Fail? ==> st.world == w && st.result.error.SyscallError?
  {
    match KillCheck(w, pid)
    case Some(errno) => Step(w, Fail(SyscallError(errno)))
    case None => Step(w.(log := w.log.(interrupts := w.log.interrupts + [Interrupt(s, pid)])), Pass)
  }

  /** `runServiceCMD(s)`: `keiji-<s> > <log> 2>&1 & echo $! > <pid file>`. On
      success the PID file holds the new PID as one decimal line. */
  function RunServiceCmdStep(layout: Layout, sc: Script, w: World, s: Service): (st: Step)
    ensures s !in SERVICES ==> st == Step(w, Fail(Plain("invalid service name " + s)))
    ensures st.result.Pass? <==> s in SERVICES && sc.launch(s).Spawned?
    ensures st.result.Fail? ==> st.world == w
    ensures st.result.Pass? ==> st.world.pidDirExists && st.world.pidFiles == w.pidFiles[s := PidLine(sc.launch(s).pid)]
    ensures w.live <= st.world.live
    ensures Coherent(st.world) || st.world == w
  {
    match ServiceLogPath(layout, s)
    case Err(e) => Step(w, Fail(e))
    case Ok(_) =>
      match sc.launch(s)
      case SetupFailed(e) => Step(w, Fail(e))
      case ShellFailed(e) => Step(w, Fail(Plain("failed to start command: " + Message(e))))
      case Spawned(pid, survives) =>
        Step(w.(pidDirExists := true,
                pidFiles := w.pidFiles[s := PidLine(pid)],
                live := if survives then w.live + {pid} else w.live,
                log := w.log.(launches := w.log.launches + [s])), Pass)
  }

  /** `runCMD` for the go tool: logged whether or not it succeeds. */
  function RunGoStep(sc: Script, w: World, cmd: GoCommand): (st: Step)
    ensures st.world.log.commands == w.log.commands + [cmd]
    ensures st.world.pidFiles == w.pidFiles && st.world.pidDirExists == w.pidDirExists
    ensures st.world.live == w.live && st.world.tasks == w.tasks
    ensures st.world.log.launches == w.log.launches && st.world.log.interrupts == w.log.interrupts
    ensures cmd.GoCleanModCache? ==> st.result == sc.cleanCache
    ensures cmd.GoInstall? ==> (st.result.Pass? <==> sc.goInstall(cmd.target).Installed?)
  {
    var w1 := w.(log := w.log.(commands := w.log.commands + [cmd]));
    match cmd
    case GoCleanModCache => Step(w1, sc.cleanCache)
    case GoInstall(target) =>
      match sc.goInstall(target)
      case Installed(binary) => Step(w1.(paths := w1.paths + {binary}), Pass)
      case InstallFailed(e) => Step(w1, Fail(e))
  }

  /** `bc.StopTask(taskId, disable, delete)`: one logged call, answered by the bus. */
  function StopTaskStep(sc: Script, w: World, call: StopTaskCall): (st: Step)
    ensures st.result == sc.bus
    ensures st.world == w.(log := w.log.(busCalls := w.log.busCalls + [call]))
  {
    Step(w.(log := w.log.(busCalls := w.log.busCalls + [call])), sc.bus)
  }

  // ---------------------------------------------------------------- batches

  /** The loops over all services (and the uninstaller's directory walk):
      apply op to each element in order and stop at the first error, returning it. */
  function ForEach<T>(op: (World, T) -> Step, w: World, ss: seq<T>): (r: Step)
    ensures ss == [] ==> r == Step(w, Pass)
    ensures ss != [] && op(w, ss[0]).result.Fail? ==> r == op(w, ss[0])
    ensures ss != [] && r.result.Pass? ==> op(w, ss[0]).result.Pass?
    decreases |ss|
  {
    if ss == [] then Step(w, Pass)
    else
      var first := op(w, ss[0]);
      if first.result.Fail? then first else ForEach(op, first.world, ss[1..])
  }

  /** Running a batch in two parts is running it once; the second part does
      not run when the first fails. */
  lemma {:induction false} ForEachSplit<T>(op: (World, T) -> Step, w: World, p: seq<T>, t: seq<T>)
    ensures ForEach(op, w, p + t) ==
      (var a := ForEach(op, w, p); if a.result.Fail? then a else ForEach(op, a.world, t))
    decreases |p|
  {
    if p != [] {
      assert (p + t)[0] == p[0] && (p + t)[1..] == p[1..] + t;
      var first := op(w, p[0]);
      if first.result.Pass? {
        ForEachSplit(op, first.world, p[1..], t);
      }
    } else {
      assert p + t == t;
    }
  }

  /** A batch of operations that keep the world coherent keeps it coherent. */
  lemma {:induction false} ForEachCoherent<T>(op: (World, T) -> Step, w: World, ss: seq<T>)
    requires forall w', s :: Coherent(w') ==> Coherent(op(w', s).world)
    ensures Coherent(w) ==> Coherent(ForEach(op, w, ss).world)
    decreases |ss|
  {
    if ss != [] && Coherent(w) {
      var first := op(w, ss[0]);
      if first.result.Pass? {
        ForEachCoherent(op, first.world, ss[1..]);
      }
    }
  }

  /** One more element of a batch whose prefix passed: the batch so far is
      that element's step, its error kept and its success folded into Pass. */
  lemma ForEachExtend<T>(op: (World, T) -> Step, w0: World, ss: seq<T>, i: nat, w: World)
    requires i < |ss| && ForEach(op, w0, ss[..i]) == Step(w, Pass)
    ensures ForEach(op, w0, ss[..i + 1]) ==
      (var st := op(w, ss[i]); if st.result.Fail? then st else Step(st.world, Pass))
  {
    assert ss[..i + 1] == ss[..i] + [ss[i]];
    ForEachSplit(op, w0, ss[..i], [ss[i]]);
    assert [ss[i]][1..] == [];
  }

  /** Once a prefix of a batch fails, the rest of the batch is not run. */
  lemma ForEachPrefixFails<T>(op: (World, T) -> Step, w0: World, ss: seq<T>, i: nat)
    requires i <= |ss| && ForEach(op, w0, ss[..i]).result.Fail?
    ensures ForEach(op, w0, ss) == ForEach(op, w0, ss[..i])
  {
    assert ss == ss[..i] + ss[i..];
    ForEachSplit(op, w0, ss[..i], ss[i..]);
  }

  /** A batch of two elements, unfolded. */
  lemma ForEachPair<T>(op: (World, T) -> Step, w: World, a: T, b: T)
    ensures ForEach(op, w, [a, b]) ==
      (var first := op(w, a);
       if first.result.Fail? then first
       else var second := op(first.world, b);
            if second.result.Fail? then second else Step(second.world, Pass))
  {
    assert [a, b][1..] == [b];
    assert [b][1..] == [];
    var first := op(w, a);
    if first.result.Pass? {
      var second := op(first.world, b);
      assert ForEach(op, first.world, [b]) == (if second.result.Fail? then second else ForEach(op, second.world, []));
    }
  }

  /** A batch of steps none of which creates a path creates none (nor
      changes the Go path or the package entries). */
  lemma {:induction false} ForEachShrinks<T>(op: (World, T) -> Step, w: World, ss: seq<T>)
    requires forall w', x :: op(w', x).world.paths <= w'.paths && op(w', x).world.goPath == w'.goPath
                             && op(w', x).world.pkgEntries == w'.pkgEntries
    ensures ForEach(op, w, ss).world.paths <= w.paths
    ensures ForEach(op, w, ss).world.goPath == w.goPath && ForEach(op, w, ss).world.pkgEntries == w.pkgEntries
    decreases |ss|
  {
    if ss != [] {
      var first := op(w, ss[0]);
      if first.result.Pass? {
        ForEachShrinks(op, first.world, ss[1..]);
      }
    }
  }

  // ---------------------------------------------------------------- the class

  /** The operating system, file system, task repository and bus as one
      mutable object; `State()` is its value as a World. */
  class Env {
    const layout: Layout
    const script: Script
    var euid: int
    var goPath: Result<Path>
    var paths: set<Path>
    var pkgEntries: seq<DirEntry>
    var pidDirExists: bool
    var pidFiles: map<Service, string>
    var live: set<int>
    var foreign: set<int>
    var tasks: map<string, Task>
    var log: Effects

    function State(): World
      reads this
    {
      World(euid, goPath, paths, pkgEntries, pidDirExists, pidFiles, live, foreign, tasks, log)
    }

    constructor (layout: Layout, script: Script, w: World)
      ensures State() == w && this.layout == layout && this.script == script
    {
      this.layout := layout;
      this.script := script;
      euid, goPath, paths, pkgEntries := w.euid, w.goPath, w.paths, w.pkgEntries;
      pidDirExists, pidFiles, live, foreign := w.pidDirExists, w.pidFiles, w.live, w.foreign;
      tasks, log := w.tasks, w.log;
    }

    method RemoveAll(p: Path) returns (r: Outcome)
      modifies this
      ensures State() == RemoveAllStep(script, old(State()), p).world
      ensures r == RemoveAllStep(script, old(State()), p).result
    {
      if p in script.removeFails {
        paths := set q | q in paths && !(Under(q, p) && q in script.removeFails[p]);
        r := Fail(OsError("unlinkat", p));
      } else {
        paths := set q | q in paths && q != p && !Under(q, p);
        log := log.(removed := log.removed + [p]);
        r := Pass;
      }
    }

    method SendInterrupt(s: Service, pid: int) returns (r: Outcome)
      modifies this
      ensures State() == InterruptStep(old(State()), s, pid).world
      ensures r == InterruptStep(old(State()), s, pid).result
    {
      var errno := KillCheck(State(), pid);
      if errno.Some? {
        r := Fail(SyscallError(errno.value));
      } else {
        log := log.(interrupts := log.interrupts + [Interrupt(s, pid)]);
        r := Pass;
      }
    }

    /** The interrupted process `pid` has been seen to exit. */
    method ProcessExited(pid: int)
      modifies this
      ensures State() == old(State()).(live := old(live) - {pid})
    {
      live := live - {pid};
    }

    method RunServiceCmd(s: Service) returns (r: Outcome)
      modifies this
      ensures State() == RunServiceCmdStep(layout, script, old(State()), s).world
      ensures r == RunServiceCmdStep(layout, script, old(State()), s).result
    {
      var logPath := ServiceLogPath(layout, s);
      if logPath.Err? {
        return Fail(logPath.error);
      }
      match script.launch(s)
      case SetupFailed(e) =>
        r := Fail(e);
      case ShellFailed(e) =>
        r := Fail(Plain("failed to start command: " + Message(e)));
      case Spawned(pid, survives) =>
        pidDirExists := true;
        pidFiles := pidFiles[s := PidLine(pid)];
        if survives {
          live := live + {pid};
        }
        log := log.(launches := log.launches + [s]);
        r := Pass;
    }

    method RunGo(cmd: GoCommand) returns (r: Outcome)
      modifies this
      ensures State() == RunGoStep(script, old(State()), cmd).world
      ensures r == RunGoStep(script, old(State()), cmd).result
    {
      log := log.(commands := log.commands + [cmd]);
      match cmd
      case GoCleanModCache =>
        r := script.cleanCache;
      case GoInstall(target) =>
        match script.goInstall(target)
        case Installed(binary) =>
          paths := paths + {binary};
          r := Pass;
        case InstallFailed(e) =>
          r := Fail(e);
    }

    method StopTask(call: StopTaskCall) returns (r: Outcome)
      modifies this
      ensures State() == StopTaskStep(script, old(State()), call).world
      ensures r == StopTaskStep(script, old(State()), call).result
    {
      log := log.(busCalls := log.busCalls + [call]);
      r := script.bus;
    }

    /** The repository's `DeleteTask`. */
    method DeleteTaskRecord(name: string)
      modifies this
      ensures State() == old(State()).(tasks := old(tasks) - {name})
    {
      tasks := tasks - {name};
    }
  }
}
