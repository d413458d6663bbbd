// The static configuration and pure decisions of cli/execute.go: the fixed
// services, where each is installed from and logs to, how its binary is named,
// the generic `valid` check, the editor choice for log viewing and the
// package-cache deletion predicate of the uninstaller.

module Registry {
  import opened CmdErrors
  import opened Text

  /** The CLI's service type is a string; only the two constants below are
      registered, but other strings (notably "keiji") reach the same code. */
  type Service = string
  type Path = string

  const SCHEDULER: Service := "scheduler"
  const TCP_BUS: Service := "tcp-bus"
  /** The services every "all" command walks, in this order. */
  const SERVICES: seq<Service> := [SCHEDULER, TCP_BUS]
  /** The name under which the CLI itself is installed. */
  const MAIN_PROGRAM: Service := "keiji"

  /** Locations the core library defines; the model takes them as given. */
  datatype Layout = Layout(
    schedulerLogs: Path,
    busLogs: Path,
    workspace: Path,
    systemRoot: Path,
    pidPath: Service -> Path)

  // ---------------------------------------------------------------- registry

  /** `serviceRepos[service]`. */
  function ServiceRepo(s: Service): (r: Option<string>)
    ensures r.Some? <==> s in SERVICES
  {
    if s == SCHEDULER then Some("github.com/aodr3w/keiji-scheduler")
    else if s == TCP_BUS then Some("github.com/aodr3w/keiji-bus")
    else None
  }

  /** The argument InstallService passes to `go install`. */
  function InstallTarget(repoURL: string): (t: string)
    ensures |t| == |repoURL| + 5 && t[..|repoURL|] == repoURL && t[|repoURL|..] == "@main"
  {
    repoURL + "@main"
  }

  /** `serviceLogsMapping[service]`: the empty string for an unregistered service. */
  function ServiceLogsMapping(layout: Layout, s: Service): (p: Path)
    ensures s == SCHEDULER ==> p == layout.schedulerLogs
    ensures s == TCP_BUS ==> p == layout.busLogs
    ensures s !in SERVICES ==> p == ""
  {
    if s == SCHEDULER then layout.schedulerLogs
    else if s == TCP_BUS then layout.busLogs
    else ""
  }

  /** `getServiceLogPath`: the log file of a registered service, an error for any other name. */
  function ServiceLogPath(layout: Layout, s: Service): (r: Result<Path>)
    ensures r.Ok? <==> s in SERVICES
    ensures r.Ok? ==> r.value == ServiceLogsMapping(layout, s)
    ensures r.Err? ==> r.error == Plain("invalid service name " + s)
  {
    if s == SCHEDULER then Ok(layout.schedulerLogs)
    else if s == TCP_BUS then Ok(layout.busLogs)
    else Err(Plain("invalid service name " + s))
  }

  // ---------------------------------------------------------------- binaries

  /** `strings.EqualFold(service, "keiji")`. */
  function IsMainProgram(s: Service): (r: bool)
    ensures r <==> |s| == 5 && s[0] in {'k', 'K', '\U{212A}'} && s[1] in {'e', 'E'}
                   && s[2] in {'i', 'I'} && s[3] in {'j', 'J'} && s[4] in {'i', 'I'}
  {
    var r := EqualFold(s, MAIN_PROGRAM);
    assert r ==> FoldClass(s[0]) == 'k' && FoldClass(s[1]) == 'e' && FoldClass(s[2]) == 'i'
                 && FoldClass(s[3]) == 'j' && FoldClass(s[4]) == 'i';
    r
  }

  /** The binary name getServicePath looks for in $GOPATH/bin: the CLI itself
      for any case-variant of "keiji", `keiji-<service>` otherwise. */
  function BinaryName(s: Service): (n: string)
    ensures |n| >= 5 && n[..5] == MAIN_PROGRAM
    ensures n == MAIN_PROGRAM <==> IsMainProgram(s)
    ensures !IsMainProgram(s) ==> |n| == |s| + 6 && n[5] == '-' && n[6..] == s
  {
    if IsMainProgram(s) then MAIN_PROGRAM else MAIN_PROGRAM + "-" + s
  }

  /** The path getServicePath checks, given the Go path: the binary's name
      directly inside `<goPath>/bin`. */
  function BinaryPath(goPath: Path, s: Service): (p: Path)
    ensures |p| == |goPath| + 5 + |BinaryName(s)|
    ensures p[..|goPath| + 5] == goPath + "/bin/" && p[|goPath| + 5..] == BinaryName(s)
  {
    Join(Join(goPath, "bin"), BinaryName(s))
  }

  /** Two different service names never share a binary unless both are
      spellings of the CLI itself, so uninstalling one service never removes
      another's binary. */
  lemma BinaryPathInjective(goPath: Path, s1: Service, s2: Service)
    requires BinaryPath(goPath, s1) == BinaryPath(goPath, s2)
    ensures s1 == s2 || (IsMainProgram(s1) && IsMainProgram(s2))
  {
    var dir := Join(goPath, "bin") + "/";
    assert BinaryPath(goPath, s1) == dir + BinaryName(s1);
    assert BinaryPath(goPath, s2) == dir + BinaryName(s2);
    assert BinaryName(s1) == (dir + BinaryName(s1))[|dir|..];
    assert BinaryName(s2) == (dir + BinaryName(s2))[|dir|..];
    var prefix := MAIN_PROGRAM + "-";
    if !IsMainProgram(s1) && !IsMainProgram(s2) {
      assert s1 == (prefix + s1)[|prefix|..];
      assert s2 == (prefix + s2)[|prefix|..];
    }
  }

  /** The registered services have distinct binaries, neither of which is the CLI's. */
  lemma RegisteredBinariesDistinct(goPath: Path)
    ensures BinaryPath(goPath, SCHEDULER) != BinaryPath(goPath, TCP_BUS)
    ensures BinaryPath(goPath, SCHEDULER) != BinaryPath(goPath, MAIN_PROGRAM)
    ensures BinaryPath(goPath, TCP_BUS) != BinaryPath(goPath, MAIN_PROGRAM)
  {
    assert !IsMainProgram(SCHEDULER) && !IsMainProgram(TCP_BUS) && IsMainProgram(MAIN_PROGRAM);
    if BinaryPath(goPath, SCHEDULER) == BinaryPath(goPath, TCP_BUS) {
      BinaryPathInjective(goPath, SCHEDULER, TCP_BUS);
    }
    if BinaryPath(goPath, SCHEDULER) == BinaryPath(goPath, MAIN_PROGRAM) {
      BinaryPathInjective(goPath, SCHEDULER, MAIN_PROGRAM);
    }
    if BinaryPath(goPath, TCP_BUS) == BinaryPath(goPath, MAIN_PROGRAM) {
      BinaryPathInjective(goPath, TCP_BUS, MAIN_PROGRAM);
    }
  }

  /** `getPkgPath`'s directory: the project's modules in the Go module cache. */
  function PkgPath(goPath: Path): (p: Path)
    ensures p == goPath + "/pkg/mod/github.com/aodr3w"
  {
    Join(Join(Join(Join(goPath, "pkg"), "mod"), "github.com"), "aodr3w")
  }

  /** The uninstaller's test on a walked entry, with Go's precedence:
      `d.IsDir() && contains(name, "keiji") || contains(name, "logger")`.
      A file (not only a directory) whose name mentions "logger" is removed too. */
  function PkgEntryDoomed(isDir: bool, name: string): (r: bool)
    ensures r <==> (isDir && Contains(name, "keiji")) || Contains(name, "logger")
    ensures !isDir && name == "logger.go" ==> r
  {
    assert OccursAt("logger.go", "logger", 0);
    (isDir && Contains(name, "keiji")) || Contains(name, "logger")
  }

  // ---------------------------------------------------------------- valid

  /** The dynamic types `valid` distinguishes. */
  datatype Value =
    | ServiceValue(service: Service)
    | EditorValue(editor: string)
    | StringValue(str: string)
    | IntValue(i: int)
    | BoolValue(b: bool)
    | OtherValue

  const VIM: string := "vim"
  const NANO: string := "nano"
  const CODE: string := "code"

  /** `valid(data)`: non-empty strings and services, positive ints, any bool,
      and exactly the three known editors. */
  function Valid(v: Value): (r: bool)
    ensures v.EditorValue? ==> (r <==> v.editor in {CODE, VIM, NANO})
    ensures v.StringValue? ==> (r <==> v.str != [])
    ensures v.ServiceValue? ==> (r <==> v.service != [])
    ensures v.IntValue? ==> (r <==> v.i > 0)
    ensures v.BoolValue? ==> r
    ensures v.OtherValue? ==> !r
  {
    match v
    case ServiceValue(s) => |s| > 0
    case EditorValue(e) => ((|e| > 0 && e == "code") || e == "vim") || e == "nano"
    case StringValue(s) => |s| > 0
    case IntValue(i) => i >= 1
    case BoolValue(_) => true
    case OtherValue => false
  }

  // ---------------------------------------------------------------- logs

  /** What `handleGetLogs` does with a log file: open it in an editor or print its last lines. */
  datatype LogView = OpenInEditor(editor: string, path: Path) | PrintLogLines(path: Path)

  /** The editor `handleGetLogs` picks: the flags are applied in the order
      code, vim, nano, so the last one set wins. */
  function ChosenEditor(code: bool, vim: bool, nano: bool): (e: string)
    ensures nano ==> e == NANO
    ensures !nano && vim ==> e == VIM
    ensures !nano && !vim && code ==> e == CODE
    ensures !nano && !vim && !code ==> e == ""
  {
    var e0 := "";
    var e1 := if code then CODE else e0;
    var e2 := if vim then VIM else e1;
    if nano then NANO else e2
  }

  /** `handleGetLogs(path, code, vim, nano)`: an editor exactly when a flag is set. */
  function HandleGetLogs(path: Path, code: bool, vim: bool, nano: bool): (v: LogView)
    ensures v.path == path
    ensures v.OpenInEditor? <==> code || vim || nano
    ensures v.OpenInEditor? ==> v.editor == ChosenEditor(code, vim, nano)
  {
    var editor := ChosenEditor(code, vim, nano);
    if Valid(EditorValue(editor)) then OpenInEditor(editor, path) else PrintLogLines(path)
  }

  /** `handleGetServiceLogs`: a registered service's log file, an error for
      any other name (and for a registered one whose log path is empty). */
  function HandleGetServiceLogs(layout: Layout, s: Service, code: bool, vim: bool, nano: bool): (r: Result<LogView>)
    ensures r.Ok? <==> ServiceLogsMapping(layout, s) != []
    ensures s !in SERVICES ==> r == Err(Plain("logs path for service " + s + " not found"))
    ensures r.Ok? ==> s in SERVICES && r.value == HandleGetLogs(ServiceLogsMapping(layout, s), code, vim, nano)
  {
    var path := ServiceLogsMapping(layout, s);
    if Valid(StringValue(path)) then Ok(HandleGetLogs(path, code, vim, nano))
    else Err(Plain("logs path for service " + s + " not found"))
  }
}
