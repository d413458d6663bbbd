// The CLI's error values: the two error types of errors/errors.go with their
// `Error`, `Is` and constructors, plus the other kinds of Go `error` the
// lifecycle code returns or tests with `errors.Is`.

module CmdErrors {

  /** The `errno` values that `syscall.Kill` reports. */
  datatype Errno = ESRCH | EPERM

  /** Which strconv check rejected a number. */
  datatype NumErrorKind = InvalidSyntax | OutOfRange

  /** A Go `error` value as the lifecycle code sees it. */
  datatype Error =
    | PIDNotFound(message: string)          // *PIDNotFound of errors/errors.go
    | WorkSpaceInitError(message: string)   // *WorkSpaceInitError of errors/errors.go
    | ServiceNotFound                       // the ErrServiceNotFound sentinel
    | PathNotFound(path: string)            // the path-not-found error of the core library
    | RecordNotFound(name: string)          // the task repository's failed lookup
    | NumError(num: string, kind: NumErrorKind)  // *strconv.NumError raised by Atoi
    | SyscallError(errno: Errno)            // a syscall.Errno
    | OsError(op: string, path: string)     // an *os.PathError (its cause text is not modelled)
    | EOF                                   // io.EOF
    | Plain(message: string)                // a value built by fmt.Errorf with %v (no wrapping)

  /** A Go `error` result: `nil` or an error. */
  datatype Outcome = Pass | Fail(error: Error)

  /** A Go `(T, error)` result. */
  datatype Result<T> = Ok(value: T) | Err(error: Error)

  datatype Option<T> = None | Some(value: T)

  function ErrnoText(e: Errno): string {
    match e
    case ESRCH => "no such process"
    case EPERM => "operation not permitted"
  }

  function NumErrorText(k: NumErrorKind): string {
    match k
    case InvalidSyntax => "invalid syntax"
    case OutOfRange => "value out of range"
  }

  /** `err.Error()`. For the two types of errors/errors.go it is exactly the stored message. */
  function Message(e: Error): (m: string)
    ensures e.PIDNotFound? || e.WorkSpaceInitError? ==> m == e.message
  {
    match e
    case PIDNotFound(msg) => msg
    case WorkSpaceInitError(msg) => msg
    case ServiceNotFound => "service not found"
    case PathNotFound(p) => "path not found: " + p
    case RecordNotFound(_) => "record not found"
    case NumError(num, kind) => "strconv.Atoi: parsing \"" + num + "\": " + NumErrorText(kind)
    case SyscallError(errno) => ErrnoText(errno)
    case OsError(op, path) => op + " " + path
    case EOF => "EOF"
    case Plain(msg) => msg
  }

  /** `NewPIDNotFound()`: a PIDNotFound carrying the fixed message. */
  function NewPIDNotFound(): (e: Error)
    ensures e.PIDNotFound? && Message(e) == "PID file not found"
  {
    PIDNotFound("PID file not found")
  }

  /** The package-level `ErrPIDNotFound`. */
  const ErrPIDNotFound: Error := NewPIDNotFound()

  /** `NewWorkSpaceInitError(msg)`. */
  function NewWorkSpaceInitError(msg: string): (e: Error)
    ensures e.WorkSpaceInitError? && Message(e) == msg
  {
    WorkSpaceInitError(msg)
  }

  /** The package-level `ErrWorkSpaceInit(msg, args...)`: formats, then wraps. */
  function ErrWorkSpaceInit(format: string, args: seq<string>): (e: Error)
    ensures e.WorkSpaceInitError?
    ensures |args| == 0 && '%' !in format ==> Message(e) == format
  {
    NewWorkSpaceInitError(Sprintf(format, args))
  }

  /** `fmt.Sprintf` restricted to what the callers use: each `%<verb>` takes the
      next argument in its default text form, `%%` is a percent sign, a verb
      with no argument left prints `%!<verb>(MISSING)`, a trailing `%` prints
      `%!(NOVERB)`. */
  function Sprintf(format: string, args: seq<string>): (r: string)
    ensures '%' !in format && args == [] ==> r == format
    decreases |format|
  {
    if format == [] then []
    else if format[0] != '%' then
      assert format == [format[0]] + format[1..];
      [format[0]] + Sprintf(format[1..], args)
    else if |format| == 1 then "%!(NOVERB)"
    else if format[1] == '%' then "%" + Sprintf(format[2..], args)
    else if args == [] then "%!" + [format[1]] + "(MISSING)" + Sprintf(format[2..], args)
    else args[0] + Sprintf(format[2..], args[1..])
  }

  /** `(*PIDNotFound).Is` and `(*WorkSpaceInitError).Is`: a type test on the
      target, blind to both messages. Only those two types have the method. */
  function Is(receiver: Error, target: Error): (r: bool)
    requires receiver.PIDNotFound? || receiver.WorkSpaceInitError?
    ensures receiver.PIDNotFound? ==> (r <==> target.PIDNotFound?)
    ensures receiver.WorkSpaceInitError? ==> (r <==> target.WorkSpaceInitError?)
  {
    match receiver
    case PIDNotFound(_) => target.PIDNotFound?
    case WorkSpaceInitError(_) => target.WorkSpaceInitError?
  }

  /** Whether `errors.Is` may compare a value with `==`: the sentinels and
      syscall.Errno are single values; every other error is a fresh pointer. */
  predicate Comparable(e: Error) {
    e.ServiceNotFound? || e.EOF? || e.SyscallError?
  }

  /** `errors.Is(err, target)` for the targets the CLI tests against. No
      error here wraps ServiceNotFound or one of the two custom types
      (fmt.Errorf is only used with %v), so the unwrap chain never reaches a
      match and is not followed. */
  function ErrorsIs(err: Error, target: Error): (r: bool)
    ensures target.PIDNotFound? ==> (r <==> err.PIDNotFound?)
    ensures target.WorkSpaceInitError? ==> (r <==> err.WorkSpaceInitError?)
    ensures target == ServiceNotFound ==> (r <==> err == ServiceNotFound)
  {
    (Comparable(target) && err == target)
    || ((err.PIDNotFound? || err.WorkSpaceInitError?) && Is(err, target))
  }

  /** The two types of errors/errors.go never match each other, whatever the messages. */
  lemma KindsNeverMatch(m1: string, m2: string)
    ensures !ErrorsIs(PIDNotFound(m1), WorkSpaceInitError(m2))
    ensures !ErrorsIs(WorkSpaceInitError(m2), PIDNotFound(m1))
    ensures ErrorsIs(PIDNotFound(m1), ErrPIDNotFound)
    ensures ErrorsIs(WorkSpaceInitError(m2), ErrWorkSpaceInit(m1, []))
  {
  }
}
