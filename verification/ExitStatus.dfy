/** The exit code of the target, carried through two processes inside wrapped errors. */
module ExitStatus {
  import opened Prelude

  /** syscall.WaitStatus on Linux, as wait4 reports a terminated child. */
  type WaitStatus = ws: int | 0 <= ws < 0x1_0000

  predicate Exited(ws: WaitStatus) {
    ws % 0x80 == 0
  }

  /** Ended by a signal; 0x7F in the low bits means stopped instead. */
  predicate Signaled(ws: WaitStatus) {
    ws % 0x80 != 0 && ws % 0x80 != 0x7F
  }

  predicate Terminated(ws: WaitStatus) {
    Exited(ws) || Signaled(ws)
  }

  /** WaitStatus.ExitStatus: the code, or -1 when the process did not exit by itself. */
  function ExitCode(ws: WaitStatus): int {
    if Exited(ws) then ws / 0x100 % 0x100 else -1
  }

  /** What wait4 reports for an exit with a code, and for the end by a signal, with a core dump or without. */
  lemma StatusesAre(code: nat, signal: nat, core: bool)
    requires code < 0x100 && 1 <= signal <= 64
    ensures var ws: WaitStatus := code * 0x100; Exited(ws) && !Signaled(ws) && ExitCode(ws) == code
    ensures var ws: WaitStatus := signal + if core then 0x80 else 0; Signaled(ws) && !Exited(ws) && ExitCode(ws) == -1
  {
  }

  /** Errors as far as errors.Unwrap and Sys() can tell them apart. */
  datatype Error =
    | Plain
    | Wrapped(inner: Error)
    | ExitError(ws: WaitStatus)
    | ReaperError(ws: WaitStatus)

  function Unwrap(err: Option<Error>): Option<Error> {
    match err
    case Some(Wrapped(inner)) => Some(inner)
    case _ => None
  }

  function GetExecExitStatus(err: Option<Error>): Option<int> {
    match Unwrap(err)
    case Some(ExitError(ws)) => Some(ExitCode(ws))
    case Some(ReaperError(ws)) => Some(ExitCode(ws))
    case _ => None
  }

  /** main: the exit code given to os.Exit, of which the kernel keeps the low eight bits. */
  function ProcessStatus(err: Option<Error>): WaitStatus {
    var code := match GetExecExitStatus(err) case Some(c) => c case None => 1;
    if err == None then 0 else (code % 0x100) * 0x100
  }

  /** exec.Cmd.Wait. */
  function Wait(ws: WaitStatus): Option<Error> {
    if Exited(ws) && ExitCode(ws) == 0 then None else Some(ExitError(ws))
  }

  /** What runAndReap makes of the status its reaper delivers. */
  function Reaped(ws: WaitStatus): Option<Error> {
    if Exited(ws) && ExitCode(ws) == 0 then None else Some(ReaperError(ws))
  }

  /**
   * The end of Child and of Parent: an error of the process waited for is wrapped once; without one
   * the result is what the port driver returns on shutting down, if there is a driver.
   */
  function Return(waited: Option<Error>, driver: Option<Error>): Option<Error> {
    match waited
    case Some(err) => Some(Wrapped(err))
    case None => driver
  }

  /** The exit code of a process that returns `err`. */
  function Code(err: Option<Error>): int {
    ExitCode(ProcessStatus(err))
  }

  function ChildStatus(target: WaitStatus, reaper: bool, childDriver: Option<Error>): WaitStatus {
    ProcessStatus(Return(if reaper then Reaped(target) else Wait(target), childDriver))
  }

  function OuterStatus(target: WaitStatus, reaper: bool, childDriver: Option<Error>, parentDriver: Option<Error>): WaitStatus {
    ProcessStatus(Return(Wait(ChildStatus(target, reaper, childDriver)), parentDriver))
  }

  /** The code a target's end should be reported with. */
  function Expected(target: WaitStatus): int {
    if Exited(target) then ExitCode(target) else 255
  }

  /** A code is found in an error wrapped once; any other error, an unwrapped status included, gives 1. */
  lemma CodeIs(err: Option<Error>)
    ensures Code(err) == match err
                         case None => 0
                         case Some(Wrapped(ExitError(ws))) => (if ws % 0x80 == 0 then ws / 0x100 else 255)
                         case Some(Wrapped(ReaperError(ws))) => (if ws % 0x80 == 0 then ws / 0x100 else 255)
                         case Some(_) => 1
  {
  }

  lemma StatusIs(err: Option<Error>)
    ensures Exited(ProcessStatus(err)) && 0 <= Code(err) < 0x100
    ensures ProcessStatus(err) == Code(err) * 0x100
  {
  }

  /** Waiting for a process that has exited and returning gives its code, or the driver's error if that is 0. */
  lemma ReturnsCode(ws: WaitStatus, reaper: bool, driver: Option<Error>)
    requires Terminated(ws)
    ensures Code(Return(if reaper then Reaped(ws) else Wait(ws), driver)) ==
              if Expected(ws) != 0 then Expected(ws) else Code(driver)
  {
  }

  /**
   * The outer process exits with the target's code, or with 255 when a signal ended the target; if
   * that is 0, a port driver that fails on shutting down decides, the child's first.
   */
  lemma ExitCodePropagates(target: WaitStatus, reaper: bool, childDriver: Option<Error>, parentDriver: Option<Error>)
    requires Terminated(target)
    ensures var outer := OuterStatus(target, reaper, childDriver, parentDriver);
            && Exited(outer)
            && ExitCode(outer) == (if Expected(target) != 0 then Expected(target)
                                   else if Code(childDriver) != 0 then Code(childDriver)
                                   else Code(parentDriver))
            && (ExitCode(outer) == Expected(target) <==>
                  Expected(target) != 0 || (Code(childDriver) == 0 && Code(parentDriver) == 0))
  {
    var child := ChildStatus(target, reaper, childDriver);
    ReturnsCode(target, reaper, childDriver);
    StatusIs(Return(if reaper then Reaped(target) else Wait(target), childDriver));
    ReturnsCode(child, false, parentDriver);
    StatusIs(Return(Wait(child), parentDriver));
    StatusIs(childDriver);
    StatusIs(parentDriver);
  }

  function WrapTimes(n: nat, err: Error): Error {
    if n == 0 then err else Wrapped(WrapTimes(n - 1, err))
  }

  /** The code survives exactly when the status-bearing error is wrapped once. */
  lemma {:induction false} WrappedOnce(n: nat, ws: WaitStatus, reaper: bool)
    ensures var err := if reaper then ReaperError(ws) else ExitError(ws);
            GetExecExitStatus(Some(WrapTimes(n, err))) == if n == 1 then Some(ExitCode(ws)) else None
  {
  }
}
