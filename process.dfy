/** What the drivers know about the processes they start, and the errors
    they raise. A process is an opaque handle; how it ends (its exit code,
    whether a bounded wait ran out, whether it could be started at all)
    is supplied by the caller as an oracle value. */
module Processes {

  datatype Option<+T> = None | Some(value: T)

  /** Why an `ExecutionError` was raised. */
  datatype ExecReason =
    | CommandFailed(command: string, stdout: seq<string>, stderr: seq<string>)  // non-zero exit in `_run_check`
    | CommandNotRun(cmd: seq<string>)                  // "error executing command: ..."
    | ConnectFailed(address: string, args: seq<string>) // own master exited non-zero or timed out
    | NoControlSocket(address: string)                  // own master left no control socket
    | KeepaliveLost                                     // "Keepalive no longer running"
    | WaitTimeout                                       // "Wait timeout expired"

  /** The exceptions raised by the drivers. */
  datatype Error =
    | AssertionError                                    // a Python `assert` failed
    | AttributeError                                    // an attribute read before it was ever set
    | SpawnFailed(cmd: seq<string>)                     // the process or its redirection file could not be opened
    | TimeoutExpired(cmd: seq<string>)                  // subprocess.TimeoutExpired
    | CalledProcessError(returncode: int, cmd: seq<string>)
    | FileNotFound(path: string)                        // rmtree of a directory that is gone
    | ExecutionError(reason: ExecReason)

  datatype Result<+T> = Ok(value: T) | Err(error: Error)

  /** Result of an operation that returns nothing. */
  datatype Outcome = Pass | Fail(error: Error)

  /** A started process. `pid` is unique per driver; `stdoutPiped` records
      whether its standard output is a pipe the caller may read (Popen's
      `stdout` attribute is then not None); `env` holds the variables added
      to the inherited environment. */
  datatype Proc = Proc(pid: nat, args: seq<string>, env: map<string, string>, stdoutPiped: bool)

  /** How a wait on a process ends: the process exited with `code`, or it
      was still running when the wait's bound ran out. */
  datatype WaitOutcome = Exited(code: int) | StillRunning

  /** A wait without a bound only returns once the process has exited. */
  predicate WaitPossible(timeout: Option<int>, w: WaitOutcome)
  {
    timeout.Some? || w.Exited?
  }

  /** How a synchronous `subprocess.call` ends. */
  datatype CallOutcome = CallSpawnFailed | CallExited(code: int)

  /** What `_run` returns: stdout lines, stderr lines, exit code. */
  datatype RunResult = RunResult(stdout: seq<string>, stderr: seq<string>, code: int)

  /** Externally visible actions of a driver, in order. */
  datatype Event =
    | Spawned(proc: Proc)              // a background process was started
    | Terminated(pid: nat)             // SIGTERM sent
    | Killed(pid: nat)                 // SIGKILL sent
    | Called(args: seq<string>)        // a synchronous call was made
    | SyncedToResource(file: string)   // a local file was copied to the remote resource
    | DirCreated(path: string)
    | DirRemoved(path: string)

  /** Every process in the trace has a pid below `next`. */
  ghost predicate PidsBelow(events: seq<Event>, next: nat)
  {
    forall i :: 0 <= i < |events| && events[i].Spawned? ==> events[i].proc.pid < next
  }
}
