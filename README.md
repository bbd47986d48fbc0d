# labgrid drivers: raw network interface, SSH transport, command helpers

A Dafny model of three pieces of labgrid, the embedded-board test
framework:

- **RawNetworkInterfaceDriver** runs `tcpdump` ("record") and `tcpreplay`
  ("replay") on one network interface. The interface is either local or
  reached through a host command prefix. The record and replay tools,
  like the `ip` and `ethtool` settings, run under the privileged
  `sudo labgrid-raw-interface` wrapper. At most one record and
  one replay process are outstanding, each kept in its own handle field.
- **SSHDriver** is a command and file-transfer channel to a host. On
  activation it builds the ssh option prefix. It then reuses a master
  connection that already answers `ssh -O check`, or starts its own one in
  a scratch directory. Finally it starts a keepalive process. Commands are
  split at spaces and run over ssh. Their output is split into lines.
  Files move with scp. Deactivation stops the keepalive, then asks the
  master to exit and removes the scratch directory.
- **CommandMixin** holds the helpers built on a driver's `_run`.
  `run_check` turns a non-zero exit into an `ExecutionError`.
  `poll_until_success` reruns a command until it exits with the expected
  code. `wait_for` reruns it until a line of its output contains a
  pattern.

Processes are opaque handles: `Proc` carries a pid unique per driver,
the argument vector, the added environment and whether stdout is a pipe.
The environment decides everything a process does, and the model takes
these answers as parameters:

- whether it could be started;
- its exit code;
- whether a bounded wait ran out;
- whether the control socket appeared;
- how closing the keepalive ended.

Each driver records what it did in an event trace (`events`): background
processes spawned, terminated or killed, the `ssh -O check` and
`ssh -O exit` calls, the file copy to a remote resource, and scratch
directories created and removed. The command and file-transfer
operations (`Run`, `Put`, `Get`) change no driver state. They are
modelled as queries that return their result, and `Run` also returns
the vector it started.

The clock is an oracle: `expired(k)` is the answer to the k-th
`timeout.expired` query. This oracle is monotone, and it is true
from some `horizon` on. A Python `assert` becomes an `AssertionError`
result that is returned before any effect. An exception raised in a
`finally` block replaces the one in flight, as it does in Python.

Files:

- `text.dfy`: Python string operations (`split`, `join`, line splitting, `in`, `str(int)`, `os.path.join`).
- `process.dfy`: handles, wait outcomes, errors, events.
- `raw_network_interface.dfy`: the raw network interface driver.
- `ssh_driver.dfy`: the SSH driver.
- `command_mixin.dfy`: the command helpers.

## Model

| member | source | states |
|---|---|---|
| Text.Split | labgrid/driver/sshdriver.py:137 | `str.split` with a one-character separator never yields an empty list |
| Text.SplitCount | labgrid/driver/sshdriver.py:137 | a split has one more piece than the string has separators |
| Text.JoinSplit | labgrid/driver/sshdriver.py:137 | joining the pieces of a split with the separator gives back the string |
| Text.SplitJoin | labgrid/driver/rawnetworkinterfacedriver.py:41 | splitting a join of separator-free parts gives back the parts |
| Text.LinesCount | labgrid/driver/sshdriver.py:153-154 | `split('\n')` then `pop()` yields exactly as many lines as there are newlines |
| Text.LinesAndTail | labgrid/driver/sshdriver.py:153-154 | the output is its lines, each newline-terminated, followed by a newline-free tail that is dropped |
| Text.LinesRoundTrip | labgrid/driver/sshdriver.py:153-154 | output that is empty or ends in a newline is exactly its lines, none of which holds a newline |
| Text.LinesDropUnterminatedTail | labgrid/driver/sshdriver.py:153-154 | output not ending in a newline loses its last, unterminated line |
| Text.Contains | labgrid/driver/commandmixin.py:32 | the `in` test holds exactly when the pattern occurs at some index |
| Text.NatToStrRoundTrip | labgrid/driver/rawnetworkinterfacedriver.py:128 | the decimal rendering of a count reads back as the count |
| Text.IntToStr | labgrid/driver/rawnetworkinterfacedriver.py:128-131 | `str(n)` is non-empty and has no space, so it stays one token after a split |
| Text.PathJoin | labgrid/driver/sshdriver.py:61-63 | `os.path.join(a, b)` ends with `b` |
| RawNetworkInterface.WrapCommand | labgrid/driver/rawnetworkinterfacedriver.py:36-44 | without a prefix the result is the wrapper followed by the arguments unchanged; with one it is the prefix unchanged followed by exactly one element |
| RawNetworkInterface.WrapCommandCollapsed | labgrid/driver/rawnetworkinterfacedriver.py:39-41 | the single collapsed element splits back at spaces into the wrapper and every argument, when no argument holds a space |
| RawNetworkInterface.TcpdumpArgsLayout | labgrid/driver/rawnetworkinterfacedriver.py:126-131 | `tcpdump` and the interface come first, then the count only if given, then `--timeout` and its value only if given |
| RawNetworkInterface.RecordCommandRecoverable | labgrid/driver/rawnetworkinterfacedriver.py:126-132 | through a host prefix the remote side still receives the wrapper and every tcpdump argument separately |
| RawNetworkInterface.StopProcess | labgrid/driver/rawnetworkinterfacedriver.py:46-61 | there is no handle: assertion error. The wait runs out: the process is terminated and the timeout is re-raised. It exits non-zero: CalledProcessError with that code. It exits 0: success |
| RawNetworkInterface.RecordStopOutcome | labgrid/driver/rawnetworkinterfacedriver.py:150-156 | a stop succeeds exactly on exit 0, or on a timed-out wait when stdout is a pipe. A timed-out capture to a file re-raises. Every other outcome of `_stop`, such as the assertion or CalledProcessError, passes through unchanged |
| RawNetworkInterface.RawNetworkInterfaceDriver.constructor | labgrid/driver/rawnetworkinterfacedriver.py:25-28 | both handles start empty |
| RawNetworkInterface.RawNetworkInterfaceDriver.StartRecord | labgrid/driver/rawnetworkinterfacedriver.py:113-138 | an outstanding record handle raises before anything happens. Otherwise the wrapped tcpdump vector is started, its stdout piped exactly when there is no file, and the handle holds the returned process. The replay handle never changes |
| RawNetworkInterface.RawNetworkInterfaceDriver.StopRecord | labgrid/driver/rawnetworkinterfacedriver.py:142-158 | the record handle is empty afterwards on every path; the result is the stop rule for live streams; only a termination is added to the trace |
| RawNetworkInterface.RawNetworkInterfaceDriver.Record | labgrid/driver/rawnetworkinterfacedriver.py:161-179 | refuses without a truthy count or timeout. Otherwise it always stops, waiting 0 seconds for a live stream and without a bound for a file. The trace is the start followed by the stop's termination, if any, on every branch. An error while stopping replaces the caller's |
| RawNetworkInterface.RawNetworkInterfaceDriver.StartReplay | labgrid/driver/rawnetworkinterfacedriver.py:183-204 | an outstanding replay handle raises first; a network resource gets the file synchronised before a single redirecting shell command; the handle holds the returned process; the record handle never changes |
| RawNetworkInterface.RawNetworkInterfaceDriver.StopReplay | labgrid/driver/rawnetworkinterfacedriver.py:208-219 | the replay handle is empty afterwards on every path and the result is the stop rule, with timeouts re-raised |
| RawNetworkInterface.RawNetworkInterfaceDriver.Replay | labgrid/driver/rawnetworkinterfacedriver.py:222-234 | always stops with the given timeout. The trace is the file copy, the start and the stop's termination, if any, on every branch. An error while stopping replaces the caller's |
| Ssh.PrefixLayout | labgrid/driver/sshdriver.py:35-47 | `LogLevel=ERROR`, then `-i` only with a key file, then `PasswordAuthentication=no` only without a password, then `-F /dev/null`, then `ControlPath` only for a non-empty control path |
| Ssh.ControlPathIffOwnMaster | labgrid/driver/sshdriver.py:44-47 | the prefix passes a ControlPath option exactly when the control path is non-empty |
| Ssh.OwnControlPath | labgrid/driver/sshdriver.py:60-63 | the own master's socket path ends in `control-<address>`; for a scratch directory not ending in `/` (as `mkdtemp` returns) it lies inside the directory, after a `/` |
| Ssh.MasterDecision | labgrid/driver/sshdriver.py:58-114 | the result is `""` exactly when the check exits 0. A check that cannot start raises. After a failed check, the result is the own control path exactly when the master starts, exits 0 and leaves its socket. A master that cannot start raises naming its command. A non-zero exit or a timeout gives ExecutionError naming the command, and a missing socket gives ExecutionError naming the host |
| Ssh.RunCommandTokens | labgrid/driver/sshdriver.py:134-137 | the tokens appended to the ssh vector join back into the command, and there is one more of them than there are spaces |
| Ssh.TransferOperands | labgrid/driver/sshdriver.py:168-218 | `put` and `get` build the same scp vector except for the order of the local file and the `user@host:path` operand |
| Ssh.ExitCommandTokens | labgrid/driver/sshdriver.py:222-227 | the master's exit request splits into its nine tokens when the path, user and host have no spaces |
| Ssh.SshDriver.constructor | labgrid/driver/sshdriver.py:29-32 | the keepalive slot starts empty |
| Ssh.SshDriver.StartOwnMaster | labgrid/driver/sshdriver.py:58-97 | creates and keeps the scratch directory, starts the master with the password in its environment, and answers as the master decision |
| Ssh.SshDriver.CheckMaster | labgrid/driver/sshdriver.py:99-114 | answers as the master decision. The trace holds the check call whenever it ran, followed by the scratch directory and master of an own start. A reused master leaves the scratch directory, the directory set and the master handle alone. An own start sets `tmpdir` and adds it to the directory set |
| Ssh.SshDriver.StartKeepalive | labgrid/driver/sshdriver.py:239-251 | a filled slot raises and changes nothing; otherwise the slot holds the new `ssh <prefix> cat` process |
| Ssh.SshDriver.StopKeepalive | labgrid/driver/sshdriver.py:256-269 | an empty slot raises. Otherwise the trace gains a kill exactly when closing ran out, and the result is a timeout error exactly when the kill was not reaped. The slot is empty on every path |
| Ssh.SshDriver.Activate | labgrid/driver/sshdriver.py:34-50 | the prefix is the base options, plus the full options once the master decision succeeds. The control path is that decision, and the keepalive slot is reset and refilled. The whole trace, the pid counter, the master handle, `tmpdir` and the directory set are stated for every outcome. A reused master leaves the scratch directory alone |
| Ssh.SshDriver.StartPrefix | labgrid/driver/sshdriver.py:35-42 | the options before the master check are exactly the base prefix |
| Ssh.SshDriver.UseMaster | labgrid/driver/sshdriver.py:44-50 | records the control path, completes the prefix with `-F /dev/null` and the control path, and refills the emptied keepalive slot with its trace and pid |
| Ssh.SshDriver.CleanupOwnMaster | labgrid/driver/sshdriver.py:220-237 | sends the exit request once `control` is set, and ignores its exit status. An exit request that cannot start raises before anything is removed. Otherwise it removes `tmpdir` whatever the master was, and fails when `tmpdir` was never set or is already gone. The trace is stated on every path |
| Ssh.SshDriver.Deactivate | labgrid/driver/sshdriver.py:52-56 | the keepalive slot is empty afterwards. The trace is the keepalive's stop events followed by the cleanup's, so cleanup runs even when stopping the keepalive failed. Each cleanup error is the result, replacing the keepalive's; only a successful cleanup lets the keepalive's outcome through |
| Ssh.SshDriver.Run | labgrid/driver/sshdriver.py:118-160 | fails before starting anything when the keepalive is gone or has exited. Otherwise it starts the vector with the command split at spaces. Success means the process started and completed. stdout then has one line per newline and is a prefix of the output, and stderr is empty when merged |
| Ssh.SshDriver.Put | labgrid/driver/sshdriver.py:168-191 | raises exactly when scp cannot start or exits non-zero, naming the scp vector |
| Ssh.SshDriver.Get | labgrid/driver/sshdriver.py:195-218 | raises exactly when scp cannot start or exits non-zero, naming the scp vector |
| CommandMixin.RunCheck | labgrid/driver/commandmixin.py:68-98 | stdout unchanged exactly on exit 0; otherwise ExecutionError with the command, stdout and stderr; errors of the run pass through |
| CommandMixin.PollUntilSuccess | labgrid/driver/commandmixin.py:39-66 | runs only while the deadline is unexpired, at most `max(tries, 1)` times when `tries` is given. True exactly when the last run gave `expected`, and every earlier run gave another code. False only after expiry or used-up tries. A run's error propagates |
| CommandMixin.WaitFor | labgrid/driver/commandmixin.py:18-35 | polls until some line contains the pattern or the deadline expires, and at most horizon + 1 times. A non-zero exit aborts at once. It raises the wait timeout exactly when the deadline has expired after the loop, even when the last poll matched |

## Left out

- Process I/O: what `Popen`, `call`, `communicate`, `terminate`, `kill` and the tools themselves do. Each outcome is a parameter, so the model does not follow pipes, signals or file contents.
- Byte decoding of command output with the configured codec (labgrid/driver/sshdriver.py:153, 158): output is taken as already decoded text.
- Wall-clock time and `sleep`: `Timeout` is the monotone `expired` oracle, and `timeout.remaining` passed to `run` is folded into the run oracle.
- `Driver.check_active`, the `@step` decorators, logging and the driver factory are not part of this model; every operation is modelled as called on an active driver.
- `on_activate`/`on_deactivate` of the raw interface driver, `_set_interface`, `set_interface_up`/`set_interface_down`, `set_interface_link_mode` and the `_wait_for_interface_state` polling loop (labgrid/driver/rawnetworkinterfacedriver.py:30-109). The `ip` and `ethtool` settings build their vectors with the same `_wrap_command` rule. The `operstate` poll is `command_prefix + ["cat", …]` with neither the wrapper nor the collapsing into one argument (labgrid/driver/rawnetworkinterfacedriver.py:68-70). The rest is device I/O and sleep-based polling.
- `get_statistics`, `get_address`, `get_ethtool_settings`, `get_ethtool_eee_settings`: parsing external tool output. Their queries run as `command_prefix` plus the tool's arguments, without the wrapper (labgrid/driver/rawnetworkinterfacedriver.py:236-282).
- `get_status` of the SSH driver, a constant.
- `ManagedFile.sync_to_resource` is not part of this model. It is recorded as a `SyncedToResource` event and assumed to succeed, and the remote path it yields is a parameter of `StartReplay`.
- `env.config.resolve_path` for the key file: the resolved path is the `keyfilePath` parameter of `Activate`.
- The `priorities` mapping of the SSH driver: plain data with no logic here.
- Ssh.SshDriver.Run: `communicate` raising a timeout leaves the ssh process running. The model returns the error without tracking that process.
- Ssh.MasterDecision: both connect-failure messages, for a non-zero exit and for a 30 second wait that runs out, format the master's exit code through a further `wait()`, unbounded in the timeout case (labgrid/driver/sshdriver.py:79-88). The model reports the connect failure with the address and the command, without that exit code.
- Ssh.SshDriver.Run: the ssh process it starts is not added to the driver's trace. The result and the `attempted` vector say what was started.
- Ssh.SshDriver.Put: the scp call is not added to the driver's trace. The error names the scp vector.
- Ssh.SshDriver.Get: the scp call is not added to the driver's trace. The error names the scp vector.
- The abstract protocol interfaces, the expect wrapper, the test helper and the example script are outside the modelled drivers.

Deactivating twice fails. `_stop_keepalive` asserts that the keepalive
slot is filled (labgrid/driver/sshdriver.py:257). `_cleanup_own_master`
removes `self.tmpdir` even when the master was reused, or was already
cleaned up (labgrid/driver/sshdriver.py:237). `Deactivate` and
`CleanupOwnMaster` state these failures.
