/** The raw network interface driver: runs tcpdump ("record") and tcpreplay
    ("replay") on one network interface, locally or on a host reached
    through a command prefix, through the privileged
    `labgrid-raw-interface` wrapper. At most one record and one replay
    process are outstanding at a time, each in its own handle field. */
module RawNetworkInterface {
  import opened Processes
  import Text

  /** The privileged wrapper every interface tool runs under. */
  function Wrapper(): seq<string>
  {
    ["sudo", "labgrid-raw-interface"]
  }

  /** `_wrap_command`: the wrapper and the tool's arguments, run directly;
      or, when the interface is reached through a command prefix (an ssh
      invocation), the prefix followed by the whole wrapped command
      collapsed into one space-separated argument for the remote shell. */
  function WrapCommand(prefix: seq<string>, args: seq<string>): (r: seq<string>)
    ensures prefix == [] ==> |r| == |args| + 2 && r[..2] == ["sudo", "labgrid-raw-interface"] && r[2..] == args
    ensures prefix != [] ==> |r| == |prefix| + 1 && r[..|prefix|] == prefix
  {
    if prefix != [] then prefix + [Text.Join(Wrapper() + args, ' ')]
    else Wrapper() + args
  }

  /** The collapsed argument is the wrapped command: the remote shell's
      splitting at spaces recovers the wrapper and every argument, as long
      as no argument contains a space itself. */
  lemma WrapCommandCollapsed(prefix: seq<string>, args: seq<string>)
    requires prefix != []
    requires forall i :: 0 <= i < |args| ==> ' ' !in args[i]
    ensures Text.Split(WrapCommand(prefix, args)[|prefix|], ' ') == ["sudo", "labgrid-raw-interface"] + args
  {
    var all := Wrapper() + args;
    forall i | 0 <= i < |all| ensures ' ' !in all[i] {
      if i >= 2 { assert all[i] == args[i - 2]; }
    }
    Text.SplitJoin(all, ' ');
  }

  /** The tcpdump arguments `start_record` builds before wrapping:
      interface, then the packet count, then the capture time bound. */
  function TcpdumpArgs(ifname: string, count: Option<int>, timeout: Option<int>): seq<string>
  {
    ["tcpdump", ifname]
    + (if count.Some? then [Text.IntToStr(count.value)] else [])
    + (if timeout.Some? then ["--timeout", Text.IntToStr(timeout.value)] else [])
  }

  /** The fixed order of the tcpdump arguments. */
  lemma TcpdumpArgsLayout(ifname: string, count: Option<int>, timeout: Option<int>)
    ensures var a := TcpdumpArgs(ifname, count, timeout);
            var k := if count.Some? then 3 else 2;
            && a[..2] == ["tcpdump", ifname]
            && (count.Some? ==> a[2] == Text.IntToStr(count.value))
            && (timeout.Some? ==> a[k..] == ["--timeout", Text.IntToStr(timeout.value)])
            && (timeout.None? ==> |a| == k)
  {
  }

  /** Through a command prefix, the remote side still sees every tcpdump
      argument separately (the interface name has no space in it). */
  lemma RecordCommandRecoverable(prefix: seq<string>, ifname: string, count: Option<int>, timeout: Option<int>)
    requires prefix != [] && ' ' !in ifname
    ensures Text.Split(WrapCommand(prefix, TcpdumpArgs(ifname, count, timeout))[|prefix|], ' ')
            == ["sudo", "labgrid-raw-interface"] + TcpdumpArgs(ifname, count, timeout)
  {
    var a := TcpdumpArgs(ifname, count, timeout);
    forall i | 0 <= i < |a| ensures ' ' !in a[i] {
    }
    WrapCommandCollapsed(prefix, a);
  }

  /** The tcpreplay arguments `start_replay` builds before wrapping: on a
      network-reachable resource a single shell command that redirects the
      synchronised file at `remotePath` into tcpreplay; locally tcpreplay
      reads the file from its standard input. */
  function TcpreplayArgs(ifname: string, networkResource: bool, remotePath: string): seq<string>
  {
    if networkResource then ["tcpreplay " + ifname + " < " + remotePath]
    else ["tcpreplay", ifname]
  }

  /** What `_stop` did: whether it sent SIGTERM, and how it ended. */
  datatype StopReport = StopReport(terminated: bool, result: Outcome)

  /** `_stop(proc, timeout)`: wait up to `timeout` for the process; if it is
      still running, terminate it, wait again without a bound and re-raise
      the timeout; otherwise raise CalledProcessError on a non-zero exit.
      `w` says how the first wait ends. */
  function StopProcess(proc: Option<Proc>, timeout: Option<int>, w: WaitOutcome): (s: StopReport)
    requires WaitPossible(timeout, w)
    ensures proc.None? ==> s == StopReport(false, Fail(AssertionError))
    ensures s.result.Pass? <==> proc.Some? && w == Exited(0)
    ensures s.terminated <==> proc.Some? && w.StillRunning?
    ensures s.terminated ==> s.result == Fail(TimeoutExpired(proc.value.args))
    ensures proc.Some? && w.Exited? && s.result.Fail?
            ==> s.result.error == CalledProcessError(w.code, proc.value.args) && w.code != 0
  {
    if proc.None? then StopReport(false, Fail(AssertionError))
    else if w.StillRunning? then StopReport(true, Fail(TimeoutExpired(proc.value.args)))
    else if w.code != 0 then StopReport(false, Fail(CalledProcessError(w.code, proc.value.args)))
    else StopReport(false, Pass)
  }

  /** What `stop_record` reports: `_stop`'s result, except that a timeout
      is swallowed when tcpdump streams packets to a pipe (no file). */
  function RecordStopOutcome(handle: Option<Proc>, timeout: Option<int>, w: WaitOutcome): (r: Outcome)
    requires WaitPossible(timeout, w)
    ensures r.Pass? <==> handle.Some? && (w == Exited(0) || (w.StillRunning? && handle.value.stdoutPiped))
    ensures handle.Some? && w.StillRunning? && !handle.value.stdoutPiped
            ==> r == Fail(TimeoutExpired(handle.value.args))
    ensures r.Fail? && !r.error.TimeoutExpired? ==> r == StopProcess(handle, timeout, w).result
    ensures !(handle.Some? && w.StillRunning?) ==> r == StopProcess(handle, timeout, w).result
  {
    var s := StopProcess(handle, timeout, w);
    if s.terminated && handle.value.stdoutPiped then Pass else s.result
  }

  /** The events `_stop` adds to the trace. */
  function StopEvents(proc: Option<Proc>, timeout: Option<int>, w: WaitOutcome): seq<Event>
    requires WaitPossible(timeout, w)
  {
    if StopProcess(proc, timeout, w).terminated then [Terminated(proc.value.pid)] else []
  }

  /** The copy of the replayed file to a network-reachable resource. */
  function SyncEvents(networkResource: bool, filename: string): seq<Event>
  {
    if networkResource then [SyncedToResource(filename)] else []
  }

  /** Python truthiness of an optional number (`count or timeout`). */
  predicate Truthy(n: Option<int>)
  {
    n.Some? && n.value != 0
  }

  class RawNetworkInterfaceDriver {
    const ifname: string
    const commandPrefix: seq<string>
    /** The bound interface is a network resource reached through another host. */
    const networkResource: bool

    var recordHandle: Option<Proc>
    var replayHandle: Option<Proc>
    var nextPid: nat
    var events: seq<Event>

    /** Every outstanding handle is a process this driver started, and the
        two handles never name the same process. */
    ghost predicate Valid()
      reads this
    {
      && PidsBelow(events, nextPid)
      && (recordHandle.Some? ==> Spawned(recordHandle.value) in events)
      && (replayHandle.Some? ==> Spawned(replayHandle.value) in events)
      && (recordHandle.Some? && replayHandle.Some? ==> recordHandle.value.pid != replayHandle.value.pid)
    }

    constructor (ifname: string, commandPrefix: seq<string>, networkResource: bool)
      ensures Valid()
      ensures this.ifname == ifname && this.commandPrefix == commandPrefix
      ensures this.networkResource == networkResource
      ensures recordHandle.None? && replayHandle.None? && events == []
    {
      this.ifname := ifname;
      this.commandPrefix := commandPrefix;
      this.networkResource := networkResource;
      recordHandle := None;
      replayHandle := None;
      nextPid := 0;
      events := [];
    }

    /** Starts the process `cmd` and returns its fresh handle. */
    method Spawn(cmd: seq<string>, stdoutPiped: bool) returns (p: Proc)
      requires Valid()
      modifies this`nextPid, this`events
      ensures p == Proc(old(nextPid), cmd, map[], stdoutPiped)
      ensures nextPid == old(nextPid) + 1 && events == old(events) + [Spawned(p)]
      ensures PidsBelow(events, nextPid)
    {
      p := Proc(nextPid, cmd, map[], stdoutPiped);
      nextPid := nextPid + 1;
      events := events + [Spawned(p)];
    }

    /** `start_record`: refuses while a record process is outstanding (before
        doing anything else), otherwise starts tcpdump writing to `filename`
        or, without one, to a pipe. `spawnOk` says whether the output file
        and the process could be opened. */
    method StartRecord(filename: Option<string>, count: Option<int>, timeout: Option<int>, spawnOk: bool)
      returns (r: Result<Proc>)
      requires Valid()
      modifies this
      ensures Valid()
      ensures replayHandle == old(replayHandle)
      ensures old(recordHandle).Some? ==>
                r == Err(AssertionError) && recordHandle == old(recordHandle)
                && events == old(events) && nextPid == old(nextPid)
      ensures old(recordHandle).None? && !spawnOk ==>
                r == Err(SpawnFailed(WrapCommand(commandPrefix, TcpdumpArgs(ifname, count, timeout))))
                && recordHandle.None? && events == old(events) && nextPid == old(nextPid)
      ensures old(recordHandle).None? && spawnOk ==>
                && r == Ok(Proc(old(nextPid), WrapCommand(commandPrefix, TcpdumpArgs(ifname, count, timeout)),
                                map[], filename.None?))
                && recordHandle == Some(r.value)
                && events == old(events) + [Spawned(r.value)]
                && nextPid == old(nextPid) + 1
    {
      if recordHandle.Some? {
        return Err(AssertionError);
      }
      var cmd := ["tcpdump", ifname];
      if count.Some? {
        cmd := cmd + [Text.IntToStr(count.value)];
      }
      if timeout.Some? {
        cmd := cmd + ["--timeout", Text.IntToStr(timeout.value)];
      }
      assert cmd == TcpdumpArgs(ifname, count, timeout);
      cmd := WrapCommand(commandPrefix, cmd);
      if !spawnOk {
        return Err(SpawnFailed(cmd));
      }
      var p := Spawn(cmd, filename.None?);
      recordHandle := Some(p);
      r := Ok(p);
    }

    /** `stop_record`: stops the record process and clears the handle on
        every path, swallowing a timeout for a live stream. `w` says how
        the first wait ends. */
    method StopRecord(timeout: Option<int>, w: WaitOutcome) returns (r: Outcome)
      requires Valid()
      requires WaitPossible(timeout, w)
      modifies this`recordHandle, this`events
      ensures Valid()
      ensures recordHandle.None?
      ensures r == RecordStopOutcome(old(recordHandle), timeout, w)
      ensures events == old(events) + StopEvents(old(recordHandle), timeout, w)
    {
      var s := StopProcess(recordHandle, timeout, w);
      if s.terminated {
        events := events + [Terminated(recordHandle.value.pid)];
      }
      r := s.result;
      if s.terminated && recordHandle.value.stdoutPiped {
        r := Pass;
      }
      recordHandle := None;
    }

    /** `record`: the scoped form. Requires a truthy count or timeout, then
        starts a capture and stops it on every exit path, waiting 0 seconds
        for a live stream and without a bound for a file. `body` is how the
        caller's block ends; an error raised while stopping replaces any
        earlier one. */
    method Record(filename: Option<string>, count: Option<int>, timeout: Option<int>,
                  spawnOk: bool, body: Outcome, w: WaitOutcome)
      returns (r: Result<Proc>)
      requires Valid()
      requires WaitPossible(if filename.None? then Some(0) else None, w)
      modifies this
      ensures Valid()
      ensures replayHandle == old(replayHandle)
      ensures !Truthy(count) && !Truthy(timeout) ==>
                r == Err(AssertionError) && recordHandle == old(recordHandle)
                && events == old(events) && nextPid == old(nextPid)
      ensures Truthy(count) || Truthy(timeout) ==> recordHandle.None?
      ensures (Truthy(count) || Truthy(timeout)) && old(recordHandle).None? && spawnOk ==>
                var p := Proc(old(nextPid), WrapCommand(commandPrefix, TcpdumpArgs(ifname, count, timeout)),
                              map[], filename.None?);
                var stop := RecordStopOutcome(Some(p), if filename.None? then Some(0) else None, w);
                && r == (if stop.Fail? then Err(stop.error) else if body.Fail? then Err(body.error) else Ok(p))
                && events == old(events) + [Spawned(p)] + StopEvents(Some(p), if filename.None? then Some(0) else None, w)
                && nextPid == old(nextPid) + 1
      ensures (Truthy(count) || Truthy(timeout)) && old(recordHandle).None? && !spawnOk ==>
                r == Err(AssertionError) && events == old(events) && nextPid == old(nextPid)
      ensures (Truthy(count) || Truthy(timeout)) && old(recordHandle).Some? ==>
                var stop := RecordStopOutcome(old(recordHandle), if filename.None? then Some(0) else None, w);
                && r == (if stop.Fail? then Err(stop.error) else Err(AssertionError))
                && events == old(events) + StopEvents(old(recordHandle), if filename.None? then Some(0) else None, w)
                && nextPid == old(nextPid)
    {
      if !Truthy(count) && !Truthy(timeout) {
        return Err(AssertionError);
      }
      var started := StartRecord(filename, count, timeout, spawnOk);
      var stopped := StopRecord(if filename.None? then Some(0) else None, w);
      if stopped.Fail? {
        r := Err(stopped.error);
      } else if started.Err? {
        r := started;
      } else if body.Fail? {
        r := Err(body.error);
      } else {
        r := started;
      }
    }

    /** `start_replay`: refuses while a replay process is outstanding, then
        starts tcpreplay, after first copying the file to the resource when
        the interface is reached over the network. `remotePath` is where the
        copy lands; `spawnOk` says whether the file and the process could be
        opened. */
    method StartReplay(filename: string, remotePath: string, spawnOk: bool) returns (r: Result<Proc>)
      requires Valid()
      modifies this
      ensures Valid()
      ensures recordHandle == old(recordHandle)
      ensures old(replayHandle).Some? ==>
                r == Err(AssertionError) && replayHandle == old(replayHandle)
                && events == old(events) && nextPid == old(nextPid)
      ensures old(replayHandle).None? ==>
                var cmd := WrapCommand(commandPrefix, TcpreplayArgs(ifname, networkResource, remotePath));
                var synced := SyncEvents(networkResource, filename);
                && (!spawnOk ==> r == Err(SpawnFailed(cmd)) && replayHandle.None? && events == old(events) + synced
                                 && nextPid == old(nextPid))
                && (spawnOk ==> r == Ok(Proc(old(nextPid), cmd, map[], false)) && replayHandle == Some(r.value)
                                && events == old(events) + synced + [Spawned(r.value)]
                                && nextPid == old(nextPid) + 1)
    {
      if replayHandle.Some? {
        return Err(AssertionError);
      }
      if networkResource {
        events := events + [SyncedToResource(filename)];
      }
      var cmd := WrapCommand(commandPrefix, TcpreplayArgs(ifname, networkResource, remotePath));
      if !spawnOk {
        return Err(SpawnFailed(cmd));
      }
      var p := Spawn(cmd, false);
      replayHandle := Some(p);
      r := Ok(p);
    }

    /** `stop_replay`: stops the replay process and clears the handle on
        every path; timeouts are not swallowed. */
    method StopReplay(timeout: Option<int>, w: WaitOutcome) returns (r: Outcome)
      requires Valid()
      requires WaitPossible(timeout, w)
      modifies this`replayHandle, this`events
      ensures Valid()
      ensures replayHandle.None?
      ensures r == StopProcess(old(replayHandle), timeout, w).result
      ensures events == old(events) + StopEvents(old(replayHandle), timeout, w)
    {
      var s := StopProcess(replayHandle, timeout, w);
      if s.terminated {
        events := events + [Terminated(replayHandle.value.pid)];
      }
      r := s.result;
      replayHandle := None;
    }

    /** `replay`: the scoped form; starts a replay and stops it with the
        given timeout on every exit path. */
    method Replay(filename: string, timeout: Option<int>, remotePath: string,
                  spawnOk: bool, body: Outcome, w: WaitOutcome)
      returns (r: Result<Proc>)
      requires Valid()
      requires WaitPossible(timeout, w)
      modifies this
      ensures Valid()
      ensures replayHandle.None? && recordHandle == old(recordHandle)
      ensures old(replayHandle).None? && spawnOk ==>
                var p := Proc(old(nextPid), WrapCommand(commandPrefix, TcpreplayArgs(ifname, networkResource, remotePath)),
                              map[], false);
                var stop := StopProcess(Some(p), timeout, w).result;
                && r == (if stop.Fail? then Err(stop.error) else if body.Fail? then Err(body.error) else Ok(p))
                && events == old(events) + SyncEvents(networkResource, filename) + [Spawned(p)] + StopEvents(Some(p), timeout, w)
                && nextPid == old(nextPid) + 1
      ensures old(replayHandle).None? && !spawnOk ==>
                r == Err(AssertionError) && events == old(events) + SyncEvents(networkResource, filename)
                && nextPid == old(nextPid)
      ensures old(replayHandle).Some? ==>
                var stop := StopProcess(old(replayHandle), timeout, w).result;
                && r == (if stop.Fail? then Err(stop.error) else Err(AssertionError))
                && events == old(events) + StopEvents(old(replayHandle), timeout, w)
                && nextPid == old(nextPid)
    {
      var started := StartReplay(filename, remotePath, spawnOk);
      var stopped := StopReplay(timeout, w);
      if stopped.Fail? {
        r := Err(stopped.error);
      } else if started.Err? {
        r := started;
      } else if body.Fail? {
        r := Err(body.error);
      } else {
        r := started;
      }
    }
  }
}
