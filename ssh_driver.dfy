/** The SSH driver: a command and file-transfer channel to one host. On
    activation it builds the ssh option prefix, reuses a master connection
    that already answers `ssh -O check` or starts its own in a scratch
    directory, and starts a keepalive process whose death makes every
    later command fail fast. Deactivation stops the keepalive and then
    cleans up the master connection and scratch directory. */
module Ssh {
  import opened Processes
  import Text

  /** The bound network service. An empty password stands for none. */
  datatype NetworkService = NetworkService(address: string, port: int, username: string, password: string)

  /** `"{username}@{address}"`. */
  function Destination(s: NetworkService): string
  {
    s.username + "@" + s.address
  }

  /** The options `on_activate` sets before the master check: log level,
      the identity file when one is configured, and no password prompts
      when the service has no password. */
  function BasePrefix(keyfile: string, keyfilePath: string, hasPassword: bool): seq<string>
  {
    ["-o", "LogLevel=ERROR"]
    + (if keyfile != "" then ["-i", keyfilePath] else [])
    + (if !hasPassword then ["-o", "PasswordAuthentication=no"] else [])
  }

  /** The complete `ssh_prefix`: the base options, no configuration file,
      and the own master's control socket when there is one. */
  function FullPrefix(base: seq<string>, control: string): seq<string>
  {
    base + ["-F", "/dev/null"] + (if control != "" then ["-o", "ControlPath=" + control] else [])
  }

  /** The fixed order of the prefix options. */
  lemma PrefixLayout(keyfile: string, keyfilePath: string, hasPassword: bool, control: string)
    ensures var p := FullPrefix(BasePrefix(keyfile, keyfilePath, hasPassword), control);
            var n := if keyfile != "" then 4 else 2;
            var m := if !hasPassword then n + 2 else n;
            && p[..2] == ["-o", "LogLevel=ERROR"]
            && (keyfile != "" ==> p[2..4] == ["-i", keyfilePath])
            && (!hasPassword ==> p[n..n + 2] == ["-o", "PasswordAuthentication=no"])
            && p[m..m + 2] == ["-F", "/dev/null"]
            && (control != "" ==> p[m + 2..] == ["-o", "ControlPath=" + control])
            && (control == "" ==> |p| == m + 2)
  {
  }

  /** `s` starts with `p`. */
  predicate StartsWith(s: string, p: string)
  {
    |p| <= |s| && s[..|p|] == p
  }

  /** `s` ends with `p`. */
  predicate EndsWith(s: string, p: string)
  {
    |p| <= |s| && s[|s| - |p|..] == p
  }

  /** The prefix passes a ControlPath option at index `i`. */
  predicate ControlPathAt(prefix: seq<string>, i: nat)
  {
    i + 1 < |prefix| && prefix[i] == "-o" && StartsWith(prefix[i + 1], "ControlPath=")
  }

  /** Commands name a control socket exactly when this driver owns its
      master connection; a reused master is reached without one. */
  lemma ControlPathIffOwnMaster(keyfile: string, keyfilePath: string, hasPassword: bool, control: string)
    ensures (exists i: nat :: ControlPathAt(FullPrefix(BasePrefix(keyfile, keyfilePath, hasPassword), control), i))
            <==> control != ""
  {
    var base := BasePrefix(keyfile, keyfilePath, hasPassword);
    var p := FullPrefix(base, control);
    if control != "" {
      assert ControlPathAt(p, |base| + 2) by {
        assert p[|base| + 3] == "ControlPath=" + control;
        assert ("ControlPath=" + control)[..12] == "ControlPath=";
      }
    } else {
      forall i: nat | i + 1 < |p| ensures !ControlPathAt(p, i) {
        NoControlPathValue(p[i + 1], keyfile, keyfilePath, hasPassword, i, p);
      }
    }
  }

  /** In a prefix without a control path, the element after any "-o" is
      one of the fixed option values, none of which names a socket. */
  lemma NoControlPathValue(v: string, keyfile: string, keyfilePath: string, hasPassword: bool, i: nat, p: seq<string>)
    requires p == FullPrefix(BasePrefix(keyfile, keyfilePath, hasPassword), "")
    requires i + 1 < |p| && v == p[i + 1]
    ensures !(p[i] == "-o" && StartsWith(v, "ControlPath="))
  {
    var n := if keyfile != "" then 4 else 2;
    var m := if !hasPassword then n + 2 else n;
    assert |p| == m + 2;
    if p[i] == "-o" {
      assert i != 2 || keyfile == "";
      assert v == "LogLevel=ERROR" || v == "PasswordAuthentication=no" || v == "-i" || v == "-o" || v == "-F" || v == "/dev/null" by {
        if keyfile != "" && i == 3 {
          assert p[3] == keyfilePath;
        }
      }
      assert !StartsWith("LogLevel=ERROR", "ControlPath=") by { assert "LogLevel=ERROR"[0] != "ControlPath="[0]; }
      assert !StartsWith("PasswordAuthentication=no", "ControlPath=") by { assert "PasswordAuthentication=no"[0] != "ControlPath="[0]; }
    }
  }

  /** `ssh -O check`: asks whether a master connection to the service already answers. */
  function CheckCommand(s: NetworkService): seq<string>
  {
    ["ssh", "-O", "check", Destination(s)]
  }

  /** The control socket of an own master: `control-<address>` inside the
      scratch directory. */
  function OwnControlPath(tmpdir: string, address: string): (r: string)
    ensures StartsWith(r, tmpdir) && |r| > |tmpdir|
    ensures EndsWith(r, "control-" + address)
    ensures tmpdir != "" && tmpdir[|tmpdir| - 1] != '/' ==> StartsWith(r, tmpdir + "/")
  {
    Text.PathJoin(tmpdir, "control-" + address)
  }

  /** The own master's command: sshpass when there is a password, then a
      backgrounded, persisting master (`-f -MN -S <control>`) with the
      current prefix, a 30 second connect timeout and host-key checking off. */
  function MasterCommand(s: NetworkService, prefix: seq<string>, control: string): seq<string>
  {
    (if s.password != "" then ["sshpass", "-e"] else [])
    + ["ssh", "-f"] + prefix
    + ["-x", "-o", "ConnectTimeout=30", "-o", "ControlPersist=300", "-o",
       "UserKnownHostsFile=/dev/null", "-o", "StrictHostKeyChecking=no",
       "-o", "ServerAliveInterval=15", "-MN", "-S", control, "-p",
       Text.IntToStr(s.port), Destination(s)]
  }

  /** The variables the own master adds to its environment: the password
      for sshpass, when there is one. */
  function MasterEnv(s: NetworkService): map<string, string>
  {
    if s.password != "" then map["SSHPASS" := s.password] else map[]
  }

  /** What the environment answers while a master is looked for or started. */
  datatype MasterOracle = MasterOracle(
    check: CallOutcome,    // how `ssh -O check` ends
    tmpdir: string,        // the directory `mkdtemp` creates
    spawnOk: bool,         // the master process could be started
    wait: WaitOutcome,     // how the 30 second wait for it ends
    socketExists: bool)    // the control socket exists afterwards

  /** The check ran and found no master, so the driver starts its own. */
  predicate StartsOwnMaster(o: MasterOracle)
  {
    o.check.CallExited? && o.check.code != 0
  }

  /** `_check_master` with `_start_own_master`: the control path to use,
      `""` to reuse a master that answered the check, or the error. */
  function MasterDecision(o: MasterOracle, s: NetworkService, prefix: seq<string>): (r: Result<string>)
    ensures r == Ok("") <==> o.check == CallExited(0)
    ensures o.check.CallSpawnFailed? ==> r == Err(SpawnFailed(CheckCommand(s)))
    ensures r.Ok? <==> o.check == CallExited(0) || (StartsOwnMaster(o) && o.spawnOk && o.wait == Exited(0) && o.socketExists)
    ensures r.Ok? && StartsOwnMaster(o) ==> r.value == OwnControlPath(o.tmpdir, s.address)
    ensures StartsOwnMaster(o) && !o.spawnOk ==>
              r == Err(SpawnFailed(MasterCommand(s, prefix, OwnControlPath(o.tmpdir, s.address))))
    ensures StartsOwnMaster(o) && o.spawnOk && o.wait != Exited(0) ==>
              r == Err(ExecutionError(ConnectFailed(s.address, MasterCommand(s, prefix, OwnControlPath(o.tmpdir, s.address)))))
    ensures StartsOwnMaster(o) && o.spawnOk && o.wait == Exited(0) && !o.socketExists ==>
              r == Err(ExecutionError(NoControlSocket(s.address)))
  {
    if o.check.CallSpawnFailed? then Err(SpawnFailed(CheckCommand(s)))
    else if o.check.code == 0 then Ok("")
    else
      var control := OwnControlPath(o.tmpdir, s.address);
      var args := MasterCommand(s, prefix, control);
      if !o.spawnOk then Err(SpawnFailed(args))
      else if o.wait != Exited(0) then Err(ExecutionError(ConnectFailed(s.address, args)))
      else if !o.socketExists then Err(ExecutionError(NoControlSocket(s.address)))
      else Ok(control)
  }

  /** The own master process started with pid `pid`. */
  function OwnMasterProc(o: MasterOracle, s: NetworkService, prefix: seq<string>, pid: nat): Proc
  {
    Proc(pid, MasterCommand(s, prefix, OwnControlPath(o.tmpdir, s.address)), MasterEnv(s), false)
  }

  /** How many processes looking for or starting a master spawns. */
  function MasterSpawns(o: MasterOracle): nat
  {
    if StartsOwnMaster(o) && o.spawnOk then 1 else 0
  }

  /** What looking for or starting a master adds to the trace: the check
      call if it ran, then the scratch directory and the master process
      when an own master is started. */
  function MasterEvents(o: MasterOracle, s: NetworkService, prefix: seq<string>, pid: nat): seq<Event>
  {
    if o.check.CallSpawnFailed? then []
    else
      [Called(CheckCommand(s))]
      + (if StartsOwnMaster(o) then [DirCreated(o.tmpdir)] else [])
      + (if MasterSpawns(o) == 1 then [Spawned(OwnMasterProc(o, s, prefix, pid))] else [])
  }

  /** What stopping the keepalive adds to the trace: a kill when closing
      its input did not end it in time. */
  function KeepaliveStopEvents(keepalive: Option<Proc>, close: CloseOutcome): seq<Event>
  {
    if keepalive.Some? && close != ClosedInTime then [Killed(keepalive.value.pid)] else []
  }

  /** What cleaning up the master adds to the trace: the exit request if
      it ran, then the removal of a scratch directory that still exists. */
  function CleanupEvents(control: Option<string>, tmpdir: Option<string>, dirs: set<string>,
                         exitCall: CallOutcome, s: NetworkService): seq<Event>
  {
    if control.None? || exitCall.CallSpawnFailed? then []
    else
      [Called(ExitCommand(control.value, s))]
      + (if tmpdir.Some? && tmpdir.value in dirs then [DirRemoved(tmpdir.value)] else [])
  }

  /** The keepalive: an idle `cat` over the prefix's connection. */
  function KeepaliveCommand(prefix: seq<string>): seq<string>
  {
    ["ssh"] + prefix + ["cat"]
  }

  /** The vector `_run` starts: ssh with the prefix, port and destination,
      then the command split at every single space. */
  function RunCommand(prefix: seq<string>, s: NetworkService, command: string): seq<string>
  {
    ["ssh", "-x"] + prefix + ["-p", Text.IntToStr(s.port), Destination(s)] + Text.Split(command, ' ')
  }

  /** The tokens `_run` appends join back into the command, and there is
      one more of them than the command has spaces. */
  lemma RunCommandTokens(prefix: seq<string>, s: NetworkService, command: string)
    ensures var v := RunCommand(prefix, s, command);
            var k := |prefix| + 5;
            && k < |v| && v[..k] == ["ssh", "-x"] + prefix + ["-p", Text.IntToStr(s.port), Destination(s)]
            && Text.Join(v[k..], ' ') == command
            && |v| == k + Text.Count(command, ' ') + 1
  {
    var v := RunCommand(prefix, s, command);
    var k := |prefix| + 5;
    assert v[k..] == Text.Split(command, ' ');
    Text.JoinSplit(command, ' ');
    Text.SplitCount(command, ' ');
  }

  /** How the wait in `_run` ends: the process completed with this output
      (already decoded) and exit code, or the timeout ran out. */
  datatype Completion = Completed(out: string, err: string, code: int) | TimedOut

  /** The remote operand of scp: `"{user}@{host}:{path}"`. */
  function RemoteOperand(s: NetworkService, path: string): string
  {
    Destination(s) + ":" + path
  }

  /** `put`'s vector: scp with the prefix, the port, the local file, then the remote operand. */
  function PutCommand(prefix: seq<string>, s: NetworkService, localFile: string, remoteFile: string): seq<string>
  {
    ["scp"] + prefix + ["-P", Text.IntToStr(s.port), localFile, RemoteOperand(s, remoteFile)]
  }

  /** `get`'s vector: as `put`'s with the two file operands swapped. */
  function GetCommand(prefix: seq<string>, s: NetworkService, remoteFile: string, localFile: string): seq<string>
  {
    ["scp"] + prefix + ["-P", Text.IntToStr(s.port), RemoteOperand(s, remoteFile), localFile]
  }

  /** `put` and `get` differ only in the order of their two operands,
      the last two arguments. */
  lemma TransferOperands(prefix: seq<string>, s: NetworkService, localFile: string, remoteFile: string)
    ensures var p := PutCommand(prefix, s, localFile, remoteFile);
            var g := GetCommand(prefix, s, remoteFile, localFile);
            && |p| == |g| == |prefix| + 5
            && p[..|p| - 2] == g[..|g| - 2] == ["scp"] + prefix + ["-P", Text.IntToStr(s.port)]
            && p[|p| - 2..] == [localFile, s.username + "@" + s.address + ":" + remoteFile]
            && g[|g| - 2..] == [s.username + "@" + s.address + ":" + remoteFile, localFile]
  {
  }

  /** The tokens of `_cleanup_own_master`'s exit request, before the
      format string is split at spaces. */
  function ExitTokens(control: string, s: NetworkService): seq<string>
  {
    ["ssh", "-x", "-o", "ControlPath=" + control, "-O", "exit", "-p", Text.IntToStr(s.port), Destination(s)]
  }

  /** `_cleanup_own_master`'s vector: the formatted command line split at
      every space. */
  function ExitCommand(control: string, s: NetworkService): seq<string>
  {
    Text.Split(Text.Join(ExitTokens(control, s), ' '), ' ')
  }

  /** When the control path, user name and address have no spaces, the
      split exit command is exactly its nine tokens. */
  lemma ExitCommandTokens(control: string, s: NetworkService)
    requires ' ' !in control && ' ' !in s.username && ' ' !in s.address
    ensures ExitCommand(control, s) == ["ssh", "-x", "-o", "ControlPath=" + control, "-O", "exit", "-p",
                                        Text.IntToStr(s.port), s.username + "@" + s.address]
  {
    var t := ExitTokens(control, s);
    assert ' ' !in "ControlPath=" + control;
    assert ' ' !in Destination(s);
    forall i | 0 <= i < |t| ensures ' ' !in t[i] {
    }
    Text.SplitJoin(t, ' ');
  }

  /** How closing the keepalive ends: it exits within 60 seconds of its
      input being closed; or it is killed and reaped within 60 seconds; or
      it is killed and still not reaped after 60 seconds. */
  datatype CloseOutcome = ClosedInTime | KilledThenReaped | KilledNotReaped

  class SshDriver {
    const service: NetworkService
    const keyfile: string
    const stderrMerge: bool

    var sshPrefix: seq<string>
    /** `self.control`; None until an activation got past the master check. */
    var control: Option<string>
    /** `self.tmpdir`; None until an own master was first started. */
    var tmpdir: Option<string>
    /** `self.process`: the last own master process started. */
    var master: Option<Proc>
    var keepalive: Option<Proc>
    /** Scratch directories this driver created and has not removed. */
    var dirs: set<string>
    var nextPid: nat
    var events: seq<Event>

    /** Every tracked process was started by this driver, and every live
        scratch directory was created by it. */
    ghost predicate Valid()
      reads this
    {
      && PidsBelow(events, nextPid)
      && (keepalive.Some? ==> Spawned(keepalive.value) in events)
      && (master.Some? ==> Spawned(master.value) in events)
      && (forall d :: d in dirs ==> DirCreated(d) in events)
    }

    constructor (service: NetworkService, keyfile: string, stderrMerge: bool)
      ensures Valid()
      ensures this.service == service && this.keyfile == keyfile && this.stderrMerge == stderrMerge
      ensures keepalive.None? && control.None? && tmpdir.None? && master.None?
      ensures dirs == {} && events == []
    {
      this.service := service;
      this.keyfile := keyfile;
      this.stderrMerge := stderrMerge;
      sshPrefix := [];
      control := None;
      tmpdir := None;
      master := None;
      keepalive := None;
      dirs := {};
      nextPid := 0;
      events := [];
    }

    /** Starts a background process and returns its fresh handle. */
    method Spawn(cmd: seq<string>, env: map<string, string>, stdoutPiped: bool) returns (p: Proc)
      requires Valid()
      modifies this`nextPid, this`events
      ensures p == Proc(old(nextPid), cmd, env, stdoutPiped)
      ensures nextPid == old(nextPid) + 1 && events == old(events) + [Spawned(p)]
      ensures PidsBelow(events, nextPid)
      ensures forall d :: d in dirs ==> DirCreated(d) in events
    {
      p := Proc(nextPid, cmd, env, stdoutPiped);
      nextPid := nextPid + 1;
      events := events + [Spawned(p)];
    }

    /** `_start_own_master`: creates the scratch directory, starts the
        master there and checks that it came up and left its socket. */
    method StartOwnMaster(o: MasterOracle) returns (r: Result<string>)
      requires Valid() && StartsOwnMaster(o)
      modifies this`tmpdir, this`dirs, this`nextPid, this`events, this`master
      ensures Valid()
      ensures r == MasterDecision(o, service, sshPrefix)
      ensures tmpdir == Some(o.tmpdir) && dirs == old(dirs) + {o.tmpdir}
      ensures nextPid == old(nextPid) + MasterSpawns(o)
      ensures if o.spawnOk then
                master == Some(OwnMasterProc(o, service, sshPrefix, old(nextPid)))
                && events == old(events) + [DirCreated(o.tmpdir), Spawned(master.value)]
              else
                master == old(master) && events == old(events) + [DirCreated(o.tmpdir)]
    {
      tmpdir := Some(o.tmpdir);
      dirs := dirs + {o.tmpdir};
      events := events + [DirCreated(o.tmpdir)];
      var ctl := OwnControlPath(o.tmpdir, service.address);
      var args := MasterCommand(service, sshPrefix, ctl);
      if !o.spawnOk {
        return Err(SpawnFailed(args));
      }
      var p := Spawn(args, MasterEnv(service), false);
      master := Some(p);
      if o.wait != Exited(0) {
        return Err(ExecutionError(ConnectFailed(service.address, args)));
      }
      if !o.socketExists {
        return Err(ExecutionError(NoControlSocket(service.address)));
      }
      r := Ok(ctl);
    }

    /** `_check_master`: reuse a master that answers the check, otherwise
        start an own one. A check that cannot be started raises. */
    method CheckMaster(o: MasterOracle) returns (r: Result<string>)
      requires Valid()
      modifies this`tmpdir, this`dirs, this`nextPid, this`events, this`master
      ensures Valid()
      ensures r == MasterDecision(o, service, sshPrefix)
      ensures events == old(events) + MasterEvents(o, service, sshPrefix, old(nextPid))
      ensures nextPid == old(nextPid) + MasterSpawns(o)
      ensures master == if MasterSpawns(o) == 1 then Some(OwnMasterProc(o, service, sshPrefix, old(nextPid)))
                        else old(master)
      ensures StartsOwnMaster(o) ==> tmpdir == Some(o.tmpdir) && dirs == old(dirs) + {o.tmpdir}
      ensures !StartsOwnMaster(o) ==> tmpdir == old(tmpdir) && dirs == old(dirs)
    {
      if o.check.CallSpawnFailed? {
        return Err(SpawnFailed(CheckCommand(service)));
      }
      events := events + [Called(CheckCommand(service))];
      if o.check.code == 0 {
        return Ok("");
      }
      r := StartOwnMaster(o);
    }

    /** `_start_keepalive`: fills the empty keepalive slot. */
    method StartKeepalive(spawnOk: bool) returns (r: Outcome)
      requires Valid()
      modifies this`keepalive, this`nextPid, this`events
      ensures Valid()
      ensures old(keepalive).Some? ==>
                r == Fail(AssertionError) && keepalive == old(keepalive)
                && events == old(events) && nextPid == old(nextPid)
      ensures old(keepalive).None? && !spawnOk ==>
                r == Fail(SpawnFailed(KeepaliveCommand(sshPrefix))) && keepalive.None?
                && events == old(events) && nextPid == old(nextPid)
      ensures old(keepalive).None? && spawnOk ==>
                r == Pass && keepalive == Some(Proc(old(nextPid), KeepaliveCommand(sshPrefix), map[], true))
                && events == old(events) + [Spawned(keepalive.value)] && nextPid == old(nextPid) + 1
    {
      var args := KeepaliveCommand(sshPrefix);
      if keepalive.Some? {
        return Fail(AssertionError);
      }
      if !spawnOk {
        return Fail(SpawnFailed(args));
      }
      var p := Spawn(args, map[], true);
      keepalive := Some(p);
      r := Pass;
    }

    /** `_stop_keepalive`: closes the keepalive's input and waits up to 60
        seconds, kills it if that runs out, waits again up to 60 seconds,
        and empties the slot on every path. */
    method StopKeepalive(close: CloseOutcome) returns (r: Outcome)
      requires Valid()
      modifies this`keepalive, this`events
      ensures Valid()
      ensures keepalive.None?
      ensures events == old(events) + KeepaliveStopEvents(old(keepalive), close)
      ensures old(keepalive).None? ==> r == Fail(AssertionError)
      ensures old(keepalive).Some? ==>
                && (r == Pass <==> close != KilledNotReaped)
                && (r.Fail? ==> r.error == TimeoutExpired(old(keepalive).value.args))
    {
      if keepalive.None? {
        return Fail(AssertionError);
      }
      var p := keepalive.value;
      if close != ClosedInTime {
        events := events + [Killed(p.pid)];
      }
      keepalive := None;
      if close == KilledNotReaped {
        return Fail(TimeoutExpired(p.args));
      }
      r := Pass;
    }

    /** `on_activate`: builds the prefix in its fixed order around the
        master check, then replaces the keepalive slot with a new keepalive.
        `keyfilePath` is the configured key file as the environment resolves it. */
    method Activate(keyfilePath: string, o: MasterOracle, keepaliveSpawnOk: bool) returns (r: Outcome)
      requires Valid()
      modifies this
      ensures Valid()
      ensures var d := MasterDecision(o, service, BasePrefix(keyfile, keyfilePath, service.password != ""));
              d.Err? ==> && r == Fail(d.error) && control == old(control) && keepalive == old(keepalive)
                         && sshPrefix == BasePrefix(keyfile, keyfilePath, service.password != "")
      ensures var d := MasterDecision(o, service, BasePrefix(keyfile, keyfilePath, service.password != ""));
              d.Ok? ==> && control == Some(d.value)
                        && sshPrefix == FullPrefix(BasePrefix(keyfile, keyfilePath, service.password != ""), d.value)
      ensures var d := MasterDecision(o, service, BasePrefix(keyfile, keyfilePath, service.password != ""));
              d.Ok? && keepaliveSpawnOk ==>
                && r == Pass
                && keepalive == Some(Proc(old(nextPid) + MasterSpawns(o), KeepaliveCommand(sshPrefix), map[], true))
      ensures var d := MasterDecision(o, service, BasePrefix(keyfile, keyfilePath, service.password != ""));
              d.Ok? && !keepaliveSpawnOk ==> r == Fail(SpawnFailed(KeepaliveCommand(sshPrefix))) && keepalive.None?
      ensures var base := BasePrefix(keyfile, keyfilePath, service.password != "");
              var d := MasterDecision(o, service, base);
              && events == old(events) + MasterEvents(o, service, base, old(nextPid))
                           + (if d.Ok? && keepaliveSpawnOk then [Spawned(keepalive.value)] else [])
              && nextPid == old(nextPid) + MasterSpawns(o) + (if d.Ok? && keepaliveSpawnOk then 1 else 0)
      ensures master == if MasterSpawns(o) == 1
                        then Some(OwnMasterProc(o, service, BasePrefix(keyfile, keyfilePath, service.password != ""), old(nextPid)))
                        else old(master)
      ensures StartsOwnMaster(o) ==> tmpdir == Some(o.tmpdir) && dirs == old(dirs) + {o.tmpdir}
      ensures !StartsOwnMaster(o) ==> tmpdir == old(tmpdir) && dirs == old(dirs)
    {
      StartPrefix(keyfilePath);
      var c := CheckMaster(o);
      if c.Err? {
        return Fail(c.error);
      }
      r := UseMaster(c.value, keepaliveSpawnOk);
    }

    /** The start of `on_activate`: the prefix options that precede the
        master check, grown one conditional group at a time. */
    method StartPrefix(keyfilePath: string)
      modifies this`sshPrefix
      ensures sshPrefix == BasePrefix(keyfile, keyfilePath, service.password != "")
    {
      sshPrefix := ["-o", "LogLevel=ERROR"];
      if keyfile != "" {
        sshPrefix := sshPrefix + ["-i", keyfilePath];
      }
      if service.password == "" {
        sshPrefix := sshPrefix + ["-o", "PasswordAuthentication=no"];
      }
    }

    /** The rest of `on_activate` once a master is settled: records the
        control path, completes the prefix and replaces the keepalive slot
        with a new keepalive. */
    method UseMaster(ctl: string, keepaliveSpawnOk: bool) returns (r: Outcome)
      requires Valid()
      modifies this`control, this`sshPrefix, this`keepalive, this`nextPid, this`events
      ensures Valid()
      ensures control == Some(ctl) && sshPrefix == FullPrefix(old(sshPrefix), ctl)
      ensures keepaliveSpawnOk ==>
                && r == Pass
                && keepalive == Some(Proc(old(nextPid), KeepaliveCommand(sshPrefix), map[], true))
                && events == old(events) + [Spawned(keepalive.value)] && nextPid == old(nextPid) + 1
      ensures !keepaliveSpawnOk ==>
                && r == Fail(SpawnFailed(KeepaliveCommand(sshPrefix))) && keepalive.None?
                && events == old(events) && nextPid == old(nextPid)
    {
      control := Some(ctl);
      sshPrefix := sshPrefix + ["-F", "/dev/null"];
      if ctl != "" {
        sshPrefix := sshPrefix + ["-o", "ControlPath=" + ctl];
      }
      keepalive := None;
      r := StartKeepalive(keepaliveSpawnOk);
    }

    /** `_cleanup_own_master`: asks the master at `control` to exit (its
        exit status only decides a log message) and removes `tmpdir`, with
        no check that this driver owns either. `exitCall` says how the exit
        request ends. */
    method CleanupOwnMaster(exitCall: CallOutcome) returns (r: Outcome)
      requires Valid()
      modifies this`dirs, this`events
      ensures Valid()
      ensures events == old(events) + CleanupEvents(control, tmpdir, old(dirs), exitCall, service)
      ensures control.None? ==> r == Fail(AttributeError) && dirs == old(dirs)
      ensures control.Some? && exitCall.CallSpawnFailed? ==>
                r == Fail(SpawnFailed(ExitCommand(control.value, service))) && dirs == old(dirs)
      ensures control.Some? && exitCall.CallExited? && tmpdir.None? ==>
                r == Fail(AttributeError) && dirs == old(dirs)
      ensures control.Some? && exitCall.CallExited? && tmpdir.Some? && tmpdir.value !in old(dirs) ==>
                r == Fail(FileNotFound(tmpdir.value)) && dirs == old(dirs)
      ensures control.Some? && exitCall.CallExited? && tmpdir.Some? && tmpdir.value in old(dirs) ==>
                r == Pass && dirs == old(dirs) - {tmpdir.value}
    {
      if control.None? {
        return Fail(AttributeError);
      }
      var args := ExitCommand(control.value, service);
      if exitCall.CallSpawnFailed? {
        return Fail(SpawnFailed(args));
      }
      events := events + [Called(args)];
      if tmpdir.None? {
        return Fail(AttributeError);
      }
      if tmpdir.value !in dirs {
        return Fail(FileNotFound(tmpdir.value));
      }
      dirs := dirs - {tmpdir.value};
      events := events + [DirRemoved(tmpdir.value)];
      r := Pass;
    }

    /** `on_deactivate`: stops the keepalive and then, even if that failed,
        cleans up the master; an error from the cleanup replaces the
        keepalive's. */
    method Deactivate(close: CloseOutcome, exitCall: CallOutcome) returns (r: Outcome)
      requires Valid()
      modifies this`keepalive, this`dirs, this`events
      ensures Valid()
      ensures keepalive.None?
      ensures events == old(events) + KeepaliveStopEvents(old(keepalive), close)
                        + CleanupEvents(control, tmpdir, old(dirs), exitCall, service)
      ensures control.None? ==> r == Fail(AttributeError) && dirs == old(dirs)
      ensures control.Some? && exitCall.CallSpawnFailed? ==>
                r == Fail(SpawnFailed(ExitCommand(control.value, service))) && dirs == old(dirs)
      ensures control.Some? && exitCall.CallExited? && tmpdir.None? ==>
                r == Fail(AttributeError) && dirs == old(dirs)
      ensures control.Some? && exitCall.CallExited? && tmpdir.Some? && tmpdir.value !in old(dirs) ==>
                r == Fail(FileNotFound(tmpdir.value)) && dirs == old(dirs)
      ensures control.Some? && exitCall.CallExited? && tmpdir.Some? && tmpdir.value in old(dirs) ==>
                && dirs == old(dirs) - {tmpdir.value}
                && r == (if old(keepalive).None? then Fail(AssertionError)
                         else if close == KilledNotReaped then Fail(TimeoutExpired(old(keepalive).value.args))
                         else Pass)
    {
      var stopped := StopKeepalive(close);
      var cleaned := CleanupOwnMaster(exitCall);
      r := if cleaned.Fail? then cleaned else stopped;
    }

    /** `_run`: fails before starting anything when the keepalive is gone
        or has exited; otherwise runs the command split at spaces and
        returns its output as lines (stderr is empty when merged into
        stdout). `attempted` is the vector handed to Popen, if any. */
    method Run(command: string, timeout: Option<int>, keepaliveRunning: bool, spawnOk: bool, c: Completion)
      returns (r: Result<RunResult>, attempted: Option<seq<string>>)
      requires timeout.None? ==> c.Completed?
      ensures keepalive.None? ==> r == Err(AttributeError) && attempted.None?
      ensures keepalive.Some? && !keepaliveRunning ==>
                r == Err(ExecutionError(KeepaliveLost)) && attempted.None?
      ensures keepalive.Some? && keepaliveRunning ==> attempted == Some(RunCommand(sshPrefix, service, command))
      ensures attempted.Some? && !spawnOk ==> r == Err(ExecutionError(CommandNotRun(attempted.value)))
      ensures attempted.Some? && spawnOk && c.TimedOut? ==> r == Err(TimeoutExpired(attempted.value))
      ensures r.Ok? <==> keepalive.Some? && keepaliveRunning && spawnOk && c.Completed?
      ensures r.Ok? ==> && r.value.code == c.code
                        && |r.value.stdout| == Text.Count(c.out, '\n')
                        && Text.Unlines(r.value.stdout) <= c.out
                        && r.value.stderr == (if stderrMerge then [] else Text.Lines(c.err))
    {
      if keepalive.None? {
        return Err(AttributeError), None;
      }
      if !keepaliveRunning {
        return Err(ExecutionError(KeepaliveLost)), None;
      }
      var cmd := RunCommand(sshPrefix, service, command);
      attempted := Some(cmd);
      if !spawnOk {
        return Err(ExecutionError(CommandNotRun(cmd))), attempted;
      }
      if c.TimedOut? {
        return Err(TimeoutExpired(cmd)), attempted;
      }
      var stdout := Text.Lines(c.out);
      var stderr := if stderrMerge then [] else Text.Lines(c.err);
      Text.LinesCount(c.out);
      Text.LinesAndTail(c.out);
      r := Ok(RunResult(stdout, stderr, c.code));
    }

    /** `put`: copies a local file to the host; raises exactly when scp
        cannot be started or exits non-zero, naming the scp command. */
    method Put(localFile: string, remoteFile: string, call: CallOutcome) returns (r: Outcome)
      ensures r.Fail? <==> call.CallSpawnFailed? || call.code != 0
      ensures r.Fail? ==> r.error == ExecutionError(CommandNotRun(PutCommand(sshPrefix, service, localFile, remoteFile)))
    {
      var cmd := PutCommand(sshPrefix, service, localFile, remoteFile);
      if call.CallSpawnFailed? || call.code != 0 {
        return Fail(ExecutionError(CommandNotRun(cmd)));
      }
      r := Pass;
    }

    /** `get`: copies a file from the host; raises exactly when scp
        cannot be started or exits non-zero, naming the scp command. */
    method Get(remoteFile: string, localFile: string, call: CallOutcome) returns (r: Outcome)
      ensures r.Fail? <==> call.CallSpawnFailed? || call.code != 0
      ensures r.Fail? ==> r.error == ExecutionError(CommandNotRun(GetCommand(sshPrefix, service, remoteFile, localFile)))
    {
      var cmd := GetCommand(sshPrefix, service, remoteFile, localFile);
      if call.CallSpawnFailed? || call.code != 0 {
        return Fail(ExecutionError(CommandNotRun(cmd)));
      }
      r := Pass;
    }
  }
}
