/** The command helpers shared by command-capable drivers: turning a
    non-zero exit into an error, polling a command until it exits with an
    expected code, and polling its output until a pattern appears.

    A command's successive runs are given by `run`: `run(i)` is what the
    driver's `_run` yields on the i-th call (its lines and exit code, or
    the error it raised). The timeout is a deadline oracle: `expired(k)`
    is what `timeout.expired` answers the k-th time it is consulted. Time
    only moves forward, so the oracle is monotone, and a finite timeout
    runs out, so it is true from some `horizon` on. */
module CommandMixin {
  import opened Processes
  import Text

  /** A deadline that, once expired, stays expired. */
  ghost predicate Monotone(expired: nat -> bool)
  {
    forall j: nat, k: nat :: j <= k && expired(j) ==> expired(k)
  }

  /** Before a monotone deadline's horizon, every earlier consultation
      also answered "not expired". */
  lemma NotExpiredBeforeHorizon(expired: nat -> bool, horizon: nat, k: nat)
    requires Monotone(expired) && expired(horizon) && !expired(k)
    ensures k < horizon
  {
  }

  /** `_run_check` (and `run_check`): the stdout lines of a run that exited
      0; an ExecutionError carrying the command, stdout and stderr for any
      other exit code; errors of the run itself pass through. */
  function RunCheck(command: string, run: Result<RunResult>): (r: Result<seq<string>>)
    ensures r.Ok? <==> run.Ok? && run.value.code == 0
    ensures r.Ok? ==> r.value == run.value.stdout
    ensures run.Ok? && r.Err? ==>
              r.error == ExecutionError(CommandFailed(command, run.value.stdout, run.value.stderr))
    ensures run.Err? ==> r.error == run.error
  {
    if run.Err? then Err(run.error)
    else if run.value.code != 0 then
      Err(ExecutionError(CommandFailed(command, run.value.stdout, run.value.stderr)))
    else Ok(run.value.stdout)
  }

  /** `any(pattern in s for s in lines)`. */
  predicate AnyLineContains(lines: seq<string>, pattern: string)
  {
    exists i | 0 <= i < |lines| :: Text.Contains(lines[i], pattern)
  }

  /** The number of runs `tries` allows: values below 1 still allow one. */
  function AllowedRuns(tries: int): nat
  {
    if tries < 1 then 1 else tries
  }

  /** `poll_until_success`: runs the command while the deadline has not
      expired, until it exits with `expected`, counting down `tries` when
      given. `runs` is the number of runs made. */
  method PollUntilSuccess(expected: int, tries: Option<int>, run: nat -> Result<RunResult>,
                          expired: nat -> bool, horizon: nat)
    returns (r: Result<bool>, runs: nat)
    requires Monotone(expired) && expired(horizon)
    ensures runs <= horizon
    ensures tries.Some? ==> runs <= AllowedRuns(tries.value)
    ensures forall i :: 0 <= i < runs ==> !expired(i)
    ensures forall i :: 0 <= i < runs - 1 ==> run(i).Ok? && run(i).value.code != expected
    ensures r == Ok(true) <==> runs > 0 && run(runs - 1).Ok? && run(runs - 1).value.code == expected
    ensures r.Err? <==> runs > 0 && run(runs - 1).Err?
    ensures r.Err? ==> r.error == run(runs - 1).error
    ensures r == Ok(false) ==>
              && (runs > 0 ==> run(runs - 1).Ok? && run(runs - 1).value.code != expected)
              && (expired(runs) || (tries.Some? && runs == AllowedRuns(tries.value)))
  {
    var left := tries;
    runs := 0;
    while !expired(runs)
      invariant runs <= horizon
      invariant forall i :: 0 <= i < runs ==> !expired(i) && run(i).Ok? && run(i).value.code != expected
      invariant left.Some? <==> tries.Some?
      invariant tries.Some? ==> left.value == tries.value - runs && (runs == 0 || runs < tries.value)
      decreases horizon - runs
    {
      var result := run(runs);
      runs := runs + 1;
      if result.Err? {
        return Err(result.error), runs;
      }
      if result.value.code == expected {
        return Ok(true), runs;
      }
      if left.Some? {
        left := Some(left.value - 1);
        if left.value < 1 {
          break;
        }
      }
    }
    r := Ok(false);
  }

  /** `wait_for`: runs the command through `run_check` until some output
      line contains `pattern` or the deadline expires, then raises exactly
      when the deadline has expired, even if the last run matched. A
      non-zero exit aborts at once. `polls` is the number of runs made. */
  method WaitFor(command: string, pattern: string, run: nat -> Result<RunResult>,
                 expired: nat -> bool, horizon: nat)
    returns (r: Outcome, polls: nat)
    requires Monotone(expired) && expired(horizon)
    ensures 1 <= polls <= horizon + 1
    ensures forall i :: 0 <= i < polls - 1 ==>
              && !expired(i)
              && RunCheck(command, run(i)).Ok?
              && !AnyLineContains(RunCheck(command, run(i)).value, pattern)
    ensures var last := RunCheck(command, run(polls - 1));
            && (last.Err? ==> r == Fail(last.error))
            && (last.Ok? && !AnyLineContains(last.value, pattern) ==> expired(polls - 1))
            && (last.Ok? ==> (r.Pass? <==> AnyLineContains(last.value, pattern) && !expired(polls - 1)))
            && (last.Ok? && r.Fail? ==> r.error == ExecutionError(WaitTimeout))
  {
    polls := 0;
    var checks := 0;
    while true
      invariant polls == checks <= horizon
      invariant forall i :: 0 <= i < polls ==>
                  && !expired(i)
                  && RunCheck(command, run(i)).Ok?
                  && !AnyLineContains(RunCheck(command, run(i)).value, pattern)
      decreases horizon - polls
    {
      var out := RunCheck(command, run(polls));
      polls := polls + 1;
      if out.Err? {
        return Fail(out.error), polls;
      }
      if AnyLineContains(out.value, pattern) {
        break;
      }
      var late := expired(checks);
      checks := checks + 1;
      if late {
        break;
      }
      NotExpiredBeforeHorizon(expired, horizon, checks - 1);
    }
    if expired(checks) {
      r := Fail(ExecutionError(WaitTimeout));
    } else {
      r := Pass;
    }
  }
}
