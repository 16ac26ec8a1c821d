/** The deployment run of `Repo.update` (src/Repo.js and src/repo.mjs), stated as a
    function of the repository settings, the body and the two oracles that stand for
    the environment:
      - `chdirOk`: whether `process.chdir(pwd)` succeeds;
      - `exec(n)`: what the n-th shell command of the run gives (success or failure,
        with its stdout and stderr).
    As a plan: the commands of a run are the pre-commands, `git pull -q`, the chown
    command and the post-commands, run in that order until the first one that fails. */
module Pipeline {
  import opened Js
  import opened Payload

  datatype ExecResult = ExecResult(ok: bool, stdout: string, stderr: string)

  /** The fields of a Repo object. */
  datatype Settings = Settings(
    pwd: Option<string>,
    preCmds: seq<string>,
    postCmds: seq<string>,
    user: string,
    group: string,
    notify: Option<string>)

  /** A call `Notifier.send(notify, body, log, hasError)`. */
  datatype Notice = Notice(url: string, body: Payload, log: string, hasError: bool)

  /** What one call of `update` does and returns: its result, the final values of its
      `log` and `hasError` variables, the directories it changed to, the commands it ran
      and the notifications it sent, in order. */
  datatype RunTrace = RunTrace(
    result: bool,
    log: string,
    hasError: bool,
    chdirs: seq<Option<string>>,
    commands: seq<string>,
    notices: seq<Notice>)

  const PullCommand: string := "git pull -q"
  const OkMark: string := "\U{2705} "
  const FailMark: string := "\U{274C} "

  function ChownCommand(s: Settings): string {
    "chown -R " + s.user + ":" + s.group + " " + Render(s.pwd)
  }

  function ChdirError(pwd: Option<string>): string {
    "Error: Unable to change directory to: " + Render(pwd) + "\n"
  }

  /** `validatebody`: a non-null object whose `commits` is an array. */
  predicate ValidBody(body: JsInput<Payload>) {
    body.Object? && body.fields.commits.Some?
  }

  /** `formatCommandOutput(cmd, stdout, stderr, exitCode)`: a status line, the trimmed
      stdout, the trimmed stderr under 'ERRORS: ', and the exit code when it is not 0. */
  function FormatCommandOutput(cmd: string, stdout: string, stderr: string, exitCode: int): string {
    StatusLine(cmd, exitCode) + (OutputLines(stdout, stderr) + ExitCodeLine(exitCode))
  }

  /** The output starts with the status line; a silent success is that line alone. */
  lemma FormatStartsWithStatus(cmd: string, stdout: string, stderr: string, exitCode: int)
    ensures StartsWith(FormatCommandOutput(cmd, stdout, stderr, exitCode), StatusLine(cmd, exitCode))
    ensures exitCode == 0 && stdout == "" && stderr == "" ==>
              FormatCommandOutput(cmd, stdout, stderr, exitCode) == OkMark + cmd + "\n"
  {
    var head := StatusLine(cmd, exitCode);
    var rest := OutputLines(stdout, stderr) + ExitCodeLine(exitCode);
    assert (head + rest)[..|head|] == head;
  }

  function StatusLine(cmd: string, exitCode: int): string {
    (if exitCode == 0 then OkMark else FailMark) + cmd + "\n"
  }

  /** The trimmed stdout and the trimmed stderr under 'ERRORS: ', each only when non-empty. */
  function OutputLines(stdout: string, stderr: string): string {
    (if stdout != "" then Trim(stdout) + "\n" else "")
    + (if stderr != "" then "ERRORS: \n" + Trim(stderr) + "\n" else "")
  }

  function ExitCodeLine(exitCode: int): string {
    if exitCode != 0 then "Exit Code: " + IntToString(exitCode) + "\n\n" else ""
  }

  lemma SuffixOfConcat(a: string, b: string)
    ensures |b| <= |a + b| && (a + b)[|a + b| - |b|..] == b
  {
  }

  /** A successful command that printed only to stdout shows that output trimmed
      under its status line; one that printed only whitespace still leaves an empty
      line, since the untrimmed text is what is tested. */
  lemma FormatStdoutOnly(cmd: string, stdout: string)
    requires stdout != ""
    ensures FormatCommandOutput(cmd, stdout, "", 0) == OkMark + cmd + "\n" + Trim(stdout) + "\n"
    ensures (forall k :: 0 <= k < |stdout| ==> IsJsSpace(stdout[k])) ==>
              FormatCommandOutput(cmd, stdout, "", 0) == OkMark + cmd + "\n" + "\n"
  {
    var head := OkMark + cmd + "\n";
    assert FormatCommandOutput(cmd, stdout, "", 0) == head + (Trim(stdout) + "\n");
    if forall k :: 0 <= k < |stdout| ==> IsJsSpace(stdout[k]) {
      TrimStartSpec(stdout);
      assert TrimStart(stdout) == "";
    }
  }

  /** A failed command that printed only to stderr shows it trimmed under 'ERRORS: ',
      then its exit code. */
  lemma FormatStderrOnly(cmd: string, stderr: string, exitCode: int)
    requires stderr != "" && exitCode != 0
    ensures FormatCommandOutput(cmd, "", stderr, exitCode)
            == FailMark + cmd + "\n" + ("ERRORS: \n" + Trim(stderr) + "\n") + ("Exit Code: " + IntToString(exitCode) + "\n\n")
  {
    var head := FailMark + cmd + "\n";
    var mid := "ERRORS: \n" + Trim(stderr) + "\n";
    var tail := "Exit Code: " + IntToString(exitCode) + "\n\n";
    assert StatusLine(cmd, exitCode) == head;
    assert OutputLines("", stderr) == mid;
    assert ExitCodeLine(exitCode) == tail;
    assert FormatCommandOutput(cmd, "", stderr, exitCode) == head + (mid + tail);
  }

  /** A failed command's output ends with its exit code, followed by a blank line. */
  lemma FormatEndsWithExitCode(cmd: string, stdout: string, stderr: string, exitCode: int)
    requires exitCode != 0
    ensures var out := FormatCommandOutput(cmd, stdout, stderr, exitCode);
            var tail := "Exit Code: " + IntToString(exitCode) + "\n\n";
            |tail| <= |out| && out[|out| - |tail|..] == tail
  {
    var head := StatusLine(cmd, exitCode);
    var mid := OutputLines(stdout, stderr);
    var tail := ExitCodeLine(exitCode);
    assert FormatCommandOutput(cmd, stdout, stderr, exitCode) == head + (mid + tail);
    assert head + (mid + tail) == (head + mid) + tail;
    SuffixOfConcat(head + mid, tail);
  }

  /** The commands of a run, in the order they are attempted. */
  function Plan(s: Settings): (plan: seq<string>)
    ensures |plan| == |s.preCmds| + 2 + |s.postCmds|
    ensures plan[|s.preCmds|] == PullCommand && plan[ChownIndex(s)] == ChownCommand(s)
  {
    s.preCmds + [PullCommand, ChownCommand(s)] + s.postCmds
  }

  /** Position of the chown command in the plan. */
  function ChownIndex(s: Settings): nat {
    |s.preCmds| + 1
  }

  /** The position of the first failing command at or after k, or `n` when none fails. */
  function FirstFailure(n: nat, exec: nat -> ExecResult, k: nat): (f: nat)
    requires k <= n
    ensures k <= f <= n
    ensures forall j :: k <= j < f ==> exec(j).ok
    ensures f < n ==> !exec(f).ok
    decreases n - k
  {
    if k == n then n else if !exec(k).ok then k else FirstFailure(n, exec, k + 1)
  }

  /** The log text of the first n commands when they all succeed. */
  function SuccessLog(plan: seq<string>, exec: nat -> ExecResult, n: nat): string
    requires n <= |plan|
  {
    if n == 0 then ""
    else SuccessLog(plan, exec, n - 1) + FormatCommandOutput(plan[n - 1], exec(n - 1).stdout, exec(n - 1).stderr, 0)
  }

  /** What a failing command adds to the log: its output with exit code 1, except the
      chown command, whose failure adds nothing. */
  function FailureLine(s: Settings, exec: nat -> ExecResult, f: nat): string
    requires f < |Plan(s)|
  {
    if f == ChownIndex(s) then "" else FormatCommandOutput(Plan(s)[f], exec(f).stdout, exec(f).stderr, 1)
  }

  function Notices(s: Settings, body: Payload, log: string, hasError: bool): (sent: seq<Notice>)
    ensures |sent| <= 1
  {
    if TruthyStr(s.notify) then [Notice(s.notify.value, body, log, hasError)] else []
  }

  /** One call of `update(body)`. */
  function Run(s: Settings, body: JsInput<Payload>, chdirOk: bool, exec: nat -> ExecResult): RunTrace {
    if !ValidBody(body) then RunTrace(false, "", false, [], [], [])
    else if IsTagPush(body.fields) then RunTrace(true, "", false, [], [], Notices(s, body.fields, "", false))
    else if !chdirOk then
      RunTrace(false, ChdirError(s.pwd), true, [s.pwd], [], Notices(s, body.fields, ChdirError(s.pwd), true))
    else
      var plan := Plan(s);
      var f := FirstFailure(|plan|, exec, 0);
      var failed := f < |plan|;
      var log := SuccessLog(plan, exec, f) + (if failed then FailureLine(s, exec, f) else "");
      RunTrace(!failed, log, failed, [s.pwd], plan[..if failed then f + 1 else f], Notices(s, body.fields, log, failed))
  }

  // ---------------------------------------------------------------------------
  // The progress of a run whose chdir succeeded, stage by stage

  /** After the commands `commands` have run, `log` and `hasError` are what the run
      has accumulated so far. */
  ghost predicate Progress(s: Settings, exec: nat -> ExecResult, commands: seq<string>, log: string, hasError: bool) {
    var plan := Plan(s);
    var f := FirstFailure(|plan|, exec, 0);
    && commands <= plan
    && (if hasError then f < |plan| && |commands| == f + 1 && log == SuccessLog(plan, exec, f) + FailureLine(s, exec, f)
        else |commands| <= f && log == SuccessLog(plan, exec, |commands|))
  }

  lemma ProgressStart(s: Settings, exec: nat -> ExecResult)
    ensures Progress(s, exec, [], "", false)
  {
  }

  /** Running the next command of the plan keeps the progress invariant, whether it
      succeeds (its output is appended with code 0) or fails (its failure line is
      appended and the run is marked failed). */
  lemma {:induction false} ProgressStep(s: Settings, exec: nat -> ExecResult, commands: seq<string>, log: string)
    requires Progress(s, exec, commands, log, false)
    requires |commands| < |Plan(s)|
    ensures var n := |commands|;
            var cmd := Plan(s)[n];
            var r := exec(n);
            if r.ok then Progress(s, exec, commands + [cmd], log + FormatCommandOutput(cmd, r.stdout, r.stderr, 0), false)
            else Progress(s, exec, commands + [cmd], log + FailureLine(s, exec, n), true)
  {
    var plan := Plan(s);
    var n := |commands|;
    var f := FirstFailure(|plan|, exec, 0);
    assert commands + [plan[n]] <= plan by {
      assert plan[..n + 1] == plan[..n] + [plan[n]];
      assert commands == plan[..n];
    }
    if exec(n).ok {
      assert n != f;
    } else {
      assert f == n;
    }
  }

  /** When every stage has run without failure, the run did all of the plan. */
  lemma ProgressComplete(s: Settings, exec: nat -> ExecResult, commands: seq<string>, log: string)
    requires Progress(s, exec, commands, log, false)
    requires |commands| == |Plan(s)|
    ensures FirstFailure(|Plan(s)|, exec, 0) == |Plan(s)| && commands == Plan(s)
  {
  }

  /** A run whose chdir succeeded ends with the state the progress invariant describes
      once the plan is exhausted or a command has failed. */
  lemma RunFromProgress(s: Settings, body: JsInput<Payload>, exec: nat -> ExecResult,
                        commands: seq<string>, log: string, hasError: bool)
    requires ValidBody(body) && !IsTagPush(body.fields)
    requires Progress(s, exec, commands, log, hasError)
    requires hasError || |commands| == |Plan(s)|
    ensures Run(s, body, true, exec) == RunTrace(!hasError, log, hasError, [s.pwd], commands, Notices(s, body.fields, log, hasError))
  {
    var plan := Plan(s);
    var f := FirstFailure(|plan|, exec, 0);
    if hasError {
      assert f < |plan| && commands == plan[..f + 1];
      assert log == SuccessLog(plan, exec, f) + FailureLine(s, exec, f);
    } else {
      ProgressComplete(s, exec, commands, log);
      assert f == |plan| && commands == plan[..f];
      assert log == SuccessLog(plan, exec, f) + "";
    }
  }

  // ---------------------------------------------------------------------------
  // The stages as the source runs them: shared by src/Repo.js and src/repo.mjs

  /** Runs one command of the plan: the n-th command of the run gets the n-th result
      of `exec`; a success appends its output with code 0, a failure its output with
      code 1 (or nothing, when `silent`) and sets the error flag. */
  method RunCommand(cmd: string, silent: bool, exec: nat -> ExecResult,
                    commands: seq<string>, log: string)
    returns (commands': seq<string>, log': string, hasError': bool)
    ensures commands' == commands + [cmd]
    ensures exec(|commands|).ok ==>
              !hasError' && log' == log + FormatCommandOutput(cmd, exec(|commands|).stdout, exec(|commands|).stderr, 0)
    ensures !exec(|commands|).ok ==>
              hasError' && log' == log + (if silent then "" else FormatCommandOutput(cmd, exec(|commands|).stdout, exec(|commands|).stderr, 1))
  {
    var r := exec(|commands|);
    commands' := commands + [cmd];
    if r.ok {
      log' := log + FormatCommandOutput(cmd, r.stdout, r.stderr, 0);
      hasError' := false;
    } else {
      log' := if silent then log else log + FormatCommandOutput(cmd, r.stdout, r.stderr, 1);
      hasError' := true;
    }
  }

  /** The stages after a successful chdir: the pre-commands, `git pull -q`, the chown
      command and the post-commands, each stage only while no command has failed. */
  method RunStages(s: Settings, exec: nat -> ExecResult) returns (commands: seq<string>, log: string, hasError: bool)
    ensures Progress(s, exec, commands, log, hasError)
    ensures hasError || |commands| == |Plan(s)|
  {
    var plan := Plan(s);
    log := "";
    hasError := false;
    commands := [];
    ProgressStart(s, exec);

    var i := 0;
    while i < |s.preCmds|
      invariant 0 <= i <= |s.preCmds|
      invariant Progress(s, exec, commands, log, hasError)
      invariant !hasError ==> |commands| == i
    {
      if hasError {
        break;
      }
      assert plan[i] == s.preCmds[i];
      ProgressStep(s, exec, commands, log);
      commands, log, hasError := RunCommand(s.preCmds[i], false, exec, commands, log);
      i := i + 1;
    }

    if !hasError {
      ProgressStep(s, exec, commands, log);
      commands, log, hasError := RunCommand(PullCommand, false, exec, commands, log);
    }

    if !hasError {
      var chownCmd := "chown -R " + s.user + ":" + s.group + " " + Render(s.pwd);
      ProgressStep(s, exec, commands, log);
      commands, log, hasError := RunCommand(chownCmd, true, exec, commands, log);
    }

    if !hasError {
      var j := 0;
      while j < |s.postCmds|
        invariant 0 <= j <= |s.postCmds|
        invariant Progress(s, exec, commands, log, hasError)
        invariant !hasError ==> |commands| == ChownIndex(s) + 1 + j
      {
        if hasError {
          break;
        }
        assert plan[ChownIndex(s) + 1 + j] == s.postCmds[j];
        ProgressStep(s, exec, commands, log);
        commands, log, hasError := RunCommand(s.postCmds[j], false, exec, commands, log);
        j := j + 1;
      }
    }
  }

  // ---------------------------------------------------------------------------
  // Properties of a run

  /** An invalid body (not an object, or `commits` not an array) makes `update` return
      false without changing directory, running a command or notifying; a tag push
      whose body has no commits array is rejected the same way. */
  lemma InvalidBodyDoesNothing(s: Settings, body: JsInput<Payload>, chdirOk: bool, exec: nat -> ExecResult)
    requires !ValidBody(body)
    ensures var t := Run(s, body, chdirOk, exec);
            !t.result && t.chdirs == [] && t.commands == [] && t.notices == []
  {
  }

  /** A tag push only announces: no chdir, no command, one notification (when a target
      is configured) with an empty log and no error, and the result is true. */
  lemma TagPushOnlyNotifies(s: Settings, body: JsInput<Payload>, chdirOk: bool, exec: nat -> ExecResult)
    requires ValidBody(body) && IsTagPush(body.fields)
    ensures var t := Run(s, body, chdirOk, exec);
            && t.result && t.chdirs == [] && t.commands == []
            && t.notices == (if TruthyStr(s.notify) then [Notice(s.notify.value, body.fields, "", false)] else [])
  {
  }

  /** A failed chdir leaves exactly the directory error in the log and runs nothing. */
  lemma ChdirFailureRunsNothing(s: Settings, body: JsInput<Payload>, exec: nat -> ExecResult)
    requires ValidBody(body) && !IsTagPush(body.fields)
    ensures var t := Run(s, body, false, exec);
            && !t.result && t.hasError && t.commands == [] && t.chdirs == [s.pwd]
            && t.log == "Error: Unable to change directory to: " + Render(s.pwd) + "\n"
  {
  }

  /** When every command succeeds, the commands run are the pre-commands in declared
      order, the pull, the chown and the post-commands in declared order, and the log
      is the success output of each of them. */
  lemma AllStagesInOrder(s: Settings, body: JsInput<Payload>, exec: nat -> ExecResult)
    requires ValidBody(body) && !IsTagPush(body.fields)
    requires forall k :: 0 <= k < |Plan(s)| ==> exec(k).ok
    ensures var t := Run(s, body, true, exec);
            && t.result && !t.hasError
            && t.commands == s.preCmds + [PullCommand, "chown -R " + s.user + ":" + s.group + " " + Render(s.pwd)] + s.postCmds
            && t.log == SuccessLog(Plan(s), exec, |Plan(s)|)
  {
  }

  /** Fail-fast: the commands run are a prefix of the plan; when the run fails after a
      successful chdir, the last command run is the first one that failed, every earlier
      one succeeded, and nothing after it was attempted. */
  lemma FailFast(s: Settings, body: JsInput<Payload>, exec: nat -> ExecResult)
    requires ValidBody(body) && !IsTagPush(body.fields)
    ensures var t := Run(s, body, true, exec);
            && t.commands <= Plan(s)
            && t.result == !t.hasError
            && (t.hasError ==>
                  var n := |t.commands|;
                  && n > 0 && !exec(n - 1).ok
                  && (forall k :: 0 <= k < n - 1 ==> exec(k).ok))
  {
    var plan := Plan(s);
    var f := FirstFailure(|plan|, exec, 0);
    var t := Run(s, body, true, exec);
    var failed := f < |plan|;
    assert t.commands == plan[..if failed then f + 1 else f] && t.hasError == failed && t.result == !failed;
    if failed {
      assert |t.commands| == f + 1;
    } else {
      assert plan[..f] == plan;
    }
  }

  /** A failing pre-command stops the run there: no later pre-command, no pull, no
      chown and no post-command is run, and the log ends with the failing command's
      output formatted with exit code 1. */
  lemma PreCommandFailureStopsRun(s: Settings, body: JsInput<Payload>, exec: nat -> ExecResult, i: nat)
    requires ValidBody(body) && !IsTagPush(body.fields)
    requires i < |s.preCmds| && !exec(i).ok
    requires forall k :: 0 <= k < i ==> exec(k).ok
    ensures var t := Run(s, body, true, exec);
            && !t.result
            && t.commands == s.preCmds[..i + 1]
            && t.log == SuccessLog(Plan(s), exec, i)
                        + FormatCommandOutput(s.preCmds[i], exec(i).stdout, exec(i).stderr, 1)
  {
    assert FirstFailure(|Plan(s)|, exec, 0) == i;
    assert Plan(s)[..i + 1] == s.preCmds[..i + 1];
  }

  /** A failing chown sets the error but adds nothing to the log: the log is the
      output of the commands before it, and no post-command runs. */
  lemma ChownFailureIsSilent(s: Settings, body: JsInput<Payload>, exec: nat -> ExecResult)
    requires ValidBody(body) && !IsTagPush(body.fields)
    requires !exec(ChownIndex(s)).ok
    requires forall k :: 0 <= k < ChownIndex(s) ==> exec(k).ok
    ensures var t := Run(s, body, true, exec);
            && !t.result && t.hasError
            && t.commands == s.preCmds + [PullCommand, ChownCommand(s)]
            && t.log == SuccessLog(Plan(s), exec, ChownIndex(s))
  {
    assert FirstFailure(|Plan(s)|, exec, 0) == ChownIndex(s);
    assert Plan(s)[..ChownIndex(s) + 1] == s.preCmds + [PullCommand, ChownCommand(s)];
  }

  /** A valid non-tag run notifies once (when a target is configured) with its final log
      and error flag, and returns the negation of the flag. */
  lemma NotifiesWithFinalLog(s: Settings, body: JsInput<Payload>, chdirOk: bool, exec: nat -> ExecResult)
    requires ValidBody(body) && !IsTagPush(body.fields)
    ensures var t := Run(s, body, chdirOk, exec);
            && t.result == !t.hasError
            && t.notices == (if TruthyStr(s.notify) then [Notice(s.notify.value, body.fields, t.log, t.hasError)] else [])
  {
  }

  /** The success log of n commands only reads the first n results. */
  lemma {:induction false} SuccessLogReadsPrefix(plan: seq<string>, e1: nat -> ExecResult, e2: nat -> ExecResult, n: nat)
    requires n <= |plan|
    requires forall k :: 0 <= k < n ==> e1(k) == e2(k)
    ensures SuccessLog(plan, e1, n) == SuccessLog(plan, e2, n)
  {
    if n > 0 {
      SuccessLogReadsPrefix(plan, e1, e2, n - 1);
    }
  }

  lemma {:induction false} FirstFailureReadsPrefix(n: nat, e1: nat -> ExecResult, e2: nat -> ExecResult, k: nat)
    requires k <= n
    requires forall j :: k <= j <= FirstFailure(n, e1, k) && j < n ==> e1(j) == e2(j)
    ensures FirstFailure(n, e1, k) == FirstFailure(n, e2, k)
    decreases n - k
  {
    if k < n && e1(k).ok {
      FirstFailureReadsPrefix(n, e1, e2, k + 1);
    }
  }

  /** Command results after the first failure play no part: two environments that agree
      on every command up to and including the first failure give the same run. */
  lemma ResultsAfterFailureIgnored(s: Settings, body: JsInput<Payload>, chdirOk: bool,
                                   e1: nat -> ExecResult, e2: nat -> ExecResult)
    requires forall k :: 0 <= k <= FirstFailure(|Plan(s)|, e1, 0) && k < |Plan(s)| ==> e1(k) == e2(k)
    ensures Run(s, body, chdirOk, e1) == Run(s, body, chdirOk, e2)
  {
    var plan := Plan(s);
    FirstFailureReadsPrefix(|plan|, e1, e2, 0);
    var f := FirstFailure(|plan|, e1, 0);
    SuccessLogReadsPrefix(plan, e1, e2, f);
  }
}
