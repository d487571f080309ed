/** The run supervisor: one invocation of `run <task>` by the scheduler.
    It loads and validates the task, takes the task's lock or skips,
    executes the action, records the run, notifies, auto-disables after
    too many failures, and releases the lock. */
module Runner {
  import opened Base
  import opened Models
  import Store
  import Config
  import Plist

  /** Exit code recorded when the action exceeds its timeout. */
  const TimeoutExitCode: int := 124
  /** Notification bodies show at most this many characters of output. */
  const NotifyBodyCap: nat := 200

  /** What running the child reported: a finished process, an expired
      timeout, or any other exception with its message. */
  datatype ExecOutcome =
    | Completed(returnCode: int, stdout: string, stderr: string)
    | TimedOut
    | Raised(message: string)

  /** The child process the supervisor starts. */
  datatype Invocation =
    | Shell(command: string, cwd: Option<string>, env: map<string, string>, timeout: int)
    | Exec(argv: seq<string>, cwd: Option<string>, env: map<string, string>, timeout: int)

  /** Observable effects of a run, in the order they happen. `Spawned` is
      the child the supervisor set out to start; under a `Raised` outcome
      the failure may have come before the child started (resolving the
      working directory, loading the captured environment). */
  datatype Event =
    | Spawned(invocation: Invocation)
    | Recorded(runId: int)
    | OutputWritten(path: string, content: string)
    | Notified(title: string, body: string, openPath: Option<string>)
    | Unloaded(name: string)

  datatype RunResult =
    | Exited(code: int)
    | TaskNotFound
    | InvalidTask(errors: seq<ValidationError>)
    | RecordingFault

  /** The per-task advisory lock file; `held` says whether some process
      holds it. */
  class TaskLock {
    var held: bool

    constructor (held: bool)
      ensures this.held == held
    {
      this.held := held;
    }

    /** Non-blocking exclusive acquisition: fails at once when held. */
    method TryAcquire() returns (acquired: bool)
      modifies this
      ensures acquired == !old(held)
      ensures held
    {
      acquired := !held;
      held := true;
    }

    method Release()
      modifies this
      ensures !held
    {
      held := false;
    }
  }

  /** The child's environment: the captured one without the engine's own
      path, overlaid with the task's variables, which win. */
  function ChildEnv(captured: map<string, string>, taskEnv: map<string, string>): (env: map<string, string>)
    ensures forall k :: k in env <==> k in taskEnv || (k in captured && k != Config.TrigrPathKey)
    ensures forall k :: k in taskEnv ==> env[k] == taskEnv[k]
    ensures forall k :: k in captured && k != Config.TrigrPathKey && k !in taskEnv ==> env[k] == captured[k]
  {
    (captured - {Config.TrigrPathKey}) + taskEnv
  }

  /** The working directory handed to the child: resolved when truthy. */
  function WorkingDir(a: ActionConfig, canon: string -> string): Option<string> {
    if Truthy(a.workingDir) then Some(canon(a.workingDir.value)) else a.workingDir
  }

  /** The provider of a prompt action, "claude" by default. */
  function ProviderName(a: ActionConfig): string {
    if Truthy(a.provider) then a.provider.value else "claude"
  }

  /** An agent invocation as the agent's command line reads it. */
  datatype AgentCall = AgentCall(provider: string, prompt: string, model: Option<string>)

  function ProviderOfBinary(binary: string): Option<string> {
    if binary == Providers["claude"].binary then Some("claude")
    else if binary == Providers["codex"].binary then Some("codex")
    else if binary == Providers["gemini"].binary then Some("gemini")
    else None
  }

  /** Reads an agent command line: the binary names the provider, then its
      prompt flag, for codex the `--skip-git-repo-check` flag, the prompt,
      and optionally the model flag with a model. */
  function ParseAgentArgv(cmd: seq<string>): Option<AgentCall> {
    if cmd == [] || ProviderOfBinary(cmd[0]).None? then None
    else
      var name := ProviderOfBinary(cmd[0]).value;
      var p := Providers[name];
      var at := if name == "codex" then 3 else 2;
      if |cmd| <= at || cmd[1] != p.promptFlag then None
      else if name == "codex" && cmd[2] != "--skip-git-repo-check" then None
      else if |cmd| == at + 1 then Some(AgentCall(name, cmd[at], None))
      else if |cmd| == at + 3 && cmd[at + 1] == p.modelFlag then Some(AgentCall(name, cmd[at], Some(cmd[at + 2])))
      else None
  }

  /** The command line of a prompt action: binary and prompt flag, the
      codex-only flag, the prompt, then the model flag and model when a
      model is set. Validation has accepted the action. */
  method PromptArgv(a: ActionConfig) returns (cmd: seq<string>)
    requires ActionWellFormed(a) && Truthy(a.prompt)
    ensures ParseAgentArgv(cmd) == Some(AgentCall(ProviderName(a), a.prompt.value, OrNone(a.model)))
    ensures cmd[0] == Providers[ProviderName(a)].binary
  {
    var name := ProviderName(a);
    var provider := Providers[name];
    if name == "codex" {
      cmd := [provider.binary, provider.promptFlag, "--skip-git-repo-check", a.prompt.value];
    } else {
      cmd := [provider.binary, provider.promptFlag, a.prompt.value];
    }
    if Truthy(a.model) {
      cmd := cmd + [provider.modelFlag, a.model.value];
    }
  }

  function TimeoutMessage(timeout: int): string {
    "Task timed out after " + IntToString(timeout) + "s"
  }

  /** Executes the validated action once. Every outcome becomes an exit
      code with captured output: a timeout gives 124, no stdout and a
      message naming the timeout; any other exception gives 1 and its
      message as stderr. */
  method Execute(a: ActionConfig, captured: map<string, string>, outcome: ExecOutcome, canon: string -> string)
    returns (exitCode: int, stdout: string, stderr: string, spawned: Invocation)
    requires ActionWellFormed(a)
    ensures outcome.Completed? ==>
      exitCode == outcome.returnCode && stdout == outcome.stdout && stderr == outcome.stderr
    ensures outcome.TimedOut? ==>
      exitCode == TimeoutExitCode && stdout == "" && stderr == TimeoutMessage(a.timeout)
    ensures outcome.Raised? ==> exitCode == 1 && stdout == "" && stderr == outcome.message
    ensures exitCode == OutcomeCode(outcome) && stdout == OutcomeStdout(outcome)
    ensures stderr == OutcomeStderr(a.timeout, outcome)
    ensures StartedAs(spawned, a, captured, canon)
    ensures Truthy(a.command) ==>
      spawned == Shell(a.command.value, WorkingDir(a, canon), ChildEnv(captured, a.env), a.timeout)
    ensures Truthy(a.prompt) ==>
      && spawned.Exec?
      && spawned.cwd == WorkingDir(a, canon)
      && spawned.env == ChildEnv(captured, a.env)
      && spawned.timeout == a.timeout
      && ParseAgentArgv(spawned.argv) == Some(AgentCall(ProviderName(a), a.prompt.value, OrNone(a.model)))
  {
    exitCode := 1;
    stdout := "";
    stderr := "";
    var cwd := WorkingDir(a, canon);
    var env := captured - {Config.TrigrPathKey};
    env := env + a.env;
    if Truthy(a.command) {
      spawned := Shell(a.command.value, cwd, env, a.timeout);
    } else {
      var cmd := PromptArgv(a);
      spawned := Exec(cmd, cwd, env, a.timeout);
    }
    match outcome {
      case Completed(code, out, err) =>
        exitCode, stdout, stderr := code, out, err;
      case TimedOut =>
        exitCode := TimeoutExitCode;
        stderr := TimeoutMessage(a.timeout);
      case Raised(message) =>
        exitCode := 1;
        stderr := message;
    }
  }

  /** The notification title: the configured one when truthy, else the
      task's name. */
  function NotifyTitle(task: TaskConfig): string {
    if Truthy(task.notify.title) then task.notify.title.value else task.name
  }

  function SuccessBody(stdout: string): string {
    if stdout != "" then Take(stdout, NotifyBodyCap) else "Completed successfully"
  }

  function FailureBody(stderr: string, exitCode: int): string {
    if stderr != "" then Take(stderr, NotifyBodyCap) else "Failed with exit code " + IntToString(exitCode)
  }

  function FailureTitle(streak: int, title: string): string {
    "FAILED (" + IntToString(streak) + "x): " + title
  }

  /** The auto-disable rule: a failed run, failure notifications on, a
      positive ceiling, and a streak that has reached it. */
  predicate AutoDisables(n: NotifyConfig, exitCode: int, streak: int) {
    exitCode != 0 && n.onFailure && n.maxConsecutiveFailures > 0 && streak >= n.maxConsecutiveFailures
  }

  function DisabledNotice(task: TaskConfig, streak: int): Event {
    Notified("DISABLED: " + NotifyTitle(task),
             "Auto-disabled after " + IntToString(streak) + " consecutive failures", None)
  }

  /** The notifications of a finished run, given the task's failure streak
      (this run included): one notice when the run's outcome is switched
      on, pointing at the output file; after a failure that meets the
      auto-disable rule, the unload and a DISABLED notice follow. */
  function DispatchEvents(task: TaskConfig, name: string, exitCode: int, stdout: string, stderr: string,
                          streak: int, outputPath: string): (events: seq<Event>)
    ensures |events| ==
      if exitCode == 0 then (if task.notify.onSuccess then 1 else 0)
      else if !task.notify.onFailure then 0
      else if AutoDisables(task.notify, exitCode, streak) then 3
      else 1
    ensures events != [] ==>
      && events[0].Notified?
      && events[0].openPath == Some(outputPath)
      && events[0].title == (if exitCode == 0 then NotifyTitle(task) else FailureTitle(streak, NotifyTitle(task)))
      && events[0].body == (if exitCode == 0 then SuccessBody(stdout) else FailureBody(stderr, exitCode))
    ensures (Unloaded(name) in events) <==> AutoDisables(task.notify, exitCode, streak)
    ensures |events| == 3 ==> events[1] == Unloaded(name) && events[2] == DisabledNotice(task, streak)
  {
    var title := NotifyTitle(task);
    if exitCode == 0 && task.notify.onSuccess then
      [Notified(title, SuccessBody(stdout), Some(outputPath))]
    else if exitCode != 0 && task.notify.onFailure then
      [Notified(FailureTitle(streak, title), FailureBody(stderr, exitCode), Some(outputPath))] +
      (if task.notify.maxConsecutiveFailures > 0 && streak >= task.notify.maxConsecutiveFailures
       then [Unloaded(name), DisabledNotice(task, streak)]
       else [])
    else []
  }

  /** The notification step after the run is recorded. `name` is the task
      name the scheduler passed, under which the run was recorded; the
      streak is read from the ledger. */
  method Dispatch(task: TaskConfig, name: string, exitCode: int, stdout: string, stderr: string,
                  ledger: Store.RunLedger, outputPath: string) returns (events: seq<Event>)
    requires ledger.Valid()
    ensures events ==
      DispatchEvents(task, name, exitCode, stdout, stderr, Store.Streak(Store.ForTask(ledger.runs, name)), outputPath)
  {
    events := [];
    var success := exitCode == 0;
    var title := NotifyTitle(task);
    if success && task.notify.onSuccess {
      events := events + [Notified(title, SuccessBody(stdout), Some(outputPath))];
    } else if !success && task.notify.onFailure {
      var streak := ledger.GetConsecutiveFailures(name);
      events := events + [Notified(FailureTitle(streak, title), FailureBody(stderr, exitCode), Some(outputPath))];
      var maxFailures := task.notify.maxConsecutiveFailures;
      if maxFailures > 0 && streak >= maxFailures {
        events := events + [Unloaded(name),
                            Notified("DISABLED: " + title,
                                     "Auto-disabled after " + IntToString(streak) + " consecutive failures", None)];
      }
      assert events == DispatchEvents(task, name, exitCode, stdout, stderr, streak, outputPath);
    }
  }

  /** The click-to-open output file of a task. */
  function OutputPath(home: string, name: string): string {
    Plist.ConfigDir(home) + "/outputs/" + name + ".md"
  }

  function OutputContent(stdout: string, stderr: string): string {
    if stdout != "" then stdout else if stderr != "" then stderr else "(no output)"
  }

  /** The part of `run_task` after the child has finished: record the run,
      write the output file, then send the notifications. */
  method RecordAndNotify(task: TaskConfig, name: string, startedAt: int, finishedAt: int,
                         exitCode: int, stdout: string, stderr: string, ledger: Store.RunLedger, home: string)
    returns (runId: int, events: seq<Event>)
    requires ledger.Valid()
    modifies ledger
    ensures ledger.Valid() && ledger.state == old(ledger.state)
    ensures runId == old(ledger.nextId) && ledger.nextId == old(ledger.nextId) + 1
    ensures ledger.runs == old(ledger.runs) + [Store.RunRecord(runId, name, startedAt, finishedAt, exitCode,
                                                               Take(stdout, Store.OutputCap), Take(stderr, Store.OutputCap))]
    ensures |events| >= 2 && events[0] == Recorded(runId)
    ensures events[1] == OutputWritten(OutputPath(home, name), OutputContent(stdout, stderr))
    ensures var notices := DispatchEvents(task, name, exitCode, stdout, stderr,
                                          Store.Streak(Store.ForTask(ledger.runs, name)), OutputPath(home, name));
      |events| == 2 + |notices| && forall i :: 0 <= i < |notices| ==> events[2 + i] == notices[i]
  {
    runId := ledger.RecordRun(name, startedAt, finishedAt, exitCode, stdout, stderr);
    var outputPath := OutputPath(home, name);
    var notices := Dispatch(task, name, exitCode, stdout, stderr, ledger, outputPath);
    events := [Recorded(runId), OutputWritten(outputPath, OutputContent(stdout, stderr))] + notices;
  }

  /** The child `Execute` starts for an action: a shell command, or the
      provider's agent, with the resolved working directory, the child
      environment and the action's timeout. */
  predicate StartedAs(inv: Invocation, a: ActionConfig, captured: map<string, string>, canon: string -> string) {
    && (Truthy(a.command) ==> inv == Shell(a.command.value, WorkingDir(a, canon), ChildEnv(captured, a.env), a.timeout))
    && (Truthy(a.prompt) ==>
          && inv.Exec?
          && inv.cwd == WorkingDir(a, canon)
          && inv.env == ChildEnv(captured, a.env)
          && inv.timeout == a.timeout
          && ParseAgentArgv(inv.argv) == Some(AgentCall(ProviderName(a), a.prompt.value, OrNone(a.model))))
  }

  // The exit code and outputs a run ends with, by the executor's outcome.

  function OutcomeCode(o: ExecOutcome): int {
    match o
    case Completed(code, _, _) => code
    case TimedOut => TimeoutExitCode
    case Raised(_) => 1
  }

  function OutcomeStdout(o: ExecOutcome): string {
    if o.Completed? then o.stdout else ""
  }

  function OutcomeStderr(timeout: int, o: ExecOutcome): string {
    match o
    case Completed(_, _, err) => err
    case TimedOut => TimeoutMessage(timeout)
    case Raised(message) => message
  }

  /** What a run that took the lock and recorded itself leaves behind:
      exactly one record appended under `name`, under the id the counter
      stood at (`nextBefore`), which then moves up by one, carrying the
      clock readings and the truncated outcome, whose exit code is the
      result; the events
      are the started child, the record, the output file, then exactly the
      notifications for this outcome and the streak that includes this run,
      so the unload happens exactly when the auto-disable rule fires. */
  ghost predicate RecordedRun(task: TaskConfig, name: string, captured: map<string, string>, outcome: ExecOutcome,
                              startedAt: int, finishedAt: int, home: string, canon: string -> string,
                              before: seq<Store.RunRecord>, after: seq<Store.RunRecord>,
                              nextBefore: int, nextAfter: int, result: RunResult, events: seq<Event>)
  {
    var n := |before|;
    var code := OutcomeCode(outcome);
    var out := OutcomeStdout(outcome);
    var err := OutcomeStderr(task.action.timeout, outcome);
    && |after| == n + 1
    && after[..n] == before
    && after[n] == Store.RunRecord(nextBefore, name, startedAt, finishedAt, code,
                                   Take(out, Store.OutputCap), Take(err, Store.OutputCap))
    && nextAfter == nextBefore + 1
    && result == Exited(code)
    && |events| >= 3
    && events[0].Spawned? && StartedAs(events[0].invocation, task.action, captured, canon)
    && events[1] == Recorded(nextBefore)
    && events[2] == OutputWritten(OutputPath(home, name), OutputContent(out, err))
    && var notices := DispatchEvents(task, name, code, out, err, Store.Streak(Store.ForTask(after, name)),
                                     OutputPath(home, name));
       && |events| == 3 + |notices|
       && (forall i :: 0 <= i < |notices| ==> events[3 + i] == notices[i])
       && ((Unloaded(name) in events) <==> AutoDisables(task.notify, code, Store.Streak(Store.ForTask(after, name))))
  }

  /** Putting the started child in front of the record, the output file
      and the notifications shifts the notifications by one place and
      leaves the unload among them. */
  lemma SpawnedFirst(spawned: Invocation, tail: seq<Event>, notices: seq<Event>, name: string)
    requires |tail| == 2 + |notices| && tail[0].Recorded? && tail[1].OutputWritten?
    requires forall i :: 0 <= i < |notices| ==> tail[2 + i] == notices[i]
    ensures |[Spawned(spawned)] + tail| == 3 + |notices|
    ensures forall i :: 0 <= i < |notices| ==> ([Spawned(spawned)] + tail)[3 + i] == notices[i]
    ensures Unloaded(name) in [Spawned(spawned)] + tail <==> Unloaded(name) in notices
  {
    var events := [Spawned(spawned)] + tail;
    if Unloaded(name) in events {
      var k :| 0 <= k < |events| && events[k] == Unloaded(name);
      assert k >= 3 && notices[k - 3] == Unloaded(name);
    }
    if Unloaded(name) in notices {
      var k :| 0 <= k < |notices| && notices[k] == Unloaded(name);
      assert events[3 + k] == Unloaded(name);
    }
  }

  /** A started child followed by what `RecordAndNotify` promises, for the
      values `Execute` returns, is a recorded run. */
  lemma RecordedRunOf(task: TaskConfig, name: string, captured: map<string, string>, outcome: ExecOutcome,
                      startedAt: int, finishedAt: int, home: string, canon: string -> string,
                      before: seq<Store.RunRecord>, after: seq<Store.RunRecord>, nextBefore: int, nextAfter: int,
                      spawned: Invocation, exitCode: int, stdout: string, stderr: string, tail: seq<Event>)
    requires StartedAs(spawned, task.action, captured, canon)
    requires exitCode == OutcomeCode(outcome) && stdout == OutcomeStdout(outcome)
    requires stderr == OutcomeStderr(task.action.timeout, outcome)
    requires nextAfter == nextBefore + 1
    requires after == before + [Store.RunRecord(nextBefore, name, startedAt, finishedAt, exitCode,
                                                Take(stdout, Store.OutputCap), Take(stderr, Store.OutputCap))]
    requires |tail| >= 2 && tail[0] == Recorded(nextBefore)
    requires tail[1] == OutputWritten(OutputPath(home, name), OutputContent(stdout, stderr))
    requires var notices := DispatchEvents(task, name, exitCode, stdout, stderr,
                                           Store.Streak(Store.ForTask(after, name)), OutputPath(home, name));
      |tail| == 2 + |notices| && forall i :: 0 <= i < |notices| ==> tail[2 + i] == notices[i]
    ensures RecordedRun(task, name, captured, outcome, startedAt, finishedAt, home, canon,
                        before, after, nextBefore, nextAfter, Exited(exitCode), [Spawned(spawned)] + tail)
  {
    var notices := DispatchEvents(task, name, exitCode, stdout, stderr,
                                  Store.Streak(Store.ForTask(after, name)), OutputPath(home, name));
    SpawnedFirst(spawned, tail, notices, name);
    assert after[..|before|] == before;
  }

  /** The body of `run_task` while the lock is held: execute, record, write
      the output file, notify. */
  method RunLocked(task: TaskConfig, name: string, ledger: Store.RunLedger,
                   captured: map<string, string>, outcome: ExecOutcome, startedAt: int, finishedAt: int,
                   recordFails: bool, home: string, canon: string -> string)
    returns (result: RunResult, events: seq<Event>)
    requires ledger.Valid() && ValidTask(task)
    modifies ledger
    ensures ledger.Valid() && ledger.state == old(ledger.state)
    ensures recordFails ==>
      && result == RecordingFault && ledger.runs == old(ledger.runs) && ledger.nextId == old(ledger.nextId)
      && |events| == 1 && events[0].Spawned? && StartedAs(events[0].invocation, task.action, captured, canon)
    ensures !recordFails ==>
      RecordedRun(task, name, captured, outcome, startedAt, finishedAt, home, canon,
                  old(ledger.runs), ledger.runs, old(ledger.nextId), ledger.nextId, result, events)
  {
    var exitCode, stdout, stderr, spawned := Execute(task.action, captured, outcome, canon);
    if recordFails {
      return RecordingFault, [Spawned(spawned)];
    }
    var runId, tail := RecordAndNotify(task, name, startedAt, finishedAt, exitCode, stdout, stderr, ledger, home);
    RecordedRunOf(task, name, captured, outcome, startedAt, finishedAt, home, canon,
                  old(ledger.runs), ledger.runs, old(ledger.nextId), ledger.nextId,
                  spawned, exitCode, stdout, stderr, tail);
    events := [Spawned(spawned)] + tail;
    result := Exited(exitCode);
  }

  /** `run_task(name)`. `loaded` is the task file's content (None when the
      file is missing); the clock readings, the executor's outcome and
      whether the database insert fails are inputs. */
  method RunTask(name: string, loaded: Option<TaskConfig>, ledger: Store.RunLedger, lock: TaskLock,
                 captured: map<string, string>, outcome: ExecOutcome, startedAt: int, finishedAt: int,
                 recordFails: bool, home: string, canon: string -> string)
    returns (result: RunResult, events: seq<Event>)
    requires ledger.Valid()
    modifies ledger, lock
    ensures ledger.Valid() && ledger.state == old(ledger.state)
    // the lock ends as it began: a busy lock stays with its holder, a lock
    // taken by this run is released on every path
    ensures lock.held == old(lock.held)
    // a run that records nothing leaves the id counter where it was
    ensures (loaded.None? || !ValidTask(loaded.value) || old(lock.held) || recordFails) ==>
      ledger.nextId == old(ledger.nextId)
    ensures loaded.None? ==> result == TaskNotFound && events == [] && ledger.runs == old(ledger.runs)
    ensures loaded.Some? && !ValidTask(loaded.value) ==>
      result == InvalidTask(TaskErrors(loaded.value)) && events == [] && ledger.runs == old(ledger.runs)
    // contention: skipped, reported as success, nothing recorded or sent
    ensures loaded.Some? && ValidTask(loaded.value) && old(lock.held) ==>
      result == Exited(0) && events == [] && ledger.runs == old(ledger.runs)
    ensures loaded.Some? && ValidTask(loaded.value) && !old(lock.held) && recordFails ==>
      && result == RecordingFault && ledger.runs == old(ledger.runs)
      && |events| == 1 && events[0].Spawned? && StartedAs(events[0].invocation, loaded.value.action, captured, canon)
    ensures loaded.Some? && ValidTask(loaded.value) && !old(lock.held) && !recordFails ==>
      RecordedRun(loaded.value, name, captured, outcome, startedAt, finishedAt, home, canon,
                  old(ledger.runs), ledger.runs, old(ledger.nextId), ledger.nextId, result, events)
  {
    events := [];
    if loaded.None? {
      return TaskNotFound, events;
    }
    var task := loaded.value;
    var errors := TaskErrors(task);
    if errors != [] {
      return InvalidTask(errors), events;
    }
    var acquired := lock.TryAcquire();
    if !acquired {
      return Exited(0), events;
    }
    result, events := RunLocked(task, name, ledger, captured, outcome, startedAt, finishedAt, recordFails, home, canon);
    lock.Release();
  }
}
