# trigr, modelled in Dafny

trigr schedules shell commands and AI-agent prompts on macOS through
launchd. A task is a TOML file with three parts: a trigger (cron calendar,
fixed interval or watched paths), an action (a shell command, or a prompt
for the claude, codex or gemini command-line agent) and notification
settings. The engine does four things:

- It compiles each task into a launchd property list.
- When launchd fires, it runs the task under a per-task lock.
- It records every run in a SQLite ledger.
- It sends notifications and auto-disables a task that keeps failing.

This project models the parts of trigr that decide what happens. There are
seven modules, one per file:

- `Base` (base.dfy): optional values, Python truthiness of optional
  strings, `s[:n]`, and integer rendering.
- `Models` (models.dfy): the task records and their validation. This
  covers cron field ranges, the per-type trigger payload, the ordered
  action checks and the provider whitelist.
- `Config` (config.dfy): the `KEY=value` env file.
  - The capture written by `init` is a method with a loop, as is the
    `load_env` parser.
  - The `get_trigr_path` fallback chain is a function.
  - A round trip connects the writer and the parser.
- `Store` (store.dfy): the SQLite database, modelled as a class
  `RunLedger`. It holds the `runs` rows as a sequence, the `state` table
  as a map and the AUTOINCREMENT counter, and has one method per store
  operation.
- `Plist` (plist.dfy): the plist label and path, and the property list
  generated for a task. The schedule launchd reads back from that list is
  proved to be the task's trigger.
- `Runner` (runner.dfy): `run_task` as an imperative state machine. It
  loads, validates, takes the lock or skips, executes, records, writes the
  output file, notifies, auto-disables and releases. The lock is a class
  with a `held` field.
  - Effects that leave the process appear as an event log: the spawned
    child, the record, the output file, notifications and the launchd
    unload.
  - The executor's outcome is an input: completed, timed out or raised.
- `Create` (create.dfy): the TOML document the `create` command writes,
  built by methods as the command builds its dictionaries, and the
  `list`/`show` action label. A reader that applies the record defaults
  gives the document its meaning. The main result is that the document
  reads back as the validated task, up to the differences the command
  deliberately introduces: empty strings dropped, other types' payloads
  dropped, and a non-positive failure limit omitted, reading back as 0.

Timestamps are integers (seconds). The clock readings, the search-path
lookup of the executable (`which`), the home directory, path
canonicalisation (`canon`), the process environment and the executor's
outcome are parameters.

## Model

| member | source | states |
|---|---|---|
| Base.Take | src/trigr/store.py:24-25 | `s[:n]` is the prefix of `s` of length `min(len(s), n)` |
| Base.NatToString | src/trigr/runner.py:127-135 | `str(n)` of a natural number: non-empty, digits only, with a leading zero only for 0 |
| Base.NatToStringValue | src/trigr/runner.py:126 | the digits of `str(n)` denote `n` |
| Base.IntToStringValue | src/trigr/runner.py:96 | `str(i)`, sign included, denotes `i`, as in the timeout message and the exit code of a failure body |
| Models.FieldError | src/trigr/models.py:19-52 | one field's check fails exactly when the field is present and outside its range, and then its one error carries the field and the value it got |
| Models.CronErrors | src/trigr/models.py:12-52 | a cron section is accepted iff every present field is in range: minute 0-59, hour 0-23, day 1-31, weekday 0-6, month 1-12; at most five errors |
| Models.CronErrorsReport | src/trigr/models.py:19-52 | `OutOfRange(f, v)` is reported iff field `f` holds `v` and `v` is outside the field's range |
| Models.TriggerErrors | src/trigr/models.py:55-73 | a trigger is accepted iff its cron section, if any, is in range and the payload of its own type is present (a non-empty list for watch) |
| Models.TriggerAccepted | src/trigr/models.py:61-73 | a cron section with no field set is accepted, and so is an interval of any sign, zero included |
| Models.TriggerPayloadError | src/trigr/models.py:63-72 | with valid cron fields, each payload error is reported exactly when that type's payload is missing |
| Models.ActionError | src/trigr/models.py:92-104 | the action is accepted iff well formed; each error is returned exactly when it is the first failing check, in the order both, neither, provider without prompt, model without prompt, unknown provider; empty strings count as absent |
| Models.TaskErrors | src/trigr/models.py:114-120 | a task is accepted iff its trigger is accepted and its action is well formed |
| Config.PartitionAtFirstEquals | src/trigr/config.py:76-78 | for a key without "=", `key=val` partitions back into that key and value, even when `val` contains "=" |
| Config.LoadEnv | src/trigr/config.py:71-79 | a missing file gives the empty map; otherwise the map built from the file's lines split as `str.splitlines` does |
| Config.EnvOfKeys | src/trigr/config.py:75-78 | a key is loaded iff some line containing "=" has that text before its first "=" |
| Config.EnvOfLastWins | src/trigr/config.py:75-78 | a line's value is the one loaded for its key when no later line repeats the key |
| Config.CaptureEnv | src/trigr/config.py:26-34 | the written text is the captured `KEY=value` lines joined with "\n", plus a final "\n" |
| Config.CapturedKeys | src/trigr/config.py:27-30 | every captured pair comes from the allow-list and carries the variable's value |
| Config.CapturedKeysArePlain | src/trigr/config.py:16 | the captured variable names contain no "=" and no line break |
| Config.SplitTerminated | src/trigr/config.py:75 | splitting newline-terminated lines that contain no line break gives back those lines |
| Config.CaptureRoundTrip | src/trigr/config.py:26-34 | loading the captured text gives the non-empty allow-listed variables plus `TRIGR_PATH` when the executable was found, provided no value contains a line break |
| Config.TrigrPathAfterInit | src/trigr/config.py:82-90 | `GetTrigrPath` gives the captured path, else `which`, else "trigr"; after a capture that found the executable, later lookups return that path whatever `which` says; otherwise they return the later `which` result, or "trigr" |
| Store.ForTaskMembers | src/trigr/store.py:41-45 | a task's rows are exactly the ledger rows with its name |
| Store.StreakIs | src/trigr/store.py:89-103 | the streak is `k` iff the `k` newest rows failed and the next older row, if any, succeeded |
| Store.StreakBound | src/trigr/store.py:97-103 | the streak never exceeds the row count; the counted rows all failed and the row just before them succeeded |
| Store.StreakAfterAppend | src/trigr/store.py:89-103 | recording a failure of the task raises its streak by one, a success resets it to 0, and another task's run leaves it alone |
| Store.StreakExample | src/trigr/store.py:89-103 | exit codes 0, 1, 1, 1 give a streak of 3 |
| Store.RecentNewestFirst | src/trigr/store.py:38-51 | a listing is in strictly decreasing id order and holds only ledger rows that pass the filter |
| Store.KeptMembers | src/trigr/store.py:82 | pruning keeps exactly the rows started at or after the cutoff |
| Store.KeptIncreasing | src/trigr/store.py:82 | pruning preserves increasing ids |
| Store.KeptBounded | src/trigr/store.py:82 | pruning keeps every id below the next id to issue |
| Store.RunLedger.constructor | src/trigr/config.py:40-60 | a fresh database has no runs and no state, and its AUTOINCREMENT counter starts at 1 |
| Store.RunLedger.RecordRun | src/trigr/store.py:14-35 | appends exactly one row whose outputs are cut to 5120 characters, under the counter's next value, which is above every existing id, and the counter moves up by one, so an id is never reused even after pruning; earlier rows and state are unchanged |
| Store.RunLedger.GetRuns | src/trigr/store.py:38-51 | at most `limit` rows (no bound when negative), newest first, and exactly the newest rows of the filter's selection; a filter of None or "" selects every task |
| Store.RunLedger.GetLastOutput | src/trigr/store.py:64-72 | None iff the task has no run; otherwise the output columns of the task's row with the greatest id |
| Store.RunLedger.GetConsecutiveFailures | src/trigr/store.py:89-103 | the counting loop returns the task's streak, which is at most the task's run count |
| Store.RunLedger.DeleteOldRuns | src/trigr/store.py:75-86 | removes exactly the rows started before `now - days` days, keeps the rest in order, returns the number removed; state and counter are unchanged |
| Store.RunLedger.GetState | src/trigr/store.py:54-61 | the stored value, or None iff the task was never set |
| Store.RunLedger.SetState | src/trigr/store.py:106-115 | upsert: the task's row becomes the value and time; other tasks' rows and the ledger are unchanged |
| Runner.TaskLock.constructor | src/trigr/runner.py:31-33 | the lock file starts in the given held or free state |
| Runner.TaskLock.TryAcquire | src/trigr/runner.py:31-39 | acquisition succeeds iff the lock was free; afterwards it is held |
| Runner.TaskLock.Release | src/trigr/runner.py:137-139 | the lock is free afterwards |
| Runner.ChildEnv | src/trigr/runner.py:53-57 | the child's environment is the captured one without `TRIGR_PATH`, overlaid by the task's variables, which win |
| Runner.PromptArgv | src/trigr/runner.py:73-81 | the argv parses back as the provider (default claude), the prompt and the model; codex has `--skip-git-repo-check` before the prompt |
| Runner.Execute | src/trigr/runner.py:46-99 | a command runs through the shell and a prompt runs the provider's agent, both with the resolved working directory, child environment and timeout; a timeout gives 124 with the timeout message; an exception gives 1 with its message |
| Runner.DispatchEvents | src/trigr/runner.py:118-136 | how many notices each outcome sends (one for an enabled outcome, three when auto-disabling); the first notice's title, body and open path; the unload and DISABLED notice happen iff the auto-disable rule fires, on every such run |
| Runner.Dispatch | src/trigr/runner.py:118-136 | the notices sent are exactly those for the outcome and the task's streak read from the ledger |
| Runner.RecordAndNotify | src/trigr/runner.py:101-136 | exactly one record under the scheduler's name, with the id the ledger's counter stood at, which moves up by one; then the output file with stdout, else stderr, else "(no output)", then exactly the notices for the streak that includes this run |
| Runner.RunLocked | src/trigr/runner.py:46-136 | the child started is the one for the action; the recorded exit code is the result, the record carries the sentinel outcome, and the record precedes the exact notices; a recorded run takes the counter's id and moves it up by one; a failing insert records nothing, leaves the counter and notifies nothing |
| Runner.RunTask | src/trigr/runner.py:26-141 | missing or invalid task: nothing is recorded or sent and the id counter stays; busy lock: result 0 with nothing recorded or sent and the counter unchanged; otherwise the child for the action, one record under the counter's next id, the output file and the exact notices, in that order; the lock ends as it began on every path |
| Plist.PlistLabelInjective | src/trigr/plist.py:9-10 | the label is "com.trigr." followed by the name, so distinct names give distinct labels |
| Plist.PlistPathInjective | src/trigr/plist.py:13-14 | the path is the label plus ".plist" in the LaunchAgents directory, distinct for distinct names |
| Plist.CalendarInterval | src/trigr/plist.py:35-48 | the calendar has a key exactly for each set cron field, holding that field's value |
| Plist.WatchList | src/trigr/plist.py:56 | the watched paths keep their number and order, each resolved |
| Plist.GeneratePlist | src/trigr/plist.py:17-58 | the six common keys plus exactly the trigger's own key; the program arguments; the environment without `TRIGR_PATH`; the log paths; `RunAtLoad` false |
| Plist.ScheduleRoundTrip | src/trigr/plist.py:33-56 | the schedule launchd reads from the list is the task's trigger with only its own payload and resolved paths |
| Create.ParseTriggerType | src/trigr/cli.py:496 | a type name parses only to the type carrying that name |
| Create.ParseTriggerTypeName | src/trigr/cli.py:496 | every type's name parses back to that type |
| Create.ReadDefaults | src/trigr/models.py:107-120 | a document that omits them reads back with description "", timeout 300, no env, notify on failure only, no auto-disable, enabled; a given `enabled` is read |
| Create.ReadEnvBack | src/trigr/models.py:90 | an `[action.env]` table of strings reads back as those variables |
| Create.ArgsTask | src/trigr/cli.py:495-535 | the task built from the options has a cron section exactly for a cron trigger and no extra environment |
| Create.CronEntriesGet | src/trigr/cli.py:557-561 | a field's key is written iff the field is set and listed, holding its value; no other key is written |
| Create.CronTable | src/trigr/cli.py:556-562 | the cron table holds exactly the set fields and reads back as the schedule |
| Create.ReadTypeAndPayload | src/trigr/cli.py:551-562 | a trigger table with its type and one payload reads back as that type with that payload |
| Create.TriggerTable | src/trigr/cli.py:551-563 | the trigger table holds the type and the payload of that type only, and reads back as the normalised trigger |
| Create.PutText | src/trigr/cli.py:566-575 | a text option is written iff truthy; no other key changes |
| Create.ActionTexts | src/trigr/cli.py:565-575 | command, prompt, provider, model and working_dir each appear iff truthy |
| Create.ActionTable | src/trigr/cli.py:565-578 | the texts appear iff truthy and the timeout iff it is not 300; the table reads back as the action with empty texts absent |
| Create.NotifyTable | src/trigr/cli.py:580-588 | both switches always, the title iff truthy, the limit iff positive; reads back with a non-positive limit as 0 |
| Create.ReadDocument | src/trigr/cli.py:547-588 | a document of name, description, trigger, action and notify entries reads back field by field |
| Create.DocumentHead | src/trigr/cli.py:547-549 | the document starts with the name, and holds the description iff it is non-empty |
| Create.BuildTaskData | src/trigr/cli.py:547-588 | the document has name, trigger, action and notify, plus description iff non-empty, and reads back as the normalised task |
| Create.ConstructionErrors | src/trigr/cli.py:495-535 | the records are validated as they are built: the cron section (cron only), then the trigger, then the action; only the first failing record's errors are reported, which are the leading errors of a full validation, and there are none iff the task is valid |
| Create.ConstructionStopsAtCron | src/trigr/cli.py:499 | with minute 60 and neither command nor prompt, only the minute is reported, although full validation also reports the missing action |
| Create.CreateTask | src/trigr/cli.py:495-590 | rejected iff the task is invalid, with the first failing record's errors; refused iff valid and the file exists; otherwise the written document reads back as the normalised task |
| Create.NormalisedErrors | src/trigr/cli.py:527-535 | the reloaded document validates exactly as the task built from the options |
| Create.NormalisedPlist | src/trigr/cli.py:593 | the plist generated from the in-memory task is the one the reloaded document generates |
| Create.NormalisedRuns | src/trigr/runner.py:59-131 | the reloaded task runs the same kind of action with the same provider and model, the same notification title and the same auto-disable rule |
| Create.ActionLabelAgrees | src/trigr/cli.py:166 | the label (also at cli.py:198 and 232) is "script" iff the action is a command; otherwise it is the known provider the runner invokes, claude by default |

## Left out

- Launching processes is not modelled. This covers `subprocess.run`, the `launchctl` calls (`load_plist`, `unload_plist`, `is_loaded`) and writing, reading or removing plist and task files. The executor's outcome is an input; the unload, the output file and notifications are events.
- notify.py (terminal-notifier/osascript) is not part of this model; a notification is an event with title, body and open path.
- `fcntl.flock` is a `held` flag on one lock object; concurrency between processes is not modelled.
- SQLite, tomllib/tomli_w, plistlib and pydantic are replaced by sequences, maps and datatypes. The `state` table is a map from task name to row.
- Store.RunLedger.DeleteOldRuns: the source compares ISO-8601 timestamp strings; the model compares integer seconds, which agrees only when every timestamp has the same format and time zone.
- Runner.RunTask: failures to load the file are inputs, not exceptions. `loaded` is None for a missing file, and TOML syntax errors are not modelled. The model returns results (TaskNotFound, InvalidTask, RecordingFault) where the source raises.
- Runner.RunTask: the message written to stderr when the lock is busy ("already running, skipping") is not modelled; the busy path gives its result, no event, and no change to the ledger.
- Plist.PlistPath, Plist.GeneratePlist, Runner.OutputPath: paths are joined as strings, without pathlib's normalisation of "//" and "." segments, so for task names containing "/" two names the source maps to the same file (such as "a//b" and "a/b") get different paths in the model; injectivity is proved for the strings.
- Runner.RunTask: exceptions raised while writing the output file, sending a notification or unloading are not modelled; only a failing `record_run` is.
- `ensure_init` and the directory creation of `init` are not modelled.
- Create.CronTable: the emission order of the cron keys (minute, hour, day, weekday, month) is not stated, because a table is a map.
- Create.BuildTaskData: the emission order of the document's keys and tables is not stated, for the same reason.
- Create.CreateTask: the source lets the validation error of the cron, trigger or action record escape uncaught, rather than printing "Invalid config"; the model reports both as `Rejected`. The task record itself never fails on validated parts, so the `except` around it is never taken.
- Runner.Execute: `Spawned` names the child the supervisor set out to start; under a `Raised` outcome the failure may have come before the child started.
- Create.ArgsTask: an unknown `--trigger` string, which makes `TriggerType(trigger)` raise, is not representable; the option is already a trigger type.
- Writing the task file and the plist, and loading the plist after `create`, are not modelled.
- The other CLI commands and their presentation are not modelled: `add`, `remove`, `enable`, `disable`, `edit`, `logs`, `status`, `clean`, the rich tables and the duration display.
- Path expansion and resolution (`expanduser().resolve()`) is the function parameter `canon`; the home directory is a parameter.
- Truncation is by characters, as the source slices Python strings; bytes and encodings are not modelled.
