/** The `create` command: the task built from the command-line options, and
    the TOML document written for it, which holds only what differs from
    the defaults. A reference reader with the record defaults gives the
    document its meaning. */
module Create {
  import opened Base
  import opened Models
  import Plist
  import Runner

  /** A TOML value as the document writer receives it. */
  datatype Toml =
    | TStr(s: string)
    | TInt(i: int)
    | TBool(b: bool)
    | TStrArray(items: seq<string>)
    | TTable(table: map<string, Toml>)

  /** A TOML table; the order in which its keys are emitted is not modelled. */
  type Table = map<string, Toml>

  // Typed lookups; a value of another type reads as absent.

  function GetStr(t: Table, key: string): Option<string> {
    if key in t && t[key].TStr? then Some(t[key].s) else None
  }

  function GetInt(t: Table, key: string): Option<int> {
    if key in t && t[key].TInt? then Some(t[key].i) else None
  }

  function GetBool(t: Table, key: string): Option<bool> {
    if key in t && t[key].TBool? then Some(t[key].b) else None
  }

  function GetStrs(t: Table, key: string): Option<seq<string>> {
    if key in t && t[key].TStrArray? then Some(t[key].items) else None
  }

  function GetTable(t: Table, key: string): Option<Table> {
    if key in t && t[key].TTable? then Some(t[key].table) else None
  }

  /** The trigger type named by a task file's `type` key. */
  function ParseTriggerType(s: string): (k: Option<TriggerType>)
    ensures k.Some? ==> TriggerTypeName(k.value) == s
  {
    if s == "cron" then Some(Cron)
    else if s == "interval" then Some(Interval)
    else if s == "watch" then Some(Watch)
    else None
  }

  /** Every trigger type's name parses back to that type. */
  lemma ParseTriggerTypeName(t: TriggerType)
    ensures ParseTriggerType(TriggerTypeName(t)) == Some(t)
  {
  }

  // ----- Reading a task document back, with the record defaults -----

  /** The key of a calendar field in a `[trigger.cron]` table. */
  function FieldName(f: CronField): string {
    match f
    case Minute => "minute"
    case Hour => "hour"
    case Day => "day"
    case Weekday => "weekday"
    case Month => "month"
  }

  function ReadCron(t: Table): CronSchedule {
    CronSchedule(GetInt(t, FieldName(Minute)), GetInt(t, FieldName(Hour)), GetInt(t, FieldName(Day)),
                 GetInt(t, FieldName(Weekday)), GetInt(t, FieldName(Month)))
  }

  function ReadTrigger(t: Table): Option<TriggerConfig> {
    match GetStr(t, "type")
    case None => None
    case Some(name) =>
      match ParseTriggerType(name)
      case None => None
      case Some(kind) =>
        var cron := match GetTable(t, "cron") case Some(c) => Some(ReadCron(c)) case None => None;
        Some(TriggerConfig(kind, cron, GetInt(t, "interval_seconds"), GetStrs(t, "watch_paths")))
  }

  /** The `[action.env]` table: its string entries. */
  function ReadEnv(t: Table): map<string, string> {
    match GetTable(t, "env")
    case None => map[]
    case Some(e) => map k | k in e && e[k].TStr? :: e[k].s
  }

  function ReadAction(t: Table): ActionConfig {
    ActionConfig(GetStr(t, "command"), GetStr(t, "prompt"), GetStr(t, "provider"), GetStr(t, "model"),
                 GetStr(t, "working_dir"), GetInt(t, "timeout").GetOr(DefaultTimeout), ReadEnv(t))
  }

  function ReadNotify(t: Table): NotifyConfig {
    NotifyConfig(GetBool(t, "on_success").GetOr(DefaultNotify.onSuccess),
                 GetBool(t, "on_failure").GetOr(DefaultNotify.onFailure),
                 GetStr(t, "title"),
                 GetInt(t, "max_consecutive_failures").GetOr(DefaultNotify.maxConsecutiveFailures))
  }

  /** The task a document stands for: name, trigger type and action are
      required; every other key the records declare falls back to its
      default when absent. */
  function ReadTask(data: Table): Option<TaskConfig> {
    match (GetStr(data, "name"), GetTable(data, "trigger"), GetTable(data, "action"))
    case (Some(name), Some(trig), Some(act)) =>
      (match ReadTrigger(trig)
       case None => None
       case Some(trigger) =>
         var notify := match GetTable(data, "notify") case Some(n) => ReadNotify(n) case None => DefaultNotify;
         Some(TaskConfig(name, GetStr(data, "description").GetOr(""), trigger, ReadAction(act), notify,
                         GetBool(data, "enabled").GetOr(true))))
    case _ => None
  }

  /** What a document leaves out takes the record defaults: no
      description, a 300-second timeout, no extra environment, notify on
      failure only, never auto-disable, enabled; a key that is given is
      read instead. */
  lemma ReadDefaults(name: string, trig: Table, act: Table, enabled: bool)
    requires ReadTrigger(trig).Some?
    ensures var d := map["name" := TStr(name), "trigger" := TTable(trig), "action" := TTable(act)];
      && ReadTask(d).Some?
      && ReadTask(d).value.name == name && ReadTask(d).value.description == ""
      && ReadTask(d).value.notify == NotifyConfig(false, true, None, 0)
      && ReadTask(d).value.enabled
      && ReadTask(d["enabled" := TBool(enabled)]).Some?
      && ReadTask(d["enabled" := TBool(enabled)]).value.enabled == enabled
    ensures "timeout" !in act ==> ReadAction(act).timeout == 300
    ensures "env" !in act ==> ReadAction(act).env == map[]
  {
    var d := map["name" := TStr(name), "trigger" := TTable(trig), "action" := TTable(act)];
    assert GetStr(d, "name") == Some(name) && GetTable(d, "trigger") == Some(trig);
    assert GetTable(d, "action") == Some(act) && GetTable(d, "notify").None?;
    var e := d["enabled" := TBool(enabled)];
    assert GetStr(e, "name") == Some(name) && GetTable(e, "trigger") == Some(trig);
    assert GetTable(e, "action") == Some(act) && GetBool(e, "enabled") == Some(enabled);
  }

  /** An `[action.env]` table of strings reads back as those variables. */
  lemma ReadEnvBack(act: Table, env: map<string, string>)
    ensures ReadAction(act["env" := TTable(map k | k in env :: TStr(env[k]))]).env == env
  {
    var e := map k | k in env :: TStr(env[k]);
    var read := ReadEnv(act["env" := TTable(e)]);
    assert read.Keys == env.Keys;
  }

  // ----- The command's options and the task it builds -----

  /** The options of `create`, with None for an option not given. */
  datatype CreateArgs = CreateArgs(
    name: string,
    trigger: TriggerType,
    hour: Option<int>,
    minute: Option<int>,
    day: Option<int>,
    weekday: Option<int>,
    month: Option<int>,
    intervalSeconds: Option<int>,
    watchPaths: Option<seq<string>>,
    command: Option<string>,
    prompt: Option<string>,
    provider: Option<string>,
    model: Option<string>,
    workingDir: Option<string>,
    timeout: int,
    notifyOnSuccess: bool,
    notifyOnFailure: bool,
    notifyTitle: Option<string>,
    maxConsecutiveFailures: int,
    description: string)

  /** The task the options describe: a cron section only for a cron
      trigger, every other option passed through as given. */
  function ArgsTask(args: CreateArgs): (t: TaskConfig)
    ensures t.trigger.cron.Some? <==> args.trigger == Cron
    ensures t.trigger.kind == args.trigger && t.action.env == map[] && t.enabled
  {
    var cron := if args.trigger == Cron
                then Some(CronSchedule(args.minute, args.hour, args.day, args.weekday, args.month))
                else None;
    TaskConfig(
      args.name, args.description,
      TriggerConfig(args.trigger, cron, args.intervalSeconds, args.watchPaths),
      ActionConfig(args.command, args.prompt, args.provider, args.model, args.workingDir, args.timeout, map[]),
      NotifyConfig(args.notifyOnSuccess, args.notifyOnFailure, args.notifyTitle, args.maxConsecutiveFailures),
      true)
  }

  /** What the written document reads back as: only the payload of the
      trigger's own type survives, empty strings become absent, a
      non-positive failure limit becomes 0 (never), and there are no extra
      environment variables. */
  function Normalised(t: TaskConfig): TaskConfig {
    TaskConfig(t.name, t.description, NormalTrigger(t.trigger), NormalAction(t.action), NormalNotify(t.notify), true)
  }

  function NormalTrigger(t: TriggerConfig): TriggerConfig {
    var k := t.kind;
    TriggerConfig(k,
                  if k == Cron then t.cron else None,
                  if k == Interval then t.intervalSeconds else None,
                  if k == Watch then t.watchPaths else None)
  }

  function NormalAction(a: ActionConfig): ActionConfig {
    ActionConfig(OrNone(a.command), OrNone(a.prompt), OrNone(a.provider), OrNone(a.model),
                 OrNone(a.workingDir), a.timeout, map[])
  }

  function NormalNotify(n: NotifyConfig): NotifyConfig {
    NotifyConfig(n.onSuccess, n.onFailure, OrNone(n.title),
                 if n.maxConsecutiveFailures > 0 then n.maxConsecutiveFailures else 0)
  }

  // ----- Writing the document -----

  const CronFields: seq<CronField> := [Minute, Hour, Day, Weekday, Month]

  /** The cron entries of the fields in `fs` that are set. */
  function CronEntries(c: CronSchedule, fs: seq<CronField>): Table {
    if fs == [] then map[]
    else
      var f := fs[|fs| - 1];
      var t := CronEntries(c, fs[..|fs| - 1]);
      if FieldValue(c, f).Some? then t[FieldName(f) := TInt(FieldValue(c, f).value)] else t
  }

  /** A field's key holds its value exactly when the field is set and
      listed; no other key is written. */
  lemma {:induction false} CronEntriesGet(c: CronSchedule, fs: seq<CronField>)
    ensures forall f :: FieldName(f) in CronEntries(c, fs) <==> f in fs && FieldValue(c, f).Some?
    ensures forall f :: FieldName(f) in CronEntries(c, fs) ==>
      CronEntries(c, fs)[FieldName(f)] == TInt(FieldValue(c, f).value)
    ensures forall k :: k in CronEntries(c, fs) ==> exists f :: f in fs && k == FieldName(f)
  {
    if fs != [] {
      var g := fs[|fs| - 1];
      var init := fs[..|fs| - 1];
      CronEntriesGet(c, init);
      assert fs == init + [g];
      assert forall f :: FieldName(f) == FieldName(g) ==> f == g;
    }
  }

  /** The `for field in (...)` loop of `create`: a table with one entry per
      set field and nothing else, which reads back as the schedule it was
      written from. */
  method CronTable(c: CronSchedule) returns (t: Table)
    ensures ReadCron(t) == c
    ensures forall f :: FieldName(f) in t <==> FieldValue(c, f).Some?
    ensures forall k :: k in t ==> exists f :: k == FieldName(f)
  {
    t := map[];
    for i := 0 to |CronFields|
      invariant t == CronEntries(c, CronFields[..i])
    {
      var f := CronFields[i];
      assert CronFields[..i + 1][..i] == CronFields[..i];
      var v := FieldValue(c, f);
      if v.Some? {
        t := t[FieldName(f) := TInt(v.value)];
      }
    }
    assert CronFields[..|CronFields|] == CronFields;
    CronEntriesGet(c, CronFields);
    assert forall f :: f in CronFields;
  }

  /** Reading a `[trigger]` table that holds the type and one payload. */
  lemma ReadTypeAndPayload(kind: TriggerType, key: string, v: Toml)
    requires key in {"cron", "interval_seconds", "watch_paths"}
    ensures ReadTrigger(map["type" := TStr(TriggerTypeName(kind)), key := v]) ==
      Some(TriggerConfig(kind,
        if key == "cron" && v.TTable? then Some(ReadCron(v.table)) else None,
        if key == "interval_seconds" && v.TInt? then Some(v.i) else None,
        if key == "watch_paths" && v.TStrArray? then Some(v.items) else None))
  {
    assert ParseTriggerType(TriggerTypeName(kind)) == Some(kind);
  }

  /** The `[trigger]` table: the type as given, then the payload of that
      type; a cron trigger always gets a (possibly empty) cron table. */
  method TriggerTable(args: CreateArgs) returns (t: Table)
    requires TriggerErrors(ArgsTask(args).trigger) == []
    ensures t.Keys == {"type",
      match args.trigger case Cron => "cron" case Interval => "interval_seconds" case Watch => "watch_paths"}
    ensures ReadTrigger(t) == Some(NormalTrigger(ArgsTask(args).trigger))
  {
    var kind := args.trigger;
    t := map["type" := TStr(TriggerTypeName(kind))];
    if kind == Interval {
      var v := TInt(args.intervalSeconds.value);
      ReadTypeAndPayload(kind, "interval_seconds", v);
      t := t["interval_seconds" := v];
    } else if kind == Watch && args.watchPaths.Some? && args.watchPaths.value != [] {
      var v := TStrArray(args.watchPaths.value);
      ReadTypeAndPayload(kind, "watch_paths", v);
      t := t["watch_paths" := v];
    }
    if kind == Cron {
      var cronData := CronTable(CronSchedule(args.minute, args.hour, args.day, args.weekday, args.month));
      ReadTypeAndPayload(kind, "cron", TTable(cronData));
      t := t["cron" := TTable(cronData)];
    }
  }

  /** `if value: table[key] = value`: a non-empty text is stored under
      `key`, and no other key changes. */
  method PutText(t: Table, key: string, value: Option<string>) returns (r: Table)
    requires key !in t
    ensures GetStr(r, key) == OrNone(value) && (key in r <==> Truthy(value))
    ensures forall k :: k != key ==> (k in r <==> k in t) && GetStr(r, k) == GetStr(t, k)
  {
    r := t;
    if Truthy(value) {
      r := t[key := TStr(value.value)];
    }
  }

  /** The text entries of the `[action]` table, each only when non-empty. */
  method ActionTexts(a: ActionConfig) returns (t: Table)
    ensures GetStr(t, "command") == OrNone(a.command) && ("command" in t <==> Truthy(a.command))
    ensures GetStr(t, "prompt") == OrNone(a.prompt) && ("prompt" in t <==> Truthy(a.prompt))
    ensures GetStr(t, "provider") == OrNone(a.provider) && ("provider" in t <==> Truthy(a.provider))
    ensures GetStr(t, "model") == OrNone(a.model) && ("model" in t <==> Truthy(a.model))
    ensures GetStr(t, "working_dir") == OrNone(a.workingDir) && ("working_dir" in t <==> Truthy(a.workingDir))
    ensures "timeout" !in t && "env" !in t
  {
    t := map[];
    t := PutText(t, "command", a.command);
    t := PutText(t, "prompt", a.prompt);
    t := PutText(t, "provider", a.provider);
    t := PutText(t, "model", a.model);
    t := PutText(t, "working_dir", a.workingDir);
  }

  /** The `[action]` table: each text option only when non-empty, the
      timeout only when it is not the default; it reads back as the action
      with empty texts absent. */
  method ActionTable(a: ActionConfig) returns (t: Table)
    ensures "command" in t <==> Truthy(a.command)
    ensures "prompt" in t <==> Truthy(a.prompt)
    ensures "provider" in t <==> Truthy(a.provider)
    ensures "model" in t <==> Truthy(a.model)
    ensures "working_dir" in t <==> Truthy(a.workingDir)
    ensures "timeout" in t <==> a.timeout != DefaultTimeout
    ensures "env" !in t
    ensures ReadAction(t) == NormalAction(a)
  {
    t := ActionTexts(a);
    if a.timeout != DefaultTimeout {
      t := t["timeout" := TInt(a.timeout)];
    }
  }

  /** The `[notify]` table: both switches always, the title only when
      non-empty, the failure limit only when positive; it reads back as the
      notification settings with a non-positive limit as 0. */
  method NotifyTable(n: NotifyConfig) returns (t: Table)
    ensures "on_success" in t && "on_failure" in t
    ensures "title" in t <==> Truthy(n.title)
    ensures "max_consecutive_failures" in t <==> n.maxConsecutiveFailures > 0
    ensures ReadNotify(t) == NormalNotify(n)
  {
    t := map["on_success" := TBool(n.onSuccess), "on_failure" := TBool(n.onFailure)];
    if Truthy(n.title) {
      t := t["title" := TStr(n.title.value)];
    }
    if n.maxConsecutiveFailures > 0 {
      t := t["max_consecutive_failures" := TInt(n.maxConsecutiveFailures)];
    }
  }

  /** Reading a document from its top-level entries. */
  lemma ReadDocument(d0: Table, trig: Table, act: Table, notif: Table)
    requires GetStr(d0, "name").Some? && "enabled" !in d0 && ReadTrigger(trig).Some?
    ensures ReadTask(d0["trigger" := TTable(trig)]["action" := TTable(act)]["notify" := TTable(notif)]) ==
      Some(TaskConfig(GetStr(d0, "name").value, GetStr(d0, "description").GetOr(""), ReadTrigger(trig).value,
                      ReadAction(act), ReadNotify(notif), true))
  {
  }

  /** The head of the document: the name, and the description only when
      non-empty. */
  method DocumentHead(args: CreateArgs) returns (data: Table)
    ensures data.Keys == {"name"} + (if args.description != "" then {"description"} else {})
    ensures GetStr(data, "name") == Some(args.name) && GetStr(data, "description").GetOr("") == args.description
  {
    data := map["name" := TStr(args.name)];
    if args.description != "" {
      data := data["description" := TStr(args.description)];
    }
  }

  /** The document `create` writes for a validated task: the head, then
      the three tables. */
  method BuildTaskData(args: CreateArgs) returns (data: Table)
    requires ValidTask(ArgsTask(args))
    ensures data.Keys == {"name", "trigger", "action", "notify"} + (if args.description != "" then {"description"} else {})
    ensures ReadTask(data) == Some(Normalised(ArgsTask(args)))
  {
    var task := ArgsTask(args);
    data := DocumentHead(args);
    ghost var d0 := data;
    var triggerData := TriggerTable(args);
    data := data["trigger" := TTable(triggerData)];
    var actionData := ActionTable(task.action);
    data := data["action" := TTable(actionData)];
    var notifyData := NotifyTable(task.notify);
    data := data["notify" := TTable(notifyData)];
    ReadDocument(d0, triggerData, actionData, notifyData);
  }

  /** The errors `create` stops with. The records are built one at a time
      and each is validated as it is built: the cron section (cron triggers
      only), then the trigger, then the action. The first record that fails
      raises with its own errors only, and nothing after it is checked. The
      task record built from validated parts adds no check of its own. */
  function ConstructionErrors(args: CreateArgs): (errs: seq<ValidationError>)
    ensures errs == [] <==> ValidTask(ArgsTask(args))
    // the errors are the first ones a full validation of the task reports
    ensures errs <= TaskErrors(ArgsTask(args))
    ensures args.trigger == Cron && CronErrors(ArgsTask(args).trigger.cron.value) != [] ==>
      errs == CronErrors(ArgsTask(args).trigger.cron.value)
    ensures TriggerErrors(ArgsTask(args).trigger) != [] ==> errs == TriggerErrors(ArgsTask(args).trigger)
    ensures TriggerErrors(ArgsTask(args).trigger) == [] ==> errs == TaskErrors(ArgsTask(args))
  {
    var t := ArgsTask(args);
    if args.trigger == Cron && CronErrors(t.trigger.cron.value) != [] then CronErrors(t.trigger.cron.value)
    else if TriggerErrors(t.trigger) != [] then TriggerErrors(t.trigger)
    else if ActionError(t.action).Some? then [ActionError(t.action).value]
    else []
  }

  /** A cron minute of 60 stops `create` at the cron section: the missing
      command and prompt are never reported. */
  lemma ConstructionStopsAtCron(args: CreateArgs)
    requires args.trigger == Cron && args.minute == Some(60)
    requires args.hour.None? && args.day.None? && args.weekday.None? && args.month.None?
    requires args.command.None? && args.prompt.None?
    ensures TaskErrors(ArgsTask(args)) == [OutOfRange(Minute, 60), NeitherCommandNorPrompt]
    ensures ConstructionErrors(args) == [OutOfRange(Minute, 60)]
  {
  }

  /** How `create` ends. `Rejected` is the validation error raised by the
      first record that fails. */
  datatype CreateOutcome =
    | Rejected(errors: seq<ValidationError>)
    | AlreadyExists
    | Written(data: Table)

  /** `create`: build and validate the records stage by stage, refuse to
      replace an existing task file (`fileExists`), then write the
      document. */
  method CreateTask(args: CreateArgs, fileExists: bool) returns (r: CreateOutcome)
    ensures r.Rejected? <==> !ValidTask(ArgsTask(args))
    ensures r.Rejected? ==> r.errors == ConstructionErrors(args) && r.errors != []
    ensures r.AlreadyExists? <==> ValidTask(ArgsTask(args)) && fileExists
    ensures r.Written? ==> ReadTask(r.data) == Some(Normalised(ArgsTask(args)))
  {
    var task := ArgsTask(args);
    if args.trigger == Cron {
      var cronErrors := CronErrors(task.trigger.cron.value);
      if cronErrors != [] {
        return Rejected(cronErrors);
      }
    }
    var triggerErrors := TriggerErrors(task.trigger);
    if triggerErrors != [] {
      return Rejected(triggerErrors);
    }
    var actionError := ActionError(task.action);
    if actionError.Some? {
      return Rejected([actionError.value]);
    }
    if fileExists {
      return AlreadyExists;
    }
    var data := BuildTaskData(args);
    r := Written(data);
  }

  // ----- What the document preserves -----

  /** Reading the document back validates exactly as the task built from
      the options did. */
  lemma NormalisedErrors(args: CreateArgs)
    ensures TaskErrors(Normalised(ArgsTask(args))) == TaskErrors(ArgsTask(args))
  {
    var t := ArgsTask(args);
    var n := Normalised(t);
    assert TriggerErrors(n.trigger) == TriggerErrors(t.trigger);
    assert ActionError(n.action) == ActionError(t.action);
  }

  /** The plist generated from the task in memory is the one a later
      reload of the document would generate. */
  lemma NormalisedPlist(t: TaskConfig, env: map<string, string>, which: Option<string>,
                        home: string, canon: string -> string)
    requires TriggerErrors(t.trigger) == []
    ensures TriggerErrors(Normalised(t).trigger) == []
    ensures Plist.GeneratePlist(Normalised(t), env, which, home, canon) == Plist.GeneratePlist(t, env, which, home, canon)
  {
    var n := Normalised(t);
    assert n.trigger.cron.Some? ==> n.trigger.cron == t.trigger.cron;
  }

  /** The run-time decisions of the reloaded task are those of the task
      built from the options: the agent invoked, the notification title
      and the auto-disable rule. */
  lemma NormalisedRuns(t: TaskConfig, exitCode: int, streak: int)
    ensures Truthy(Normalised(t).action.command) == Truthy(t.action.command)
    ensures Truthy(Normalised(t).action.prompt) == Truthy(t.action.prompt)
    ensures Runner.ProviderName(Normalised(t).action) == Runner.ProviderName(t.action)
    ensures OrNone(Normalised(t).action.model) == OrNone(t.action.model)
    ensures Runner.NotifyTitle(Normalised(t)) == Runner.NotifyTitle(t)
    ensures Runner.AutoDisables(Normalised(t).notify, exitCode, streak) == Runner.AutoDisables(t.notify, exitCode, streak)
  {
  }

  // ----- The action label of `list`, `list --json` and `show` -----

  /** The provider for a prompt action ("claude" when none is named), and
      "script" for a command action. */
  function ActionLabel(a: ActionConfig): string {
    if Truthy(a.prompt) then (if Truthy(a.provider) then a.provider.value else "claude") else "script"
  }

  /** For an accepted action the label says "script" exactly for a command,
      and otherwise names the known provider whose binary the runner
      invokes. */
  lemma ActionLabelAgrees(a: ActionConfig)
    requires ActionWellFormed(a)
    ensures (ActionLabel(a) == "script") <==> Truthy(a.command)
    ensures Truthy(a.prompt) ==> ActionLabel(a) == Runner.ProviderName(a) && ActionLabel(a) in Providers
  {
    if Truthy(a.prompt) {
      assert ActionLabel(a) in Providers;
      assert "script" !in Providers;
    }
  }
}
