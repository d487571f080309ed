/** Task specification: the cron, trigger, action and notification records
    and the checks that decide whether a task file is accepted. */
module Models {
  import opened Base

  datatype TriggerType = Cron | Interval | Watch

  /** The lower-case name a trigger type has in task files. */
  function TriggerTypeName(t: TriggerType): string {
    match t
    case Cron => "cron"
    case Interval => "interval"
    case Watch => "watch"
  }

  /** Calendar fields; None is a wildcard. */
  datatype CronSchedule = CronSchedule(
    minute: Option<int>,
    hour: Option<int>,
    day: Option<int>,      // day of month
    weekday: Option<int>,  // 0 = Sunday
    month: Option<int>)

  datatype TriggerConfig = TriggerConfig(
    kind: TriggerType,
    cron: Option<CronSchedule>,
    intervalSeconds: Option<int>,
    watchPaths: Option<seq<string>>)

  /** How an agent binary is invoked. */
  datatype Provider = Provider(binary: string, promptFlag: string, modelFlag: string)

  const Providers: map<string, Provider> := map[
    "claude" := Provider("claude", "-p", "--model"),
    "codex" := Provider("codex", "exec", "-m"),
    "gemini" := Provider("gemini", "-p", "-m")
  ]

  const DefaultTimeout: int := 300

  datatype ActionConfig = ActionConfig(
    command: Option<string>,
    prompt: Option<string>,
    provider: Option<string>,
    model: Option<string>,
    workingDir: Option<string>,
    timeout: int,
    env: map<string, string>)

  datatype NotifyConfig = NotifyConfig(
    onSuccess: bool,
    onFailure: bool,
    title: Option<string>,
    maxConsecutiveFailures: int)  // 0 = never auto-disable

  const DefaultNotify: NotifyConfig := NotifyConfig(false, true, None, 0)

  datatype TaskConfig = TaskConfig(
    name: string,
    description: string,
    trigger: TriggerConfig,
    action: ActionConfig,
    notify: NotifyConfig,
    enabled: bool)

  datatype ValidationError =
    | OutOfRange(field: CronField, got: int)
    | CronSectionMissing
    | IntervalSecondsMissing
    | WatchPathsMissing
    | BothCommandAndPrompt
    | NeitherCommandNorPrompt
    | ProviderRequiresPrompt
    | ModelRequiresPrompt
    | UnknownProvider(provider: string)

  /** A field that is absent, or present and within [lo, hi]. */
  predicate InRange(v: Option<int>, lo: int, hi: int) {
    v.None? || lo <= v.value <= hi
  }

  datatype CronField = Minute | Hour | Day | Weekday | Month

  function FieldValue(c: CronSchedule, f: CronField): Option<int> {
    match f
    case Minute => c.minute
    case Hour => c.hour
    case Day => c.day
    case Weekday => c.weekday
    case Month => c.month
  }

  /** The accepted range of each field. */
  function Lowest(f: CronField): int {
    match f
    case Minute => 0
    case Hour => 0
    case Day => 1
    case Weekday => 0
    case Month => 1
  }

  function Highest(f: CronField): int {
    match f
    case Minute => 59
    case Hour => 23
    case Day => 31
    case Weekday => 6
    case Month => 12
  }

  /** The error of one field: none when absent or in range. */
  function FieldError(c: CronSchedule, f: CronField): (e: seq<ValidationError>)
    ensures e == [] <==> InRange(FieldValue(c, f), Lowest(f), Highest(f))
    ensures e != [] ==> FieldValue(c, f).Some? && e == [OutOfRange(f, FieldValue(c, f).value)]
  {
    var v := FieldValue(c, f);
    if InRange(v, Lowest(f), Highest(f)) then [] else [OutOfRange(f, v.value)]
  }

  /** Every field check of a cron section runs, so all out-of-range fields
      are reported, in declaration order. */
  function CronErrors(c: CronSchedule): (errs: seq<ValidationError>)
    ensures errs == [] <==>
      (c.minute.Some? ==> 0 <= c.minute.value <= 59) &&
      (c.hour.Some? ==> 0 <= c.hour.value <= 23) &&
      (c.day.Some? ==> 1 <= c.day.value <= 31) &&
      (c.weekday.Some? ==> 0 <= c.weekday.value <= 6) &&
      (c.month.Some? ==> 1 <= c.month.value <= 12)
    ensures |errs| <= 5
  {
    FieldError(c, Minute) + FieldError(c, Hour) + FieldError(c, Day) +
    FieldError(c, Weekday) + FieldError(c, Month)
  }

  /** A cron section reports a field exactly when that field is present and
      out of range, and the error carries the value it got. */
  lemma CronErrorsReport(c: CronSchedule, f: CronField, v: int)
    ensures OutOfRange(f, v) in CronErrors(c) <==>
      FieldValue(c, f) == Some(v) && !(Lowest(f) <= v <= Highest(f))
  {
    var all := [Minute, Hour, Day, Weekday, Month];
    assert CronErrors(c) == FieldError(c, all[0]) + FieldError(c, all[1]) + FieldError(c, all[2]) +
                            FieldError(c, all[3]) + FieldError(c, all[4]);
    assert forall g :: OutOfRange(f, v) in FieldError(c, g) ==> g == f;
    assert f in all;
  }

  /** Field errors of a nested cron section are reported first; the
      per-type payload check only runs when every field is valid. A trigger
      is accepted exactly when any cron section given is in range and the
      payload of its own type is present. */
  function TriggerErrors(t: TriggerConfig): (errs: seq<ValidationError>)
    ensures errs == [] <==>
      (t.cron.Some? ==> CronErrors(t.cron.value) == []) &&
      (t.kind == Cron ==> t.cron.Some?) &&
      (t.kind == Interval ==> t.intervalSeconds.Some?) &&
      (t.kind == Watch ==> t.watchPaths.Some? && |t.watchPaths.value| > 0)
  {
    var fieldErrs := if t.cron.Some? then CronErrors(t.cron.value) else [];
    if fieldErrs != [] then fieldErrs
    else
      match t.kind
      case Cron => if t.cron.None? then [CronSectionMissing] else []
      case Interval => if t.intervalSeconds.None? then [IntervalSecondsMissing] else []
      case Watch => if t.watchPaths.None? || t.watchPaths.value == [] then [WatchPathsMissing] else []
  }

  /** A cron section with every field absent is accepted, and so is an
      interval of any sign, zero included. */
  lemma TriggerAccepted(t: TriggerConfig)
    ensures t.kind == Cron && t.cron == Some(CronSchedule(None, None, None, None, None)) ==> TriggerErrors(t) == []
    ensures t.kind == Interval && t.cron.None? && t.intervalSeconds.Some? ==> TriggerErrors(t) == []
  {
  }

  /** The payload error reported for a trigger whose cron fields are fine. */
  lemma TriggerPayloadError(t: TriggerConfig)
    requires t.cron.Some? ==> CronErrors(t.cron.value) == []
    ensures TriggerErrors(t) == [CronSectionMissing] <==> t.kind == Cron && t.cron.None?
    ensures TriggerErrors(t) == [IntervalSecondsMissing] <==> t.kind == Interval && t.intervalSeconds.None?
    ensures TriggerErrors(t) == [WatchPathsMissing] <==>
      t.kind == Watch && (t.watchPaths.None? || t.watchPaths.value == [])
  {
  }

  /** The declarative reading of a well-formed action: exactly one of a
      command and a prompt, provider and model only with a prompt, and a
      provider, when named, among the known ones. */
  predicate ActionWellFormed(a: ActionConfig) {
    && Truthy(a.command) != Truthy(a.prompt)
    && (Truthy(a.provider) ==> Truthy(a.prompt))
    && (Truthy(a.model) ==> Truthy(a.prompt))
    && (Truthy(a.provider) ==> a.provider.value in Providers)
  }

  /** The checks on an action, in the order they run; the first failing
      one is the error. */
  function ActionError(a: ActionConfig): (e: Option<ValidationError>)
    ensures e.None? <==> ActionWellFormed(a)
    ensures e == Some(BothCommandAndPrompt) <==> Truthy(a.command) && Truthy(a.prompt)
    ensures e == Some(NeitherCommandNorPrompt) <==> !Truthy(a.command) && !Truthy(a.prompt)
    ensures e == Some(ProviderRequiresPrompt) <==>
      Truthy(a.command) && !Truthy(a.prompt) && Truthy(a.provider)
    ensures e == Some(ModelRequiresPrompt) <==>
      Truthy(a.command) && !Truthy(a.prompt) && !Truthy(a.provider) && Truthy(a.model)
    ensures (e.Some? && e.value.UnknownProvider?) <==>
      Truthy(a.prompt) && !Truthy(a.command) && Truthy(a.provider) && a.provider.value !in Providers
    ensures e.Some? && e.value.UnknownProvider? ==> e.value.provider == a.provider.value
  {
    if Truthy(a.command) && Truthy(a.prompt) then Some(BothCommandAndPrompt)
    else if !Truthy(a.command) && !Truthy(a.prompt) then Some(NeitherCommandNorPrompt)
    else if Truthy(a.provider) && !Truthy(a.prompt) then Some(ProviderRequiresPrompt)
    else if Truthy(a.model) && !Truthy(a.prompt) then Some(ModelRequiresPrompt)
    else if Truthy(a.provider) && a.provider.value !in Providers then Some(UnknownProvider(a.provider.value))
    else None
  }

  /** Errors of a whole task: those of the trigger, then that of the action. */
  function TaskErrors(t: TaskConfig): (errs: seq<ValidationError>)
    ensures errs == [] <==> TriggerErrors(t.trigger) == [] && ActionWellFormed(t.action)
  {
    TriggerErrors(t.trigger) + (if ActionError(t.action).Some? then [ActionError(t.action).value] else [])
  }

  predicate ValidTask(t: TaskConfig) {
    TaskErrors(t) == []
  }
}
