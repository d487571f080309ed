/** The trigger compiler: the launchd property list generated for a task,
    with its label and file location. */
module Plist {
  import opened Base
  import opened Models
  import Config

  const PlistPrefix: string := "com.trigr"

  /** Property-list values. */
  datatype Value =
    | Str(s: string)
    | Int(i: int)
    | Bool(b: bool)
    | Array(items: seq<Value>)
    | Dict(entries: map<string, Value>)

  /** Directories below the user's home directory `home`. */
  function ConfigDir(home: string): string { home + "/.config/trigr" }
  function LogsDir(home: string): string { ConfigDir(home) + "/logs" }
  function PlistDir(home: string): string { home + "/Library/LaunchAgents" }

  function PlistLabel(name: string): string {
    PlistPrefix + "." + name
  }

  function PlistPath(home: string, name: string): string {
    PlistDir(home) + "/" + PlistLabel(name) + ".plist"
  }

  /** The label is the fixed prefix, a dot, and the task name, so distinct
      tasks get distinct labels and the name can be read back. */
  lemma PlistLabelInjective(a: string, b: string)
    ensures PlistLabel(a)[..|PlistPrefix| + 1] == "com.trigr."
    ensures PlistLabel(a)[|PlistPrefix| + 1..] == a
    ensures PlistLabel(a) == PlistLabel(b) ==> a == b
  {
    assert PlistLabel(a)[|PlistPrefix| + 1..] == a;
    assert PlistLabel(b)[|PlistPrefix| + 1..] == b;
  }

  /** Each task has its own property-list file: `<label>.plist` in the
      LaunchAgents directory, and distinct names give distinct files. */
  lemma PlistPathInjective(home: string, a: string, b: string)
    ensures PlistPath(home, a) == PlistDir(home) + "/com.trigr." + a + ".plist"
    ensures PlistPath(home, a) == PlistPath(home, b) ==> a == b
  {
    var pre := PlistDir(home) + "/com.trigr.";
    assert PlistPath(home, a) == pre + a + ".plist";
    assert PlistPath(home, b) == pre + b + ".plist";
    if PlistPath(home, a) == PlistPath(home, b) {
      var pa := PlistPath(home, a);
      assert |a| == |b|;
      assert pa[|pre|..|pre| + |a|] == a;
      assert PlistPath(home, b)[|pre|..|pre| + |b|] == b;
    }
  }

  /** The calendar dictionary: one key per populated cron field. */
  function CalendarInterval(c: CronSchedule): (cal: map<string, Value>)
    ensures cal.Keys <= {"Minute", "Hour", "Day", "Weekday", "Month"}
    ensures ("Minute" in cal) == c.minute.Some? && ("Hour" in cal) == c.hour.Some?
    ensures ("Day" in cal) == c.day.Some? && ("Weekday" in cal) == c.weekday.Some?
    ensures ("Month" in cal) == c.month.Some?
    ensures c.minute.Some? ==> cal["Minute"] == Int(c.minute.value)
    ensures c.hour.Some? ==> cal["Hour"] == Int(c.hour.value)
    ensures c.day.Some? ==> cal["Day"] == Int(c.day.value)
    ensures c.weekday.Some? ==> cal["Weekday"] == Int(c.weekday.value)
    ensures c.month.Some? ==> cal["Month"] == Int(c.month.value)
  {
    var cal0: map<string, Value> := map[];
    var cal1 := if c.minute.Some? then cal0["Minute" := Int(c.minute.value)] else cal0;
    var cal2 := if c.hour.Some? then cal1["Hour" := Int(c.hour.value)] else cal1;
    var cal3 := if c.day.Some? then cal2["Day" := Int(c.day.value)] else cal2;
    var cal4 := if c.weekday.Some? then cal3["Weekday" := Int(c.weekday.value)] else cal3;
    if c.month.Some? then cal4["Month" := Int(c.month.value)] else cal4
  }

  /** The captured environment without the engine's own path entry. */
  function PlistEnv(env: map<string, string>): map<string, Value> {
    map k | k in env && k != Config.TrigrPathKey :: Str(env[k])
  }

  function WatchList(paths: seq<string>, canon: string -> string): (r: seq<Value>)
    ensures |r| == |paths|
    ensures forall i :: 0 <= i < |paths| ==> r[i] == Str(canon(paths[i]))
  {
    seq(|paths|, i requires 0 <= i < |paths| => Str(canon(paths[i])))
  }

  /** The key that carries a trigger of the given type. */
  function TriggerKey(kind: TriggerType): string {
    match kind
    case Cron => "StartCalendarInterval"
    case Interval => "StartInterval"
    case Watch => "WatchPaths"
  }

  const CommonKeys: set<string> :=
    {"Label", "ProgramArguments", "EnvironmentVariables", "StandardOutPath", "StandardErrorPath", "RunAtLoad"}

  /** `generate_plist`: `env` is the loaded captured environment, `which`
      the search-path lookup of the executable, and `canon` the
      expansion and resolution of a watched path. The task has been
      validated, so its trigger carries its payload. */
  function GeneratePlist(task: TaskConfig, env: map<string, string>, which: Option<string>,
                         home: string, canon: string -> string): (p: map<string, Value>)
    requires TriggerErrors(task.trigger) == []
    ensures p.Keys == CommonKeys + {TriggerKey(task.trigger.kind)}
    ensures ("StartCalendarInterval" in p) == (task.trigger.kind == Cron)
    ensures ("StartInterval" in p) == (task.trigger.kind == Interval)
    ensures ("WatchPaths" in p) == (task.trigger.kind == Watch)
    ensures p["Label"] == Str(PlistLabel(task.name))
    ensures p["ProgramArguments"] == Array([Str(Config.GetTrigrPath(env, which)), Str("run"), Str(task.name)])
    ensures p["EnvironmentVariables"].Dict?
    ensures Config.TrigrPathKey !in p["EnvironmentVariables"].entries
    ensures forall k :: k in p["EnvironmentVariables"].entries <==> k in env && k != Config.TrigrPathKey
    ensures forall k :: k in p["EnvironmentVariables"].entries ==> p["EnvironmentVariables"].entries[k] == Str(env[k])
    ensures p["StandardOutPath"] == Str(LogsDir(home) + "/" + task.name + ".out.log")
    ensures p["StandardErrorPath"] == Str(LogsDir(home) + "/" + task.name + ".err.log")
    ensures p["RunAtLoad"] == Bool(false)
    ensures task.trigger.kind == Cron ==>
      p["StartCalendarInterval"] == Dict(CalendarInterval(task.trigger.cron.value))
    ensures task.trigger.kind == Interval ==> p["StartInterval"] == Int(task.trigger.intervalSeconds.value)
    ensures task.trigger.kind == Watch ==>
      p["WatchPaths"].Array? && |p["WatchPaths"].items| == |task.trigger.watchPaths.value| &&
      forall i :: 0 <= i < |task.trigger.watchPaths.value| ==>
        p["WatchPaths"].items[i] == Str(canon(task.trigger.watchPaths.value[i]))
  {
    var trigrPath := Config.GetTrigrPath(env, which);
    var plist := map[
      "Label" := Str(PlistLabel(task.name)),
      "ProgramArguments" := Array([Str(trigrPath), Str("run"), Str(task.name)]),
      "EnvironmentVariables" := Dict(PlistEnv(env)),
      "StandardOutPath" := Str(LogsDir(home) + "/" + task.name + ".out.log"),
      "StandardErrorPath" := Str(LogsDir(home) + "/" + task.name + ".err.log"),
      "RunAtLoad" := Bool(false)
    ];
    match task.trigger.kind
    case Cron => plist["StartCalendarInterval" := Dict(CalendarInterval(task.trigger.cron.value))]
    case Interval => plist["StartInterval" := Int(task.trigger.intervalSeconds.value)]
    case Watch => plist["WatchPaths" := Array(WatchList(task.trigger.watchPaths.value, canon))]
  }

  /** Reading a calendar dictionary back into cron fields. */
  function CronOfCalendar(cal: map<string, Value>): CronSchedule {
    CronSchedule(
      if "Minute" in cal && cal["Minute"].Int? then Some(cal["Minute"].i) else None,
      if "Hour" in cal && cal["Hour"].Int? then Some(cal["Hour"].i) else None,
      if "Day" in cal && cal["Day"].Int? then Some(cal["Day"].i) else None,
      if "Weekday" in cal && cal["Weekday"].Int? then Some(cal["Weekday"].i) else None,
      if "Month" in cal && cal["Month"].Int? then Some(cal["Month"].i) else None)
  }

  function StringsOf(items: seq<Value>): seq<string>
    requires forall i :: 0 <= i < |items| ==> items[i].Str?
  {
    seq(|items|, i requires 0 <= i < |items| => items[i].s)
  }

  /** What launchd sees as the schedule of a property list. */
  function ScheduleOf(p: map<string, Value>): Option<TriggerConfig> {
    if "StartCalendarInterval" in p && p["StartCalendarInterval"].Dict? then
      Some(TriggerConfig(Cron, Some(CronOfCalendar(p["StartCalendarInterval"].entries)), None, None))
    else if "StartInterval" in p && p["StartInterval"].Int? then
      Some(TriggerConfig(Interval, None, Some(p["StartInterval"].i), None))
    else if "WatchPaths" in p && p["WatchPaths"].Array? &&
            forall i :: 0 <= i < |p["WatchPaths"].items| ==> p["WatchPaths"].items[i].Str? then
      Some(TriggerConfig(Watch, None, None, Some(StringsOf(p["WatchPaths"].items))))
    else None
  }

  /** The trigger with only its own type's payload, watched paths resolved. */
  function Compiled(t: TriggerConfig, canon: string -> string): TriggerConfig
    requires t.kind == Watch ==> t.watchPaths.Some?
  {
    match t.kind
    case Cron => TriggerConfig(Cron, t.cron, None, None)
    case Interval => TriggerConfig(Interval, None, t.intervalSeconds, None)
    case Watch => TriggerConfig(Watch, None, None,
                                Some(seq(|t.watchPaths.value|, i requires 0 <= i < |t.watchPaths.value| =>
                                  canon(t.watchPaths.value[i]))))
  }

  /** The generated property list schedules exactly the task's trigger:
      the calendar holds the populated fields with their values, the
      interval is passed through unchanged (of any sign), and the watched
      paths keep their number and order. */
  lemma ScheduleRoundTrip(task: TaskConfig, env: map<string, string>, which: Option<string>,
                          home: string, canon: string -> string)
    requires TriggerErrors(task.trigger) == []
    ensures ScheduleOf(GeneratePlist(task, env, which, home, canon)) == Some(Compiled(task.trigger, canon))
  {
    var p := GeneratePlist(task, env, which, home, canon);
    match task.trigger.kind
    case Cron =>
      var c := task.trigger.cron.value;
      assert CronOfCalendar(CalendarInterval(c)) == c;
    case Interval =>
    case Watch =>
      var items := p["WatchPaths"].items;
      assert StringsOf(items) == Compiled(task.trigger, canon).watchPaths.value;
  }
}
