/** The run history: an append-only ledger of runs with an auto-increment
    id, its queries (recent runs, last output, failure streak), age-based
    pruning, and the per-task state table. */
module Store {
  import opened Base

  /** Stored stdout and stderr are cut to this many characters. */
  const OutputCap: nat := 5120
  const SecondsPerDay: int := 86400

  datatype RunRecord = RunRecord(
    id: int,
    taskName: string,
    startedAt: int,
    finishedAt: int,
    exitCode: int,
    stdout: string,
    stderr: string)

  /** The columns `get_last_output` selects. */
  datatype LastOutput = LastOutput(stdout: string, stderr: string, exitCode: int, finishedAt: int)

  datatype StateRow = StateRow(lastValue: string, updatedAt: int)

  ghost predicate IdsIncreasing(rs: seq<RunRecord>) {
    forall i, j :: 0 <= i < j < |rs| ==> rs[i].id < rs[j].id
  }

  /** The rows of one task, oldest first. */
  function ForTask(rs: seq<RunRecord>, name: string): (r: seq<RunRecord>)
    ensures |r| <= |rs|
  {
    if rs == [] then []
    else
      var last := rs[|rs| - 1];
      ForTask(rs[..|rs| - 1], name) + (if last.taskName == name then [last] else [])
  }

  /** A task's rows are exactly the ledger rows that carry its name. */
  lemma {:induction false} ForTaskMembers(rs: seq<RunRecord>, name: string)
    ensures forall x :: x in ForTask(rs, name) <==> x in rs && x.taskName == name
  {
    if rs != [] {
      var init := rs[..|rs| - 1];
      ForTaskMembers(init, name);
      assert rs == init + [rs[|rs| - 1]];
    }
  }

  lemma ForTaskOne(r: RunRecord, name: string)
    ensures ForTask([r], name) == if r.taskName == name then [r] else []
  {
    assert [r][..0] == [];
  }

  /** The rows a `get_runs` filter admits: one task when the name is
      truthy, every task otherwise. */
  function Select(rs: seq<RunRecord>, filter: Option<string>): seq<RunRecord> {
    if Truthy(filter) then ForTask(rs, filter.value) else rs
  }

  function Reverse(rs: seq<RunRecord>): (r: seq<RunRecord>)
    ensures |r| == |rs|
    ensures forall i :: 0 <= i < |rs| ==> r[i] == rs[|rs| - 1 - i]
  {
    if rs == [] then [] else [rs[|rs| - 1]] + Reverse(rs[..|rs| - 1])
  }

  /** SQL `LIMIT n`: a negative limit places no bound. */
  function Limit(rs: seq<RunRecord>, n: int): seq<RunRecord> {
    if n < 0 then rs else Take(rs, n)
  }

  /** The failure streak of a task's rows (oldest first): the number of
      non-zero exit codes at the newest end, up to the newest success. */
  function Streak(rs: seq<RunRecord>): nat {
    if rs == [] || rs[|rs| - 1].exitCode == 0 then 0
    else 1 + Streak(rs[..|rs| - 1])
  }

  /** The streak is `k` exactly when the `k` newest rows failed and either
      there is no older row or the next older one succeeded. */
  lemma {:induction false} StreakIs(rs: seq<RunRecord>, k: nat)
    requires k <= |rs|
    requires forall j :: |rs| - k <= j < |rs| ==> rs[j].exitCode != 0
    requires k < |rs| ==> rs[|rs| - 1 - k].exitCode == 0
    ensures Streak(rs) == k
  {
    if k > 0 {
      StreakIs(rs[..|rs| - 1], k - 1);
    }
  }

  lemma {:induction false} StreakBound(rs: seq<RunRecord>)
    ensures Streak(rs) <= |rs|
    ensures forall j :: |rs| - Streak(rs) <= j < |rs| ==> rs[j].exitCode != 0
    ensures Streak(rs) < |rs| ==> rs[|rs| - 1 - Streak(rs)].exitCode == 0
  {
    if rs != [] && rs[|rs| - 1].exitCode != 0 {
      var init := rs[..|rs| - 1];
      StreakBound(init);
      assert forall j :: 0 <= j < |init| ==> init[j] == rs[j];
    }
  }

  /** Recording a run of task `t` moves its streak: a failure raises it by
      one, a success resets it to zero; other tasks' streaks do not move. */
  lemma StreakAfterAppend(rs: seq<RunRecord>, r: RunRecord, t: string)
    ensures r.taskName == t && r.exitCode != 0 ==>
      Streak(ForTask(rs + [r], t)) == Streak(ForTask(rs, t)) + 1
    ensures r.taskName == t && r.exitCode == 0 ==> Streak(ForTask(rs + [r], t)) == 0
    ensures r.taskName != t ==> Streak(ForTask(rs + [r], t)) == Streak(ForTask(rs, t))
  {
    ForTaskAppend(rs, [r], t);
    ForTaskOne(r, t);
    if r.taskName == t {
      var f := ForTask(rs + [r], t);
      assert f == ForTask(rs, t) + [r];
      assert f[..|f| - 1] == ForTask(rs, t);
    } else {
      assert ForTask(rs + [r], t) == ForTask(rs, t);
    }
  }

  /** The four runs exit 0, 1, 1, 1 (newest last) give a streak of 3. */
  lemma StreakExample(a: RunRecord, b: RunRecord, c: RunRecord, d: RunRecord)
    requires a.exitCode == 0 && b.exitCode == 1 && c.exitCode == 1 && d.exitCode == 1
    requires a.taskName == b.taskName == c.taskName == d.taskName
    ensures Streak(ForTask([a, b, c, d], a.taskName)) == 3
  {
    var t := a.taskName;
    StreakAfterAppend([], a, t);
    assert [] + [a] == [a];
    StreakAfterAppend([a], b, t);
    assert [a] + [b] == [a, b];
    StreakAfterAppend([a, b], c, t);
    assert [a, b] + [c] == [a, b, c];
    StreakAfterAppend([a, b, c], d, t);
    assert [a, b, c] + [d] == [a, b, c, d];
  }

  lemma {:induction false} ForTaskAppend(a: seq<RunRecord>, b: seq<RunRecord>, name: string)
    ensures ForTask(a + b, name) == ForTask(a, name) + ForTask(b, name)
    decreases |b|
  {
    if b == [] {
      assert a + b == a;
    } else {
      var init := b[..|b| - 1];
      assert (a + b)[..|a + b| - 1] == a + init;
      ForTaskAppend(a, init, name);
    }
  }

  lemma SelectAppend(a: seq<RunRecord>, b: seq<RunRecord>, filter: Option<string>)
    ensures Select(a + b, filter) == Select(a, filter) + Select(b, filter)
  {
    if Truthy(filter) {
      ForTaskAppend(a, b, filter.value);
    }
  }

  lemma ReverseAppend(a: seq<RunRecord>, b: seq<RunRecord>)
    ensures Reverse(a + b) == Reverse(b) + Reverse(a)
  {
  }

  lemma {:induction false} SubsequenceIncreasing(rs: seq<RunRecord>, name: string)
    requires IdsIncreasing(rs)
    ensures IdsIncreasing(ForTask(rs, name))
  {
    if rs != [] {
      var init := rs[..|rs| - 1];
      SubsequenceIncreasing(init, name);
      ForTaskMembers(init, name);
      var f := ForTask(rs, name);
      forall i, j | 0 <= i < j < |f| ensures f[i].id < f[j].id {
        if j == |f| - 1 && rs[|rs| - 1].taskName == name {
          assert f[i] in ForTask(init, name);
          assert f[i] in init;
          var p :| 0 <= p < |init| && init[p] == f[i];
          assert rs[p] == f[i];
        } else {
          assert f[i] == ForTask(init, name)[i];
        }
      }
    }
  }

  /** `get_runs` as the query states it: the filter, newest id first, then
      the limit. */
  function Recent(rs: seq<RunRecord>, filter: Option<string>, limit: int): seq<RunRecord> {
    Limit(Reverse(Select(rs, filter)), limit)
  }

  lemma ScanStep(rs: seq<RunRecord>, i: nat, filter: Option<string>)
    requires 0 < i <= |rs|
    ensures Reverse(Select(rs[i - 1..], filter)) ==
      Reverse(Select(rs[i..], filter)) +
      (if !Truthy(filter) || rs[i - 1].taskName == filter.value then [rs[i - 1]] else [])
  {
    var r := rs[i - 1];
    assert rs[i - 1..] == [r] + rs[i..];
    SelectAppend([r], rs[i..], filter);
    ForTaskOne(r, if Truthy(filter) then filter.value else "");
    ReverseAppend(Select([r], filter), Select(rs[i..], filter));
  }

  /** Scanning back from the newest row and stopping at the limit yields
      the newest-first prefix of the whole selection. */
  lemma ScanDone(rs: seq<RunRecord>, i: nat, filter: Option<string>, limit: int, rows: seq<RunRecord>)
    requires i <= |rs|
    requires rows == Reverse(Select(rs[i..], filter))
    requires limit >= 0 ==> |rows| <= limit
    requires i == 0 || (limit >= 0 && |rows| == limit)
    ensures rows == Recent(rs, filter, limit)
  {
    assert rs == rs[..i] + rs[i..];
    SelectAppend(rs[..i], rs[i..], filter);
    var older := Reverse(Select(rs[..i], filter));
    ReverseAppend(Select(rs[..i], filter), Select(rs[i..], filter));
    assert Reverse(Select(rs, filter)) == rows + older;
    if i == 0 {
      assert rs[..i] == [];
      assert rows + older == rows;
    } else {
      assert Take(rows + older, limit) == rows;
    }
  }

  /** What the backward scan of `get_runs` has collected when it stops is
      the listing, in its order and with its filter. */
  lemma ScanComplete(rs: seq<RunRecord>, i: nat, filter: Option<string>, limit: int, rows: seq<RunRecord>)
    requires IdsIncreasing(rs)
    requires i <= |rs|
    requires rows == Reverse(Select(rs[i..], filter))
    requires limit >= 0 ==> |rows| <= limit
    requires i == 0 || (limit >= 0 && |rows| == limit)
    ensures rows == Recent(rs, filter, limit)
    ensures forall a, b :: 0 <= a < b < |rows| ==> rows[a].id > rows[b].id
    ensures forall r :: r in rows ==> r in rs && (Truthy(filter) ==> r.taskName == filter.value)
  {
    ScanDone(rs, i, filter, limit, rows);
    RecentNewestFirst(rs, filter, limit);
  }

  /** The k-th row of a listing is the k-th newest selected row. */
  lemma RecentIndex(rs: seq<RunRecord>, filter: Option<string>, limit: int)
    ensures |Recent(rs, filter, limit)| <= |Select(rs, filter)|
    ensures forall k :: 0 <= k < |Recent(rs, filter, limit)| ==>
      Recent(rs, filter, limit)[k] == Select(rs, filter)[|Select(rs, filter)| - 1 - k]
  {
  }

  /** The rows of `get_runs` come newest first and pass the filter. */
  lemma RecentNewestFirst(rs: seq<RunRecord>, filter: Option<string>, limit: int)
    requires IdsIncreasing(rs)
    ensures forall i, j :: 0 <= i < j < |Recent(rs, filter, limit)| ==>
      Recent(rs, filter, limit)[i].id > Recent(rs, filter, limit)[j].id
    ensures forall r :: r in Recent(rs, filter, limit) ==>
      r in rs && (Truthy(filter) ==> r.taskName == filter.value)
  {
    var name := if Truthy(filter) then filter.value else "";
    SubsequenceIncreasing(rs, name);
    ForTaskMembers(rs, name);
    RecentIndex(rs, filter, limit);
    var sel := Select(rs, filter);
    var rec := Recent(rs, filter, limit);
    assert IdsIncreasing(sel);
    forall i, j | 0 <= i < j < |rec| ensures rec[i].id > rec[j].id {
      assert rec[i] == sel[|sel| - 1 - i] && rec[j] == sel[|sel| - 1 - j];
    }
    forall r | r in rec ensures r in rs && (Truthy(filter) ==> r.taskName == filter.value) {
      var k :| 0 <= k < |rec| && rec[k] == r;
      assert r in sel;
    }
  }

  /** `delete_old_runs` keeps the rows started at or after the cutoff. */
  function Kept(rs: seq<RunRecord>, cutoff: int): (r: seq<RunRecord>)
    ensures |r| <= |rs|
  {
    if rs == [] then []
    else
      var last := rs[|rs| - 1];
      Kept(rs[..|rs| - 1], cutoff) + (if last.startedAt >= cutoff then [last] else [])
  }

  /** Pruning keeps every surviving id below the next id to be issued. */
  lemma KeptBounded(rs: seq<RunRecord>, cutoff: int, next: int)
    requires forall i :: 0 <= i < |rs| ==> 1 <= rs[i].id < next
    ensures forall i :: 0 <= i < |Kept(rs, cutoff)| ==> 1 <= Kept(rs, cutoff)[i].id < next
  {
    KeptMembers(rs, cutoff);
    forall i | 0 <= i < |Kept(rs, cutoff)|
      ensures 1 <= Kept(rs, cutoff)[i].id < next
    {
      assert Kept(rs, cutoff)[i] in rs;
    }
  }

  /** Pruning keeps exactly the rows started at or after the cutoff. */
  lemma {:induction false} KeptMembers(rs: seq<RunRecord>, cutoff: int)
    ensures forall x :: x in Kept(rs, cutoff) <==> x in rs && x.startedAt >= cutoff
  {
    if rs != [] {
      var init := rs[..|rs| - 1];
      KeptMembers(init, cutoff);
      assert rs == init + [rs[|rs| - 1]];
    }
  }

  /** Pruning keeps the surviving rows in their order, so ids still
      increase along the ledger. */
  lemma {:induction false} KeptIncreasing(rs: seq<RunRecord>, cutoff: int)
    requires IdsIncreasing(rs)
    ensures IdsIncreasing(Kept(rs, cutoff))
  {
    if rs != [] {
      var init := rs[..|rs| - 1];
      KeptIncreasing(init, cutoff);
      KeptMembers(init, cutoff);
      var k := Kept(rs, cutoff);
      forall i, j | 0 <= i < j < |k| ensures k[i].id < k[j].id {
        if j == |k| - 1 && rs[|rs| - 1].startedAt >= cutoff {
          assert k[i] in Kept(init, cutoff);
          var p :| 0 <= p < |init| && init[p] == k[i];
          assert rs[p] == k[i];
        } else {
          assert k[i] == Kept(init, cutoff)[i] && k[j] == Kept(init, cutoff)[j];
        }
      }
    }
  }

  /** The SQLite database: the `runs` ledger, the `state` table and the
      AUTOINCREMENT counter (ids are never reused, even after pruning). */
  class RunLedger {
    var runs: seq<RunRecord>
    var state: map<string, StateRow>
    var nextId: int

    ghost predicate Valid()
      reads this
    {
      && nextId >= 1
      && IdsIncreasing(runs)
      && (forall i :: 0 <= i < |runs| ==> 1 <= runs[i].id < nextId)
    }

    /** A freshly initialised database. */
    constructor ()
      ensures Valid() && runs == [] && state == map[]
      ensures nextId == 1
    {
      runs := [];
      state := map[];
      nextId := 1;
    }

    /** `record_run`: appends one row, with the outputs cut to the cap, under
        the counter's next value, which is greater than every id the ledger
        holds; the counter moves up by one and nothing else changes. */
    method RecordRun(taskName: string, startedAt: int, finishedAt: int, exitCode: int,
                     stdout: string, stderr: string) returns (runId: int)
      requires Valid()
      modifies this
      ensures Valid()
      ensures runs == old(runs) + [RunRecord(runId, taskName, startedAt, finishedAt, exitCode,
                                             Take(stdout, OutputCap), Take(stderr, OutputCap))]
      ensures forall i :: 0 <= i < |old(runs)| ==> old(runs)[i].id < runId
      ensures runId == old(nextId) && nextId == old(nextId) + 1
      ensures state == old(state)
    {
      runId := nextId;
      runs := runs + [RunRecord(runId, taskName, startedAt, finishedAt, exitCode,
                                Take(stdout, OutputCap), Take(stderr, OutputCap))];
      nextId := nextId + 1;
    }

    /** `get_runs`: at most `limit` rows (no bound when negative), newest id
        first, from one task when `taskName` is truthy and from all tasks
        when it is None or "". */
    method GetRuns(taskName: Option<string>, limit: int) returns (rows: seq<RunRecord>)
      requires Valid()
      ensures rows == Recent(runs, taskName, limit)
      ensures limit >= 0 ==> |rows| <= limit
      ensures forall i, j :: 0 <= i < j < |rows| ==> rows[i].id > rows[j].id
      ensures forall r :: r in rows ==> r in runs && (Truthy(taskName) ==> r.taskName == taskName.value)
    {
      rows := [];
      var i := |runs|;
      while i > 0 && (limit < 0 || |rows| < limit)
        invariant 0 <= i <= |runs|
        invariant rows == Reverse(Select(runs[i..], taskName))
        invariant limit >= 0 ==> |rows| <= limit
      {
        var r := runs[i - 1];
        ScanStep(runs, i, taskName);
        rows := rows + (if !Truthy(taskName) || r.taskName == taskName.value then [r] else []);
        i := i - 1;
      }
      ScanComplete(runs, i, taskName, limit, rows);
    }

    /** `get_last_output`: the output of the task's newest run (the one with
        the greatest id among its rows), or None when it has no run. The name
        is matched exactly. */
    method GetLastOutput(taskName: string) returns (o: Option<LastOutput>)
      requires Valid()
      ensures o.None? <==> forall i :: 0 <= i < |runs| ==> runs[i].taskName != taskName
      ensures o.Some? ==>
        exists i ::
          && 0 <= i < |runs| && runs[i].taskName == taskName
          && o.value == LastOutput(runs[i].stdout, runs[i].stderr, runs[i].exitCode, runs[i].finishedAt)
          && (forall j :: 0 <= j < |runs| && runs[j].taskName == taskName ==> runs[j].id <= runs[i].id)
    {
      var i := |runs|;
      while i > 0 && runs[i - 1].taskName != taskName
        invariant 0 <= i <= |runs|
        invariant forall j :: i <= j < |runs| ==> runs[j].taskName != taskName
      {
        i := i - 1;
      }
      if i == 0 {
        o := None;
      } else {
        var r := runs[i - 1];
        o := Some(LastOutput(r.stdout, r.stderr, r.exitCode, r.finishedAt));
      }
    }

    /** `get_consecutive_failures`: walk the task's rows newest first,
        counting failures until the first success. */
    method GetConsecutiveFailures(taskName: string) returns (count: nat)
      requires Valid()
      ensures count == Streak(ForTask(runs, taskName))
      ensures count <= |ForTask(runs, taskName)|
    {
      var rows := Reverse(ForTask(runs, taskName));
      count := 0;
      var i := 0;
      while i < |rows|
        invariant 0 <= i <= |rows|
        invariant count == i
        invariant forall j :: 0 <= j < i ==> rows[j].exitCode != 0
      {
        if rows[i].exitCode != 0 {
          count := count + 1;
        } else {
          break;
        }
        i := i + 1;
      }
      ghost var f := ForTask(runs, taskName);
      forall j | |f| - count <= j < |f| ensures f[j].exitCode != 0 {
        assert f[j] == rows[|f| - 1 - j];
      }
      if count < |f| {
        assert f[|f| - 1 - count] == rows[count];
      }
      StreakIs(f, count);
    }

    /** `delete_old_runs(days)` at time `now`: removes exactly the rows that
        started before `now - days` days, keeps the rest in order, and
        returns how many were removed. */
    method DeleteOldRuns(days: int, now: int) returns (deleted: nat)
      requires Valid()
      modifies this
      ensures Valid()
      ensures runs == Kept(old(runs), now - days * SecondsPerDay)
      ensures forall x :: x in runs <==> x in old(runs) && x.startedAt >= now - days * SecondsPerDay
      ensures deleted == |old(runs)| - |runs|
      ensures state == old(state) && nextId == old(nextId)
    {
      var cutoff := now - days * SecondsPerDay;
      KeptMembers(runs, cutoff);
      KeptIncreasing(runs, cutoff);
      KeptBounded(runs, cutoff, nextId);
      var kept := Kept(runs, cutoff);
      deleted := |runs| - |kept|;
      runs := kept;
    }

    /** `get_state`: the task's stored value, or None if never set. */
    method GetState(taskName: string) returns (v: Option<string>)
      ensures v.Some? <==> taskName in state
      ensures v.Some? ==> v.value == state[taskName].lastValue
    {
      if taskName in state {
        v := Some(state[taskName].lastValue);
      } else {
        v := None;
      }
    }

    /** `set_state`: insert or overwrite the task's row; other tasks' rows
        and the ledger do not change. */
    method SetState(taskName: string, value: string, now: int)
      modifies this
      ensures taskName in state && state[taskName] == StateRow(value, now)
      ensures forall t :: t != taskName ==> (t in state <==> t in old(state))
      ensures forall t :: t != taskName && t in state ==> state[t] == old(state)[t]
      ensures runs == old(runs) && nextId == old(nextId)
    {
      state := state[taskName := StateRow(value, now)];
    }
  }
}
