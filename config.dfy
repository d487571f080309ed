/** The captured-environment file: the `KEY=value` lines written at
    initialisation, the parser that reads them back on every run, and the
    lookup of the engine's own executable. */
module Config {
  import opened Base

  /** Variables captured from the interactive shell, in capture order. */
  const EnvKeys: seq<string> := ["PATH", "HOME", "SHELL", "USER", "LANG"]
  const TrigrPathKey: string := "TRIGR_PATH"

  /** Characters at which Python's `str.splitlines` ends a line. */
  predicate IsLineBreak(c: char) {
    c == '\n' || c == '\r' || c == '\U{0B}' || c == '\U{0C}' || c == '\U{1C}' ||
    c == '\U{1D}' || c == '\U{1E}' || c == '\U{85}' || c == '\U{2028}' || c == '\U{2029}'
  }

  predicate NoLineBreaks(s: string) {
    forall i :: 0 <= i < |s| ==> !IsLineBreak(s[i])
  }

  /** Index of the first line break of `s`, or `|s|` when there is none. */
  function LineEnd(s: string): (i: nat)
    ensures i <= |s|
    ensures forall j :: 0 <= j < i ==> !IsLineBreak(s[j])
    ensures i < |s| ==> IsLineBreak(s[i])
  {
    if s == [] || IsLineBreak(s[0]) then 0 else 1 + LineEnd(s[1..])
  }

  /** `s.splitlines()`: "\r\n" counts as one break, and a final break does
      not start an empty last line. */
  function SplitLines(s: string): seq<string>
    decreases |s|
  {
    var i := LineEnd(s);
    if i == |s| then
      (if s == "" then [] else [s])
    else
      var next := if s[i] == '\r' && i + 1 < |s| && s[i + 1] == '\n' then i + 2 else i + 1;
      [s[..i]] + SplitLines(s[next..])
  }

  /** Index of the first `c` in `s`, or `|s|`. */
  function IndexOf(s: string, c: char): (i: nat)
    ensures i <= |s|
    ensures forall j :: 0 <= j < i ==> s[j] != c
    ensures i < |s| ==> s[i] == c
  {
    if s == [] || s[0] == c then 0 else 1 + IndexOf(s[1..], c)
  }

  /** The key of `line.partition("=")`: the text before the first "=". */
  function KeyOf(line: string): string {
    line[..IndexOf(line, '=')]
  }

  /** The value of `line.partition("=")`: everything after the first "=". */
  function ValueOf(line: string): string
    requires '=' in line
  {
    line[IndexOf(line, '=') + 1..]
  }

  /** A key without "=" is split off exactly, whatever the value holds. */
  lemma {:induction false} PartitionAtFirstEquals(key: string, val: string)
    requires '=' !in key
    ensures '=' in key + "=" + val
    ensures KeyOf(key + "=" + val) == key
    ensures ValueOf(key + "=" + val) == val
  {
    var line := key + "=" + val;
    assert line[|key|] == '=';
    assert forall j :: 0 <= j < |key| ==> line[j] == key[j];
    var i := IndexOf(line, '=');
    assert i == |key|;
    assert line[..i] == key;
    assert line[i + 1..] == val;
  }

  /** The map `load_env` builds from the lines of the file: lines without
      "=" are skipped and a later line for a key overrides an earlier one. */
  function EnvOf(lines: seq<string>): map<string, string>
  {
    if lines == [] then map[]
    else
      var env := EnvOf(lines[..|lines| - 1]);
      var line := lines[|lines| - 1];
      if '=' in line then env[KeyOf(line) := ValueOf(line)] else env
  }

  /** `load_env`: None stands for a missing file. */
  method LoadEnv(file: Option<string>) returns (env: map<string, string>)
    ensures file.None? ==> env == map[]
    ensures file.Some? ==> env == EnvOf(SplitLines(file.value))
  {
    env := map[];
    if file.Some? {
      var lines := SplitLines(file.value);
      for i := 0 to |lines|
        invariant env == EnvOf(lines[..i])
      {
        var line := lines[i];
        if '=' in line {
          env := env[KeyOf(line) := ValueOf(line)];
        }
        assert lines[..i + 1][..i] == lines[..i];
      }
      assert lines[..|lines|] == lines;
    }
  }

  /** A key is loaded exactly when some line with "=" names it. */
  lemma {:induction false} EnvOfKeys(lines: seq<string>, k: string)
    ensures k in EnvOf(lines) <==>
      exists j :: 0 <= j < |lines| && '=' in lines[j] && KeyOf(lines[j]) == k
  {
    if lines != [] {
      var init := lines[..|lines| - 1];
      EnvOfKeys(init, k);
      if k in EnvOf(init) {
        var j :| 0 <= j < |init| && '=' in init[j] && KeyOf(init[j]) == k;
        assert lines[j] == init[j];
      }
      if exists j :: 0 <= j < |lines| && '=' in lines[j] && KeyOf(lines[j]) == k {
        var j :| 0 <= j < |lines| && '=' in lines[j] && KeyOf(lines[j]) == k;
        if j < |init| {
          assert init[j] == lines[j];
        }
      }
    }
  }

  /** The value of a key is the one given by the last line that names it. */
  lemma {:induction false} EnvOfLastWins(lines: seq<string>, j: nat)
    requires j < |lines| && '=' in lines[j]
    requires forall l :: j < l < |lines| && '=' in lines[l] ==> KeyOf(lines[l]) != KeyOf(lines[j])
    ensures KeyOf(lines[j]) in EnvOf(lines)
    ensures EnvOf(lines)[KeyOf(lines[j])] == ValueOf(lines[j])
  {
    var init := lines[..|lines| - 1];
    if j < |lines| - 1 {
      assert init[j] == lines[j];
      forall l | j < l < |init| && '=' in init[l]
        ensures KeyOf(init[l]) != KeyOf(init[j])
      {
        assert init[l] == lines[l];
      }
      EnvOfLastWins(init, j);
    }
  }

  /** The `(key, value)` pairs captured for `keys`, in order: those set to a
      non-empty value. */
  function Captured(keys: seq<string>, environ: map<string, string>): seq<(string, string)>
  {
    if keys == [] then []
    else
      var k := keys[|keys| - 1];
      Captured(keys[..|keys| - 1], environ) +
      (if k in environ && environ[k] != "" then [(k, environ[k])] else [])
  }

  /** All pairs `init` writes: the allowed variables, then the executable. */
  function CapturedPairs(environ: map<string, string>, which: Option<string>): seq<(string, string)> {
    Captured(EnvKeys, environ) + (if Truthy(which) then [(TrigrPathKey, which.value)] else [])
  }

  function LineOf(p: (string, string)): string {
    p.0 + "=" + p.1
  }

  function LinesOf(pairs: seq<(string, string)>): (r: seq<string>)
    ensures |r| == |pairs|
    ensures forall i :: 0 <= i < |pairs| ==> r[i] == LineOf(pairs[i])
  {
    if pairs == [] then [] else LinesOf(pairs[..|pairs| - 1]) + [LineOf(pairs[|pairs| - 1])]
  }

  /** `"\n".join(lines)`. */
  function Join(lines: seq<string>): string {
    if lines == [] then ""
    else if |lines| == 1 then lines[0]
    else lines[0] + "\n" + Join(lines[1..])
  }

  /** The text of the env file for the given pairs. */
  function EnvFileText(pairs: seq<(string, string)>): string {
    Join(LinesOf(pairs)) + "\n"
  }

  /** The environment capture of `init`: one line per allowed variable with
      a non-empty value, in allow-list order, then the executable path when
      one was found; the lines are joined with "\n" and end with "\n". */
  method CaptureEnv(environ: map<string, string>, which: Option<string>) returns (text: string)
    ensures text == EnvFileText(CapturedPairs(environ, which))
  {
    var lines: seq<string> := [];
    for i := 0 to |EnvKeys|
      invariant lines == LinesOf(Captured(EnvKeys[..i], environ))
    {
      var key := EnvKeys[i];
      var val := if key in environ then environ[key] else "";
      CapturedStep(EnvKeys, i, environ);
      if val != "" {
        LinesOfAppend(Captured(EnvKeys[..i], environ), (key, val));
        lines := lines + [key + "=" + val];
      }
    }
    assert EnvKeys[..|EnvKeys|] == EnvKeys;
    if Truthy(which) {
      LinesOfAppend(Captured(EnvKeys, environ), (TrigrPathKey, which.value));
      lines := lines + [TrigrPathKey + "=" + which.value];
    } else {
      assert CapturedPairs(environ, which) == Captured(EnvKeys, environ);
    }
    text := Join(lines) + "\n";
  }

  lemma CapturedStep(keys: seq<string>, i: nat, environ: map<string, string>)
    requires i < |keys|
    ensures Captured(keys[..i + 1], environ) == Captured(keys[..i], environ) +
      (if keys[i] in environ && environ[keys[i]] != "" then [(keys[i], environ[keys[i]])] else [])
  {
    assert keys[..i + 1][..i] == keys[..i];
  }

  lemma LinesOfAppend(pairs: seq<(string, string)>, p: (string, string))
    ensures LinesOf(pairs + [p]) == LinesOf(pairs) + [LineOf(p)]
  {
    assert (pairs + [p])[..|pairs|] == pairs;
  }

  /** The map the captured text is meant to reproduce. */
  function CapturedMap(environ: map<string, string>, which: Option<string>): map<string, string> {
    var base := map k | k in environ && k in EnvKeys && environ[k] != "" :: environ[k];
    if Truthy(which) then base[TrigrPathKey := which.value] else base
  }

  /** Every line followed by "\n". */
  function Terminated(lines: seq<string>): string {
    if lines == [] then "" else lines[0] + "\n" + Terminated(lines[1..])
  }

  lemma {:induction false} JoinTerminated(lines: seq<string>)
    requires lines != []
    ensures Join(lines) + "\n" == Terminated(lines)
  {
    if |lines| > 1 {
      JoinTerminated(lines[1..]);
    }
  }

  lemma {:induction false} SplitTerminated(lines: seq<string>)
    requires forall i :: 0 <= i < |lines| ==> NoLineBreaks(lines[i])
    ensures SplitLines(Terminated(lines)) == lines
  {
    if lines != [] {
      var s := Terminated(lines);
      var l := lines[0];
      assert s == l + "\n" + Terminated(lines[1..]);
      assert s[|l|] == '\n';
      assert forall j :: 0 <= j < |l| ==> s[j] == l[j];
      var i := LineEnd(s);
      assert i == |l|;
      assert s[..i] == l;
      assert s[i + 1..] == Terminated(lines[1..]);
      SplitTerminated(lines[1..]);
    }
  }

  /** The map of a sequence of pairs, later pairs overriding earlier ones. */
  function PairsMap(pairs: seq<(string, string)>): map<string, string> {
    if pairs == [] then map[]
    else PairsMap(pairs[..|pairs| - 1])[pairs[|pairs| - 1].0 := pairs[|pairs| - 1].1]
  }

  lemma {:induction false} EnvOfLines(pairs: seq<(string, string)>)
    requires forall i :: 0 <= i < |pairs| ==> '=' !in pairs[i].0
    ensures EnvOf(LinesOf(pairs)) == PairsMap(pairs)
  {
    if pairs != [] {
      var init := pairs[..|pairs| - 1];
      var p := pairs[|pairs| - 1];
      assert LinesOf(pairs)[..|pairs| - 1] == LinesOf(init);
      EnvOfLines(init);
      PartitionAtFirstEquals(p.0, p.1);
    }
  }

  lemma {:induction false} CapturedMapOf(keys: seq<string>, environ: map<string, string>)
    ensures PairsMap(Captured(keys, environ)) ==
      map k | k in environ && k in keys && environ[k] != "" :: environ[k]
  {
    if keys != [] {
      var init := keys[..|keys| - 1];
      CapturedMapOf(init, environ);
      var k := keys[|keys| - 1];
      assert keys == init + [k];
      if k in environ && environ[k] != "" {
        var c := Captured(keys, environ);
        assert c == Captured(init, environ) + [(k, environ[k])];
        assert c[..|c| - 1] == Captured(init, environ);
      } else {
        assert Captured(keys, environ) == Captured(init, environ);
      }
    }
  }

  lemma {:induction false} CapturedKeys(keys: seq<string>, environ: map<string, string>)
    ensures forall i :: 0 <= i < |Captured(keys, environ)| ==>
      Captured(keys, environ)[i].0 in keys &&
      Captured(keys, environ)[i].0 in environ &&
      Captured(keys, environ)[i].1 == environ[Captured(keys, environ)[i].0]
  {
    if keys != [] {
      var init := keys[..|keys| - 1];
      CapturedKeys(init, environ);
      var c := Captured(keys, environ);
      forall i | 0 <= i < |c|
        ensures c[i].0 in keys && c[i].0 in environ && c[i].1 == environ[c[i].0]
      {
        if i < |Captured(init, environ)| {
          assert c[i] == Captured(init, environ)[i];
          assert c[i].0 in init;
        }
      }
    }
  }

  lemma NoLineBreaksConcat(a: string, b: string)
    requires NoLineBreaks(a) && NoLineBreaks(b)
    ensures NoLineBreaks(a + b)
  {
    forall i | 0 <= i < |a + b|
      ensures !IsLineBreak((a + b)[i])
    {
      if i < |a| { assert (a + b)[i] == a[i]; } else { assert (a + b)[i] == b[i - |a|]; }
    }
  }

  /** Upper-case letters and underscores only. */
  predicate UpperName(k: string) {
    forall i :: 0 <= i < |k| ==> ('A' <= k[i] <= 'Z') || k[i] == '_'
  }

  lemma UpperNameIsPlain(k: string)
    requires UpperName(k)
    ensures '=' !in k && NoLineBreaks(k)
  {
    assert forall i :: 0 <= i < |k| ==> k[i] != '=';
  }

  /** Every captured key is a plain name: no "=" and no line break. */
  lemma CapturedKeysArePlain()
    ensures forall k :: k in EnvKeys + [TrigrPathKey] ==> '=' !in k && NoLineBreaks(k)
  {
    assert UpperName("PATH") && UpperName("HOME") && UpperName("SHELL");
    assert UpperName("USER") && UpperName("LANG") && UpperName("TRIGR_PATH");
    forall k | k in EnvKeys + [TrigrPathKey]
      ensures '=' !in k && NoLineBreaks(k)
    {
      UpperNameIsPlain(k);
    }
  }

  /** The lines written at capture: each has a plain key and no line break. */
  lemma CapturedLinesPlain(environ: map<string, string>, which: Option<string>)
    requires forall k :: k in environ && k in EnvKeys ==> NoLineBreaks(environ[k])
    requires Truthy(which) ==> NoLineBreaks(which.value)
    ensures forall i :: 0 <= i < |CapturedPairs(environ, which)| ==>
      '=' !in CapturedPairs(environ, which)[i].0 && NoLineBreaks(LinesOf(CapturedPairs(environ, which))[i])
  {
    var pairs := CapturedPairs(environ, which);
    var lines := LinesOf(pairs);
    CapturedKeys(EnvKeys, environ);
    CapturedKeysArePlain();
    assert NoLineBreaks("=");
    forall i | 0 <= i < |pairs|
      ensures '=' !in pairs[i].0 && NoLineBreaks(lines[i])
    {
      if i < |Captured(EnvKeys, environ)| {
        assert pairs[i] == Captured(EnvKeys, environ)[i];
      } else {
        assert pairs[i] == (TrigrPathKey, which.value);
      }
      assert pairs[i].0 in EnvKeys + [TrigrPathKey];
      NoLineBreaksConcat(pairs[i].0, "=");
      NoLineBreaksConcat(pairs[i].0 + "=", pairs[i].1);
    }
  }

  /** Reading back what `init` wrote recovers exactly the captured pairs,
      provided no captured value contains a line break. */
  lemma CaptureRoundTrip(environ: map<string, string>, which: Option<string>)
    requires forall k :: k in environ && k in EnvKeys ==> NoLineBreaks(environ[k])
    requires Truthy(which) ==> NoLineBreaks(which.value)
    ensures EnvOf(SplitLines(EnvFileText(CapturedPairs(environ, which)))) == CapturedMap(environ, which)
  {
    var pairs := CapturedPairs(environ, which);
    var lines := LinesOf(pairs);
    CapturedLinesPlain(environ, which);
    EnvOfLines(pairs);
    if pairs == [] {
      assert EnvFileText(pairs) == "\n";
      assert SplitLines("\n") == [""];
    } else {
      JoinTerminated(lines);
      SplitTerminated(lines);
    }
    CapturedMapOf(EnvKeys, environ);
    if Truthy(which) {
      assert pairs[..|pairs| - 1] == Captured(EnvKeys, environ);
    } else {
      assert pairs == Captured(EnvKeys, environ);
    }
  }

  /** `get_trigr_path`: the captured path, else the one found on the search
      path (`which` stands for that lookup), else the bare name. */
  function GetTrigrPath(env: map<string, string>, which: Option<string>): string {
    if TrigrPathKey in env then env[TrigrPathKey]
    else if Truthy(which) then which.value
    else "trigr"
  }

  /** After initialisation found the executable, every later lookup returns
      that same path from the captured file, whatever the search path then
      says; had none been found, the later lookup falls back as before. */
  lemma TrigrPathAfterInit(environ: map<string, string>, found: Option<string>, later: Option<string>)
    requires forall k :: k in environ && k in EnvKeys ==> NoLineBreaks(environ[k])
    requires Truthy(found) ==> NoLineBreaks(found.value)
    ensures Truthy(found) ==>
      GetTrigrPath(EnvOf(SplitLines(EnvFileText(CapturedPairs(environ, found)))), later) == found.value
    ensures !Truthy(found) ==>
      GetTrigrPath(EnvOf(SplitLines(EnvFileText(CapturedPairs(environ, found)))), later) ==
        (if Truthy(later) then later.value else "trigr")
  {
    CaptureRoundTrip(environ, found);
  }
}
