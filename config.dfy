/** `load_config` of `utils.py`: a configuration file is either a plain `KEY=VALUE` file or an INI
    file, told apart by its first line. The file's existence and its text are inputs; the INI
    parser (Python's `configparser`) is the parameter `parseIni`. */
module KeyValueConfig {
  import opened Wrappers
  import opened PyStrings

  /** One `KEY=VALUE` setting. */
  datatype Setting = Setting(key: string, value: string)

  /** The lines a text-mode file yields, without their line ends: `\r\n` and a lone `\r` are
      read as `\n` (universal newlines). */
  function FileLines(content: string): (lines: seq<string>)
    ensures lines != []
  {
    SplitAt(Replace(Replace(content, "\r\n", "\n"), "\r", "\n"), '\n')
  }

  /** The rule of `load_config`: the stripped first line is not empty, holds `=` and does not
      start with `[`. */
  predicate IsKeyValueFormat(content: string) {
    var first := Strip(FileLines(content)[0]);
    first != [] && '=' in first && !StartsWith(first, "[")
  }

  /** The setting of a stripped line whose first `=` is at `i`: the stripped text before it,
      and the stripped text after it with every leading and trailing `"` removed. */
  function SplitSetting(l: string, i: nat): (s: Setting)
    requires i < |l|
    ensures s.key == [] || (!IsSpace(s.key[0]) && !IsSpace(s.key[|s.key| - 1]))
    ensures s.value == [] || (s.value[0] != '"' && s.value[|s.value| - 1] != '"')
  {
    Setting(Strip(l[..i]), StripChar(Strip(l[i + 1..]), '"'))
  }

  /** What one line contributes: nothing for a blank line, a `#` comment or a line without `=`,
      otherwise the setting it makes. */
  function ParseLine(line: string): Option<Setting> {
    var l := Strip(line);
    if l == [] || l[0] == '#' then None
    else
      var i := FindChar(l, '=', 0);
      if i == -1 then None else Some(SplitSetting(l, i))
  }

  /** What each line contributes, in file order. */
  function ParsedLines(lines: seq<string>): (r: seq<Option<Setting>>)
    ensures |r| == |lines|
  {
    if lines == [] then [] else ParsedLines(lines[..|lines| - 1]) + [ParseLine(lines[|lines| - 1])]
  }

  lemma {:induction false} ParsedLineAt(lines: seq<string>, k: nat)
    requires k < |lines|
    ensures ParsedLines(lines)[k] == ParseLine(lines[k])
  {
    if k < |lines| - 1 {
      var init := lines[..|lines| - 1];
      ParsedLineAt(init, k);
      assert ParsedLines(lines) == ParsedLines(init) + [ParseLine(lines[|lines| - 1])];
      assert ParsedLines(lines)[k] == ParsedLines(init)[k];
      assert init[k] == lines[k];
    }
  }

  /** The dictionary built by applying the settings in order: a later setting of a key replaces
      an earlier one. */
  function Assign(settings: seq<Option<Setting>>): map<string, string> {
    if settings == [] then map[]
    else
      var config := Assign(settings[..|settings| - 1]);
      match settings[|settings| - 1]
      case None => config
      case Some(s) => config[s.key := s.value]
  }

  /** `_parse_key_value_config` on the lines of a file. */
  function ParseKeyValue(lines: seq<string>): map<string, string> {
    Assign(ParsedLines(lines))
  }

  /** `load_config`: a missing file raises FileNotFoundError; otherwise the first line picks the
      parser, which reads the whole file. */
  function LoadConfig(found: bool, content: string, parseIni: string -> Result<map<string, string>>)
    : (r: Result<map<string, string>>)
    ensures !found ==> r == Err(FileNotFoundError)
    ensures found && IsKeyValueFormat(content) ==> r == Ok(ParseKeyValue(FileLines(content)))
    ensures found && !IsKeyValueFormat(content) ==> r == parseIni(content)
  {
    if !found then Err(FileNotFoundError)
    else if IsKeyValueFormat(content) then Ok(ParseKeyValue(FileLines(content)))
    else parseIni(content)
  }

  // ---------------------------------------------------------------------------------------
  // Properties

  /** Blank lines, comments and lines without `=` leave the settings as they were. */
  lemma {:induction false} IgnoredLine(lines: seq<string>, line: string)
    requires Strip(line) == [] || Strip(line)[0] == '#' || '=' !in Strip(line)
    ensures ParseKeyValue(lines + [line]) == ParseKeyValue(lines)
  {
    assert ParseLine(line) == None;
    assert (lines + [line])[..|lines|] == lines;
  }

  /** The key of a setting never holds `=`: the line is cut at its first one. */
  lemma {:induction false} KeyHasNoEquals(line: string)
    requires ParseLine(line).Some?
    ensures '=' !in ParseLine(line).value.key
  {
    var l := Strip(line);
    var i := FindChar(l, '=', 0);
    if '=' in Strip(l[..i]) {
      StripKeeps(l[..i], '=');
      assert false;
    }
  }

  /** A line is cut at its first `=` only, so a value may itself contain `=`. */
  lemma {:induction false} SplitAtFirstEquals(key: string, value: string)
    requires key != [] && !IsSpace(key[0]) && !IsSpace(key[|key| - 1]) && key[0] != '#' && '=' !in key
    requires value != [] && !IsSpace(value[|value| - 1])
    ensures ParseLine(key + "=" + value) == Some(Setting(key, StripChar(Strip(value), '"')))
  {
    var l := key + "=" + value;
    assert l[..|key|] == key && l[|key| + 1..] == value && ParseLine(l) == Some(SplitSetting(l, |key|)) by {
      assert Strip(l) == l by {
        assert l[0] == key[0] && l[|l| - 1] == value[|value| - 1];
        StripUnchanged(l);
      }
      FirstEquals(key, value);
      ParseCleanLine(l, |key|);
    }
    assert Strip(key) == key by {
      StripUnchanged(key);
    }
  }

  /** A stripped line that is not a comment is cut at its first `=`. */
  lemma {:induction false} ParseCleanLine(l: string, i: nat)
    requires Strip(l) == l && l != [] && l[0] != '#'
    requires i < |l| && FindChar(l, '=', 0) == i
    ensures ParseLine(l) == Some(SplitSetting(l, i))
  {
  }

  lemma {:induction false} FirstEquals(key: string, value: string)
    requires '=' !in key
    ensures var l := key + "=" + value;
      FindChar(l, '=', 0) == |key| && l[..|key|] == key && l[|key| + 1..] == value
  {
    var l := key + "=" + value;
    assert l[..|key|] == key && l[|key|] == '=' && l[|key| + 1..] == value;
    assert forall k :: 0 <= k < |key| ==> l[k] == key[k];
  }

  /** Whether a setting sets `key`. */
  predicate Sets(s: Option<Setting>, key: string) {
    s.Some? && s.value.key == key
  }

  /** Setting `i` is the last one that sets `key`. */
  predicate SetsLast(settings: seq<Option<Setting>>, i: int, key: string) {
    0 <= i < |settings| && Sets(settings[i], key) && forall j :: i < j < |settings| ==> !Sets(settings[j], key)
  }

  /** A key is set exactly when some setting sets it, and then to the value of the last one that
      does. */
  lemma {:induction false} LastSettingWins(settings: seq<Option<Setting>>)
    ensures forall k :: k in Assign(settings) <==> (exists i :: 0 <= i < |settings| && Sets(settings[i], k))
    ensures forall k :: k in Assign(settings) ==>
      (exists i :: SetsLast(settings, i, k) && settings[i].value.value == Assign(settings)[k])
  {
    if settings != [] {
      var init := settings[..|settings| - 1];
      var last := |settings| - 1;
      LastSettingWins(init);
      var config := Assign(settings);
      assert forall j :: 0 <= j < |init| ==> settings[j] == init[j];
      forall k
        ensures k in config <==> (exists i :: 0 <= i < |settings| && Sets(settings[i], k))
        ensures k in config ==> (exists i :: SetsLast(settings, i, k) && settings[i].value.value == config[k])
      {
        if Sets(settings[last], k) {
          assert config == Assign(init)[k := settings[last].value.value];
          assert SetsLast(settings, last, k);
        } else {
          assert k in config <==> k in Assign(init);
          assert k in config ==> config[k] == Assign(init)[k];
          if k in config {
            var i :| SetsLast(init, i, k) && init[i].value.value == Assign(init)[k];
            assert SetsLast(settings, i, k);
          }
          if exists i :: 0 <= i < |settings| && Sets(settings[i], k) {
            var i :| 0 <= i < |settings| && Sets(settings[i], k);
            assert Sets(init[i], k);
          }
        }
      }
    }
  }

  // ---------------------------------------------------------------------------------------
  // The loop of the source

  /** `_parse_key_value_config`: the loop over the lines of the file. */
  method ParseKeyValueConfig(lines: seq<string>) returns (config: map<string, string>)
    ensures config == ParseKeyValue(lines)
  {
    config := map[];
    for i := 0 to |lines|
      invariant config == ParseKeyValue(lines[..i])
    {
      var line := Strip(lines[i]);
      if line == [] || line[0] == '#' {
        SkippedLineStep(lines, i);
        continue;
      }
      var eq := FindChar(line, '=', 0);
      if eq != -1 {
        var key := Strip(line[..eq]);
        var value := StripChar(Strip(line[eq + 1..]), '"');
        SettingLineStep(lines, i, eq);
        config := config[key := value];
      } else {
        SkippedLineStep(lines, i);
      }
    }
    assert lines[..|lines|] == lines;
  }

  /** One more line read. */
  lemma {:induction false} ParseKeyValueStep(lines: seq<string>, i: nat)
    requires i < |lines|
    ensures ParseLine(lines[i]).None? ==> ParseKeyValue(lines[..i + 1]) == ParseKeyValue(lines[..i])
    ensures ParseLine(lines[i]).Some? ==>
      ParseKeyValue(lines[..i + 1]) == ParseKeyValue(lines[..i])[ParseLine(lines[i]).value.key := ParseLine(lines[i]).value.value]
  {
    var ps := ParsedLines(lines[..i + 1]);
    assert lines[..i + 1][..i] == lines[..i];
    assert ps == ParsedLines(lines[..i]) + [ParseLine(lines[i])];
    assert ps[..i] == ParsedLines(lines[..i]);
  }

  /** A blank line, a comment or a line without `=` read. */
  lemma {:induction false} SkippedLineStep(lines: seq<string>, i: nat)
    requires i < |lines|
    requires var l := Strip(lines[i]); l == [] || l[0] == '#' || FindChar(l, '=', 0) == -1
    ensures ParseKeyValue(lines[..i + 1]) == ParseKeyValue(lines[..i])
  {
    ParseKeyValueStep(lines, i);
  }

  /** A line with a setting read. */
  lemma {:induction false} SettingLineStep(lines: seq<string>, i: nat, eq: int)
    requires i < |lines|
    requires var l := Strip(lines[i]); l != [] && l[0] != '#' && eq == FindChar(l, '=', 0) && eq != -1
    ensures var l := Strip(lines[i]);
      ParseKeyValue(lines[..i + 1]) == ParseKeyValue(lines[..i])[Strip(l[..eq]) := StripChar(Strip(l[eq + 1..]), '"')]
  {
    ParseKeyValueStep(lines, i);
    assert ParseLine(lines[i]) == Some(SplitSetting(Strip(lines[i]), eq));
  }
}
