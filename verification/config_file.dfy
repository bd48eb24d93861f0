/**
 * The `.tx/.config` file: `NAME=value` lines with `#` comments. Parsing folds the
 * lines into a dictionary, validation checks the three required names, and a
 * single-name rewrite copies the file line by line, replacing the lines whose
 * key is that name. The file is the sequence of lines `readline` yields; opening
 * streams and swapping the rewritten file into place are not part of this model.
 */
module ConfigFile {
  import opened Wrappers
  import opened Text
  import opened Common

  /** The parsed configuration: a plain object from key to value. */
  type Config = map<string, string>

  /** `line.startsWith('#')`. */
  predicate IsComment(line: string)
  {
    |line| > 0 && line[0] == '#'
  }

  /** `line.split('=')[0]`. */
  function KeyOf(line: string): string
  {
    Split(line, '=')[0]
  }

  /** `line.split('=')[1] || ''`. */
  function ValueOf(line: string): string
  {
    var parts := Split(line, '=');
    if |parts| > 1 then parts[1] else ""
  }

  /**
   * For a line with an '=', the key is the text before the first '=' and the value
   * the text between the first and the second '=' (or the end of the line).
   */
  lemma KeyValueOf(line: string, k: string, v: string, tail: string)
    requires '=' !in k && '=' !in v
    requires tail == "" || tail[0] == '='
    requires line == k + "=" + v + tail
    ensures KeyOf(line) == k && ValueOf(line) == v
  {
    assert line == k + ['='] + (v + tail);
    SplitPrefix(k, '=', v + tail);
    if tail == "" {
      assert v + tail == v;
      SplitWithoutSeparator(v, '=');
    } else {
      assert v + tail == v + ['='] + tail[1..];
      SplitPrefix(v, '=', tail[1..]);
    }
  }

  /** A line without '=' is all key, and its value is empty; a blank line has key and value "". */
  lemma KeyValueWithoutEquals(line: string)
    requires '=' !in line
    ensures KeyOf(line) == line && ValueOf(line) == ""
  {
    SplitWithoutSeparator(line, '=');
  }

  /** The key of `k=rest` is `k` whatever `rest` holds. */
  lemma KeyOfAssignment(k: string, rest: string)
    requires '=' !in k
    ensures KeyOf(k + "=" + rest) == k
  {
    assert k + "=" + rest == k + ['='] + rest;
    SplitPrefix(k, '=', rest);
  }

  // ---------------------------------------------------------------- parsing

  /** One iteration of the parse loop. */
  function Apply(config: Config, line: string): Config
  {
    if IsComment(line) then config else config[KeyOf(line) := ValueOf(line)]
  }

  /** The dictionary the parse loop has built after reading `lines`. */
  function Parse(lines: seq<string>): Config
  {
    if lines == [] then map[]
    else Apply(Parse(lines[..|lines| - 1]), lines[|lines| - 1])
  }

  /** Reading one more line applies one more parse step. */
  lemma ParseStep(lines: seq<string>, k: nat)
    requires k < |lines|
    ensures Parse(lines[..k + 1]) == Apply(Parse(lines[..k]), lines[k])
  {
    assert lines[..k + 1][..k] == lines[..k];
  }

  /** `configFileParse`: reads the lines in order and assigns each entry into the dictionary. */
  method ConfigFileParse(lines: seq<string>) returns (config: Config)
    ensures config == Parse(lines)
  {
    config := map[];
    var i := 0;
    while i < |lines|
      invariant 0 <= i <= |lines|
      invariant config == Parse(lines[..i])
    {
      var line := lines[i];
      ParseStep(lines, i);
      if !IsComment(line) {
        var splitLine := Split(line, '=');
        if |splitLine| > 0 {
          config := config[splitLine[0] := if |splitLine| > 1 then splitLine[1] else ""];
        }
      }
      i := i + 1;
    }
    assert lines[..|lines|] == lines;
  }

  /** `lines` has a non-comment line with key `k`. */
  ghost predicate HasEntry(lines: seq<string>, k: string)
  {
    exists i :: 0 <= i < |lines| && !IsComment(lines[i]) && KeyOf(lines[i]) == k
  }

  /** A key is in the parsed dictionary exactly when some non-comment line has it. */
  lemma {:induction false} ParseKeys(lines: seq<string>, k: string)
    ensures k in Parse(lines) <==> HasEntry(lines, k)
    decreases |lines|
  {
    if lines != [] {
      var n := |lines| - 1;
      var init := lines[..n];
      ParseKeys(init, k);
      if HasEntry(init, k) {
        var i :| 0 <= i < |init| && !IsComment(init[i]) && KeyOf(init[i]) == k;
        assert lines[i] == init[i];
      }
      if HasEntry(lines, k) && !(!IsComment(lines[n]) && KeyOf(lines[n]) == k) {
        var i :| 0 <= i < |lines| && !IsComment(lines[i]) && KeyOf(lines[i]) == k;
        assert init[i] == lines[i];
      }
    }
  }

  /** When a key is on several lines, the last of them supplies its value. */
  lemma {:induction false} ParseLastWins(lines: seq<string>, i: nat)
    requires i < |lines| && !IsComment(lines[i])
    requires forall j :: i < j < |lines| ==> IsComment(lines[j]) || KeyOf(lines[j]) != KeyOf(lines[i])
    ensures KeyOf(lines[i]) in Parse(lines) && Parse(lines)[KeyOf(lines[i])] == ValueOf(lines[i])
    decreases |lines|
  {
    var n := |lines| - 1;
    if i < n {
      var init := lines[..n];
      ParseLastWins(init, i);
    }
  }

  /** A comment line contributes nothing, wherever it stands. */
  lemma {:induction false} ParseSkipsComment(before: seq<string>, comment: string, after: seq<string>)
    requires IsComment(comment)
    ensures Parse(before + [comment] + after) == Parse(before + after)
    decreases |after|
  {
    if after == [] {
      assert before + [comment] + after == before + [comment];
      assert (before + [comment])[..|before|] == before;
      assert before + after == before;
    } else {
      var n := |after| - 1;
      var with := before + [comment] + after;
      var without := before + after;
      assert with[..|with| - 1] == before + [comment] + after[..n];
      assert without[..|without| - 1] == before + after[..n];
      ParseSkipsComment(before, comment, after[..n]);
    }
  }

  // ---------------------------------------------------------------- validation

  /** The value of `name` is present and not the empty string, i.e. truthy. */
  predicate Filled(config: Config, name: string)
  {
    name in config && config[name] != ""
  }

  /**
   * `checkConfigFile` on the parsed dictionary: the first three parameter names
   * must all have non-empty values.
   */
  function CheckConfigFile(config: Config): (ok: bool)
    ensures ok <==> Filled(config, "SecretId") && Filled(config, "SecretKey") && Filled(config, "Bucket")
  {
    Filled(config, ConfigParameters[0]) && Filled(config, ConfigParameters[1]) && Filled(config, ConfigParameters[2])
  }

  /** `Region`, `StorageClass` and every other name outside the first three have no effect on the check. */
  lemma CheckIgnoresOptional(config: Config, name: string, value: string)
    requires name !in ConfigParameters[..3]
    ensures CheckConfigFile(config[name := value]) == CheckConfigFile(config)
    ensures CheckConfigFile(config - {name}) == CheckConfigFile(config)
  {
  }

  // ---------------------------------------------------------------- rewriting

  /** What the rewrite loop writes for one line, before the '\n'. */
  function RewriteLine(line: string, parameter: string, value: string): string
  {
    if IsComment(line) then line
    else
      var key := KeyOf(line);
      if key != "" && key == parameter then key + "=" + value else line
  }

  /** The lines of the rewritten file. */
  function RewriteLines(lines: seq<string>, parameter: string, value: string): (out: seq<string>)
    ensures |out| == |lines|
    ensures forall i :: 0 <= i < |lines| ==> out[i] == RewriteLine(lines[i], parameter, value)
  {
    if lines == [] then []
    else RewriteLines(lines[..|lines| - 1], parameter, value) + [RewriteLine(lines[|lines| - 1], parameter, value)]
  }

  /**
   * `writeNecessaryConfig`: an unknown name writes nothing and leaves the file as
   * it was; a known name produces the new file text, one '\n'-terminated line per
   * line read.
   */
  method WriteNecessaryConfig(lines: seq<string>, parameter: string, value: string) returns (written: Option<string>)
    ensures parameter !in ConfigParameters ==> written == None
    ensures parameter in ConfigParameters ==> written == Some(Render(RewriteLines(lines, parameter, value)))
  {
    if parameter !in ConfigParameters {
      return None;
    }
    var text := "";
    var i := 0;
    while i < |lines|
      invariant 0 <= i <= |lines|
      invariant text == Render(RewriteLines(lines[..i], parameter, value))
    {
      var line := lines[i];
      assert lines[..i + 1][..i] == lines[..i];
      if IsComment(line) {
        text := text + line + "\n";
      } else {
        var splitLine := Split(line, '=');
        if splitLine[0] != "" && splitLine[0] == parameter {
          text := text + (splitLine[0] + "=" + value) + "\n";
        } else {
          text := text + line + "\n";
        }
      }
      i := i + 1;
    }
    assert lines[..|lines|] == lines;
    return Some(text);
  }

  /** The lines of the file after `config <parameter> <value>`, as the next read sees them. */
  function ConfigAfterWrite(lines: seq<string>, parameter: string, value: string): seq<string>
  {
    if parameter in ConfigParameters then ReadLines(Render(RewriteLines(lines, parameter, value))) else lines
  }

  /** With no line keyed by the name, the rewrite copies every line and adds none. */
  lemma {:induction false} RewriteWithoutMatch(lines: seq<string>, parameter: string, value: string)
    requires !HasEntry(lines, parameter)
    ensures RewriteLines(lines, parameter, value) == lines
  {
    var out := RewriteLines(lines, parameter, value);
    forall i | 0 <= i < |lines| ensures out[i] == lines[i] {
      assert !(!IsComment(lines[i]) && KeyOf(lines[i]) == parameter);
    }
  }

  /** A rewritten line for a known name is an entry line keyed by that name. */
  lemma RewrittenLineKeepsKey(line: string, parameter: string, value: string)
    requires parameter in ConfigParameters
    ensures IsComment(RewriteLine(line, parameter, value)) == IsComment(line)
    ensures !IsComment(line) ==> KeyOf(RewriteLine(line, parameter, value)) == KeyOf(line)
  {
    ParameterNamesAreKeys(parameter);
    if !IsComment(line) && KeyOf(line) == parameter {
      KeyOfAssignment(parameter, value);
    }
  }

  /** Rewriting the same name to the same value a second time changes nothing. */
  lemma {:induction false} RewriteIdempotent(lines: seq<string>, parameter: string, value: string)
    requires parameter in ConfigParameters
    ensures RewriteLines(RewriteLines(lines, parameter, value), parameter, value) == RewriteLines(lines, parameter, value)
  {
    var once := RewriteLines(lines, parameter, value);
    var twice := RewriteLines(once, parameter, value);
    forall i | 0 <= i < |lines| ensures twice[i] == once[i] {
      RewrittenLineKeepsKey(lines[i], parameter, value);
    }
  }

  /** `config` with `name` set to `value` if it is already a key, and unchanged otherwise. */
  function SetIfPresent(config: Config, name: string, value: string): Config
  {
    if name in config then config[name := value] else config
  }

  lemma SetIfPresentOther(config: Config, name: string, value: string, key: string, x: string)
    requires key != name
    ensures SetIfPresent(config, name, value)[key := x] == SetIfPresent(config[key := x], name, value)
  {
  }

  lemma SetIfPresentSame(config: Config, name: string, value: string, x: string)
    ensures SetIfPresent(config, name, value)[name := value] == SetIfPresent(config[name := x], name, value)
  {
  }

  /** The rewrite step on one line commutes with one parse step. */
  lemma ApplyRewriteLine(config: Config, line: string, parameter: string, value: string)
    requires parameter in ConfigParameters && '=' !in value
    ensures Apply(SetIfPresent(config, parameter, value), RewriteLine(line, parameter, value))
         == SetIfPresent(Apply(config, line), parameter, value)
  {
    if !IsComment(line) {
      if KeyOf(line) == parameter {
        ParameterNamesAreKeys(parameter);
        var entry := parameter + "=" + value;
        assert entry == parameter + "=" + value + "";
        KeyValueOf(entry, parameter, value, "");
        SetIfPresentSame(config, parameter, value, ValueOf(line));
      } else {
        SetIfPresentOther(config, parameter, value, KeyOf(line), ValueOf(line));
      }
    }
  }

  /**
   * Parsing the rewritten lines gives `value` for the name when some line had it,
   * and the old value for every other key.
   */
  lemma {:induction false} ParseAfterRewrite(lines: seq<string>, parameter: string, value: string)
    requires parameter in ConfigParameters && '=' !in value
    ensures Parse(RewriteLines(lines, parameter, value)) == SetIfPresent(Parse(lines), parameter, value)
    decreases |lines|
  {
    if lines != [] {
      var n := |lines| - 1;
      ParseAfterRewrite(lines[..n], parameter, value);
      var out := RewriteLines(lines, parameter, value);
      assert out[..n] == RewriteLines(lines[..n], parameter, value);
      ApplyRewriteLine(Parse(lines[..n]), lines[n], parameter, value);
    }
  }

  /**
   * The written text reads back as exactly the rewritten lines, one per line of
   * the old file, when no line and not the new value holds a terminator.
   */
  lemma {:induction false} WrittenFileReadsBack(lines: seq<string>, parameter: string, value: string)
    requires parameter in ConfigParameters && IsLine(value)
    requires forall i :: 0 <= i < |lines| ==> IsLine(lines[i])
    ensures ConfigAfterWrite(lines, parameter, value) == RewriteLines(lines, parameter, value)
    ensures |ConfigAfterWrite(lines, parameter, value)| == |lines|
  {
    ParameterNamesAreKeys(parameter);
    var out := RewriteLines(lines, parameter, value);
    forall i | 0 <= i < |out| ensures '\n' !in out[i] {
      if !IsComment(lines[i]) && KeyOf(lines[i]) == parameter {
        assert out[i] == parameter + "=" + value;
      }
    }
    ReadLinesRender(out);
  }

  /** Running `config <parameter> <value>` twice leaves the same file text as running it once. */
  lemma {:induction false} WriteTwiceSameText(lines: seq<string>, parameter: string, value: string)
    requires parameter in ConfigParameters && IsLine(value)
    requires forall i :: 0 <= i < |lines| ==> IsLine(lines[i])
    ensures Render(RewriteLines(ConfigAfterWrite(lines, parameter, value), parameter, value))
         == Render(RewriteLines(lines, parameter, value))
  {
    WrittenFileReadsBack(lines, parameter, value);
    RewriteIdempotent(lines, parameter, value);
  }

  /**
   * After `config <parameter> <value>` the parsed configuration holds `value` for
   * the name if the file had a line for it, and is otherwise unchanged.
   */
  lemma {:induction false} ParseAfterWrite(lines: seq<string>, parameter: string, value: string)
    requires parameter in ConfigParameters && IsLine(value) && '=' !in value
    requires forall i :: 0 <= i < |lines| ==> IsLine(lines[i])
    ensures HasEntry(lines, parameter) ==> Parse(ConfigAfterWrite(lines, parameter, value)) == Parse(lines)[parameter := value]
    ensures !HasEntry(lines, parameter) ==> ConfigAfterWrite(lines, parameter, value) == lines
  {
    WrittenFileReadsBack(lines, parameter, value);
    ParseAfterRewrite(lines, parameter, value);
    ParseKeys(lines, parameter);
    if !HasEntry(lines, parameter) {
      RewriteWithoutMatch(lines, parameter, value);
    }
  }
}
