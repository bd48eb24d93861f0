/** What the configuration code makes of the default file text that `init` writes. */
module DefaultConfig {
  import opened Text
  import opened Common
  import opened ConfigFile

  /**
   * A line `k=v` with no '=' in either part has key `k` and value `v`: `KeyValueOf`
   * with an empty tail. The facts about the literal default lines are proved one
   * line at a time through this helper and `DefaultEntry`, and the whole-file facts
   * over the `DefaultLayout` predicate of an arbitrary line sequence, because the
   * solver runs out of resource when it unfolds `Split` on several literal strings
   * in one proof.
   */
  lemma EntryLine(line: string, k: string, v: string)
    requires '=' !in k && '=' !in v && line == k + "=" + v
    ensures KeyOf(line) == k && ValueOf(line) == v
    ensures line == KeyOf(line) + "=" + ValueOf(line)
  {
    assert line == k + "=" + v + "";
    KeyValueOf(line, k, v, "");
  }

  /** The values the default text gives the parameters, in parameter order. */
  const DefaultValues: seq<string> := ["", "", "", "ap-nanjing", "STANDARD_IA"]

  /** The entry lines of the default text are lines 2, 4, 6, 8 and 10: one per parameter, in order. */
  lemma DefaultEntry(i: nat)
    requires 2 <= i < |DefaultConfigLines| && i % 2 == 0
    ensures KeyOf(DefaultConfigLines[i]) == ConfigParameters[i / 2 - 1]
    ensures ValueOf(DefaultConfigLines[i]) == DefaultValues[i / 2 - 1]
    ensures DefaultConfigLines[i] == KeyOf(DefaultConfigLines[i]) + "=" + ValueOf(DefaultConfigLines[i])
  {
    var line := DefaultConfigLines[i];
    if i == 2 {
      EntryLine(line, "SecretId", "");
    } else if i == 4 {
      EntryLine(line, "SecretKey", "");
    } else if i == 6 {
      EntryLine(line, "Bucket", "");
    } else if i == 8 {
      EntryLine(line, "Region", "ap-nanjing");
    } else {
      EntryLine(line, "StorageClass", "STANDARD_IA");
    }
  }

  /** The default text has eleven lines, none blank and none holding a line terminator. */
  lemma DefaultLinesAreLines()
    ensures |DefaultConfigLines| == 11
    ensures forall i :: 0 <= i < |DefaultConfigLines| ==> DefaultConfigLines[i] != "" && IsLine(DefaultConfigLines[i])
  {
  }

  /** The comment lines of the default text are lines 0, 1, 3, 5, 7 and 9. */
  lemma DefaultComments()
    ensures forall i :: 0 <= i < |DefaultConfigLines| ==> (IsComment(DefaultConfigLines[i]) <==> i < 2 || i % 2 == 1)
  {
  }

  /** Every line of the default text that is not a comment is `NAME=value` with a parameter name. */
  lemma DefaultConfigLayout()
    ensures forall i :: 0 <= i < |DefaultConfigLines| && !IsComment(DefaultConfigLines[i]) ==>
      KeyOf(DefaultConfigLines[i]) in ConfigParameters
      && DefaultConfigLines[i] == KeyOf(DefaultConfigLines[i]) + "=" + ValueOf(DefaultConfigLines[i])
  {
    DefaultComments();
    forall i | 0 <= i < |DefaultConfigLines| && !IsComment(DefaultConfigLines[i])
      ensures KeyOf(DefaultConfigLines[i]) in ConfigParameters
      ensures DefaultConfigLines[i] == KeyOf(DefaultConfigLines[i]) + "=" + ValueOf(DefaultConfigLines[i])
    {
      DefaultEntry(i);
    }
  }

  /**
   * The layout of the default text: eleven lines, comments at 0, 1, 3, 5, 7 and 9,
   * and at 2, 4, 6, 8 and 10 one entry per parameter, in order, with its default value.
   */
  ghost predicate DefaultLayout(lines: seq<string>)
  {
    && |lines| == 11
    && (forall i :: 0 <= i < 11 ==> (IsComment(lines[i]) <==> i < 2 || i % 2 == 1))
    && (forall i :: 2 <= i < 11 && i % 2 == 0 ==>
          KeyOf(lines[i]) == ConfigParameters[i / 2 - 1] && ValueOf(lines[i]) == DefaultValues[i / 2 - 1])
  }

  lemma DefaultLinesHaveDefaultLayout()
    ensures DefaultLayout(DefaultConfigLines)
  {
    DefaultComments();
    forall i | 2 <= i < 11 && i % 2 == 0 {
      DefaultEntry(i);
    }
  }

  lemma LayoutNamesOnce(lines: seq<string>)
    requires DefaultLayout(lines)
    ensures forall i, j :: 0 <= i < j < |lines| && !IsComment(lines[i]) && !IsComment(lines[j]) ==> KeyOf(lines[i]) != KeyOf(lines[j])
    ensures forall p :: p in ConfigParameters ==> HasEntry(lines, p)
  {
    ParameterList();
    forall i, j | 0 <= i < j < |lines| && !IsComment(lines[i]) && !IsComment(lines[j])
      ensures KeyOf(lines[i]) != KeyOf(lines[j])
    {
      assert ConfigParameters[i / 2 - 1] != ConfigParameters[j / 2 - 1];
    }
    forall p | p in ConfigParameters ensures HasEntry(lines, p) {
      var n :| 0 <= n < 5 && ConfigParameters[n] == p;
      assert !IsComment(lines[2 * n + 2]) && KeyOf(lines[2 * n + 2]) == p;
    }
  }

  /**
   * Each parameter name is the key of exactly one line of the default text: no two
   * entry lines share a key and every parameter has an entry line.
   */
  lemma DefaultNamesOnce()
    ensures forall i, j ::
      0 <= i < j < |DefaultConfigLines| && !IsComment(DefaultConfigLines[i]) && !IsComment(DefaultConfigLines[j]) ==>
        KeyOf(DefaultConfigLines[i]) != KeyOf(DefaultConfigLines[j])
    ensures forall p :: p in ConfigParameters ==> HasEntry(DefaultConfigLines, p)
  {
    DefaultLinesHaveDefaultLayout();
    LayoutNamesOnce(DefaultConfigLines);
  }

  /** The dictionary parsed from the default text. */
  const DefaultConfig: Config := map[
    "SecretId" := "", "SecretKey" := "", "Bucket" := "",
    "Region" := "ap-nanjing", "StorageClass" := "STANDARD_IA"]

  lemma LayoutParse(lines: seq<string>)
    requires DefaultLayout(lines)
    ensures Parse(lines) == DefaultConfig
  {
    assert !IsComment(lines[2]) && !IsComment(lines[4]) && !IsComment(lines[6]);
    assert !IsComment(lines[8]) && !IsComment(lines[10]);
    assert KeyOf(lines[2]) == "SecretId" && KeyOf(lines[4]) == "SecretKey" && KeyOf(lines[6]) == "Bucket";
    assert KeyOf(lines[8]) == "Region" && KeyOf(lines[10]) == "StorageClass";
    assert ValueOf(lines[2]) == "" && ValueOf(lines[4]) == "" && ValueOf(lines[6]) == "";
    assert ValueOf(lines[8]) == "ap-nanjing" && ValueOf(lines[10]) == "STANDARD_IA";
    ParseStep(lines, 0);
    assert Parse(lines[..1]) == map[];
    ParseStep(lines, 1);
    assert Parse(lines[..2]) == map[];
    ParseStep(lines, 2);
    assert Parse(lines[..3]) == map["SecretId" := ""];
    ParseStep(lines, 3);
    assert Parse(lines[..4]) == map["SecretId" := ""];
    ParseStep(lines, 4);
    assert Parse(lines[..5]) == map["SecretId" := "", "SecretKey" := ""];
    ParseStep(lines, 5);
    assert Parse(lines[..6]) == map["SecretId" := "", "SecretKey" := ""];
    ParseStep(lines, 6);
    assert Parse(lines[..7]) == map["SecretId" := "", "SecretKey" := "", "Bucket" := ""];
    ParseStep(lines, 7);
    assert Parse(lines[..8]) == map["SecretId" := "", "SecretKey" := "", "Bucket" := ""];
    ParseStep(lines, 8);
    assert Parse(lines[..9]) == map["SecretId" := "", "SecretKey" := "", "Bucket" := "", "Region" := "ap-nanjing"];
    ParseStep(lines, 9);
    assert Parse(lines[..10]) == map["SecretId" := "", "SecretKey" := "", "Bucket" := "", "Region" := "ap-nanjing"];
    ParseStep(lines, 10);
    assert lines[..11] == lines;
  }

  /** Parsing the default lines yields exactly the five names, the three required ones empty. */
  lemma DefaultConfigParse()
    ensures Parse(DefaultConfigLines) == DefaultConfig
  {
    DefaultLinesHaveDefaultLayout();
    LayoutParse(DefaultConfigLines);
  }

  /** The default file text reads back as the default lines. */
  lemma DefaultContentReadsBack()
    ensures ReadLines(DefaultConfigFileContent) == DefaultConfigLines
  {
    DefaultLinesAreLines();
    ReadLinesRender(DefaultConfigLines);
  }

  /** A configuration that `init` just wrote fails the required-field check. */
  lemma FreshConfigFailsCheck()
    ensures Parse(ReadLines(DefaultConfigFileContent)) == DefaultConfig
    ensures !CheckConfigFile(Parse(ReadLines(DefaultConfigFileContent)))
  {
    DefaultContentReadsBack();
    DefaultConfigParse();
  }
}
