/** The constants the configuration code is built on. */
module Common {
  import opened Text

  /** The names a `.tx/.config` file may set, in their fixed order. */
  const ConfigParameters: seq<string> := ["SecretId", "SecretKey", "Bucket", "Region", "StorageClass"]

  /** The lines of the configuration file that `init` writes. */
  const DefaultConfigLines: seq<string> := [
    "# TencentCOS配置信息",
    "# 密钥id，必填项",
    "SecretId=",
    "# 密钥key，必填项",
    "SecretKey=",
    "# 存储桶，必填项",
    "Bucket=",
    "# 地域,默认南京",
    "Region=ap-nanjing",
    "# 存储类型，默认低频存储",
    "StorageClass=STANDARD_IA"
  ]

  /** The default file text: each default line followed by '\n'. */
  const DefaultConfigFileContent: string := Render(DefaultConfigLines)

  /**
   * The parameter list holds five distinct names; the first three are the ones a
   * sync requires.
   */
  lemma ParameterList()
    ensures |ConfigParameters| == 5
    ensures ConfigParameters[..3] == ["SecretId", "SecretKey", "Bucket"]
    ensures forall i, j :: 0 <= i < j < |ConfigParameters| ==> ConfigParameters[i] != ConfigParameters[j]
  {
  }

  /**
   * Every parameter name can stand as the key of a config line: it is not empty,
   * does not start a comment and holds neither '=' nor a line terminator.
   */
  lemma ParameterNamesAreKeys(p: string)
    requires p in ConfigParameters
    ensures p != "" && p[0] != '#' && '=' !in p && IsLine(p)
  {
  }
}
