# transmission: configuration file and remote pull, modelled in Dafny

`transmission` is a small command-line tool (`tx`) that keeps a local directory
and a Tencent COS bucket in step. Two pieces of its logic are more than file
system or SDK plumbing, and they are what this project models and proves.

* **The `.tx/.config` file.** It is a line-oriented `NAME=value` text with `#`
  comment lines. `configFileParse` folds its lines into a dictionary.
  `checkConfigFile` demands non-empty `SecretId`, `SecretKey` and `Bucket`.
  `writeNecessaryConfig(parameter, value)` copies the file line by line and
  replaces each line keyed by `parameter` with `parameter=value`. Names outside
  `CONFIG_PARAMETERS` are ignored. `init` writes a fixed default text.
* **The remote pull.** `syncRemoteFiles` lists the bucket and dispatches on the
  reply. On a 200 listing, `downloadFile` fetches the listed objects strictly one
  after another. It collects a copy of each fetched entry flagged
  `isSuccess: true`, and stops for good at the first failed fetch.

Files:

* `text.dfy` (module `Text`) models JavaScript's `split` with a one-character
  separator and its inverse `join`. It also has `Render`, the text written when
  each line is followed by `'\n'`, and `ReadLines`, the lines `readline` yields
  for such a text. It proves that reading back what was rendered gives the same
  lines.
* `common.dfy` (module `Common`) holds the constants of `src/static/common.js`.
  The default file text is `Render` of its eleven lines, which is exactly the
  template string.
* `config_file.dfy` (module `ConfigFile`) covers `src/utils/index.js`. The parse
  loop and the rewrite loop are methods proved against the fold `Parse` and the
  line map `RewriteLines`. The properties of those two are lemmas.
* `default_config.dfy` (module `DefaultConfig`) proves what parsing and checking
  make of the default text.
* `core.dfy` (module `Core`) covers `src/utils/core.js`. `downloadFile` is a loop
  proved against the specification `Download`. `syncRemoteFiles` is a status
  dispatch around it. The storage calls are parameters: the listing reply, and
  an oracle `fetchOk(i)` saying whether the fetch of entry `i` succeeds.
* `wrappers.dfy` (module `Wrappers`) holds `Option`. It models a value that may
  be `undefined`.

## Model

| member | source | states |
|---|---|---|
| `Common.ParameterList` | src/static/common.js:16 | The parameter list has five distinct names. Its first three, which the check requires, are `SecretId`, `SecretKey`, `Bucket`. |
| `Common.ParameterNamesAreKeys` | src/static/common.js:16 | Every parameter name is non-empty. None starts with `#`, and none holds `=` or a line terminator, so each can stand as a line's key. |
| `Text.Split` | src/utils/index.js:97 | `split('=')` gives at least one piece. No piece contains the separator. Joining the pieces with it gives back the line. |
| `Text.ReadLines` | src/utils/index.js:88-92 | No line `readline` yields contains `'\n'`. |
| `Text.ReadLinesRender` | src/utils/index.js:147-162 | Lines written each followed by `'\n'` read back as exactly those lines, when none holds `'\n'`. |
| `ConfigFile.KeyValueOf` | src/utils/index.js:97-99 | For a line with `=`, the key is the text before the first `=`. The value is the text between the first and second `=`, or up to the end. So `A=b=c` gives `b`. |
| `ConfigFile.KeyValueWithoutEquals` | src/utils/index.js:97-99 | A line without `=` is all key, with value `''`. A blank line gives key `''` and value `''`. |
| `ConfigFile.KeyOfAssignment` | src/utils/index.js:154-157 | The line `name=rest` has key `name`, whatever `rest` holds. |
| `ConfigFile.ParseStep` | src/utils/index.js:92-101 | Reading one more line applies one more parse step to the dictionary built so far. |
| `ConfigFile.ConfigFileParse` | src/utils/index.js:77-106 | The loop's dictionary equals the fold `Parse` of the lines. |
| `ConfigFile.ParseKeys` | src/utils/index.js:92-101 | A key is in the parsed dictionary if and only if some non-comment line has it. |
| `ConfigFile.ParseLastWins` | src/utils/index.js:92-99 | When a key is on several lines, its parsed value is the last such line's value. |
| `ConfigFile.ParseSkipsComment` | src/utils/index.js:94-96 | Inserting a `#` line anywhere leaves the parsed dictionary unchanged. |
| `ConfigFile.CheckConfigFile` | src/utils/index.js:112-119 | True if and only if `SecretId`, `SecretKey` and `Bucket` are all present and non-empty. |
| `ConfigFile.CheckIgnoresOptional` | src/utils/index.js:115 | Setting or removing any name other than the three required ones, such as `Region` or `StorageClass`, does not change the check. |
| `ConfigFile.RewriteLines` | src/utils/index.js:147-162 | The rewrite has one output line per input line. Each is that input line's rewrite. |
| `ConfigFile.WriteNecessaryConfig` | src/utils/index.js:127-176 | An unknown name writes nothing. A known name produces the new file: every rewritten line, in order, each followed by `'\n'`. |
| `ConfigFile.RewriteWithoutMatch` | src/utils/index.js:155-161 | With no line keyed by the name, every line is copied and nothing is appended. |
| `ConfigFile.RewrittenLineKeepsKey` | src/utils/index.js:149-157 | A rewritten line is a comment exactly when the original was. A rewritten entry line keeps its key. |
| `ConfigFile.RewriteIdempotent` | src/utils/index.js:154-157 | Rewriting the same name to the same value twice equals rewriting once. |
| `ConfigFile.ApplyRewriteLine` | src/utils/index.js:154-160 | One parse step over a rewritten line gives the rewrite of one parse step over the original line. |
| `ConfigFile.ParseAfterRewrite` | src/utils/index.js:147-162 | For a value without `=`, parsing the rewritten lines sets the name to the value if it was a key. Every other key is unchanged. |
| `ConfigFile.WrittenFileReadsBack` | src/utils/index.js:147-162 | The file after `config` reads back as exactly the rewritten lines, as many as before. |
| `ConfigFile.WriteTwiceSameText` | src/utils/index.js:147-170 | Running `config name value` a second time writes the same text as the first run. |
| `ConfigFile.ParseAfterWrite` | src/utils/index.js:127-170 | After `config name value`, the next parse has `value` for the name if the file had its line. Other keys are unchanged. Otherwise the file is unchanged. |
| `DefaultConfig.DefaultEntry` | src/static/common.js:30-38 | Lines 2, 4, 6, 8 and 10 of the default text are `NAME=value` entries. They set each parameter in list order, to `''`, `''`, `''`, `ap-nanjing`, `STANDARD_IA`. |
| `DefaultConfig.DefaultLinesAreLines` | src/static/common.js:28-39 | The default text has eleven lines. None is blank and none holds a terminator. |
| `DefaultConfig.DefaultComments` | src/static/common.js:28-37 | The lines of the default text that begin with `#` are exactly lines 0, 1, 3, 5, 7 and 9. |
| `DefaultConfig.DefaultConfigLayout` | src/static/common.js:30-38 | Every non-comment line of the default text is `NAME=value` with `NAME` a parameter name. |
| `DefaultConfig.DefaultNamesOnce` | src/static/common.js:30-38 | Each parameter name keys exactly one line of the default text. |
| `DefaultConfig.DefaultConfigParse` | src/static/common.js:28-39 | Parsing the default lines gives exactly the five keys: three empty, plus `Region=ap-nanjing` and `StorageClass=STANDARD_IA`. |
| `DefaultConfig.DefaultContentReadsBack` | src/static/common.js:28-39 | The default file text reads back as the eleven default lines. |
| `DefaultConfig.FreshConfigFailsCheck` | src/static/common.js:30-34 | A freshly written default config parses to the default dictionary and fails the required-field check. |
| `Core.FirstFailure` | src/utils/core.js:56-64 | Returns the index of the first failing fetch, or the list length if none fails. Every fetch before it succeeds. |
| `Core.DownloadFile` | src/utils/core.js:51-69 | The outcome is `Download`: no promise for a falsy list, otherwise resolved or forever pending. The fetches are indices 0, 1, … in order. Each fetch but the last issued succeeded before the next was requested. |
| `Core.DownloadWithoutListing` | src/utils/core.js:52 | A falsy list yields no promise and no fetch. |
| `Core.DownloadResolves` | src/utils/core.js:56-67 | The promise resolves if and only if every fetch succeeds. It then holds one `isSuccess` copy per entry, same length and same key order as the listing. |
| `Core.DownloadStopsAtFailure` | src/utils/core.js:53-68 | When fetch `k` is the first to fail, exactly `k+1` fetches happen and the promise never settles. The accumulated array is exactly the flagged first `k` entries. |
| `Core.SyncRemoteFiles` | src/utils/core.js:80-105 | No client resolves with `undefined`. A transport error rejects with it. A non-200 status rejects with the fixed message. A 200 listing settles as `downloadFile(data.Contents)` does. |
| `Core.SyncRemoteResolvedArray` | src/utils/core.js:90-96 | After a 200 listing, an array result means every entry was fetched, and the array holds one flagged copy per entry, in order. |

## Left out

- The file system: `checkConfigurationRoot`, `createConfigurationFolder` and `createConfigurationFile` (src/utils/index.js:22-70). Also left out: opening the read and write streams, and replacing `.config` by `.config_cache`. The config file is modelled as the sequence of lines `readline` yields.
- `ReadLines` only splits at `'\n'`. `readline` also ends a line at a lone `'\r'` and reads `'\r\n'` as one terminator. The lemmas that re-read a written file require lines and values free of both characters.
- I/O failures: when the file cannot be read, `configFileParse` logs the error and returns `undefined`, and `checkConfigFile` then throws. A stream error inside `writeNecessaryConfig` makes it reject. The model has no failing read or write.
- Quirks of JavaScript plain objects: the insertion order of keys, which `tx list` prints, and a line keyed `__proto__`, whose assignment JavaScript ignores. The model's dictionary is an unordered map that treats `__proto__` like any other key.
- `writeNecessaryConfig` resolves `true` only inside the stream's `close` handler, so its caller never sees it. This is asynchronous plumbing.
- The COS SDK: `getBucket`, `getObject` and the client built by the unawaited `initCOS()` (src/utils/core.js:13-21). They become the parameters `hasClient`, `reply` and `fetchOk`. The error a transport failure carries is modelled as a string.
- `getObject` re-parses the config before each fetch and writes the body to `cwd/Key`. Neither is modelled; only whether the fetch succeeds is.
- Core.DownloadFile: promise timing is not modelled. The `reduce` chain is a sequential loop. "One fetch at a time" is captured only as the order of the request trace and the success of each earlier request. The unhandled rejection left behind by a failed fetch is not modelled.
- Listing entries are values, so "input entries are not mutated" holds by construction. Object identity and aliasing are not modelled. Only the entry fields `Key`, `ETag`, `Size`, `LastModified` and `StorageClass` are kept. The `if (result)` test in `downloadFile` always passes, because `getObject` resolves with the entry itself, so it has no branch in the model.
- The command-line wiring and the Y/N prompt (src/main.js), and console colouring (src/utils/colorful.js).
- Upload sync: `syncLocalFiles` has an empty body (src/utils/core.js:74). Content hashing, index diffing, batching and directory creation do not exist in the code, so none of them is modelled.
