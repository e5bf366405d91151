# idyllic: log-address extraction and config-path lookup in Dafny

idyllic is a terminal viewer for web-server access logs. This project models
the two pieces of its code that compute something:

- `parse_lines` (`src/parse.rs`) applies the fixed pattern
  `^(\d{1,3}\.\d{1,3}\.\d{1,3}\.\d{1,3})` to a log text. It wraps every capture
  in a `Hit { ip }`. Module `Parse` (`parse.dfy`) gives the language of that one
  pattern directly. It does not model a general regex engine. The language is
  three groups of one to three digits, each followed by a dot, then a final group
  of one to three digits, anchored at the start of the text. `captures_iter` is
  modelled as a left-to-right search for successive non-overlapping matches.
  `^` without the multiline flag holds only at index 0. The reference
  definition `IsDottedQuad` describes the language; the matcher is proved
  sound and complete against it. It is also proved to return the longest
  dotted-quad prefix, which is what the greedy final `\d{1,3}` selects.
- `get_config_path` (`src/main.rs`) picks the configuration directory.
  `XDG_CONFIG_HOME` comes first. Failing that, `XDG_HOME` and then `HOME` is
  used, with `/.config` appended. It then appends `/idyllic/idyllic.json`.
  Module `ConfigPath` (`config_path.dfy`) takes the environment as a
  `map<string, string>`. A variable that is unset or not valid Unicode is absent
  from the map, because `env::var` fails for both and the code treats every
  failure alike.

`Wrappers` (`wrappers.dfy`) holds `Option` and `Result`. Its `Or` and
`Context` are the `Result::or` and anyhow `.context` steps used by
`get_config_path`.

## Model

| member | source | states |
|---|---|---|
| `Parse.ParseLines` | src/parse.rs:19-31 | Never fails, because the pattern is a valid constant. Yields at most one hit. It yields one exactly when the anchored pattern matches at the start, and that hit's `ip` is the matched prefix of the text. |
| `Parse.NoMatchAfterStart` | src/parse.rs:20-22 | The search from any index past 0 yields nothing, since `^` holds only at the start. The whole search yields only the match at index 0, if there is one. |
| `Parse.IsDigit` | src/parse.rs:20 | `\d`, restricted to the ASCII digits (see "## Left out"). Like `\d`, it never holds of the dot. |
| `Parse.DigitRun` | src/parse.rs:20 | The run of `\d` characters at an index is maximal: every character in it is a digit, and the one after it is not a digit (or the text ends). |
| `Parse.DottedGroup` | src/parse.rs:20 | A successful `\d{1,3}\.` step consumes one to three digits and then a dot, and stays within the text. |
| `Parse.DottedGroupTakes` | src/parse.rs:20 | Wherever a 1-3 digit group followed by a dot stands, `DottedGroup` takes exactly that group and its dot, so backtracking has no other choice. |
| `Parse.FinalGroup` | src/parse.rs:20 | The final `\d{1,3}` succeeds exactly when a digit stands at the index. It then consumes a group of one to three digits. |
| `Parse.FinalGroupCovers` | src/parse.rs:20 | The greedy final group is at least as long as any 1-3 digit group at that index. |
| `Parse.QuadEnd` | src/parse.rs:20 | A match at the start is 7 to 15 characters long and lies within the text. |
| `Parse.MatchAt` | src/parse.rs:20 | Past index 0 there is never a match, since `^` without the multiline flag holds only at the start. A match found at an index ends at least 7 characters later, within the text. |
| `Parse.Captures` | src/parse.rs:22 | Every capture the search yields is 7 to 15 characters long. Which captures it yields is stated by `NoMatchAfterStart`. |
| `Parse.DottedQuadLength` | src/parse.rs:20 | Every word of the pattern's language is 7 to 15 characters long. |
| `Parse.QuadEndSound` | src/parse.rs:20 | The prefix the matcher takes is four 1-3 digit groups joined by single dots. |
| `Parse.QuadEndComplete` | src/parse.rs:20 | Every dotted quad that starts the text is found, and the match is at least as long as it. |
| `Parse.QuadEndCovers` | src/parse.rs:20 | Four 1-3 digit groups joined by dots at the start of the text are matched. The match covers all four groups and takes at most three digits of the last. |
| `Parse.ParseLinesSpec` | src/parse.rs:19-31 | No hit exactly when no dotted quad starts the text. Otherwise there is one hit, and it is the longest dotted-quad prefix of the text. |
| `Parse.DottedQuadIsHit` | src/parse.rs:20-26 | Any dotted quad on its own is returned whole as the hit. |
| `Parse.QuadEndStops` | src/parse.rs:20 | A character that is neither a digit nor a dot ends the match exactly as the end of the text would. |
| `Parse.StopCharEndsInput` | src/parse.rs:20-22 | The result on `p + [c] + rest` equals the result on `p` when `c` is neither a digit nor a dot. Nothing after the first such character is examined. |
| `Parse.FirstLineDecides` | src/parse.rs:20-22 | The text before the first line break alone decides the result, so later lines are never examined. |
| `Parse.QuadThenStop` | src/parse.rs:20-26 | A dotted quad followed by a non-digit, non-dot character is the hit, whatever comes after. |
| `Parse.OctetsNotRangeChecked` | src/parse.rs:20 | `999.999.999.999` is returned as a hit unchanged, because octets are never range-checked. |
| `Parse.LongFirstGroupNoHit` | src/parse.rs:20 | `1234.1.1.1` yields no hit. |
| `Parse.LongLastGroupTruncated` | src/parse.rs:20 | When the last group has three digits, the hit ends there whatever follows, so further digits are dropped: `1.2.3.4567` yields the hit `1.2.3.456`. |
| `Parse.AccessLogLine` | src/parse.rs:1-26 | The sample access-log line, whose address is followed by a space and any text, yields `178.128.94.113`. |
| `Parse.LaterLinesIgnored` | src/parse.rs:20-30 | For every first line that does not start with a dotted quad and every text after it, the result is `Ok` of no hits, even when a later line starts with an address. |
| `ConfigPath.Var` | src/main.rs:7-11 | `env::var` succeeds exactly when the variable is present, and then gives its value. |
| `ConfigPath.ConfigDir` | src/main.rs:7-16 | The directory is `XDG_CONFIG_HOME`. Failing that it is `XDG_HOME` and then `HOME`, each followed by `/.config`. It fails with "Unable to find config directory" exactly when none of the three is present. |
| `Wrappers.Result.Or` | src/main.rs:10-11 | `a.or(b)` is `a` when `a` succeeds, else `b`. It succeeds when either succeeds. |
| `Wrappers.Result.Context` | src/main.rs:12 | `.context(msg)` keeps a success as it is. It turns a failure into one whose message is `msg`. |
| `ConfigPath.GetConfigPath` | src/main.rs:6-20 | `XDG_CONFIG_HOME` wins, whatever else is set. Otherwise `XDG_HOME` is used, then `HOME`, each with `/.config` added. `/idyllic/idyllic.json` is appended in every case. The lookup fails, with "Unable to find config directory", exactly when none of the three variables is present. |
| `ConfigPath.PathEndsWithConfigFile` | src/main.rs:17 | Every path found ends with `/idyllic/idyllic.json`. |
| `ConfigPath.OnlyThreeVariables` | src/main.rs:7-12 | Two environments that agree on the three variables give the same result. |
| `ConfigPath.EmptyConfigHomeUsedVerbatim` | src/main.rs:7-17 | An empty `XDG_CONFIG_HOME` gives `/idyllic/idyllic.json`, with no normalisation. |
| `ConfigPath.TrailingSlashKept` | src/main.rs:14-17 | When `HOME` is the only one of the three variables present and it ends in `/`, the path starts with `HOME` unchanged and its final `/` is followed by another `/`, giving `//` with no normalisation. |

## Left out

- `\d` is modelled as the ASCII digits `0`-`9`. The regex crate's `\d` is Unicode-aware and also accepts other decimal digits, such as Arabic-Indic ones. Wherever such a digit stands in one of the four groups, the results differ. For example, `1.2.3.٤` is a hit in the source and not in this model, and `1.2.3.4٥` yields `1.2.3.4٥` in the source and `1.2.3.4` here. The lemmas about characters that are neither a digit nor a dot mean ASCII digits.
- The failure path of `Regex::new` is not modelled. The pattern is a valid constant, so `parse_lines` always returns `Ok`.
- The `Error::ParseError` variant in `src/parse.rs` is never constructed and is not modelled.
- The `polars` DataFrame imports in `src/parse.rs` are foreign libraries and are not modelled. The same goes for `dataframe_from_log`, which `src/main.rs` calls, because it is not defined in the source.
- Process environment access is replaced by the map parameter.
- The error of `get_config_path` is modelled by its displayed message only. The anyhow cause chain behind it is not modelled.
- `main` in `src/main.rs` only orchestrates. It loads the file, indexes `logs["nginx"]` (which panics when the key is missing) and builds a DataFrame. It is not modelled.
- `src/config.rs` is not modelled: it does file I/O and `serde_json` deserialisation.
- `src/app.rs` is not modelled: it is the terminal UI (drawing, blocking key reads, restoring the terminal on drop). Its one state change is a quit flag that is set once.
- `src/lib.rs` declares modules and a `Hit { addr, status }` that no code constructs. It is not modelled.
