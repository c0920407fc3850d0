# Debug log formatter and web-search actions, modelled in Dafny

This project models two small pieces of an agent's "forge" package.

- **The debug log** (`autogpts/Two/forge/utils/log.py`).
  - `format_value` turns a payload of unknown shape into readable text. A dict or list is dumped as indented JSON. A string first has its literal escape sequences stripped (`remove_escape_characters`) and is then parsed as JSON. A parsed object has its string values stripped and re-parsed and its dict and list values dumped; numbers, booleans and null are kept as they are. It is then dumped again. A string that does not parse and holds a newline is split on newlines, and each line is re-tried with `parse_inner_json`; one without a newline is returned as it is.
  - `log_execution_time` fills "Unknown ..." defaults into a seven-line, banner-delimited template and appends the entry to a log file.
- **The search actions** (`autogpts/Two/forge/actions/web/web_search.py`).
  - `web_search` calls the DuckDuckGo provider up to three times, until it returns something.
  - `google` keeps the `link` of each Google result, or turns an invalid-key 403 into a configuration error.
  - `safe_google_results` turns either a list or a string into a safe string.

## Layout

- `wrappers.dfy` (`Wrappers`): `Option`, `Result` and `Outcome`.
- `pystr.dfy` (`PyStr`): Python's `str.replace`, `str.split`, `str.join` and the substring `in`, with the facts the model uses about them.
- `pyvalue.dfy` (`PyValue`): Python values as a tagged variant, `Str | Obj(map) | Arr(seq) | Other`. It also holds `Lib`, the library calls the model leaves uninterpreted.
  - `json.loads` gives `None` when it raises `JSONDecodeError`.
  - There are two `json.dumps` variants: the default form, and `ensure_ascii=False, indent=4`.
  - The others are `str()` of a container and the UTF-8 `encode`/`decode` with errors ignored.
  - `Lib` is a parameter of every operation, so each result holds whatever those functions compute.
- `log.dfy` (`Log`): the model of `log.py`.
  - `RemoveEscapeCharacters` is the replacement loop. It is proved equal to the function `RemoveEscapes`.
  - `FormatValue` is the entry-rewriting loop and the line loop. It is proved equal to the function `Format`.
  - The class `LogStore` holds the append-only files.
- `web_search.dfy` (`WebSearch`): the model of `web_search.py`.
  - The method `WebSearch` is the retry loop. It is proved equal to the closed form `Search`.
  - `ExtractLinks`, `ClassifyHttpError`, `Google` and `SafeGoogleResults` are pure functions.

## Behaviour worth knowing

- **Escape order.** The escape table of `remove_escape_characters` opens with the double-backslash rule, and the comment at log.py:41 marks it as the one handled first. Handling it first can *create* an escape. The three characters backslash, backslash, `n` end up as one newline (`EscapedBackslashThenNBecomesNewline`). A quote escape can also survive (`QuoteEscapeCanSurvive`). Only backslash-n and backslash-t are guaranteed gone (`RemoveEscapesLeavesNoNewlineOrTabEscape`).
- **Non-object JSON.** `format_value` calls `.items()` on whatever `json.loads` returns (log.py:65-66). For a string whose stripped form parses to JSON that is not an object, that raises `AttributeError`, which the `except` clause at log.py:72 does not catch. The model returns that error (`FormatFailsIffNonObject`), and `log_execution_time` then writes nothing.
- **Log path.** The default `log_file` is `"/"` (log.py:17), which `open(..., "a")` refuses (log.py:31). A path with no `/` also fails, because `os.makedirs("")` raises (log.py:29). A `log_file` that is not a string makes `os.path.dirname` raise `TypeError` (log.py:29). The model reports each of these errors and writes nothing.
- **Execution time.** The start and end times are taken back to back (log.py:8-10), so the measured time is always about zero. The model takes the rendered time as a parameter (`elapsed`).

## Model

| member | source | states |
|---|---|---|
| `Log.RemoveEscapeCharacters` | autogpts/Two/forge/utils/log.py:38-49 | the loop's result is the five replacements applied in table order, each on the previous result |
| `Log.RemoveEscapes` | autogpts/Two/forge/utils/log.py:38-49 | the function form of `remove_escape_characters`: the table's rules folded in order; stated by `RemoveEscapesSteps`, `RemoveEscapesNoBackslash`, `RemoveEscapesNotLonger`, `RemoveEscapesLeavesNoNewlineOrTabEscape`, `EscapedBackslashThenNBecomesNewline` and `QuoteEscapeCanSurvive` |
| `Log.RemoveEscapesSteps` | autogpts/Two/forge/utils/log.py:40-48 | the result is `\\`, then `\n`, `\t`, `\"`, `\'` replaced in turn: double backslashes are collapsed before the others |
| `Log.RemoveEscapesNoBackslash` | autogpts/Two/forge/utils/log.py:38-49 | a string with no backslash is returned unchanged |
| `Log.RemoveEscapesNotLonger` | autogpts/Two/forge/utils/log.py:40-48 | the result is never longer than the input |
| `Log.RemoveEscapesLeavesNoNewlineOrTabEscape` | autogpts/Two/forge/utils/log.py:40-48 | no backslash followed by `n` or `t` remains in the result |
| `Log.EscapedBackslashThenNBecomesNewline` | autogpts/Two/forge/utils/log.py:41-42 | backslash, backslash, `n` becomes a single newline, because of the rule order |
| `Log.QuoteEscapeCanSurvive` | autogpts/Two/forge/utils/log.py:41-45 | three backslashes and a quote become a backslash and a quote, so quote escapes are not always removed |
| `Log.ParseInner` | autogpts/Two/forge/utils/log.py:51-57 | `parse_inner_json`; its outcomes are stated by `ParseInnerOutcomes` and `ParseInnerIdempotent` |
| `Log.ParseInnerOutcomes` | autogpts/Two/forge/utils/log.py:51-57 | `parse_inner_json` never fails: an unparsable input is returned unchanged, otherwise the pretty dump of the parsed value |
| `Log.ParseInnerIdempotent` | autogpts/Two/forge/utils/log.py:51-57 | when the pretty dump of the value `s` parses to parses back to that value, applying `parse_inner_json` twice to `s` equals applying it once |
| `Log.Format` | autogpts/Two/forge/utils/log.py:59-79 | what `format_value` returns or raises; implemented by the method `FormatValue` and characterised by the `Format...` lemmas below |
| `Log.FormatValue` | autogpts/Two/forge/utils/log.py:59-79 | the method (entry-rewriting loop and line loop) returns exactly `Format`, including the error case |
| `Log.FormatDumpsContainers` | autogpts/Two/forge/utils/log.py:59-60 | a dict or list is dumped directly, with no escape stripping or recursion |
| `Log.FormatShowsOther` | autogpts/Two/forge/utils/log.py:79 | a value that is not a string or container yields its `str()` |
| `Log.FormatObjectKeepsKeys` | autogpts/Two/forge/utils/log.py:62-71 | a string that parses to an object is dumped with the same keys: string values become `parse_inner_json(remove_escape_characters(v))`, containers their dump, other values untouched |
| `Log.FormatFailsIffNonObject` | autogpts/Two/forge/utils/log.py:63-72 | `format_value` raises `AttributeError` exactly when a string's stripped form parses to JSON that is not an object |
| `Log.FormatUnparsedLine` | autogpts/Two/forge/utils/log.py:72-79 | an unparsable stripped string with no newline is returned as is |
| `Log.FormatRetriesEachLine` | autogpts/Two/forge/utils/log.py:73-78 | an unparsable stripped string with a newline is split (at least two pieces); each piece goes through `parse_inner_json`; the results are joined in order, one per piece |
| `Log.FormatUnparsableLinesUnchanged` | autogpts/Two/forge/utils/log.py:72-78 | if no line parses either, the output equals the stripped input |
| `Log.FormatPlainTextUnchanged` | autogpts/Two/forge/utils/log.py:61-79 | a plain label with no backslash, no newline and no JSON, such as an "Unknown ..." default, passes through unchanged |
| `Log.RenderEntry` | autogpts/Two/forge/utils/log.py:12-27 | the seven-line entry with its defaults, or the exception of `format_value`; stated by `MissingArgUsesDefault`, `EntryFraming`, `EntryLineOrder` and `EntryReadsAsSevenLines` |
| `Log.PathError` | autogpts/Two/forge/utils/log.py:29-31 | the exception the file system raises for a string log path; stated by `PlannedAppendOutcomes` and `MissingLogFileFails` |
| `Log.PlannedAppend` | autogpts/Two/forge/utils/log.py:17-31 | the path and text one call appends, or its exception: that of `format_value` first, then the path's; stated by `PlannedAppendOutcomes`, `MissingLogFileFails` and `NonStringLogFileRaisesTypeError` |
| `Log.MissingArgUsesDefault` | autogpts/Two/forge/utils/log.py:12-16 | an absent key renders as its "Unknown ..." default |
| `Log.MissingLogFileFails` | autogpts/Two/forge/utils/log.py:17-31 | without `log_file` the default path `"/"` is used, and the call fails without writing; once the entry has rendered, the error is `IsADirectory` |
| `Log.PlannedAppendOutcomes` | autogpts/Two/forge/utils/log.py:19-32 | a call appends exactly when the entry renders and `log_file` is a string path with a directory part that does not name a directory; it then appends the rendered entry to that path; an exception of `format_value` comes before any path error |
| `Log.NonStringLogFileRaisesTypeError` | autogpts/Two/forge/utils/log.py:17-29 | a `log_file` that is not a string makes the call fail, with `TypeError` once the entry has rendered |
| `Log.EntryFraming` | autogpts/Two/forge/utils/log.py:19-27 | the entry starts with `-----Task ID: {task_id}----` and a newline, and ends with 24 dashes and a newline |
| `Log.EntryLineOrder` | autogpts/Two/forge/utils/log.py:19-27 | when the task id, step id, question, answer and time hold no newline, splitting the entry on newlines gives the banner, Step, Question and Answer lines, then the pieces of the Kwargs line (a pretty-printed payload spans several lines), then the Time and separator lines, in that order |
| `Log.EntryReadsAsSevenLines` | autogpts/Two/forge/utils/log.py:19-27 | if no field holds a newline, splitting the entry on newlines gives exactly the banner, Step, Question, Answer, Kwargs, Time and separator lines, in that order |
| `Log.LogStore.LogExecutionTime` | autogpts/Two/forge/utils/log.py:7-32 | the new files are the old ones with the rendered entry appended to the `log_file` path, or unchanged when the call raises; the returned outcome names that exception |
| `Log.Appended` | autogpts/Two/forge/utils/log.py:31-32 | the files after a call: its entry appended to its path, or unchanged when it raises; stated by `AppendKeepsPrefixes` and `AppendTwiceToFreshFile` |
| `Log.AppendKeepsPrefixes` | autogpts/Two/forge/utils/log.py:29-32 | appending keeps every file's old text as an exact prefix, adds exactly the entry to the target file and leaves every other file unchanged; a failed call changes nothing |
| `Log.AppendTwiceToFreshFile` | autogpts/Two/forge/utils/log.py:31-32 | two successful appends to one fresh file leave exactly their two entries in it, in call order |
| `WebSearch.SafeGoogleResultsShape` | autogpts/Two/forge/actions/web/web_search.py:139-155 | a list gives the dump of a JSON array with one sanitised string per input, in order; a string gives its sanitised form |
| `WebSearch.SafeGoogleResults` | autogpts/Two/forge/actions/web/web_search.py:139-155 | `safe_google_results`; its outcomes are stated by `SafeGoogleResultsShape` |
| `WebSearch.FirstHit` | autogpts/Two/forge/actions/web/web_search.py:42-52 | the first attempt with a non-empty response, or 3 if there is none; every earlier response is empty |
| `WebSearch.Search` | autogpts/Two/forge/actions/web/web_search.py:38-55 | `web_search` in closed form; implemented by the method `WebSearch` and characterised by the lemmas below |
| `WebSearch.WebSearch` | autogpts/Two/forge/actions/web/web_search.py:38-55 | the retry loop's output, provider-call count and sleep count are exactly those of the closed form `Search` |
| `WebSearch.EmptyQueryMakesNoCalls` | autogpts/Two/forge/actions/web/web_search.py:42-44 | an empty query returns `"[]"` with zero provider calls and no sleep |
| `WebSearch.CallsBounded` | autogpts/Two/forge/actions/web/web_search.py:12-52 | a non-empty query makes at least one and at most `DUCKDUCKGO_MAX_ATTEMPTS` = 3 provider calls |
| `WebSearch.FirstNonEmptyResponseWins` | autogpts/Two/forge/actions/web/web_search.py:46-55 | the first non-empty response ends the loop; it is what is serialised, sanitised and returned, after one call per attempt and one sleep per earlier empty response |
| `WebSearch.AllEmptyResponsesGiveEmptyList` | autogpts/Two/forge/actions/web/web_search.py:42-55 | if all three responses are empty: three calls, three sleeps, and the result `"[]"` |
| `WebSearch.OneSleepPerEmptyResponse` | autogpts/Two/forge/actions/web/web_search.py:48-52 | the number of sleeps equals the number of empty responses received |
| `WebSearch.ExtractLinks` | autogpts/Two/forge/actions/web/web_search.py:117 | succeeds exactly when every item has a `link`; the result is then those links, in item order, one per item; otherwise `KeyError` |
| `WebSearch.MentionsInvalidKey` | autogpts/Two/forge/actions/web/web_search.py:126-127 | the `in` test on the error message raises `TypeError` exactly when the message is a number, boolean or null |
| `WebSearch.ClassifyHttpError` | autogpts/Two/forge/actions/web/web_search.py:119-132 | the exception the `except HttpError` clause ends in; stated by `InvalidKeyIsConfigurationError`, `ConfigurationErrorOnlyFor403`, `MalformedErrorBodies`, `OtherHttpErrorsReraised` and `NonIterableMessageIsTypeError`, which together cover every error body |
| `WebSearch.Google` | autogpts/Two/forge/actions/web/web_search.py:76-136 | `google`; stated by `MissingItemsGiveNoLinks`, `GoogleKeepsLinksInOrder`, `MissingConfigurationAsserts` and the classification lemmas |
| `WebSearch.MissingItemsGiveNoLinks` | autogpts/Two/forge/actions/web/web_search.py:114-136 | a response without `"items"` gives the safe form of the empty link list |
| `WebSearch.GoogleKeepsLinksInOrder` | autogpts/Two/forge/actions/web/web_search.py:113-136 | `google` returns the safe form of the items' links in item order, or `KeyError` if some item lacks one |
| `WebSearch.InvalidKeyIsConfigurationError` | autogpts/Two/forge/actions/web/web_search.py:119-131 | an HttpError with code 403 whose message passes the `in` test for "invalid API key" (a string containing it, a list holding it, a dict with it as a key) becomes a ConfigurationError |
| `WebSearch.ConfigurationErrorOnlyFor403` | autogpts/Two/forge/actions/web/web_search.py:121-131 | a ConfigurationError is reported only when the error body is an object whose `error` entry is an object with code 403 and whose message passes the `in` test for "invalid API key" |
| `WebSearch.MalformedErrorBodies` | autogpts/Two/forge/actions/web/web_search.py:121-126 | an error body that is not JSON raises `JSONDecodeError`; a body, or an `error` entry, that is not a dict raises `AttributeError` |
| `WebSearch.OtherHttpErrorsReraised` | autogpts/Two/forge/actions/web/web_search.py:119-132 | a well-formed error body with another code, or a 403 whose string, list or dict message does not mention "invalid API key", re-raises the HttpError unchanged |
| `WebSearch.NonIterableMessageIsTypeError` | autogpts/Two/forge/actions/web/web_search.py:124-127 | a 403 whose message is a number, boolean or null makes `google` fail with `TypeError` |
| `WebSearch.MissingConfigurationAsserts` | autogpts/Two/forge/actions/web/web_search.py:90-93 | without both an API key and a search-engine id, the call fails its assertion before any request |

## Left out

- Execution-time measurement (log.py:8-10): the model takes the rendered time as the parameter `elapsed`. The float clock and `round(..., 3)` are not modelled.
- The JSON library (`json.loads`, `json.dumps`, indentation, `ensure_ascii`) is abstract (the `Lib` parameter). So is `str()` of a dict or list. A `TypeError` from dumping a payload that is not serialisable is not modelled, because the abstract dump is total.
- The key order of a dict: objects are `map`s, so the insertion order that `json.dumps` preserves is not visible in the model.
- Numbers, booleans and `None` are kept as the text of their `str()` (`Other`). So the 403 test compares that text with `403`, and a float code such as `403.0`, which Python also treats as equal, is not recognised.
- The UTF-8 `encode(..., "ignore")`/`decode` of `safe_google_results` is an abstract sanitising function. So is the `.decode()` of the HttpError body: the model takes the decoded text.
- `log_file` values that are path-like objects other than strings (a `pathlib.Path`, bytes) are not modelled: every non-string value is taken to raise `TypeError`.
- Files are identified by their path string. Spellings that name one file in the source (`logs/a.log`, `./logs/a.log`, `logs//a.log`, an absolute path, a symbolic link) are separate keys of `files`. So `AppendKeepsPrefixes` leaves every other path string unchanged, not every other file.
- File system: directory creation by `os.makedirs` and all OS errors other than the two modelled ones are not modelled. Those left out include permissions, a path component that is a file, and an existing directory named without a trailing `/`.
- `log_execution_time` ignores its positional `*args`, and so does the model.
- The DuckDuckGo client: its exceptions, and whether it returns a list or an iterator. The `max_results=8` bound is not modelled either: each response is taken as given by `provider`.
- `time.sleep(1)`: the model counts sleeps, and does not model their duration.
- The Google client (`build`, `cse().list(...).execute()`), the query and `num_results` arguments, and the truthiness of the secret values. Configuration is modelled as two flags, and the call's outcome is the parameter `reply`.
- Result items are modelled as dicts of string fields. A non-string `link` (which would fail in `encode`) is not modelled.
- `google` calls `self.safe_google_results`. The model takes it to be the module's `safe_google_results`; how that attribute resolves on the agent object is not part of this model.
- The async machinery, the `@action` registry decorators and concurrent appends to one log file.
- autogpts/Two/forge/prompts/addition-prompt/system.py (static prompt strings) and autogpts/Two/forge/utils/util.py (a thin file-write wrapper) are not part of this model.
