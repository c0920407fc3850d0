/** The debug log of forge/utils/log.py: `format_value` turns a payload of
    unknown shape into readable text (stripping literal escape sequences and
    re-parsing embedded JSON), and `log_execution_time` renders one
    banner-delimited entry and appends it to a log file. */
module Log {
  import opened Wrappers
  import opened PyStr
  import opened PyValue

  // ================================================ remove_escape_characters

  /** The escape table, in the order the source iterates it: each literal
      two-character escape and the one character it becomes. */
  const Escapes: seq<(string, string)> :=
    [("\\\\", "\\"), ("\\n", "\n"), ("\\t", "\t"), ("\\\"", "\""), ("\\'", "'")]

  /** The string after the table's rules from index `k` on have been applied in turn. */
  function ApplyEscapesFrom(k: nat, s: string): string
    requires k <= |Escapes|
    decreases |Escapes| - k
  {
    if k == |Escapes| then s
    else ApplyEscapesFrom(k + 1, Replace(s, Escapes[k].0, Escapes[k].1))
  }

  /** What `remove_escape_characters(s)` returns. */
  function RemoveEscapes(s: string): string {
    ApplyEscapesFrom(0, s)
  }

  /** `remove_escape_characters`: one `str.replace` per table entry, each on
      the result of the previous one. */
  method RemoveEscapeCharacters(s: string) returns (r: string)
    ensures r == RemoveEscapes(s)
  {
    r := s;
    for i := 0 to |Escapes|
      invariant ApplyEscapesFrom(i, r) == RemoveEscapes(s)
    {
      r := Replace(r, Escapes[i].0, Escapes[i].1);
    }
  }

  /** The five replacements written out in table order. */
  lemma RemoveEscapesSteps(s: string)
    ensures RemoveEscapes(s) ==
      Replace(Replace(Replace(Replace(Replace(s,
        "\\\\", "\\"), "\\n", "\n"), "\\t", "\t"), "\\\"", "\""), "\\'", "'")
  {
  }

  lemma {:induction false} ApplyEscapesFromNoBackslash(k: nat, s: string)
    requires k <= |Escapes| && '\\' !in s
    ensures ApplyEscapesFrom(k, s) == s
    decreases |Escapes| - k
  {
    if k < |Escapes| {
      ReplaceWithoutLead(s, Escapes[k].0, Escapes[k].1);
      ApplyEscapesFromNoBackslash(k + 1, s);
    }
  }

  /** Every escape starts with a backslash, so a string without one is
      returned unchanged. */
  lemma RemoveEscapesNoBackslash(s: string)
    requires '\\' !in s
    ensures RemoveEscapes(s) == s
  {
    ApplyEscapesFromNoBackslash(0, s);
  }

  lemma {:induction false} ApplyEscapesFromNotLonger(k: nat, s: string)
    requires k <= |Escapes|
    ensures |ApplyEscapesFrom(k, s)| <= |s|
    decreases |Escapes| - k
  {
    if k < |Escapes| {
      ReplaceNotLonger(s, Escapes[k].0, Escapes[k].1);
      ApplyEscapesFromNotLonger(k + 1, Replace(s, Escapes[k].0, Escapes[k].1));
    }
  }

  /** Each rule turns two characters into one, so the result is never longer. */
  lemma RemoveEscapesNotLonger(s: string)
    ensures |RemoveEscapes(s)| <= |s|
  {
    ApplyEscapesFromNotLonger(0, s);
  }

  /** No backslash-n or backslash-t pair survives: the rules for them come
      after the backslash rule, and no later rule can rebuild them. */
  lemma RemoveEscapesLeavesNoNewlineOrTabEscape(s: string)
    ensures PairFree(RemoveEscapes(s), '\\', 'n')
    ensures PairFree(RemoveEscapes(s), '\\', 't')
  {
    RemoveEscapesSteps(s);
    var r1 := Replace(s, "\\\\", "\\");
    var r2 := Replace(r1, "\\n", "\n");
    var r3 := Replace(r2, "\\t", "\t");
    var r4 := Replace(r3, "\\\"", "\"");
    ReplaceRemovesPair(r1, "\\n", "\n");
    ReplaceKeepsPairFree(r2, "\\t", "\t", '\\', 'n');
    ReplaceRemovesPair(r2, "\\t", "\t");
    ReplaceKeepsPairFree(r3, "\\\"", "\"", '\\', 'n');
    ReplaceKeepsPairFree(r3, "\\\"", "\"", '\\', 't');
    ReplaceKeepsPairFree(r4, "\\'", "'", '\\', 'n');
    ReplaceKeepsPairFree(r4, "\\'", "'", '\\', 't');
  }

  /** Because the double backslash is collapsed first, an escaped backslash
      followed by `n` (three characters) ends up as a single newline. */
  lemma EscapedBackslashThenNBecomesNewline()
    ensures RemoveEscapes("\\\\n") == "\n"
  {
    RemoveEscapesSteps("\\\\n");
    assert Replace("\\\\n", "\\\\", "\\") == "\\n" by {
      assert "\\\\n"[..2] == "\\\\";
      assert "\\\\n"[2..] == "n";
    }
    assert Replace("\\n", "\\n", "\n") == "\n" by {
      assert "\\n"[..2] == "\\n";
    }
    ReplaceWithoutLead("\n", "\\t", "\t");
    ReplaceWithoutLead("\n", "\\\"", "\"");
    ReplaceWithoutLead("\n", "\\'", "'");
  }

  /** Unlike newline and tab escapes, a quote escape can survive: three
      backslashes and a quote become a backslash and a quote. */
  lemma QuoteEscapeCanSurvive()
    ensures RemoveEscapes("\\\\\\\"") == "\\\""
  {
    RemoveEscapesSteps("\\\\\\\"");
    var s := "\\\\\\\"";
    assert Replace(s, "\\\\", "\\") == "\\\\\"" by {
      assert s[..2] == "\\\\";
      assert s[2..] == "\\\"";
      assert s[2..][..2] != "\\\\";
      assert s[2..][1..] == "\"";
    }
    var r1 := "\\\\\"";
    ReplaceWithoutLead("\"", "\\n", "\n");
    assert Replace(r1, "\\n", "\n") == r1 by {
      assert r1[..2] != "\\n";
      assert r1[1..][..2] != "\\n";
      assert r1[1..][1..] == "\"";
    }
    assert Replace(r1, "\\t", "\t") == r1 by {
      assert r1[..2] != "\\t";
      assert r1[1..][..2] != "\\t";
      assert r1[1..][1..] == "\"";
      ReplaceWithoutLead("\"", "\\t", "\t");
    }
    assert Replace(r1, "\\\"", "\"") == "\\\"" by {
      assert r1[..2] != "\\\"";
      assert r1[1..] == "\\\"";
      assert r1[1..][..2] == "\\\"";
      assert r1[1..][2..] == "";
    }
    assert Replace("\\\"", "\\'", "'") == "\\\"" by {
      assert "\\\""[..2] != "\\'";
      assert "\\\""[1..] == "\"";
      ReplaceWithoutLead("\"", "\\'", "'");
    }
  }

  // ======================================================= parse_inner_json

  /** `parse_inner_json`: the pretty-printed re-serialisation when `s` parses,
      `s` itself when parsing raises. It never fails. */
  function ParseInner(lib: Lib, s: string): string {
    match lib.loads(s)
    case Some(v) => lib.dumpsPretty(v)
    case None => s
  }

  /** A string that does not parse is returned as it is; one that parses is
      replaced by the pretty dump of what it parsed to. */
  lemma ParseInnerOutcomes(lib: Lib, s: string)
    ensures lib.loads(s).None? ==> ParseInner(lib, s) == s
    ensures lib.loads(s).Some? ==> ParseInner(lib, s) == lib.dumpsPretty(lib.loads(s).value)
  {
  }

  /** When the pretty dump of what `s` parses to parses back to the same
      value, `parse_inner_json` is idempotent on `s`. */
  lemma ParseInnerIdempotent(lib: Lib, s: string)
    requires lib.loads(s).Some? ==> lib.loads(lib.dumpsPretty(lib.loads(s).value)) == lib.loads(s)
    ensures ParseInner(lib, ParseInner(lib, s)) == ParseInner(lib, s)
  {
  }

  // =========================================================== format_value

  /** The one exception `format_value` lets escape: a string that parses to
      JSON other than an object has no `.items()`. */
  datatype FormatError = AttributeError

  /** The new value of one entry of a parsed object: a string has its escapes
      stripped and is re-parsed, a container is formatted (which dumps it),
      anything else is kept. */
  function RewriteValue(lib: Lib, v: Value): Value {
    match v
    case Str(s) => Str(ParseInner(lib, RemoveEscapes(s)))
    case Obj(_) => Str(lib.dumpsPretty(v))
    case Arr(_) => Str(lib.dumpsPretty(v))
    case Other(_) => v
  }

  /** The parsed object after the rewriting loop. */
  function RewriteFields(lib: Lib, fields: map<string, Value>): map<string, Value> {
    map k | k in fields :: RewriteValue(lib, fields[k])
  }

  /** `parse_inner_json` applied to each line, in order. */
  function ParseLines(lib: Lib, lines: seq<string>): seq<string> {
    seq(|lines|, i requires 0 <= i < |lines| => ParseInner(lib, lines[i]))
  }

  /** What `format_value(value)` returns, or the exception it raises. */
  function Format(lib: Lib, value: Value): Result<string, FormatError> {
    match value
    case Obj(_) => Success(lib.dumpsPretty(value))
    case Arr(_) => Success(lib.dumpsPretty(value))
    case Other(text) => Success(text)
    case Str(s) =>
      var t := RemoveEscapes(s);
      match lib.loads(t)
      case Some(Obj(fields)) => Success(lib.dumpsPretty(Obj(RewriteFields(lib, fields))))
      case Some(_) => Failure(AttributeError)
      case None =>
        if '\n' in t then Success(Join(ParseLines(lib, Split(t, '\n')), '\n'))
        else Success(t)
  }

  /** `format_value`: the rewriting loop updates the parsed object entry by
      entry, and the fallback builds the list of re-parsed lines. */
  method FormatValue(lib: Lib, value: Value) returns (r: Result<string, FormatError>)
    ensures r == Format(lib, value)
    decreases if value.Str? then 1 else 0
  {
    if value.Obj? || value.Arr? {
      return Success(lib.dumpsPretty(value));
    }
    if value.Other? {
      return Success(value.text);
    }
    var t := RemoveEscapeCharacters(value.s);
    var parsed := lib.loads(t);
    if parsed.Some? {
      if !parsed.value.Obj? {
        return Failure(AttributeError);
      }
      var fields := parsed.value.fields;
      var out := fields;
      var todo := fields.Keys;
      while todo != {}
        invariant todo <= fields.Keys && out.Keys == fields.Keys
        invariant forall k :: k in todo ==> out[k] == fields[k]
        invariant forall k :: k in fields && k !in todo ==> out[k] == RewriteValue(lib, fields[k])
        decreases todo
      {
        var key :| key in todo;
        var val := fields[key];
        if val.Str? {
          var stripped := RemoveEscapeCharacters(val.s);
          out := out[key := Str(ParseInner(lib, stripped))];
        } else if val.Obj? || val.Arr? {
          var inner := FormatValue(lib, val);
          out := out[key := Str(inner.value)];
        }
        todo := todo - {key};
      }
      assert out == RewriteFields(lib, fields);
      return Success(lib.dumpsPretty(Obj(out)));
    }
    if '\n' in t {
      var lines := Split(t, '\n');
      var formatted: seq<string> := [];
      for i := 0 to |lines|
        invariant formatted == ParseLines(lib, lines[..i])
      {
        formatted := formatted + [ParseInner(lib, lines[i])];
      }
      assert lines[..|lines|] == lines;
      return Success(Join(formatted, '\n'));
    }
    return Success(t);
  }

  /** A dict or list is dumped directly: no escape stripping, no recursion. */
  lemma FormatDumpsContainers(lib: Lib, value: Value)
    requires value.Obj? || value.Arr?
    ensures Format(lib, value) == Success(lib.dumpsPretty(value))
  {
  }

  /** A payload that is neither a string nor a container gives its `str()`. */
  lemma FormatShowsOther(lib: Lib, value: Value)
    requires value.Other?
    ensures Format(lib, value) == Success(Display(lib, value))
  {
  }

  /** A string whose stripped form parses to an object is dumped with the same
      keys: string values stripped and re-parsed, containers dumped, the rest
      untouched. */
  lemma FormatObjectKeepsKeys(lib: Lib, s: string, fields: map<string, Value>)
    requires lib.loads(RemoveEscapes(s)) == Some(Obj(fields))
    ensures exists g: map<string, Value> ::
      && Format(lib, Str(s)) == Success(lib.dumpsPretty(Obj(g)))
      && g.Keys == fields.Keys
      && (forall k :: k in fields && fields[k].Str? ==>
            g[k] == Str(ParseInner(lib, RemoveEscapes(fields[k].s))))
      && (forall k :: k in fields && (fields[k].Obj? || fields[k].Arr?) ==>
            g[k] == Str(lib.dumpsPretty(fields[k])))
      && (forall k :: k in fields && fields[k].Other? ==> g[k] == fields[k])
  {
    var g := RewriteFields(lib, fields);
    assert Format(lib, Str(s)) == Success(lib.dumpsPretty(Obj(g)));
  }

  /** `format_value` raises exactly when it is given a string whose stripped
      form parses to JSON that is not an object. */
  lemma FormatFailsIffNonObject(lib: Lib, value: Value)
    ensures Format(lib, value).Failure? <==>
      value.Str? && lib.loads(RemoveEscapes(value.s)).Some? &&
      !lib.loads(RemoveEscapes(value.s)).value.Obj?
  {
  }

  /** An unparsable stripped string without a newline is returned as it is. */
  lemma FormatUnparsedLine(lib: Lib, s: string)
    requires lib.loads(RemoveEscapes(s)).None? && '\n' !in RemoveEscapes(s)
    ensures Format(lib, Str(s)) == Success(RemoveEscapes(s))
  {
  }

  /** An unparsable stripped string with a newline is split into its lines,
      each re-tried on its own, and the results are joined back in order,
      one for one. */
  lemma FormatRetriesEachLine(lib: Lib, s: string)
    requires lib.loads(RemoveEscapes(s)).None? && '\n' in RemoveEscapes(s)
    ensures var lines := Split(RemoveEscapes(s), '\n');
      exists out: seq<string> ::
        && Format(lib, Str(s)) == Success(Join(out, '\n'))
        && |out| == |lines| >= 2
        && forall i :: 0 <= i < |lines| ==> out[i] == ParseInner(lib, lines[i])
  {
    var t := RemoveEscapes(s);
    SplitSingleIff(t, '\n');
    assert Format(lib, Str(s)) == Success(Join(ParseLines(lib, Split(t, '\n')), '\n'));
  }

  /** If no line of an unparsable stripped string parses either, the output
      is the stripped string itself. */
  lemma FormatUnparsableLinesUnchanged(lib: Lib, s: string)
    requires lib.loads(RemoveEscapes(s)).None?
    requires forall line :: line in Split(RemoveEscapes(s), '\n') ==> lib.loads(line).None?
    ensures Format(lib, Str(s)) == Success(RemoveEscapes(s))
  {
    var t := RemoveEscapes(s);
    if '\n' in t {
      var lines := Split(t, '\n');
      assert ParseLines(lib, lines) == lines;
      JoinSplit(t, '\n');
    }
  }

  /** A plain label such as the "Unknown ..." defaults (no backslash, no
      newline, not JSON) passes through unchanged. */
  lemma FormatPlainTextUnchanged(lib: Lib, s: string)
    requires '\\' !in s && '\n' !in s && lib.loads(s).None?
    ensures Format(lib, Str(s)) == Success(s)
  {
    RemoveEscapesNoBackslash(s);
  }

  // ===================================================== log_execution_time

  const DefaultTaskId := "Unknown Task ID"
  const DefaultStepId := "Unknown Step ID"
  const DefaultQuestion := "Unknown Question"
  const DefaultAnswer := "Unknown Answer"
  const DefaultKwargs := "Unknown chat_completion_kwargs"
  const DefaultLogFile := "/"

  /** The closing line of every entry: 24 dashes. */
  const Separator := "------------------------"

  /** The opening line of an entry. */
  function Banner(taskId: string): string {
    "-----Task ID: " + taskId + "----"
  }

  /** The seven lines of an entry, each without its newline. */
  function EntryLines(taskId: string, stepId: string, question: string, answer: string,
                      payload: string, elapsed: string): seq<string> {
    [ Banner(taskId),
      "Step ID: " + stepId,
      "Question: " + question,
      "Answer: " + answer,
      "Chat Completion Kwargs: " + payload,
      "Execution Time: " + elapsed + " seconds",
      Separator ]
  }

  /** Lines each followed by a newline. */
  function Terminated(lines: seq<string>): string {
    if lines == [] then [] else lines[0] + "\n" + Terminated(lines[1..])
  }

  /** The text of `kwargs.get(key, default)` as an f-string renders it. */
  function Arg(lib: Lib, kwargs: map<string, Value>, key: string, default: string): string {
    Display(lib, Get(kwargs, key, Str(default)))
  }

  /** The labeled fields of an entry, with their defaults. */
  function TaskId(lib: Lib, kwargs: map<string, Value>): string { Arg(lib, kwargs, "task_id", DefaultTaskId) }
  function StepId(lib: Lib, kwargs: map<string, Value>): string { Arg(lib, kwargs, "step_id", DefaultStepId) }
  function Question(lib: Lib, kwargs: map<string, Value>): string { Arg(lib, kwargs, "question", DefaultQuestion) }
  function Answer(lib: Lib, kwargs: map<string, Value>): string { Arg(lib, kwargs, "answer", DefaultAnswer) }
  function Payload(kwargs: map<string, Value>): Value { Get(kwargs, "chat_completion_kwargs", Str(DefaultKwargs)) }
  function LogFile(kwargs: map<string, Value>): Value { Get(kwargs, "log_file", Str(DefaultLogFile)) }

  /** Why `log_execution_time` raises instead of appending. */
  datatype LogError =
    | PayloadError(e: FormatError)   // from format_value
    | FileNotFound                   // os.makedirs("") for a path with no directory part
    | IsADirectory                   // open() of a path naming a directory, such as the default "/"
    | TypeError                      // os.path.dirname of a log_file that is not a string

  /** The rendered entry, or the exception `format_value` raises while the
      entry is being built. `elapsed` is the rendered execution time. */
  function RenderEntry(lib: Lib, kwargs: map<string, Value>, elapsed: string): Result<string, LogError> {
    match Format(lib, Payload(kwargs))
    case Failure(e) => Failure(PayloadError(e))
    case Success(payload) =>
      Success(Terminated(EntryLines(TaskId(lib, kwargs), StepId(lib, kwargs), Question(lib, kwargs),
                                    Answer(lib, kwargs), payload, elapsed)))
  }

  /** The error the file system raises for the log path, if any:
      `os.path.dirname` of a path without '/' is empty and `os.makedirs("")`
      fails; a path ending in '/' names a directory, which `open` refuses. */
  function PathError(path: string): Option<LogError> {
    if '/' !in path then Some(FileNotFound)
    else if path[|path| - 1] == '/' then Some(IsADirectory)
    else None
  }

  /** The path and the text one call appends, or the exception it raises. */
  function PlannedAppend(lib: Lib, kwargs: map<string, Value>, elapsed: string): Result<(string, string), LogError> {
    match RenderEntry(lib, kwargs, elapsed)
    case Failure(e) => Failure(e)
    case Success(entry) =>
      match LogFile(kwargs)
      case Str(path) =>
        (match PathError(path)
         case Some(e) => Failure(e)
         case None => Success((path, entry)))
      case _ => Failure(TypeError)
  }

  /** A missing key renders as its "Unknown ..." default. */
  lemma MissingArgUsesDefault(lib: Lib, kwargs: map<string, Value>, key: string, default: string)
    requires key !in kwargs
    ensures Arg(lib, kwargs, key, default) == default
  {
  }

  /** Without a `log_file` argument the entry goes to "/", which `open`
      refuses as a directory. */
  lemma MissingLogFileFails(lib: Lib, kwargs: map<string, Value>, elapsed: string)
    requires "log_file" !in kwargs
    ensures PlannedAppend(lib, kwargs, elapsed).Failure?
    ensures RenderEntry(lib, kwargs, elapsed).Success? ==>
      PlannedAppend(lib, kwargs, elapsed) == Failure(IsADirectory)
  {
  }

  /** The call appends exactly when the entry renders and `log_file` is a
      string path with a directory part that does not itself name a
      directory; it then appends the rendered entry to that path. The
      exception of `format_value` comes first, then the path's. */
  lemma PlannedAppendOutcomes(lib: Lib, kwargs: map<string, Value>, elapsed: string)
    ensures PlannedAppend(lib, kwargs, elapsed).Success? <==>
      && RenderEntry(lib, kwargs, elapsed).Success?
      && LogFile(kwargs).Str? && '/' in LogFile(kwargs).s
      && LogFile(kwargs).s[|LogFile(kwargs).s| - 1] != '/'
    ensures PlannedAppend(lib, kwargs, elapsed).Success? ==>
      PlannedAppend(lib, kwargs, elapsed).value == (LogFile(kwargs).s, RenderEntry(lib, kwargs, elapsed).value)
    ensures RenderEntry(lib, kwargs, elapsed).Failure? ==>
      PlannedAppend(lib, kwargs, elapsed) == Failure(RenderEntry(lib, kwargs, elapsed).error)
  {
  }

  /** A `log_file` that is not a string (`None`, a number, a dict) makes
      `os.path.dirname` raise `TypeError` once the entry has rendered. */
  lemma NonStringLogFileRaisesTypeError(lib: Lib, kwargs: map<string, Value>, elapsed: string)
    requires "log_file" in kwargs && !kwargs["log_file"].Str?
    ensures PlannedAppend(lib, kwargs, elapsed).Failure?
    ensures RenderEntry(lib, kwargs, elapsed).Success? ==>
      PlannedAppend(lib, kwargs, elapsed) == Failure(TypeError)
  {
  }

  /** `s` ends with `suffix`. */
  predicate EndsWith(s: string, suffix: string) {
    |suffix| <= |s| && s[|s| - |suffix|..] == suffix
  }

  lemma {:induction false} TerminatedFraming(lines: seq<string>)
    requires lines != []
    ensures lines[0] + "\n" <= Terminated(lines)
    ensures EndsWith(Terminated(lines), lines[|lines| - 1] + "\n")
  {
    if |lines| == 1 {
      assert Terminated(lines) == lines[0] + "\n";
    } else {
      var rest := Terminated(lines[1..]);
      var last := lines[|lines| - 1] + "\n";
      TerminatedFraming(lines[1..]);
      assert Terminated(lines) == (lines[0] + "\n") + rest;
      assert (lines[0] + "\n" + rest)[|lines[0] + "\n" + rest| - |last|..] == rest[|rest| - |last|..];
    }
  }

  /** An entry opens with the task-id banner and closes with the separator line. */
  lemma EntryFraming(lib: Lib, kwargs: map<string, Value>, elapsed: string)
    requires RenderEntry(lib, kwargs, elapsed).Success?
    ensures Banner(TaskId(lib, kwargs)) + "\n" <= RenderEntry(lib, kwargs, elapsed).value
    ensures EndsWith(RenderEntry(lib, kwargs, elapsed).value, Separator + "\n")
  {
    var payload := Format(lib, Payload(kwargs)).value;
    TerminatedFraming(EntryLines(TaskId(lib, kwargs), StepId(lib, kwargs), Question(lib, kwargs),
                                 Answer(lib, kwargs), payload, elapsed));
  }

  lemma {:induction false} SplitTerminated(lines: seq<string>)
    requires forall i :: 0 <= i < |lines| ==> '\n' !in lines[i]
    ensures Split(Terminated(lines), '\n') == lines + [[]]
  {
    if lines != [] {
      SplitTerminated(lines[1..]);
      SplitAfterLine(lines[0], Terminated(lines[1..]), '\n');
      assert lines == [lines[0]] + lines[1..];
    }
  }

  lemma EntryLinesLackNewline(taskId: string, stepId: string, question: string, answer: string,
                              payload: string, elapsed: string)
    requires '\n' !in taskId && '\n' !in stepId && '\n' !in question
    requires '\n' !in answer && '\n' !in payload && '\n' !in elapsed
    ensures var lines := EntryLines(taskId, stepId, question, answer, payload, elapsed);
      forall i :: 0 <= i < |lines| ==> '\n' !in lines[i]
  {
    var lines := EntryLines(taskId, stepId, question, answer, payload, elapsed);
    assert '\n' !in "-----Task ID: " && '\n' !in "----";
    assert '\n' !in "Step ID: " && '\n' !in "Question: " && '\n' !in "Answer: ";
    assert '\n' !in "Chat Completion Kwargs: " && '\n' !in "Execution Time: " && '\n' !in " seconds";
    assert '\n' !in Separator;
  }

  /** When no field holds a newline, the entry reads back as exactly its seven
      lines, in order: banner, Step, Question, Answer, Kwargs, Time, separator. */
  lemma EntryReadsAsSevenLines(lib: Lib, kwargs: map<string, Value>, elapsed: string)
    requires RenderEntry(lib, kwargs, elapsed).Success?
    requires '\n' !in TaskId(lib, kwargs) && '\n' !in StepId(lib, kwargs)
    requires '\n' !in Question(lib, kwargs) && '\n' !in Answer(lib, kwargs)
    requires '\n' !in Format(lib, Payload(kwargs)).value && '\n' !in elapsed
    ensures Split(RenderEntry(lib, kwargs, elapsed).value, '\n') ==
      EntryLines(TaskId(lib, kwargs), StepId(lib, kwargs), Question(lib, kwargs),
                 Answer(lib, kwargs), Format(lib, Payload(kwargs)).value, elapsed) + [""]
  {
    var payload := Format(lib, Payload(kwargs)).value;
    EntryLinesLackNewline(TaskId(lib, kwargs), StepId(lib, kwargs), Question(lib, kwargs),
                          Answer(lib, kwargs), payload, elapsed);
    SplitTerminated(EntryLines(TaskId(lib, kwargs), StepId(lib, kwargs), Question(lib, kwargs),
                               Answer(lib, kwargs), payload, elapsed));
  }

  /** Splitting an entry on newlines gives the banner, Step, Question and
      Answer lines, then the pieces of the Kwargs line (a pretty-printed
      payload spans several lines), then the Time and separator lines, in
      that order, provided only the single-line fields hold no newline. */
  lemma EntryLineOrder(taskId: string, stepId: string, question: string, answer: string,
                       payload: string, elapsed: string)
    requires '\n' !in taskId && '\n' !in stepId && '\n' !in question
    requires '\n' !in answer && '\n' !in elapsed
    ensures Split(Terminated(EntryLines(taskId, stepId, question, answer, payload, elapsed)), '\n') ==
      [Banner(taskId), "Step ID: " + stepId, "Question: " + question, "Answer: " + answer]
      + Split("Chat Completion Kwargs: " + payload, '\n')
      + ["Execution Time: " + elapsed + " seconds", Separator, ""]
  {
    var l0, l1, l2, l3 := Banner(taskId), "Step ID: " + stepId, "Question: " + question, "Answer: " + answer;
    var l5 := "Execution Time: " + elapsed + " seconds";
    NoNewlineConcat("-----Task ID: " + taskId, "----");
    NoNewlineConcat("-----Task ID: ", taskId);
    NoNewlineConcat("Step ID: ", stepId);
    NoNewlineConcat("Question: ", question);
    NoNewlineConcat("Answer: ", answer);
    NoNewlineConcat("Execution Time: ", elapsed);
    NoNewlineConcat("Execution Time: " + elapsed, " seconds");
    assert EntryLines(taskId, stepId, question, answer, payload, elapsed) ==
      [l0, l1, l2, l3, "Chat Completion Kwargs: " + payload] + [l5, Separator];
    SplitAroundBlock(l0, l1, l2, l3, "Chat Completion Kwargs: " + payload, l5, Separator);
  }

  lemma NoNewlineConcat(a: string, b: string)
    requires '\n' !in a && '\n' !in b
    ensures '\n' !in a + b
  {
  }

  /** Seven lines terminated and split again, where only the fifth may hold
      newlines of its own. */
  lemma SplitAroundBlock(l0: string, l1: string, l2: string, l3: string, block: string, l5: string, l6: string)
    requires '\n' !in l0 && '\n' !in l1 && '\n' !in l2 && '\n' !in l3
    requires '\n' !in l5 && '\n' !in l6
    ensures Split(Terminated([l0, l1, l2, l3, block] + [l5, l6]), '\n') ==
      [l0, l1, l2, l3] + Split(block, '\n') + [l5, l6, ""]
  {
    var tail := [l5, l6];
    var t4 := block + "\n" + Terminated(tail);
    var t3 := l3 + "\n" + t4;
    var t2 := l2 + "\n" + t3;
    var t1 := l1 + "\n" + t2;
    TerminatedEntry(l0, l1, l2, l3, block, tail);
    SplitTerminated(tail);
    SplitConcat(block, Terminated(tail), '\n');
    SplitAfterLine(l3, t4, '\n');
    SplitAfterLine(l2, t3, '\n');
    SplitAfterLine(l1, t2, '\n');
    SplitAfterLine(l0, t1, '\n');
    ConsFour(l0, l1, l2, l3, Split(block, '\n'), tail + [[]]);
  }

  lemma ConsFour<T>(x0: T, x1: T, x2: T, x3: T, xs: seq<T>, ys: seq<T>)
    ensures [x0] + ([x1] + ([x2] + ([x3] + (xs + ys)))) == [x0, x1, x2, x3] + xs + ys
  {
  }

  /** An entry's text, its first five lines unfolded. */
  lemma TerminatedEntry(l0: string, l1: string, l2: string, l3: string, l4: string, tail: seq<string>)
    ensures Terminated([l0, l1, l2, l3, l4] + tail) ==
      l0 + "\n" + (l1 + "\n" + (l2 + "\n" + (l3 + "\n" + (l4 + "\n" + Terminated(tail)))))
  {
    var s4 := [l4] + tail;
    var s3 := [l3] + s4;
    var s2 := [l2] + s3;
    var s1 := [l1] + s2;
    assert [l0, l1, l2, l3, l4] + tail == [l0] + s1;
    TerminatedCons(l4, tail);
    TerminatedCons(l3, s4);
    TerminatedCons(l2, s3);
    TerminatedCons(l1, s2);
    TerminatedCons(l0, s1);
  }

  lemma TerminatedCons(line: string, lines: seq<string>)
    ensures Terminated([line] + lines) == line + "\n" + Terminated(lines)
  {
    assert ([line] + lines)[1..] == lines;
  }

  /** The text of the file at `path`, empty before anything is written to it. */
  function Read(files: map<string, string>, path: string): string {
    if path in files then files[path] else []
  }

  /** The files after a call planned as `plan`: its entry appended to its
      path, or nothing changed when the call raises. */
  function Appended(files: map<string, string>, plan: Result<(string, string), LogError>): map<string, string> {
    match plan
    case Failure(_) => files
    case Success((path, entry)) => files[path := Read(files, path) + entry]
  }

  /** Appending keeps every file's previous text as a prefix, touches only
      the planned path, and adds exactly the entry to it. */
  lemma AppendKeepsPrefixes(files: map<string, string>, plan: Result<(string, string), LogError>)
    ensures forall p :: Read(files, p) <= Read(Appended(files, plan), p)
    ensures plan.Success? ==>
      && Read(Appended(files, plan), plan.value.0) == Read(files, plan.value.0) + plan.value.1
      && forall p :: p != plan.value.0 ==> Read(Appended(files, plan), p) == Read(files, p)
    ensures plan.Failure? ==> Appended(files, plan) == files
  {
  }

  /** The log files: the text of each path written so far. Files are only
      ever appended to. */
  class LogStore {
    var files: map<string, string>

    constructor ()
      ensures files == map[]
    {
      files := map[];
    }

    /** `log_execution_time(**kwargs)`: render the entry, then append it to
        the `log_file` path; on an exception nothing is written. */
    method LogExecutionTime(lib: Lib, kwargs: map<string, Value>, elapsed: string)
      returns (outcome: Outcome<LogError>)
      modifies this
      ensures files == Appended(old(files), PlannedAppend(lib, kwargs, elapsed))
      ensures outcome == match PlannedAppend(lib, kwargs, elapsed)
                         case Failure(e) => Fail(e)
                         case Success(_) => Pass
    {
      var payload := FormatValue(lib, Payload(kwargs));
      if payload.Failure? {
        return Fail(PayloadError(payload.error));
      }
      var entry := Terminated(EntryLines(TaskId(lib, kwargs), StepId(lib, kwargs), Question(lib, kwargs),
                                         Answer(lib, kwargs), payload.value, elapsed));
      var logFile := LogFile(kwargs);
      if !logFile.Str? {
        return Fail(TypeError);
      }
      var path := logFile.s;
      if '/' !in path {
        return Fail(FileNotFound);
      }
      if path[|path| - 1] == '/' {
        return Fail(IsADirectory);
      }
      files := files[path := Read(files, path) + entry];
      outcome := Pass;
    }
  }

  /** Two successful calls on the same fresh file leave exactly their two
      entries in it, in call order. */
  lemma AppendTwiceToFreshFile(path: string, firstEntry: string, secondEntry: string)
    ensures var files := Appended(Appended(map[], Success((path, firstEntry))), Success((path, secondEntry)));
      files.Keys == {path} && Read(files, path) == firstEntry + secondEntry
  {
    assert Appended(map[], Success((path, firstEntry))) == map[path := [] + firstEntry];
  }
}
