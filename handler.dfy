/**
 * The `tools/call` handler: which vector a tool runs `es.exe` with, how the
 * child process's end is turned into a resolved result or a rejection
 * (`executeEverything`), and how that becomes the tool's response.
 *
 * Spawning the process and collecting its output are not modelled: a run is
 * a function from the argument vector to the `ProcessOutcome` the process
 * ends with. A throw from `spawn` itself happens inside the Promise executor,
 * so it rejects with the thrown error unchanged.
 */
module Handler {
  import opened Wrappers
  import Decimal
  import opened EsArgs

  /** How the child process ended, with everything it wrote to stdout and stderr. */
  datatype ProcessOutcome =
    | Exited(code: Option<int>, stdout: string, stderr: string)  // `close`; `None` when killed by a signal
    | LaunchFailed(message: string)                              // `error`, e.g. es.exe missing
    | SpawnThrew(message: string)                                // `spawn` throws, e.g. on an argument holding a NUL character

  /** The value `executeEverything` resolves with. */
  datatype ProcessResult = ProcessResult(stdout: string, stderr: string, code: int)

  datatype Settled = Resolved(result: ProcessResult) | Rejected(message: string)

  const ExitPrefix: string := "es.exe exited with code "
  const LaunchPrefix: string := "Failed to execute es.exe: "
  const SearchTool: string := "search"
  const FileInfoTool: string := "get_file_info"
  const NoResults: string := "No results found"
  const FileNotFound: string := "File not found"
  const UnknownToolPrefix: string := "Unknown tool: "
  const ErrorPrefix: string := "Error: "

  /** How a template literal writes the exit code: the number, or `null`. */
  function CodeText(code: Option<int>): string {
    match code
    case None => "null"
    case Some(n) => Decimal.IntToString(n)
  }

  function ExitMessage(code: Option<int>, stderr: string): string {
    ExitPrefix + CodeText(code) + ": " + stderr
  }

  function LaunchMessage(reason: string): string {
    LaunchPrefix + reason
  }

  /** Exit codes 0 and 1 (no results) resolve; any other end of the process rejects. */
  function Settle(outcome: ProcessOutcome): (s: Settled)
    ensures s.Resolved? <==> outcome.Exited? && outcome.code in {Some(0), Some(1)}
    ensures s.Resolved? ==>
      (Some(s.result.code) == outcome.code && s.result.stdout == outcome.stdout && s.result.stderr == outcome.stderr)
    ensures s.Rejected? && outcome.Exited? ==> s.message == ExitMessage(outcome.code, outcome.stderr)
    ensures outcome.LaunchFailed? ==> s.message == LaunchMessage(outcome.message)
    ensures outcome.SpawnThrew? ==> s.message == outcome.message
  {
    match outcome
    case SpawnThrew(message) => Rejected(message)
    case LaunchFailed(reason) => Rejected(LaunchMessage(reason))
    case Exited(code, stdout, stderr) =>
      if code != Some(0) && code != Some(1) then Rejected(ExitMessage(code, stderr))
      else Resolved(ProcessResult(stdout, stderr, code.value))
  }

  // ----- Reading a rejection message back -----

  /** The first position of `c` in `s`, or `|s|` when there is none. */
  function Find(s: string, c: char): (i: nat)
    ensures i <= |s|
    ensures i < |s| ==> s[i] == c
    ensures forall j :: 0 <= j < i ==> s[j] != c
  {
    if |s| == 0 then 0
    else if s[0] == c then 0
    else 1 + Find(s[1..], c)
  }

  function ReadCode(t: string): Option<Option<int>> {
    if t == "null" then Some(None)
    else match Decimal.ParseInt(t)
      case None => None
      case Some(n) => Some(Some(n))
  }

  /** The exit code and stderr named by an exit message, or `None` for any other text. */
  function ReadExitMessage(m: string): Option<(Option<int>, string)> {
    if |m| < |ExitPrefix| || m[..|ExitPrefix|] != ExitPrefix then None
    else
      var rest := m[|ExitPrefix|..];
      var i := Find(rest, ':');
      if i + 2 > |rest| || rest[i + 1] != ' ' then None
      else match ReadCode(rest[..i])
        case None => None
        case Some(code) => Some((code, rest[i + 2..]))
  }

  lemma CodeTextHasNoColon(code: Option<int>)
    ensures forall j :: 0 <= j < |CodeText(code)| ==> CodeText(code)[j] != ':'
  {
    if code.Some? && code.value < 0 {
      var digits := Decimal.NatToString(-code.value);
      assert CodeText(code) == "-" + digits;
      assert forall j :: 1 <= j < |CodeText(code)| ==> CodeText(code)[j] == digits[j - 1];
    }
  }

  lemma ReadCodeText(code: Option<int>)
    ensures ReadCode(CodeText(code)) == Some(code)
  {
    if code.Some? {
      var t := CodeText(code);
      Decimal.IntToStringRoundTrip(code.value);
      if code.value >= 0 {
        assert Decimal.IsDigit(t[0]);
      }
      assert t[0] != 'n';
    }
  }

  /**
   * An exit rejection loses nothing: the exit code (or its absence) and the
   * whole of stderr can be read back from its message.
   */
  lemma ExitMessageRoundTrip(code: Option<int>, stderr: string)
    ensures ReadExitMessage(ExitMessage(code, stderr)) == Some((code, stderr))
  {
    var t := CodeText(code);
    var m := ExitMessage(code, stderr);
    var rest := t + ": " + stderr;
    assert m == ExitPrefix + rest;
    assert m[..|ExitPrefix|] == ExitPrefix;
    assert m[|ExitPrefix|..] == rest;
    CodeTextHasNoColon(code);
    assert rest[|t|] == ':';
    var i := Find(rest, ':');
    assert i == |t|;
    assert rest[..i] == t;
    assert rest[i + 2..] == stderr;
    ReadCodeText(code);
  }

  /** A launch failure's message is never mistaken for an exit message. */
  lemma LaunchMessageIsNotExitMessage(reason: string)
    ensures ReadExitMessage(LaunchMessage(reason)) == None
  {
    var m := LaunchMessage(reason);
    if |m| >= |ExitPrefix| {
      assert m[0] == 'F' && ExitPrefix[0] == 'e';
      assert m[..|ExitPrefix|][0] == m[0];
    }
  }

  // ----- Tools and responses -----

  datatype Tool = Search | GetFileInfo

  /** The two tools the server answers to, by name. */
  function ToolNamed(name: string): (t: Option<Tool>)
    ensures t == Some(Search) <==> name == SearchTool
    ensures t == Some(GetFileInfo) <==> name == FileInfoTool
    ensures t.None? <==> name != SearchTool && name != FileInfoTool
  {
    if name == SearchTool then Some(Search)
    else if name == FileInfoTool then Some(GetFileInfo)
    else None
  }

  /**
   * The vector `es.exe` is run with for a tool call: the search vector ends
   * with the query, the `get_file_info` vector asks for one result and ends
   * with the filename; either way an absent field is passed as `undefined`.
   */
  function ToolArgv(tool: Tool, args: ToolArgs): (v: seq<Arg>)
    ensures tool == Search ==> |v| >= 3 && v[|v| - 1] == ArgOf(args.query)
    ensures tool == GetFileInfo ==>
      |v| == 8 && v[5] == Str(LimitFlag) && v[6] == Str("1") && v[7] == ArgOf(args.filename)
  {
    match tool
    case Search => SearchArgv(SearchOptionsOf(args))
    case GetFileInfo => FileInfoArgv(ArgOf(args.filename))
  }

  /** What a tool answers when `es.exe` succeeds without printing anything. */
  function Placeholder(tool: Tool): string {
    match tool
    case Search => NoResults
    case GetFileInfo => FileNotFound
  }

  /** One text content item; `isError` is set only on the error path. */
  datatype Response = Response(text: string, isError: bool)

  function ErrorResponse(message: string): Response {
    Response(ErrorPrefix + message, true)
  }

  /** `result.stdout || placeholder`: an empty stdout is falsy. */
  function TextResponse(stdout: string, placeholder: string): Response {
    Response(if stdout != "" then stdout else placeholder, false)
  }

  /** The response to a settled run of a tool. */
  function Respond(tool: Tool, settled: Settled): Response {
    match settled
    case Resolved(result) => TextResponse(result.stdout, Placeholder(tool))
    case Rejected(message) => ErrorResponse(message)
  }

  /**
   * The whole handler: an unknown name is an error without running anything;
   * a known tool runs `es.exe` once with its vector, and every rejection is
   * caught and becomes an error response.
   */
  function CallTool(name: string, args: ToolArgs, run: seq<Arg> -> ProcessOutcome): (r: Response)
    ensures |r.text| > 0
    ensures r.isError ==> |r.text| >= |ErrorPrefix| && r.text[..|ErrorPrefix|] == ErrorPrefix
  {
    match ToolNamed(name)
    case None => ErrorResponse(UnknownToolPrefix + name)
    case Some(tool) => Respond(tool, Settle(run(ToolArgv(tool, args))))
  }

  // ----- What the handler promises -----

  /** A call succeeds exactly when the name is a tool and `es.exe` exits with 0 or 1. */
  lemma CallToolSucceedsIff(name: string, args: ToolArgs, run: seq<Arg> -> ProcessOutcome)
    ensures !CallTool(name, args, run).isError
      <==> ToolNamed(name).Some?
           && var out := run(ToolArgv(ToolNamed(name).value, args));
              out.Exited? && out.code in {Some(0), Some(1)}
  {
  }

  /**
   * A successful call answers with stdout, or with the tool's placeholder
   * when stdout is empty; so the answer is never empty.
   */
  lemma SuccessText(name: string, args: ToolArgs, run: seq<Arg> -> ProcessOutcome)
    requires !CallTool(name, args, run).isError
    ensures var tool := ToolNamed(name).value;
      var out := run(ToolArgv(tool, args));
      CallTool(name, args, run).text == (if out.stdout == "" then Placeholder(tool) else out.stdout)
      && CallTool(name, args, run).text != ""
  {
  }

  /** Every failed call's text is `Error: ` and a message naming the cause. */
  lemma ErrorText(name: string, args: ToolArgs, run: seq<Arg> -> ProcessOutcome)
    requires CallTool(name, args, run).isError
    ensures var text := CallTool(name, args, run).text;
      ToolNamed(name).None? ==> text == ErrorPrefix + UnknownToolPrefix + name
    ensures ToolNamed(name).Some? ==>
      var out := run(ToolArgv(ToolNamed(name).value, args));
      var text := CallTool(name, args, run).text;
      (out.LaunchFailed? ==> text == ErrorPrefix + LaunchMessage(out.message))
      && (out.SpawnThrew? ==> text == ErrorPrefix + out.message)
      && (out.Exited? ==> text == ErrorPrefix + ExitMessage(out.code, out.stderr))
  {
  }

  /** An unknown tool never runs `es.exe`: the response does not depend on the run. */
  lemma UnknownToolNeverRuns(name: string, args: ToolArgs, run1: seq<Arg> -> ProcessOutcome,
                             run2: seq<Arg> -> ProcessOutcome)
    requires name != SearchTool && name != FileInfoTool
    ensures CallTool(name, args, run1) == CallTool(name, args, run2)
    ensures CallTool(name, args, run1) == Response("Error: Unknown tool: " + name, true)
  {
  }

  /** A known tool runs `es.exe` with its own vector and with nothing else. */
  lemma ToolRunsItsVector(name: string, args: ToolArgs, run1: seq<Arg> -> ProcessOutcome,
                          run2: seq<Arg> -> ProcessOutcome)
    requires ToolNamed(name).Some?
    requires run1(ToolArgv(ToolNamed(name).value, args)) == run2(ToolArgv(ToolNamed(name).value, args))
    ensures CallTool(name, args, run1) == CallTool(name, args, run2)
  {
  }

  /** Without a query the search runs anyway, with `undefined` as the last element. */
  lemma MissingQueryPassedThrough(args: ToolArgs)
    requires args.query.None?
    ensures var argv := ToolArgv(Search, args); |argv| > 0 && argv[|argv| - 1] == Undefined
  {
    assert SearchOptionsOf(args).query == Undefined;
  }

  /** Without a filename the lookup runs anyway, with `undefined` as the last element. */
  lemma MissingFilenamePassedThrough(args: ToolArgs)
    requires args.filename.None?
    ensures var argv := ToolArgv(GetFileInfo, args); |argv| == 8 && argv[7] == Undefined
  {
  }

  /** A search whose `es.exe` exits with 1 and prints nothing reports no results, not an error. */
  lemma SearchWithoutMatches(args: ToolArgs, run: seq<Arg> -> ProcessOutcome, stderr: string)
    requires run(SearchArgv(SearchOptionsOf(args))) == Exited(Some(1), "", stderr)
    ensures CallTool("search", args, run) == Response("No results found", false)
  {
  }

  /** A signal-killed `es.exe` is reported with the code `null`, whatever it printed. */
  lemma KilledProcessReportsNull(name: string, args: ToolArgs, run: seq<Arg> -> ProcessOutcome,
                                 stdout: string, stderr: string)
    requires ToolNamed(name).Some?
    requires run(ToolArgv(ToolNamed(name).value, args)) == Exited(None, stdout, stderr)
    ensures CallTool(name, args, run) == Response(ErrorPrefix + (ExitPrefix + "null" + ": " + stderr), true)
  {
  }
}
