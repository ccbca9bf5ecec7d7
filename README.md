# everything-mcp: the tool-call core, modelled in Dafny

everything-mcp is a Model Context Protocol server that gives two tools,
`search` and `get_file_info`, on top of `es.exe`, the command-line interface
of the Everything file-search engine on Windows. A tool call goes through
these steps:

- Its `arguments` object is destructured with defaults.
- An argument vector for `es.exe` is built from the fields, token by token, in a fixed order.
- The process is run.
- Its end is classified: exit code 0 or 1 means success, any other end is a rejection.
- The result becomes one text response, or an `Error: …` response with `isError` set.

This project models that path in `index.js`, the `tools/call` handler and
`executeEverything`, and proves what it guarantees.

Modules:

- `Decimal` (`decimal.dfy`): `String(n)` for an integer `n`, with a parser as its partner.
- `EsArgs` (`es_args.dfy`): the argument records, the destructuring defaults, the search builder and the `get_file_info` vector.
  - `BuildSearchArgs` is an imperative method that appends to a local sequence step by step, as the handler pushes onto its array.
  - It is proved equal to the pure function `SearchArgv`.
- `SearchDecode` (`search_decode.dfy`): `DecodeSearch`, which reads a search vector back. It is the builder's inverse up to the differences that never reach `es.exe`.
- `ArgvLayout` (`argv_layout.dfy`): where each option's tokens sit in the vector.
  - Each boolean option, and each of `sortBy` and `parentPath`, has one lemma showing that setting it inserts exactly its own tokens at their own place.
  - The limit and the query are always present: `LimitFollowsModeFlags` and `QueryIsLast` place them.
  - The positions fix the order. That an unset option leaves no token that reads as its own follows from the decoder's round trip (`SearchDecode.UnsetRegexIsAbsent` spells this out for `-regex`).
- `Handler` (`handler.dfy`): the process outcome, its settlement into a result or a rejection, the error messages (with a reader that recovers the exit code and stderr), tool lookup, responses, and `CallTool`.
- `Wrappers` (`wrappers.dfy`): `Option`, with `GetOr` for destructuring defaults.

A field that the handler pushes without a check (`query`, `filename`) is an
`Arg`, either `Str(text)` or `Undefined`. An absent field therefore reaches
the vector as JavaScript `undefined`.

The handler does not validate its arguments. The tool schemas mark `query`
and `filename` as required (`index.js:149`, `index.js:164`), but the handler
does not check them, so the model follows the handler:

- A missing query is pushed as `undefined` (`Handler.MissingQueryPassedThrough`).
- A missing filename is passed the same way (`Handler.MissingFilenamePassedThrough`).
- What `spawn` then does with the vector depends on the runtime, so it belongs to the run function. If `spawn` throws (for instance on an argument holding a NUL character), the Promise executor turns the throw into a rejection with the thrown error's own message (`SpawnThrew`).

Likewise, `sortBy` is an enumeration in the tool schema, but any string is
accepted and placed into the sort token.

## Model

| member | source | states |
|---|---|---|
| EsArgs.DestructuringDefaults | index.js:179-193 | each boolean option is on only when given as `true`; `maxResults` is 50 unless given; the `query` passes through unchanged, an absent one as `undefined`; `sortBy` and `parentPath` pass through unchanged |
| EsArgs.SearchOptionsOf | index.js:179-193 | the destructuring with defaults; its meaning is stated by `EsArgs.DestructuringDefaults` |
| EsArgs.Truthy | index.js:211-216 | JavaScript truthiness of an optional string, present and non-empty; its effect is stated by `ArgvLayout.EmptyParentPathIgnored`, `ArgvLayout.SortDirectionNeedsField` and `SearchDecode.SearchArgvCanonical` |
| EsArgs.SortToken | index.js:217-218 | the combined sort token; `SearchDecode.SortFieldOfToken` shows it determines field and direction, `ArgvLayout.SortTokenInserted` where it goes |
| EsArgs.SearchArgv | index.js:195-226 | the search vector as one value; `EsArgs.BuildSearchArgs` is proved to build it, `SearchDecode.SearchArgvRoundTrip` to be decodable, the `ArgvLayout` lemmas give its layout |
| EsArgs.ArgOf | index.js:239 | an absent field becomes `undefined` and a present one its string, both ways |
| EsArgs.PushModeFlags | index.js:197-201 | appends exactly the mode-flag group (`-regex`, `-case`, `-whole-word`, `-match-path`, each when set, in that order) to the sequence |
| EsArgs.PushTypeFilters | index.js:206-208 | appends exactly `/ad` when `foldersOnly` and then `/a-d` when `filesOnly` |
| EsArgs.PushParentAndSort | index.js:210-219 | appends `-parent-path <path>` when the path is truthy, then one sort token when `sortBy` is truthy |
| EsArgs.PushColumns | index.js:221-223 | appends `-size` and then `-date-modified`, each when set |
| EsArgs.BuildSearchArgs | index.js:195-226 | the sequence appended to step by step equals the specification vector `SearchArgv` of the options |
| EsArgs.FileInfoArgv | index.js:241-250 | the `get_file_info` vector has 8 elements and the filename is the last |
| Decimal.NatToString | index.js:204 | the decimal text of a natural number is non-empty, all digits, and starts with `0` exactly for zero |
| Decimal.IntToString | index.js:204 | `String(n)` is non-empty and starts with `-` exactly for negative `n` |
| Decimal.IntToStringRoundTrip | index.js:204 | parsing `String(n)` gives back `n` for every integer |
| Decimal.IntToStringInjective | index.js:204 | two limits give the same `-n` text exactly when they are equal |
| Decimal.FiftyText | index.js:181 | the default limit is written `50` |
| SearchDecode.SortFieldOfToken | index.js:216-218 | a sort token `-sort-<field>-descending` or `-sort-<field>-ascending` names its field and direction, recoverably |
| SearchDecode.SearchArgvRoundTrip | index.js:195-226 | decoding a search vector gives back the options, with an empty `sortBy`/`parentPath` read as absent and `sortDescending` read as false without a sort field |
| SearchDecode.UnsetRegexIsAbsent | index.js:198 | when `regex` is unset the vector does not start with `-regex` |
| SearchDecode.SearchArgvCanonical | index.js:211-219 | options that differ only in an empty versus absent `sortBy`/`parentPath`, or in `sortDescending` without a sort field, give the same vector |
| SearchDecode.SearchArgvSameIff | index.js:195-226 | two option records give the same vector if and only if their canonical forms are equal |
| ArgvLayout.QueryIsLast | index.js:225-226 | the query is the last element, the vector has at least 3 elements, and changing the query changes only the last element |
| ArgvLayout.RegexFlagInserted | index.js:198 | setting `regex` inserts `-regex` at position 0 and changes nothing else |
| ArgvLayout.CaseFlagInserted | index.js:199 | setting `caseSensitive` inserts `-case` right after `-regex` (if present) and changes nothing else |
| ArgvLayout.WholeWordFlagInserted | index.js:200 | setting `wholeWord` inserts `-whole-word` after `-regex` and `-case` and changes nothing else |
| ArgvLayout.MatchPathFlagInserted | index.js:201 | setting `matchPath` inserts `-match-path` after the other mode flags and changes nothing else |
| ArgvLayout.ModesAreModeFlags | index.js:197-201 | there are as many mode tokens as modes set, and each is one of the four mode flags |
| ArgvLayout.LimitFollowsModeFlags | index.js:197-204 | `-n` and `String(maxResults)` come right after the mode flags, and every token before `-n` is a mode flag |
| ArgvLayout.DefaultLimitIsFifty | index.js:181-204 | without `maxResults`, the tokens at the limit's place are `-n`, `50` |
| ArgvLayout.BareQueryArgv | index.js:179-226 | a call with only a query runs `es.exe -n 50 <query>` |
| ArgvLayout.FoldersOnlyInserted | index.js:207 | setting `foldersOnly` inserts `/ad` right after the limit, whatever `filesOnly` is, and changes nothing else |
| ArgvLayout.FilesOnlyInserted | index.js:208 | setting `filesOnly` inserts `/a-d` after `/ad` (if present), whatever `foldersOnly` is, and changes nothing else |
| ArgvLayout.BothTypeFilters | index.js:207-208 | with both filters set, `/ad` and then `/a-d` follow the limit |
| ArgvLayout.ParentPathInserted | index.js:211-213 | a non-empty parent path inserts the two adjacent tokens `-parent-path`, path after the filters and changes nothing else |
| ArgvLayout.EmptyParentPathIgnored | index.js:211 | an empty parent path gives the same vector as an absent one |
| ArgvLayout.SortTokenInserted | index.js:216-219 | a non-empty `sortBy` inserts the single token `-sort-<field>-descending` or `-ascending` after the parent-path tokens and changes nothing else |
| ArgvLayout.SortDirectionNeedsField | index.js:216-219 | without a sort field, or with an empty one, `sortDescending` changes nothing and no sort token appears |
| ArgvLayout.SizeColumnInserted | index.js:222 | setting `showSize` inserts `-size` just ahead of `-date-modified` (if present) and the query, and changes nothing else |
| ArgvLayout.DateModifiedColumnInserted | index.js:223 | setting `showDateModified` inserts `-date-modified` just ahead of the query and changes nothing else |
| ArgvLayout.FileInfoLayout | index.js:241-250 | the `get_file_info` vector is `-size -date-created -date-modified -date-accessed -attributes -n 1` and then the filename, whatever the filename is |
| Handler.Settle | index.js:32-43 | a run resolves exactly when the process exits with 0 or 1, keeping stdout, stderr and the code; any other exit rejects with `es.exe exited with code <code>: <stderr>`; a launch error rejects with `Failed to execute es.exe: <reason>`; a throw from `spawn` rejects with its own message |
| Handler.CodeText | index.js:35 | the exit code as a template literal writes it, a number or `null`; read back by `Handler.ExitMessageRoundTrip` |
| Handler.ExitMessage | index.js:35 | the exit rejection message; `Handler.ExitMessageRoundTrip` shows the code and stderr are recoverable from it |
| Handler.LaunchMessage | index.js:42 | the launch rejection message; `Handler.LaunchMessageIsNotExitMessage` shows it is told apart from exit messages |
| Handler.ExitMessageRoundTrip | index.js:35 | the exit code (a number or `null`) and the whole stderr text can be read back from the exit rejection message |
| Handler.LaunchMessageIsNotExitMessage | index.js:41-43 | a launch-failure message never reads as an exit message |
| Handler.ToolNamed | index.js:178-264 | exactly the names `search` and `get_file_info` are tools |
| Handler.ToolArgv | index.js:178-252 | `search` runs the search vector, whose last element is the query; `get_file_info` runs the 8-element vector asking for one result, whose last element is the filename; an absent field is passed as `undefined` (see also `Handler.CallToolSucceedsIff`, `Handler.ToolRunsItsVector`, `Handler.MissingQueryPassedThrough`) |
| Handler.Placeholder | index.js:234-258 | `No results found` for a search and `File not found` for a file lookup; used by `Handler.SuccessText` |
| Handler.TextResponse | index.js:234-258 | stdout, or the placeholder when stdout is empty (falsy), as a non-error response; stated by `Handler.SuccessText` |
| Handler.ErrorResponse | index.js:266-274 | `Error: ` and the message, with `isError`; stated by `Handler.ErrorText` |
| Handler.Respond | index.js:228-261 | a resolved run answers its text, a rejected one an error; stated by `Handler.CallToolSucceedsIff`, `Handler.SuccessText`, `Handler.ErrorText` |
| Handler.CallTool | index.js:174-275 | the whole handler; every response has non-empty text and every error response starts with `Error: `; the lemmas below state the rest |
| Handler.CallToolSucceedsIff | index.js:174-275 | a call succeeds if and only if its name is a tool and `es.exe` exits with 0 or 1 |
| Handler.SuccessText | index.js:230-261 | success answers with stdout, or with `No results found` / `File not found` when stdout is empty, so the answer is never empty |
| Handler.ErrorText | index.js:264-274 | every failure is `Error: ` followed by the unknown-tool, exit, launch or spawn message that matches its cause |
| Handler.UnknownToolNeverRuns | index.js:264 | an unknown name answers `Error: Unknown tool: <name>` with `isError`, whatever the process would do |
| Handler.ToolRunsItsVector | index.js:228-252 | a known tool's response depends on the process only through the run on that tool's own vector |
| Handler.MissingQueryPassedThrough | index.js:226 | a search without a query runs with `undefined` as the last element |
| Handler.MissingFilenamePassedThrough | index.js:239-250 | a file-info call without a filename runs with `undefined` as the eighth element |
| Handler.SearchWithoutMatches | index.js:33-37 | exit code 1 with empty stdout answers `No results found` and is not an error |
| Handler.KilledProcessReportsNull | index.js:32-35 | a process killed by a signal (no exit code) is reported as `exited with code null`, whatever it wrote to stdout |

## Left out

- Spawning `es.exe` and the `data`, `close` and `error` events: a run is a function from the vector to how the process ended, and stdout/stderr are the complete texts rather than chunks appended as they arrive.
- The order of the `error` and `close` events: the model has one outcome per run. In the source, whichever event fires first settles the Promise.
- The `Server` object, the `tools/list` handler with its schemas (`index.js:62-168`), `main` and the stdio transport: protocol wiring with no logic of its own.
- `ES_PATH` and its environment override (`index.js:13`): the path is not part of the vector. It can reach a response only inside a launch failure's reason (Node writes it into `err.message`, e.g. `spawn <path> ENOENT`), which the model takes as an opaque string.
- Runs that never end: `executeEverything` waits for `close` or `error` with no timeout, so a process that never ends leaves the call unanswered. The model assumes every run ends, since `run` is a total function.
- Loosely typed arguments: each field has its schema type, except `maxResults`, which the model types as an integer although the schema says `number`. JavaScript truthiness of other values, such as a number given for `regex`, is not modelled; empty strings are.
- Decimal.IntToString: writes every integer in exact plain decimal. It equals JavaScript's `String(n)` only for `|n| <= 2^53`. Beyond that a double prints its shortest round-trip digits followed by zeros (2^60 prints as `1152921504606847000`). From 10^21 it prints in exponent notation, and fractions are not modelled at all.
- JavaScript strings are UTF-16 code units, while a Dafny `string` holds Unicode scalar values, so a `query` or `parentPath` with a lone surrogate has no model value. Nothing in the core depends on this: it only concatenates strings, compares them and tests them for emptiness.
- A call without an `arguments` object: destructuring `undefined` throws a TypeError whose message depends on the engine.
- A tool name that is not a string: the model takes names as strings.
- The `type: "text"` tag and the one-element `content` array: a response is its text and its `isError` flag.
