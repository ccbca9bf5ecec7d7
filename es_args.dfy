/**
 * The argument vectors that the server hands to `es.exe`, the command-line
 * interface of the Everything file-search engine.
 *
 * A tool call's `arguments` object is destructured with defaults into
 * `SearchOptions`; `BuildSearchArgs` then pushes the tokens one by one in a
 * fixed order (mode flags, `-n <max>`, folder/file filters, parent path,
 * sort, display columns, query). `SearchArgv` is the same vector as one
 * value, and `DecodeSearch` reads it back.
 */
module EsArgs {
  import opened Wrappers
  import Decimal

  /**
   * One element of the JavaScript array given to `spawn`: a string, or
   * `undefined` when a field that is pushed unchecked was left out.
   */
  datatype Arg = Str(text: string) | Undefined

  /**
   * The `arguments` object of a tool call: each field absent or of its schema
   * type, except `maxResults`, which is an integer here and a `number` there.
   */
  datatype ToolArgs = ToolArgs(
    query: Option<string>,
    maxResults: Option<int>,
    regex: Option<bool>,
    caseSensitive: Option<bool>,
    wholeWord: Option<bool>,
    matchPath: Option<bool>,
    foldersOnly: Option<bool>,
    filesOnly: Option<bool>,
    sortBy: Option<string>,
    sortDescending: Option<bool>,
    showSize: Option<bool>,
    showDateModified: Option<bool>,
    parentPath: Option<string>,
    filename: Option<string>)

  /** The search fields after destructuring, defaults filled in. */
  datatype SearchOptions = SearchOptions(
    query: Arg,
    maxResults: int,
    regex: bool,
    caseSensitive: bool,
    wholeWord: bool,
    matchPath: bool,
    foldersOnly: bool,
    filesOnly: bool,
    sortBy: Option<string>,
    sortDescending: bool,
    showSize: bool,
    showDateModified: bool,
    parentPath: Option<string>)

  const RegexFlag: string := "-regex"
  const CaseFlag: string := "-case"
  const WholeWordFlag: string := "-whole-word"
  const MatchPathFlag: string := "-match-path"
  const LimitFlag: string := "-n"
  const FoldersOnlyFlag: string := "/ad"
  const FilesOnlyFlag: string := "/a-d"
  const ParentPathFlag: string := "-parent-path"
  const SortPrefix: string := "-sort-"
  const Descending: string := "-descending"
  const Ascending: string := "-ascending"
  const SizeFlag: string := "-size"
  const DateCreatedFlag: string := "-date-created"
  const DateModifiedFlag: string := "-date-modified"
  const DateAccessedFlag: string := "-date-accessed"
  const AttributesFlag: string := "-attributes"
  const DefaultMaxResults: int := 50

  /** The value a destructured field that is pushed without a check holds. */
  function ArgOf(field: Option<string>): (a: Arg)
    ensures field.None? <==> a == Undefined
    ensures field.Some? ==> a == Str(field.value)
  {
    match field
    case Some(s) => Str(s)
    case None => Undefined
  }

  /** JavaScript truthiness of an optional string: present and non-empty. */
  predicate Truthy(s: Option<string>) {
    s.Some? && s.value != ""
  }

  /** Destructuring of the search arguments with their defaults. */
  function SearchOptionsOf(args: ToolArgs): SearchOptions {
    SearchOptions(
      query := ArgOf(args.query),
      maxResults := args.maxResults.GetOr(DefaultMaxResults),
      regex := args.regex.GetOr(false),
      caseSensitive := args.caseSensitive.GetOr(false),
      wholeWord := args.wholeWord.GetOr(false),
      matchPath := args.matchPath.GetOr(false),
      foldersOnly := args.foldersOnly.GetOr(false),
      filesOnly := args.filesOnly.GetOr(false),
      sortBy := args.sortBy,
      sortDescending := args.sortDescending.GetOr(false),
      showSize := args.showSize.GetOr(false),
      showDateModified := args.showDateModified.GetOr(false),
      parentPath := args.parentPath)
  }

  /**
   * Each flag is on only when it was given as `true`; the limit is 50 unless
   * given; the query passes through, an absent one as `undefined`; the
   * optional strings pass through as they are.
   */
  lemma DestructuringDefaults(args: ToolArgs)
    ensures var o := SearchOptionsOf(args);
      (o.regex <==> args.regex == Some(true)) && (o.caseSensitive <==> args.caseSensitive == Some(true))
      && (o.wholeWord <==> args.wholeWord == Some(true)) && (o.matchPath <==> args.matchPath == Some(true))
      && (o.foldersOnly <==> args.foldersOnly == Some(true)) && (o.filesOnly <==> args.filesOnly == Some(true))
      && (o.sortDescending <==> args.sortDescending == Some(true)) && (o.showSize <==> args.showSize == Some(true))
      && (o.showDateModified <==> args.showDateModified == Some(true))
      && o.maxResults == (if args.maxResults.Some? then args.maxResults.value else 50)
      && o.query == ArgOf(args.query)
      && o.sortBy == args.sortBy && o.parentPath == args.parentPath
  {
  }

  function FlagIf(b: bool, flag: string): seq<Arg> {
    if b then [Str(flag)] else []
  }

  /** The combined sort token, e.g. `-sort-size-descending`. */
  function SortToken(sortBy: string, descending: bool): string {
    SortPrefix + sortBy + (if descending then Descending else Ascending)
  }

  // Each group of tokens is a function of the fields it reads and of nothing else.

  function ModeFlags(regex: bool, caseSensitive: bool, wholeWord: bool, matchPath: bool): seq<Arg> {
    FlagIf(regex, RegexFlag) + FlagIf(caseSensitive, CaseFlag)
    + FlagIf(wholeWord, WholeWordFlag) + FlagIf(matchPath, MatchPathFlag)
  }

  function LimitTokens(maxResults: int): seq<Arg> {
    [Str(LimitFlag), Str(Decimal.IntToString(maxResults))]
  }

  function TypeFilters(foldersOnly: bool, filesOnly: bool): seq<Arg> {
    FlagIf(foldersOnly, FoldersOnlyFlag) + FlagIf(filesOnly, FilesOnlyFlag)
  }

  function ParentTokens(parentPath: Option<string>): seq<Arg> {
    if Truthy(parentPath) then [Str(ParentPathFlag), Str(parentPath.value)] else []
  }

  function SortTokens(sortBy: Option<string>, descending: bool): seq<Arg> {
    if Truthy(sortBy) then [Str(SortToken(sortBy.value, descending))] else []
  }

  function ColumnTokens(showSize: bool, showDateModified: bool): seq<Arg> {
    FlagIf(showSize, SizeFlag) + FlagIf(showDateModified, DateModifiedFlag)
  }

  function Modes(o: SearchOptions): seq<Arg> {
    ModeFlags(o.regex, o.caseSensitive, o.wholeWord, o.matchPath)
  }

  /** Every token but the query, in emission order. */
  function SearchFlags(o: SearchOptions): seq<Arg> {
    Modes(o) + LimitTokens(o.maxResults) + TypeFilters(o.foldersOnly, o.filesOnly)
    + ParentTokens(o.parentPath) + SortTokens(o.sortBy, o.sortDescending)
    + ColumnTokens(o.showSize, o.showDateModified)
  }

  /** The argument vector searched for: the flags, then the query. */
  function SearchArgv(o: SearchOptions): seq<Arg> {
    SearchFlags(o) + [o.query]
  }

  /** Pushes the search-mode flags that are set. */
  method PushModeFlags(esArgs: seq<Arg>, o: SearchOptions) returns (r: seq<Arg>)
    ensures r == esArgs + Modes(o)
  {
    r := esArgs;
    if o.regex { r := r + [Str(RegexFlag)]; }
    if o.caseSensitive { r := r + [Str(CaseFlag)]; }
    if o.wholeWord { r := r + [Str(WholeWordFlag)]; }
    if o.matchPath { r := r + [Str(MatchPathFlag)]; }
  }

  /** Pushes the folder and file filters that are set. */
  method PushTypeFilters(esArgs: seq<Arg>, o: SearchOptions) returns (r: seq<Arg>)
    ensures r == esArgs + TypeFilters(o.foldersOnly, o.filesOnly)
  {
    r := esArgs;
    if o.foldersOnly { r := r + [Str(FoldersOnlyFlag)]; }
    if o.filesOnly { r := r + [Str(FilesOnlyFlag)]; }
  }

  /** Pushes the parent-path filter and the sort token when their fields are truthy. */
  method PushParentAndSort(esArgs: seq<Arg>, o: SearchOptions) returns (r: seq<Arg>)
    ensures r == esArgs + ParentTokens(o.parentPath) + SortTokens(o.sortBy, o.sortDescending)
  {
    r := esArgs;
    if Truthy(o.parentPath) {
      r := r + [Str(ParentPathFlag), Str(o.parentPath.value)];
    }
    var beforeSort := r;
    if Truthy(o.sortBy) {
      var sortOrder := if o.sortDescending then Descending else Ascending;
      r := r + [Str(SortPrefix + o.sortBy.value + sortOrder)];
    }
    assert r == beforeSort + SortTokens(o.sortBy, o.sortDescending);
  }

  /** Pushes the display-column flags that are set. */
  method PushColumns(esArgs: seq<Arg>, o: SearchOptions) returns (r: seq<Arg>)
    ensures r == esArgs + ColumnTokens(o.showSize, o.showDateModified)
  {
    r := esArgs;
    if o.showSize { r := r + [Str(SizeFlag)]; }
    if o.showDateModified { r := r + [Str(DateModifiedFlag)]; }
  }

  /** The search arguments built as the handler builds them, appended to an empty sequence. */
  method BuildSearchArgs(o: SearchOptions) returns (esArgs: seq<Arg>)
    ensures esArgs == SearchArgv(o)
  {
    esArgs := [];
    esArgs := PushModeFlags(esArgs, o);
    assert esArgs == Modes(o);
    esArgs := esArgs + [Str(LimitFlag), Str(Decimal.IntToString(o.maxResults))];
    assert esArgs == Modes(o) + LimitTokens(o.maxResults);
    esArgs := PushTypeFilters(esArgs, o);
    esArgs := PushParentAndSort(esArgs, o);
    esArgs := PushColumns(esArgs, o);
    assert esArgs == SearchFlags(o);
    esArgs := esArgs + [o.query];
  }

  /** The fixed `get_file_info` vector: size, three dates, attributes, one result, the name. */
  function FileInfoArgv(filename: Arg): (r: seq<Arg>)
    ensures |r| == 8 && r[7] == filename
  {
    [Str(SizeFlag), Str(DateCreatedFlag), Str(DateModifiedFlag), Str(DateAccessedFlag),
     Str(AttributesFlag), Str(LimitFlag), Str("1"), filename]
  }
}
