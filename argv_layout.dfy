/**
 * Where each option's tokens sit in the search vector, and what fills the
 * `get_file_info` vector.
 *
 * Each boolean option is described by one lemma: setting it inserts exactly
 * its own token at its own place and changes nothing else, and the positions
 * fix the order of the tokens. That an unset option leaves no token that
 * could be read as its own follows from the round trip in `SearchDecode`.
 */
module ArgvLayout {
  import Decimal
  import opened Wrappers
  import opened EsArgs

  /**
   * The query is the final element, and nothing before it depends on the
   * query: replacing the query changes only the last element.
   */
  lemma QueryIsLast(o: SearchOptions, q: Arg)
    ensures |SearchArgv(o)| >= 3 && SearchArgv(o)[|SearchArgv(o)| - 1] == o.query
    ensures SearchArgv(o.(query := q)) == SearchArgv(o)[..|SearchArgv(o)| - 1] + [q]
  {
    assert SearchArgv(o)[..|SearchArgv(o)| - 1] == SearchFlags(o);
  }

  function Count(b: bool): nat {
    if b then 1 else 0
  }

  /** `s` with the tokens `t` inserted at position `i`. */
  function InsertAt(s: seq<Arg>, i: nat, t: seq<Arg>): seq<Arg>
    requires i <= |s|
  {
    s[..i] + t + s[i..]
  }

  /** Inserting `t` into the middle of one group of a vector. */
  lemma InsertInGroup(before: seq<Arg>, x: seq<Arg>, t: seq<Arg>, y: seq<Arg>, after: seq<Arg>)
    ensures InsertAt(before + (x + y) + after, |before| + |x|, t) == before + (x + t + y) + after
  {
    var s := before + (x + y) + after;
    assert s == (before + x) + (y + after);
    assert s[..|before| + |x|] == before + x;
    assert s[|before| + |x|..] == y + after;
  }

  /** A vector that differs from another by `t` inside its first group is that one with `t` inserted. */
  lemma InsertedAt(with: seq<Arg>, without: seq<Arg>, x: seq<Arg>, t: seq<Arg>, y: seq<Arg>,
                   after: seq<Arg>, i: nat)
    requires with == [] + (x + t + y) + after
    requires without == [] + (x + y) + after
    requires i == |x|
    ensures i <= |without| && with == InsertAt(without, i, t)
  {
    InsertInGroup([], x, t, y, after);
  }

  // ----- The vector cut around each group of tokens -----

  /** Number of mode flags set: the position of `-n`. */
  function LimitIndex(o: SearchOptions): nat {
    Count(o.regex) + Count(o.caseSensitive) + Count(o.wholeWord) + Count(o.matchPath)
  }

  function AfterModes(o: SearchOptions): seq<Arg> {
    LimitTokens(o.maxResults) + TypeFilters(o.foldersOnly, o.filesOnly) + ParentTokens(o.parentPath)
    + SortTokens(o.sortBy, o.sortDescending) + ColumnTokens(o.showSize, o.showDateModified) + [o.query]
  }

  function BeforeFilters(o: SearchOptions): seq<Arg> {
    Modes(o) + LimitTokens(o.maxResults)
  }

  function AfterFilters(o: SearchOptions): seq<Arg> {
    ParentTokens(o.parentPath) + SortTokens(o.sortBy, o.sortDescending)
    + ColumnTokens(o.showSize, o.showDateModified) + [o.query]
  }

  /** Offset of the parent-path tokens: after the mode flags, the limit and the filters. */
  function ParentIndex(o: SearchOptions): nat {
    LimitIndex(o) + 2 + Count(o.foldersOnly) + Count(o.filesOnly)
  }

  function BeforeParent(o: SearchOptions): seq<Arg> {
    Modes(o) + LimitTokens(o.maxResults) + TypeFilters(o.foldersOnly, o.filesOnly)
  }

  function AfterParent(o: SearchOptions): seq<Arg> {
    SortTokens(o.sortBy, o.sortDescending) + ColumnTokens(o.showSize, o.showDateModified) + [o.query]
  }

  function BeforeSort(o: SearchOptions): seq<Arg> {
    Modes(o) + LimitTokens(o.maxResults) + TypeFilters(o.foldersOnly, o.filesOnly) + ParentTokens(o.parentPath)
  }

  function AfterSort(o: SearchOptions): seq<Arg> {
    ColumnTokens(o.showSize, o.showDateModified) + [o.query]
  }

  function BeforeColumns(o: SearchOptions): seq<Arg> {
    Modes(o) + LimitTokens(o.maxResults) + TypeFilters(o.foldersOnly, o.filesOnly)
    + ParentTokens(o.parentPath) + SortTokens(o.sortBy, o.sortDescending)
  }

  lemma ModesCut(o: SearchOptions)
    ensures SearchArgv(o) == [] + Modes(o) + AfterModes(o)
  {
    Regroup(Modes(o), LimitTokens(o.maxResults), TypeFilters(o.foldersOnly, o.filesOnly),
            ParentTokens(o.parentPath), SortTokens(o.sortBy, o.sortDescending),
            ColumnTokens(o.showSize, o.showDateModified), [o.query]);
  }

  lemma FiltersCut(o: SearchOptions)
    ensures SearchArgv(o) == BeforeFilters(o) + TypeFilters(o.foldersOnly, o.filesOnly) + AfterFilters(o)
    ensures |BeforeFilters(o)| == LimitIndex(o) + 2
  {
    Regroup(Modes(o), LimitTokens(o.maxResults), TypeFilters(o.foldersOnly, o.filesOnly),
            ParentTokens(o.parentPath), SortTokens(o.sortBy, o.sortDescending),
            ColumnTokens(o.showSize, o.showDateModified), [o.query]);
  }

  lemma ParentCut(o: SearchOptions)
    ensures SearchArgv(o) == BeforeParent(o) + ParentTokens(o.parentPath) + AfterParent(o)
    ensures |BeforeParent(o)| == ParentIndex(o)
  {
    Regroup(Modes(o), LimitTokens(o.maxResults), TypeFilters(o.foldersOnly, o.filesOnly),
            ParentTokens(o.parentPath), SortTokens(o.sortBy, o.sortDescending),
            ColumnTokens(o.showSize, o.showDateModified), [o.query]);
  }

  lemma SortCut(o: SearchOptions)
    ensures SearchArgv(o) == BeforeSort(o) + SortTokens(o.sortBy, o.sortDescending) + AfterSort(o)
    ensures |BeforeSort(o)| == ParentIndex(o) + |ParentTokens(o.parentPath)|
  {
    Regroup(Modes(o), LimitTokens(o.maxResults), TypeFilters(o.foldersOnly, o.filesOnly),
            ParentTokens(o.parentPath), SortTokens(o.sortBy, o.sortDescending),
            ColumnTokens(o.showSize, o.showDateModified), [o.query]);
  }

  lemma ColumnsCut(o: SearchOptions)
    ensures SearchArgv(o) == BeforeColumns(o) + ColumnTokens(o.showSize, o.showDateModified) + [o.query]
  {
  }

  /** The ways of grouping seven segments that the cuts above use. */
  lemma Regroup(a: seq<Arg>, b: seq<Arg>, c: seq<Arg>, d: seq<Arg>, e: seq<Arg>, f: seq<Arg>, g: seq<Arg>)
    ensures a + b + c + d + e + f + g == [] + a + (b + c + d + e + f + g)
    ensures a + b + c + d + e + f + g == (a + b) + c + (d + e + f + g)
    ensures a + b + c + d + e + f + g == (a + b + c) + d + (e + f + g)
    ensures a + b + c + d + e + f + g == (a + b + c + d) + e + (f + g)
  {
  }

  // What lies around a group does not depend on the group's own options.

  lemma AroundModes(o: SearchOptions, b: bool)
    ensures AfterModes(o.(regex := b)) == AfterModes(o)
    ensures AfterModes(o.(caseSensitive := b)) == AfterModes(o)
    ensures AfterModes(o.(wholeWord := b)) == AfterModes(o)
    ensures AfterModes(o.(matchPath := b)) == AfterModes(o)
  {
  }

  lemma AroundFilters(o: SearchOptions, b: bool)
    ensures BeforeFilters(o.(foldersOnly := b)) == BeforeFilters(o) && AfterFilters(o.(foldersOnly := b)) == AfterFilters(o)
    ensures BeforeFilters(o.(filesOnly := b)) == BeforeFilters(o) && AfterFilters(o.(filesOnly := b)) == AfterFilters(o)
  {
  }

  lemma AroundParent(o: SearchOptions, p: Option<string>)
    ensures BeforeParent(o.(parentPath := p)) == BeforeParent(o) && AfterParent(o.(parentPath := p)) == AfterParent(o)
  {
  }

  lemma AroundSort(o: SearchOptions, s: Option<string>, d: bool)
    ensures BeforeSort(o.(sortBy := s)) == BeforeSort(o) && AfterSort(o.(sortBy := s)) == AfterSort(o)
    ensures BeforeSort(o.(sortBy := s, sortDescending := d)) == BeforeSort(o)
    ensures AfterSort(o.(sortBy := s, sortDescending := d)) == AfterSort(o)
  {
  }

  lemma AroundColumns(o: SearchOptions, b: bool)
    ensures BeforeColumns(o.(showSize := b)) == BeforeColumns(o)
    ensures BeforeColumns(o.(showDateModified := b)) == BeforeColumns(o)
  {
  }

  // ----- Mode flags, then `-n <max>` -----

  /** `-regex` is the first token when it is emitted. */
  lemma RegexFlagInserted(o: SearchOptions)
    ensures SearchArgv(o.(regex := true)) == InsertAt(SearchArgv(o.(regex := false)), 0, [Str(RegexFlag)])
  {
    var rest := FlagIf(o.caseSensitive, CaseFlag) + FlagIf(o.wholeWord, WholeWordFlag) + FlagIf(o.matchPath, MatchPathFlag);
    ModesCut(o.(regex := true));
    ModesCut(o.(regex := false));
    AroundModes(o, true);
    AroundModes(o, false);
    assert ModeFlags(true, o.caseSensitive, o.wholeWord, o.matchPath) == [] + [Str(RegexFlag)] + rest;
    assert ModeFlags(false, o.caseSensitive, o.wholeWord, o.matchPath) == [] + rest;
    InsertInGroup([], [], [Str(RegexFlag)], rest, AfterModes(o));
  }

  /** `-case` comes right after `-regex` (if any). */
  lemma CaseFlagInserted(o: SearchOptions)
    ensures SearchArgv(o.(caseSensitive := true))
      == InsertAt(SearchArgv(o.(caseSensitive := false)), Count(o.regex), [Str(CaseFlag)])
  {
    var r := FlagIf(o.regex, RegexFlag);
    var rest := FlagIf(o.wholeWord, WholeWordFlag) + FlagIf(o.matchPath, MatchPathFlag);
    ModesCut(o.(caseSensitive := true));
    ModesCut(o.(caseSensitive := false));
    AroundModes(o, true);
    AroundModes(o, false);
    assert ModeFlags(o.regex, true, o.wholeWord, o.matchPath) == r + [Str(CaseFlag)] + rest;
    assert ModeFlags(o.regex, false, o.wholeWord, o.matchPath) == r + rest;
    InsertInGroup([], r, [Str(CaseFlag)], rest, AfterModes(o));
  }

  /** The vector cut around the mode flags, with `wholeWord` set to `b`. */
  lemma WholeWordCut(o: SearchOptions, b: bool)
    ensures SearchArgv(o.(wholeWord := b))
      == [] + (FlagIf(o.regex, RegexFlag) + FlagIf(o.caseSensitive, CaseFlag) + FlagIf(b, WholeWordFlag)
               + FlagIf(o.matchPath, MatchPathFlag)) + AfterModes(o)
  {
    ModesCut(o.(wholeWord := b));
    AroundModes(o, b);
  }

  /** `-whole-word` comes after `-regex` and `-case`. */
  lemma WholeWordFlagInserted(o: SearchOptions)
    ensures SearchArgv(o.(wholeWord := true))
      == InsertAt(SearchArgv(o.(wholeWord := false)), Count(o.regex) + Count(o.caseSensitive), [Str(WholeWordFlag)])
  {
    var rc := FlagIf(o.regex, RegexFlag) + FlagIf(o.caseSensitive, CaseFlag);
    var m := FlagIf(o.matchPath, MatchPathFlag);
    WholeWordCut(o, true);
    WholeWordCut(o, false);
    assert rc + [] + m == rc + m;
    InsertedAt(SearchArgv(o.(wholeWord := true)), SearchArgv(o.(wholeWord := false)),
               rc, [Str(WholeWordFlag)], m, AfterModes(o), Count(o.regex) + Count(o.caseSensitive));
  }

  /** `-match-path` is the last mode flag, right before `-n`. */
  lemma MatchPathFlagInserted(o: SearchOptions)
    ensures SearchArgv(o.(matchPath := true))
      == InsertAt(SearchArgv(o.(matchPath := false)),
                  Count(o.regex) + Count(o.caseSensitive) + Count(o.wholeWord), [Str(MatchPathFlag)])
  {
    var rcw := FlagIf(o.regex, RegexFlag) + FlagIf(o.caseSensitive, CaseFlag) + FlagIf(o.wholeWord, WholeWordFlag);
    ModesCut(o.(matchPath := true));
    ModesCut(o.(matchPath := false));
    AroundModes(o, true);
    AroundModes(o, false);
    assert ModeFlags(o.regex, o.caseSensitive, o.wholeWord, true) == rcw + [Str(MatchPathFlag)] + [];
    assert ModeFlags(o.regex, o.caseSensitive, o.wholeWord, false) == rcw + [];
    assert |rcw| == Count(o.regex) + Count(o.caseSensitive) + Count(o.wholeWord);
    InsertInGroup([], rcw, [Str(MatchPathFlag)], [], AfterModes(o));
  }

  /** The mode flags are exactly as many as the modes set, and each is one of the four flags. */
  lemma ModesAreModeFlags(o: SearchOptions)
    ensures |Modes(o)| == LimitIndex(o)
    ensures forall i :: 0 <= i < |Modes(o)| ==>
      Modes(o)[i] in {Str(RegexFlag), Str(CaseFlag), Str(WholeWordFlag), Str(MatchPathFlag)}
  {
  }

  /**
   * `-n` and the limit's text follow the mode flags, and every token before
   * `-n` is one of the four mode flags.
   */
  lemma LimitFollowsModeFlags(o: SearchOptions)
    ensures var k := LimitIndex(o);
      var argv := SearchArgv(o);
      k + 1 < |argv| && argv[k] == Str(LimitFlag) && argv[k + 1] == Str(Decimal.IntToString(o.maxResults))
      && forall i :: 0 <= i < k ==> argv[i] in {Str(RegexFlag), Str(CaseFlag), Str(WholeWordFlag), Str(MatchPathFlag)}
  {
    ModesCut(o);
    ModesAreModeFlags(o);
    var argv := SearchArgv(o);
    assert AfterModes(o)[0] == Str(LimitFlag) && AfterModes(o)[1] == Str(Decimal.IntToString(o.maxResults));
    forall i | 0 <= i < |Modes(o)|
      ensures argv[i] == Modes(o)[i]
    {
    }
  }

  /** When the caller leaves out `maxResults`, the limit is `-n 50`. */
  lemma DefaultLimitIsFifty(args: ToolArgs)
    requires args.maxResults.None?
    ensures var o := SearchOptionsOf(args);
      SearchArgv(o)[LimitIndex(o)] == Str(LimitFlag) && SearchArgv(o)[LimitIndex(o) + 1] == Str("50")
  {
    LimitFollowsModeFlags(SearchOptionsOf(args));
    Decimal.FiftyText();
  }

  /** With nothing but a query, the search vector is `-n 50 <query>`. */
  lemma BareQueryArgv(q: string)
    ensures SearchArgv(SearchOptionsOf(ToolArgs(Some(q), None, None, None, None, None, None, None,
                                                  None, None, None, None, None, None)))
            == [Str(LimitFlag), Str("50"), Str(q)]
  {
    Decimal.FiftyText();
  }

  // ----- Folder and file filters -----

  /** `/ad` comes right after the limit, whatever `filesOnly` is. */
  lemma FoldersOnlyInserted(o: SearchOptions)
    ensures SearchArgv(o.(foldersOnly := true))
      == InsertAt(SearchArgv(o.(foldersOnly := false)), LimitIndex(o) + 2, [Str(FoldersOnlyFlag)])
  {
    var g := FlagIf(o.filesOnly, FilesOnlyFlag);
    FiltersCut(o.(foldersOnly := true));
    FiltersCut(o.(foldersOnly := false));
    FiltersCut(o);
    AroundFilters(o, true);
    AroundFilters(o, false);
    assert TypeFilters(true, o.filesOnly) == [] + [Str(FoldersOnlyFlag)] + g;
    assert TypeFilters(false, o.filesOnly) == [] + g;
    InsertInGroup(BeforeFilters(o), [], [Str(FoldersOnlyFlag)], g, AfterFilters(o));
  }

  /** `/a-d` comes after `/ad` (if any), whatever `foldersOnly` is. */
  lemma FilesOnlyInserted(o: SearchOptions)
    ensures SearchArgv(o.(filesOnly := true))
      == InsertAt(SearchArgv(o.(filesOnly := false)), LimitIndex(o) + 2 + Count(o.foldersOnly), [Str(FilesOnlyFlag)])
  {
    var f := FlagIf(o.foldersOnly, FoldersOnlyFlag);
    FiltersCut(o.(filesOnly := true));
    FiltersCut(o.(filesOnly := false));
    FiltersCut(o);
    AroundFilters(o, true);
    AroundFilters(o, false);
    assert TypeFilters(o.foldersOnly, true) == f + [Str(FilesOnlyFlag)] + [];
    assert TypeFilters(o.foldersOnly, false) == f + [];
    InsertInGroup(BeforeFilters(o), f, [Str(FilesOnlyFlag)], [], AfterFilters(o));
  }

  /** With both filters set, both are emitted, `/ad` then `/a-d`, right after the limit. */
  lemma BothTypeFilters(o: SearchOptions)
    requires o.foldersOnly && o.filesOnly
    ensures SearchArgv(o)[LimitIndex(o) + 2] == Str(FoldersOnlyFlag)
    ensures SearchArgv(o)[LimitIndex(o) + 3] == Str(FilesOnlyFlag)
  {
    FiltersCut(o);
    assert TypeFilters(o.foldersOnly, o.filesOnly) == [Str(FoldersOnlyFlag), Str(FilesOnlyFlag)];
  }

  // ----- Parent path and sort -----

  /** A non-empty parent path inserts exactly the two adjacent tokens `-parent-path`, path. */
  lemma ParentPathInserted(o: SearchOptions, p: string)
    requires p != ""
    ensures SearchArgv(o.(parentPath := Some(p)))
      == InsertAt(SearchArgv(o.(parentPath := None)), ParentIndex(o), [Str(ParentPathFlag), Str(p)])
  {
    ParentCut(o.(parentPath := Some(p)));
    ParentCut(o.(parentPath := None));
    ParentCut(o);
    AroundParent(o, Some(p));
    AroundParent(o, None);
    assert ParentTokens(Some(p)) == [] + [Str(ParentPathFlag), Str(p)] + [];
    assert ParentTokens(None) == [] + [];
    InsertInGroup(BeforeParent(o), [], [Str(ParentPathFlag), Str(p)], [], AfterParent(o));
  }

  /** An empty parent path is falsy: it emits nothing, as an absent one. */
  lemma EmptyParentPathIgnored(o: SearchOptions)
    ensures SearchArgv(o.(parentPath := Some(""))) == SearchArgv(o.(parentPath := None))
  {
    ParentCut(o.(parentPath := Some("")));
    ParentCut(o.(parentPath := None));
    AroundParent(o, Some(""));
    AroundParent(o, None);
    assert ParentTokens(None) == ParentTokens(Some(""));
  }

  /**
   * A non-empty sort field inserts the single token
   * `-sort-<field>-descending` or `-sort-<field>-ascending` right after the
   * parent-path tokens.
   */
  lemma SortTokenInserted(o: SearchOptions, s: string, d: bool)
    requires s != ""
    ensures SearchArgv(o.(sortBy := Some(s), sortDescending := d))
      == InsertAt(SearchArgv(o.(sortBy := None)), ParentIndex(o) + |ParentTokens(o.parentPath)|,
                  [Str(SortPrefix + s + (if d then Descending else Ascending))])
  {
    SortCut(o.(sortBy := Some(s), sortDescending := d));
    SortCut(o.(sortBy := None));
    SortCut(o);
    AroundSort(o, Some(s), d);
    AroundSort(o, None, d);
    assert SortTokens(Some(s), d) == [] + [Str(SortToken(s, d))] + [];
    assert SortTokens(None, o.sortDescending) == [] + [];
    InsertInGroup(BeforeSort(o), [], [Str(SortToken(s, d))], [], AfterSort(o));
  }

  /**
   * Without a sort field, or with an empty one, no sort token is emitted and
   * `sortDescending` changes nothing.
   */
  lemma SortDirectionNeedsField(o: SearchOptions, d: bool)
    ensures SearchArgv(o.(sortBy := None, sortDescending := d)) == SearchArgv(o.(sortBy := None))
    ensures SearchArgv(o.(sortBy := Some(""), sortDescending := d)) == SearchArgv(o.(sortBy := None))
  {
    SortCut(o.(sortBy := None));
    SortCut(o.(sortBy := None, sortDescending := d));
    SortCut(o.(sortBy := Some(""), sortDescending := d));
    AroundSort(o, None, d);
    AroundSort(o, Some(""), d);
    assert SortTokens(None, o.sortDescending) == [] && SortTokens(None, d) == [] && SortTokens(Some(""), d) == [];
  }

  // ----- Display columns, just ahead of the query -----

  /** `-size` comes just ahead of `-date-modified` (if any) and the query. */
  lemma SizeColumnInserted(o: SearchOptions)
    ensures var argv := SearchArgv(o.(showSize := false));
      SearchArgv(o.(showSize := true)) == InsertAt(argv, |argv| - 1 - Count(o.showDateModified), [Str(SizeFlag)])
  {
    var dm := FlagIf(o.showDateModified, DateModifiedFlag);
    ColumnsCut(o.(showSize := true));
    ColumnsCut(o.(showSize := false));
    AroundColumns(o, true);
    AroundColumns(o, false);
    assert ColumnTokens(true, o.showDateModified) == [] + [Str(SizeFlag)] + dm;
    assert ColumnTokens(false, o.showDateModified) == [] + dm;
    InsertInGroup(BeforeColumns(o), [], [Str(SizeFlag)], dm, [o.query]);
  }

  /** `-date-modified` comes just ahead of the query. */
  lemma DateModifiedColumnInserted(o: SearchOptions)
    ensures var argv := SearchArgv(o.(showDateModified := false));
      SearchArgv(o.(showDateModified := true)) == InsertAt(argv, |argv| - 1, [Str(DateModifiedFlag)])
  {
    var sz := FlagIf(o.showSize, SizeFlag);
    ColumnsCut(o.(showDateModified := true));
    ColumnsCut(o.(showDateModified := false));
    AroundColumns(o, true);
    AroundColumns(o, false);
    assert ColumnTokens(o.showSize, true) == sz + [Str(DateModifiedFlag)] + [];
    assert ColumnTokens(o.showSize, false) == sz + [];
    InsertInGroup(BeforeColumns(o), sz, [Str(DateModifiedFlag)], [], [o.query]);
  }

  // ----- get_file_info -----

  /** The `get_file_info` vector: the seven fixed tokens, whatever the name, then the name. */
  lemma FileInfoLayout(filename: Arg)
    ensures FileInfoArgv(filename)
      == [Str("-size"), Str("-date-created"), Str("-date-modified"), Str("-date-accessed"),
          Str("-attributes"), Str("-n"), Str("1")] + [filename]
  {
  }
}
