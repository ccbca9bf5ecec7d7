/**
 * Reading a search vector back: `DecodeSearch` undoes `SearchArgv` up to the
 * option differences that never reach `es.exe`.
 */
module SearchDecode {
  import opened Wrappers
  import Decimal
  import opened EsArgs

  /**
   * Options with the differences that cannot reach `es.exe` removed: an empty
   * `sortBy` or `parentPath` is falsy and so as good as absent, and
   * `sortDescending` only matters when there is a sort field.
   */
  function Canonical(o: SearchOptions): SearchOptions {
    o.(sortBy := WhenTruthy(o.sortBy),
       sortDescending := Truthy(o.sortBy) && o.sortDescending,
       parentPath := WhenTruthy(o.parentPath))
  }

  function WhenTruthy(s: Option<string>): Option<string> {
    if Truthy(s) then s else None
  }

  function TakeFlag(ts: seq<Arg>, flag: string): (bool, seq<Arg>) {
    if |ts| > 0 && ts[0] == Str(flag) then (true, ts[1..]) else (false, ts)
  }

  function TakeParent(ts: seq<Arg>): (Option<string>, seq<Arg>) {
    if |ts| >= 2 && ts[0] == Str(ParentPathFlag) && ts[1].Str? then (Some(ts[1].text), ts[2..])
    else (None, ts)
  }

  /** The field and direction named by a sort token, if `t` is one. */
  function SortFieldOf(t: string): Option<(string, bool)> {
    if |t| >= |SortPrefix| + |Descending| && t[..|SortPrefix|] == SortPrefix
       && t[|t| - |Descending|..] == Descending then
      Some((t[|SortPrefix|..|t| - |Descending|], true))
    else if |t| >= |SortPrefix| + |Ascending| && t[..|SortPrefix|] == SortPrefix
       && t[|t| - |Ascending|..] == Ascending then
      Some((t[|SortPrefix|..|t| - |Ascending|], false))
    else None
  }

  function TakeSort(ts: seq<Arg>): (Option<string>, bool, seq<Arg>) {
    if |ts| > 0 && ts[0].Str? && SortFieldOf(ts[0].text).Some? then
      (Some(SortFieldOf(ts[0].text).value.0), SortFieldOf(ts[0].text).value.1, ts[1..])
    else (None, false, ts)
  }

  function TakeModes(ts: seq<Arg>): (bool, bool, bool, bool, seq<Arg>) {
    var (regex, t1) := TakeFlag(ts, RegexFlag);
    var (caseSensitive, t2) := TakeFlag(t1, CaseFlag);
    var (wholeWord, t3) := TakeFlag(t2, WholeWordFlag);
    var (matchPath, t4) := TakeFlag(t3, MatchPathFlag);
    (regex, caseSensitive, wholeWord, matchPath, t4)
  }

  /** `-n` and a decimal integer, or nothing when they are not there. */
  function TakeLimit(ts: seq<Arg>): Option<(int, seq<Arg>)> {
    if |ts| < 2 || ts[0] != Str(LimitFlag) || !ts[1].Str? || Decimal.ParseInt(ts[1].text).None? then None
    else Some((Decimal.ParseInt(ts[1].text).value, ts[2..]))
  }

  function TakeFilters(ts: seq<Arg>): (bool, bool, seq<Arg>) {
    var (foldersOnly, t1) := TakeFlag(ts, FoldersOnlyFlag);
    var (filesOnly, t2) := TakeFlag(t1, FilesOnlyFlag);
    (foldersOnly, filesOnly, t2)
  }

  function TakeColumns(ts: seq<Arg>): (bool, bool, seq<Arg>) {
    var (showSize, t1) := TakeFlag(ts, SizeFlag);
    var (showDateModified, t2) := TakeFlag(t1, DateModifiedFlag);
    (showSize, showDateModified, t2)
  }

  /** Reads the flags back, group by group in emission order; the last element is the query. */
  function DecodeSearch(argv: seq<Arg>): Option<SearchOptions> {
    if |argv| == 0 then None
    else
      var (regex, caseSensitive, wholeWord, matchPath, t1) := TakeModes(argv[..|argv| - 1]);
      match TakeLimit(t1)
      case None => None
      case Some((maxResults, t2)) =>
        var (foldersOnly, filesOnly, t3) := TakeFilters(t2);
        var (parentPath, t4) := TakeParent(t3);
        var (sortBy, sortDescending, t5) := TakeSort(t4);
        var (showSize, showDateModified, t6) := TakeColumns(t5);
        if t6 != [] then None
        else Some(SearchOptions(argv[|argv| - 1], maxResults, regex, caseSensitive, wholeWord, matchPath,
                                foldersOnly, filesOnly, sortBy, sortDescending, showSize, showDateModified,
                                parentPath))
  }

  /** `ts` does not start with `flag`. */
  predicate FreeOf(ts: seq<Arg>, flag: string) {
    ts == [] || ts[0] != Str(flag)
  }

  lemma TakeFlagIf(b: bool, flag: string, rest: seq<Arg>)
    requires FreeOf(rest, flag)
    ensures TakeFlag(FlagIf(b, flag) + rest, flag) == (b, rest)
  {
    var ts := FlagIf(b, flag) + rest;
    if b {
      assert ts == [Str(flag)] + rest;
      assert ts[0] == Str(flag);
      assert ts[1..] == rest;
      assert TakeFlag(ts, flag) == (true, ts[1..]);
    } else {
      assert ts == rest;
    }
  }

  /** A sort token has the sort prefix and is longer than any fixed flag. */
  lemma SortTokenShape(s: string, d: bool)
    ensures |SortToken(s, d)| >= |SortPrefix| + |Ascending|
    ensures SortToken(s, d)[0] == '-'
  {
    assert SortToken(s, d)[0] == SortPrefix[0];
  }

  /** A sort token names its field and direction. */
  lemma SortFieldOfToken(s: string, d: bool)
    ensures SortFieldOf(SortToken(s, d)) == Some((s, d))
  {
    var t := SortToken(s, d);
    var suffix := if d then Descending else Ascending;
    assert t == SortPrefix + s + suffix;
    assert t[..|SortPrefix|] == SortPrefix;
    assert t[|t| - |suffix|..] == suffix;
    assert t[|SortPrefix|..|t| - |suffix|] == s;
    if !d {
      // An ascending token cannot end in "-descending": its tenth character from the end is '-'.
      assert t[|t| - |Ascending|] == '-';
      assert t[|t| - |Descending|..][1] == t[|t| - |Ascending|];
      assert Descending[1] == 'd';
    }
  }

  lemma TakeModesOf(o: SearchOptions, rest: seq<Arg>)
    requires |rest| > 0 && rest[0] == Str(LimitFlag)
    ensures TakeModes(Modes(o) + rest) == (o.regex, o.caseSensitive, o.wholeWord, o.matchPath, rest)
  {
    var r, c, w, m := FlagIf(o.regex, RegexFlag), FlagIf(o.caseSensitive, CaseFlag),
                      FlagIf(o.wholeWord, WholeWordFlag), FlagIf(o.matchPath, MatchPathFlag);
    assert Modes(o) + rest == r + (c + (w + (m + rest)));
    TakeFlagIf(o.matchPath, MatchPathFlag, rest);
    TakeFlagIf(o.wholeWord, WholeWordFlag, m + rest);
    TakeFlagIf(o.caseSensitive, CaseFlag, w + (m + rest));
    TakeFlagIf(o.regex, RegexFlag, c + (w + (m + rest)));
  }

  lemma TakeLimitOf(n: int, rest: seq<Arg>)
    ensures TakeLimit(LimitTokens(n) + rest) == Some((n, rest))
  {
    Decimal.IntToStringRoundTrip(n);
    assert (LimitTokens(n) + rest)[2..] == rest;
  }

  lemma TakeFiltersOf(foldersOnly: bool, filesOnly: bool, rest: seq<Arg>)
    requires FreeOf(rest, FoldersOnlyFlag) && FreeOf(rest, FilesOnlyFlag)
    ensures TakeFilters(TypeFilters(foldersOnly, filesOnly) + rest) == (foldersOnly, filesOnly, rest)
  {
    var f, g := FlagIf(foldersOnly, FoldersOnlyFlag), FlagIf(filesOnly, FilesOnlyFlag);
    assert TypeFilters(foldersOnly, filesOnly) + rest == f + (g + rest);
    TakeFlagIf(filesOnly, FilesOnlyFlag, rest);
    assert FreeOf(g + rest, FoldersOnlyFlag);
    TakeFlagIf(foldersOnly, FoldersOnlyFlag, g + rest);
  }

  lemma TakeParentOf(parentPath: Option<string>, rest: seq<Arg>)
    requires FreeOf(rest, ParentPathFlag)
    ensures TakeParent(ParentTokens(parentPath) + rest) == (WhenTruthy(parentPath), rest)
  {
    var ts := ParentTokens(parentPath) + rest;
    if Truthy(parentPath) {
      assert ts[0] == Str(ParentPathFlag) && ts[1] == Str(parentPath.value);
      assert ts[2..] == rest;
    } else {
      assert ts == rest;
    }
  }

  lemma TakeSortOf(sortBy: Option<string>, d: bool, rest: seq<Arg>)
    requires rest == [] || rest[0] in {Str(SizeFlag), Str(DateModifiedFlag)}
    ensures TakeSort(SortTokens(sortBy, d) + rest) == (WhenTruthy(sortBy), Truthy(sortBy) && d, rest)
  {
    if Truthy(sortBy) {
      SortFieldOfToken(sortBy.value, d);
      assert (SortTokens(sortBy, d) + rest)[1..] == rest;
    } else {
      assert SortTokens(sortBy, d) + rest == rest;
      if rest != [] {
        assert |rest[0].text| < |SortPrefix| + |Ascending|;
        assert SortFieldOf(rest[0].text).None?;
      }
    }
  }

  lemma TakeColumnsOf(showSize: bool, showDateModified: bool)
    ensures TakeColumns(ColumnTokens(showSize, showDateModified)) == (showSize, showDateModified, [])
  {
    var dm := FlagIf(showDateModified, DateModifiedFlag);
    TakeFlagIf(showDateModified, DateModifiedFlag, []);
    assert dm + [] == dm;
    TakeFlagIf(showSize, SizeFlag, dm);
  }

  /** What follows the parent path: the sort token (if any) and the display columns. */
  function SortAndColumns(o: SearchOptions): seq<Arg> {
    SortTokens(o.sortBy, o.sortDescending) + ColumnTokens(o.showSize, o.showDateModified)
  }

  /** What follows the limit: the filters, the parent path, the sort token and the columns. */
  function AfterLimit(o: SearchOptions): seq<Arg> {
    TypeFilters(o.foldersOnly, o.filesOnly) + (ParentTokens(o.parentPath) + SortAndColumns(o))
  }

  /** A sort token or a column flag is none of the flags read before them. */
  lemma SortAndColumnsLead(o: SearchOptions, flag: string)
    requires flag in {ParentPathFlag, FoldersOnlyFlag, FilesOnlyFlag}
    ensures FreeOf(SortAndColumns(o), flag)
  {
    if Truthy(o.sortBy) {
      SortTokenShape(o.sortBy.value, o.sortDescending);
      assert SortAndColumns(o)[0] == Str(SortToken(o.sortBy.value, o.sortDescending));
    }
  }

  lemma ReadSortAndColumns(o: SearchOptions)
    ensures var (sortBy, sortDescending, t) := TakeSort(SortAndColumns(o));
      sortBy == WhenTruthy(o.sortBy) && sortDescending == (Truthy(o.sortBy) && o.sortDescending)
      && TakeColumns(t) == (o.showSize, o.showDateModified, [])
  {
    TakeSortOf(o.sortBy, o.sortDescending, ColumnTokens(o.showSize, o.showDateModified));
    TakeColumnsOf(o.showSize, o.showDateModified);
  }

  lemma ReadAfterLimit(o: SearchOptions)
    ensures var (foldersOnly, filesOnly, t) := TakeFilters(AfterLimit(o));
      foldersOnly == o.foldersOnly && filesOnly == o.filesOnly
      && TakeParent(t) == (WhenTruthy(o.parentPath), SortAndColumns(o))
  {
    var rest := ParentTokens(o.parentPath) + SortAndColumns(o);
    SortAndColumnsLead(o, ParentPathFlag);
    SortAndColumnsLead(o, FoldersOnlyFlag);
    SortAndColumnsLead(o, FilesOnlyFlag);
    assert FreeOf(rest, FoldersOnlyFlag) && FreeOf(rest, FilesOnlyFlag);
    TakeFiltersOf(o.foldersOnly, o.filesOnly, rest);
    TakeParentOf(o.parentPath, SortAndColumns(o));
  }

  /** Concatenation of six groups, regrouped to the right. */
  lemma Nest6(a: seq<Arg>, b: seq<Arg>, c: seq<Arg>, d: seq<Arg>, e: seq<Arg>, f: seq<Arg>)
    ensures a + b + c + d + e + f == a + (b + (c + (d + (e + f))))
  {
  }

  lemma SearchFlagsNested(o: SearchOptions)
    ensures SearchFlags(o) == Modes(o) + (LimitTokens(o.maxResults) + AfterLimit(o))
  {
    Nest6(Modes(o), LimitTokens(o.maxResults), TypeFilters(o.foldersOnly, o.filesOnly),
          ParentTokens(o.parentPath), SortTokens(o.sortBy, o.sortDescending),
          ColumnTokens(o.showSize, o.showDateModified));
  }

  /**
   * The argument vector determines the options up to what `es.exe` cannot
   * see: reading it back gives the canonical options.
   */
  lemma SearchArgvRoundTrip(o: SearchOptions)
    ensures DecodeSearch(SearchArgv(o)) == Some(Canonical(o))
  {
    var argv := SearchArgv(o);
    assert argv[..|argv| - 1] == SearchFlags(o);
    SearchFlagsNested(o);
    TakeModesOf(o, LimitTokens(o.maxResults) + AfterLimit(o));
    TakeLimitOf(o.maxResults, AfterLimit(o));
    ReadAfterLimit(o);
    ReadSortAndColumns(o);
  }

  /** An unset `regex` leaves no `-regex` where the flag would stand: the vector's first element. */
  lemma UnsetRegexIsAbsent(o: SearchOptions)
    requires !o.regex
    ensures |SearchArgv(o)| > 0 && SearchArgv(o)[0] != Str(RegexFlag)
  {
    SearchArgvRoundTrip(o);
  }

  /** Options that differ only where `es.exe` cannot see yield the same vector. */
  lemma SearchArgvCanonical(o: SearchOptions)
    ensures SearchArgv(Canonical(o)) == SearchArgv(o)
  {
    assert ParentTokens(Canonical(o).parentPath) == ParentTokens(o.parentPath);
    assert SortTokens(Canonical(o).sortBy, Canonical(o).sortDescending) == SortTokens(o.sortBy, o.sortDescending);
  }

  /** Two option records give the same vector exactly when their canonical forms agree. */
  lemma SearchArgvSameIff(o1: SearchOptions, o2: SearchOptions)
    ensures SearchArgv(o1) == SearchArgv(o2) <==> Canonical(o1) == Canonical(o2)
  {
    SearchArgvRoundTrip(o1);
    SearchArgvRoundTrip(o2);
    SearchArgvCanonical(o1);
    SearchArgvCanonical(o2);
  }
}
