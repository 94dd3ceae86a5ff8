/**
 * The marketing page's search loader: it reads the `search` and `category`
 * parameters, turns them into the two LIKE patterns of the raw search query,
 * and reshapes each returned row's comma-joined category names into a list of
 * trimmed names. The query itself is a parameter; what matters here is what
 * it is asked and what is done with its answer.
 */
module Search {
  import opened Common

  /** A row of the raw query: its other columns, and the categories as one comma-joined string or null. */
  datatype SearchRow<T> = SearchRow(other: T, categories: Option<string>)

  /** A row as the page receives it: the category names split and trimmed, or still absent. */
  datatype SearchUser<T> = SearchUser(other: T, categories: Option<seq<string>>)

  /** The two patterns the query is called with. */
  datatype SearchQuery = SearchQuery(like: string, cat: string)

  datatype LoaderResult<T> =
    | Redirect(location: string)
    | Page(status: string, users: seq<SearchUser<T>>, categoryFilter: Option<string>, categories: seq<string>)

  // ---------------------------------------------------------------------
  // `String.prototype.split` with a one-character separator.

  /** The pieces between separators; an empty string is one empty piece. */
  function SplitOn(s: string, sep: char): (r: seq<string>)
    ensures |r| >= 1
    decreases |s|
  {
    if |s| == 0 then [""]
    else if s[0] == sep then [""] + SplitOn(s[1..], sep)
    else
      var rest := SplitOn(s[1..], sep);
      [[s[0]] + rest[0]] + rest[1..]
  }

  /** `Array.prototype.join`. */
  function JoinWith(parts: seq<string>, sep: char): string
    decreases |parts|
  {
    if |parts| == 0 then ""
    else if |parts| == 1 then parts[0]
    else parts[0] + [sep] + JoinWith(parts[1..], sep)
  }

  function Occurrences(s: string, c: char): nat {
    if s == [] then 0 else (if s[0] == c then 1 else 0) + Occurrences(s[1..], c)
  }

  /** Joining the pieces with the separator gives the string back. */
  lemma {:induction false} SplitJoin(s: string, sep: char)
    ensures JoinWith(SplitOn(s, sep), sep) == s
    decreases |s|
  {
    if |s| > 0 {
      SplitJoin(s[1..], sep);
      var rest := SplitOn(s[1..], sep);
      if s[0] == sep {
        assert ([""] + rest)[1..] == rest;
        assert s == [sep] + s[1..];
      } else {
        var r := [[s[0]] + rest[0]] + rest[1..];
        assert r[1..] == rest[1..];
        if |rest| == 1 {
          assert s == [s[0]] + rest[0];
        } else {
          assert JoinWith(rest, sep) == rest[0] + [sep] + JoinWith(rest[1..], sep);
          assert s == [s[0]] + s[1..];
        }
      }
    }
  }

  /** No piece contains the separator. */
  lemma {:induction false} SplitPiecesFree(s: string, sep: char)
    ensures forall i :: 0 <= i < |SplitOn(s, sep)| ==> sep !in SplitOn(s, sep)[i]
    decreases |s|
  {
    if |s| > 0 {
      SplitPiecesFree(s[1..], sep);
    }
  }

  /** There is one piece more than there are separators. */
  lemma {:induction false} SplitCount(s: string, sep: char)
    ensures |SplitOn(s, sep)| == Occurrences(s, sep) + 1
    decreases |s|
  {
    if |s| > 0 {
      SplitCount(s[1..], sep);
    }
  }

  // ---------------------------------------------------------------------
  // `String.prototype.trim`.

  /** ECMAScript white space and line terminators. */
  predicate IsJsSpace(c: char) {
    var n := c as int;
    n == 0x09 || n == 0x0A || n == 0x0B || n == 0x0C || n == 0x0D || n == 0x20 || n == 0xA0 ||
    n == 0x1680 || (0x2000 <= n <= 0x200A) || n == 0x2028 || n == 0x2029 || n == 0x202F ||
    n == 0x205F || n == 0x3000 || n == 0xFEFF
  }

  /** Scanning forward from `i`: the first index that is not white space, or the end. */
  function SkipSpace(s: string, i: nat): (n: nat)
    requires i <= |s|
    ensures i <= n <= |s|
    ensures forall k :: i <= k < n ==> IsJsSpace(s[k])
    ensures n < |s| ==> !IsJsSpace(s[n])
    decreases |s| - i
  {
    if i < |s| && IsJsSpace(s[i]) then SkipSpace(s, i + 1) else i
  }

  /** Scanning back from `j` no further than `lo`: the end of the last character that is not white space. */
  function SkipSpaceBack(s: string, lo: nat, j: nat): (m: nat)
    requires lo <= j <= |s|
    ensures lo <= m <= j
    ensures forall k :: m <= k < j ==> IsJsSpace(s[k])
    ensures m > lo ==> !IsJsSpace(s[m - 1])
    decreases j
  {
    if j > lo && IsJsSpace(s[j - 1]) then SkipSpaceBack(s, lo, j - 1) else j
  }

  /** Where the trimmed part starts. */
  function TrimStartIndex(s: string): nat
    ensures TrimStartIndex(s) <= |s|
  {
    SkipSpace(s, 0)
  }

  /** Where the trimmed part ends. */
  function TrimEndIndex(s: string): nat
    ensures TrimStartIndex(s) <= TrimEndIndex(s) <= |s|
  {
    SkipSpaceBack(s, TrimStartIndex(s), |s|)
  }

  /**
   * `trim`: the part of the string between its leading and its trailing
   * white space. Only white space is cut, and what is left neither starts
   * nor ends with white space.
   */
  function Trim(s: string): (r: string)
    ensures r == s[TrimStartIndex(s)..TrimEndIndex(s)]
    ensures forall k :: 0 <= k < TrimStartIndex(s) ==> IsJsSpace(s[k])
    ensures forall k :: TrimEndIndex(s) <= k < |s| ==> IsJsSpace(s[k])
    ensures r == [] || (!IsJsSpace(r[0]) && !IsJsSpace(r[|r| - 1]))
  {
    s[TrimStartIndex(s)..TrimEndIndex(s)]
  }

  /** Trimming twice is trimming once. */
  lemma TrimIdempotent(s: string)
    ensures Trim(Trim(s)) == Trim(s)
  {
    var t := Trim(s);
    assert TrimStartIndex(t) == 0;
    assert TrimEndIndex(t) == |t|;
    assert t[0..|t|] == t;
  }

  // ---------------------------------------------------------------------
  // The loader.

  /** `like` wraps the search term (or nothing) in wildcards; `cat` does so only for a non-empty category. */
  function QueryFor(search: Option<string>, category: Option<string>): (q: SearchQuery)
    ensures q.like == "%" + search.GetOr("") + "%"
    ensures TruthyOpt(category) ==> q.cat == "%" + category.value + "%"
    ensures !TruthyOpt(category) ==> q.cat == "%"
  {
    SearchQuery("%" + search.GetOr("") + "%",
                if TruthyOpt(category) then "%" + category.value + "%" else "%")
  }

  /** The category list of one row: each comma-separated piece, trimmed. */
  function CategoryNames(joined: string): (names: seq<string>)
    ensures |names| == |SplitOn(joined, ',')|
    ensures forall k :: 0 <= k < |names| ==> names[k] == Trim(SplitOn(joined, ',')[k])
  {
    var parts := SplitOn(joined, ',');
    seq(|parts|, k requires 0 <= k < |parts| => Trim(parts[k]))
  }

  function ShapeRow<T>(row: SearchRow<T>): (u: SearchUser<T>)
    ensures u.other == row.other
    ensures u.categories.Some? <==> row.categories.Some?
    ensures row.categories.Some? ==> u.categories.value == CategoryNames(row.categories.value)
  {
    SearchUser(row.other, if row.categories.Some? then Some(CategoryNames(row.categories.value)) else None)
  }

  /** The rows in the query's order, each reshaped. */
  function ShapeRows<T>(rows: seq<SearchRow<T>>): (users: seq<SearchUser<T>>)
    ensures |users| == |rows|
    ensures forall k :: 0 <= k < |rows| ==> users[k] == ShapeRow(rows[k])
  {
    seq(|rows|, k requires 0 <= k < |rows| => ShapeRow(rows[k]))
  }

  /**
   * `loader`: both parameters present and empty send the visitor to `/`;
   * otherwise the page gets the reshaped rows of the query for the two
   * patterns, the category filter as given, and every category name.
   */
  function Loader<T>(search: Option<string>, category: Option<string>, categoryNames: seq<string>,
                     query: SearchQuery -> seq<SearchRow<T>>): (r: LoaderResult<T>)
    ensures r.Redirect? <==> search == Some("") && category == Some("")
    ensures r.Redirect? ==> r.location == "/"
    ensures r.Page? ==> r.status == "idle" && r.categoryFilter == category && r.categories == categoryNames
    ensures r.Page? ==> r.users == ShapeRows(query(QueryFor(search, category)))
  {
    if search == Some("") && category == Some("") then Redirect("/")
    else Page("idle", ShapeRows(query(QueryFor(search, category))), category, categoryNames)
  }

  /** A missing or empty category filter matches every category. */
  lemma NoCategoryMatchesAll(search: Option<string>, category: Option<string>)
    requires category.None? || category == Some("")
    ensures QueryFor(search, category).cat == "%"
  {
  }

  /** A missing search term and an empty one ask the same query: `%%`. */
  lemma MissingSearchIsEmptySearch(category: Option<string>)
    ensures QueryFor(None, category) == QueryFor(Some(""), category)
    ensures QueryFor(None, category).like == "%%"
  {
  }

  /** Only an empty search together with an empty category redirects; one of them alone does not. */
  lemma OneEmptyParameterDoesNotRedirect<T>(categoryNames: seq<string>, query: SearchQuery -> seq<SearchRow<T>>)
    ensures Loader(Some(""), None, categoryNames, query).Page?
    ensures Loader(None, Some(""), categoryNames, query).Page?
    ensures Loader(Some(""), Some("x"), categoryNames, query).Page?
  {
  }

  /**
   * Every category name on the page is trimmed and comma-free, and a row
   * gets one name per comma-separated piece of its joined string.
   */
  lemma ShapedNamesClean<T>(row: SearchRow<T>)
    requires row.categories.Some?
    ensures |ShapeRow(row).categories.value| == Occurrences(row.categories.value, ',') + 1
    ensures forall k :: 0 <= k < |ShapeRow(row).categories.value| ==>
      var name := ShapeRow(row).categories.value[k];
      && ',' !in name
      && (name == [] || (!IsJsSpace(name[0]) && !IsJsSpace(name[|name| - 1])))
  {
    var joined := row.categories.value;
    SplitCount(joined, ',');
    SplitPiecesFree(joined, ',');
    var parts := SplitOn(joined, ',');
    forall k | 0 <= k < |parts|
      ensures ',' !in Trim(parts[k])
    {
      var t := Trim(parts[k]);
      assert forall c :: c in t ==> c in parts[k];
    }
  }

  /** A string without the separator is a single piece. */
  lemma {:induction false} SplitWithoutSeparator(a: string, sep: char)
    requires sep !in a
    ensures SplitOn(a, sep) == [a]
    decreases |a|
  {
    if |a| > 0 {
      SplitWithoutSeparator(a[1..], sep);
      assert a == [a[0]] + a[1..];
    }
  }

  /** Splitting at the first separator: the piece before it, then the pieces of the rest. */
  lemma {:induction false} SplitAtFirst(a: string, sep: char, b: string)
    requires sep !in a
    ensures SplitOn(a + [sep] + b, sep) == [a] + SplitOn(b, sep)
    decreases |a|
  {
    if |a| == 0 {
      assert (a + [sep] + b)[1..] == b;
    } else {
      assert (a + [sep] + b)[1..] == a[1..] + [sep] + b;
      SplitAtFirst(a[1..], sep, b);
      assert a == [a[0]] + a[1..];
    }
  }
}
