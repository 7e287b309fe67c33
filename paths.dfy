/**
 * Path helpers: building a URL from a pattern, params and query, and matching an actual
 * path against a pattern. The pattern compiler and matcher (path-to-regexp), `new URL` and the
 * query codecs are external libraries and enter the model as function values.
 */
module Paths {
  import opened Wrappers
  import opened Js

  /** A query codec: `write` serializes a query object, `read` parses a search string. */
  datatype QueryCodec = QueryCodec(write: Record -> string, read: string -> Record)

  /** The external libraries the helpers call. */
  datatype Platform = Platform(
    compile: (string, Record) -> string,          // compile(pattern)(params)
    matcher: (string, string) -> Option<Record>,  // match(pattern)(path): params on a hit
    url: string -> (string, string),              // new URL(s): (pathname, hash)
    searchParams: QueryCodec)                     // URLSearchParams: toString / parse

  predicate IsAlnum(c: char)
  {
    'a' <= c <= 'z' || 'A' <= c <= 'Z' || '0' <= c <= '9'
  }

  /** Length of the longest prefix of `s` made of ASCII letters and digits. */
  function AlnumRun(s: string): (n: nat)
    ensures n <= |s|
    ensures forall i :: 0 <= i < n ==> IsAlnum(s[i])
    ensures n == |s| || !IsAlnum(s[n])
  {
    if s == [] || !IsAlnum(s[0]) then 0 else 1 + AlnumRun(s[1..])
  }

  /** The test `/^[a-z0-9]+:\/\//i`, computed by scanning the leading alphanumeric run. */
  predicate IsSchemePrefixed(s: string)
  {
    var n := AlnumRun(s);
    n > 0 && n + 3 <= |s| && s[n..n + 3] == "://"
  }

  /** The regular expression read directly: some non-empty alphanumeric prefix is followed by `://`. */
  ghost predicate SchemeRegex(s: string)
  {
    exists n :: SchemeEndsAt(s, n)
  }

  /** `s[..n]` is a non-empty alphanumeric run and `://` follows it. */
  predicate SchemeEndsAt(s: string, n: int)
  {
    0 < n && n + 3 <= |s| && (forall i :: 0 <= i < n ==> IsAlnum(s[i])) && s[n..n + 3] == "://"
  }

  lemma SchemePrefixedIsRegex(s: string)
    ensures IsSchemePrefixed(s) <==> SchemeRegex(s)
  {
    var r := AlnumRun(s);
    if SchemeRegex(s) {
      var n :| SchemeEndsAt(s, n);
      assert s[n] == ':' && !IsAlnum(s[n]);
      assert r == n;
    }
    if IsSchemePrefixed(s) {
      assert SchemeEndsAt(s, r);
    }
  }

  /**
   * `getComparablePath`: a scheme-prefixed path is matched as it is; any other path is reduced
   * to the pathname and hash of `new URL("http://_" + path)`.
   */
  function GetComparablePath(p: Platform, path: string): (r: string)
    ensures IsSchemePrefixed(path) ==> r == path
    ensures !IsSchemePrefixed(path) ==> r == p.url("http://_" + path).0 + p.url("http://_" + path).1
  {
    if IsSchemePrefixed(path) then path
    else
      var (pathname, hash) := p.url("http://_" + path);
      pathname + hash
  }

  predicate OccursAt(s: string, pat: string, i: nat)
  {
    i + |pat| <= |s| && s[i..i + |pat|] == pat
  }

  /** The first position where `pat` occurs in `s`, as `String.prototype.indexOf`. */
  function FindFirst(s: string, pat: string, from: nat := 0): (r: Option<nat>)
    requires from <= |s|
    ensures r.Some? ==> from <= r.value && OccursAt(s, pat, r.value)
    ensures r.Some? ==> forall j :: from <= j < r.value ==> !OccursAt(s, pat, j)
    ensures r.None? ==> forall j :: from <= j <= |s| ==> !OccursAt(s, pat, j)
    decreases |s| - from
  {
    if OccursAt(s, pat, from) then Some(from)
    else if from == |s| then None
    else FindFirst(s, pat, from + 1)
  }

  /** `s.replace(pat, rep)` with a string pattern: only the first occurrence is replaced. */
  function ReplaceFirst(s: string, pat: string, rep: string): string
  {
    match FindFirst(s, pat)
    case None => s
    case Some(i) => s[..i] + rep + s[i + |pat|..]
  }

  /** `normalizePathCreator`: escapes the first `://` so the matcher does not read `:` as a parameter. */
  function NormalizePathCreator(pattern: string): string
  {
    ReplaceFirst(pattern, "://", "\\://")
  }

  /** A pattern without `://` is left as it is. */
  lemma NormalizeWithoutScheme(pattern: string)
    requires forall j :: 0 <= j <= |pattern| ==> !OccursAt(pattern, "://", j)
    ensures NormalizePathCreator(pattern) == pattern
  {
  }

  /**
   * A pattern with `://` gets a backslash before its first occurrence, and nothing else changes:
   * the text before it, the `://` itself and everything after it (later `://` included).
   */
  lemma NormalizeEscapesFirstOnly(pattern: string, i: nat)
    requires OccursAt(pattern, "://", i)
    requires forall j :: 0 <= j < i ==> !OccursAt(pattern, "://", j)
    ensures var r := NormalizePathCreator(pattern);
            |r| == |pattern| + 1 && r[..i] == pattern[..i] && r[i] == '\\' && r[i + 1..] == pattern[i..]
  {
    assert FindFirst(pattern, "://") == Some(i);
    var r := NormalizePathCreator(pattern);
    assert r == pattern[..i] + "\\://" + pattern[i + 3..];
    assert pattern[i..] == "://" + pattern[i + 3..] by {
      assert pattern[i..i + 3] == "://";
    }
  }

  /** The string a query serializes to: the custom serializer's `write` if given, else URLSearchParams. */
  function Serialized(p: Platform, query: Record, serialize: Option<QueryCodec>): string
  {
    match serialize
    case Some(c) => c.write(query)
    case None => p.searchParams.write(query)
  }

  /**
   * `buildPath`: the compiled pathname, followed by `?` and the serialized query exactly when the
   * query has at least one key. With no serializer this is also the serializer-less `buildPath`
   * of the older helper files.
   */
  function BuildPath(p: Platform, pattern: string, params: Record, query: Record, serialize: Option<QueryCodec>): (r: string)
    ensures |r| >= |p.compile(pattern, params)| && r[..|p.compile(pattern, params)|] == p.compile(pattern, params)
    ensures |query| == 0 <==> |r| == |p.compile(pattern, params)|
    ensures |query| > 0 ==> r[|p.compile(pattern, params)|] == '?' && r[|p.compile(pattern, params)| + 1..] == Serialized(p, query, serialize)
  {
    var pathname := p.compile(pattern, params);
    var qs := if |query| > 0 then "?" + Serialized(p, query, serialize) else "";
    pathname + qs
  }

  /** Splits a URL at its first `?` into the path and the search string (without the `?`). */
  function SplitAtQuestionMark(url: string): (string, Option<string>)
  {
    match FindFirst(url, "?")
    case None => (url, None)
    case Some(i) => (url[..i], Some(url[i + 1..]))
  }

  /**
   * When the compiled pathname has no `?`, splitting the built URL at its first `?` gives back the
   * pathname, and a search string exactly when the query has keys: the serialized query.
   */
  lemma BuildPathSplits(p: Platform, pattern: string, params: Record, query: Record, serialize: Option<QueryCodec>)
    requires forall j :: 0 <= j < |p.compile(pattern, params)| ==> p.compile(pattern, params)[j] != '?'
    ensures var (path, search) := SplitAtQuestionMark(BuildPath(p, pattern, params, query, serialize));
            path == p.compile(pattern, params) &&
            (search.Some? <==> |query| > 0) &&
            (search.Some? ==> search.value == Serialized(p, query, serialize))
  {
    var pathname := p.compile(pattern, params);
    var r := BuildPath(p, pattern, params, query, serialize);
    var n := |pathname|;
    forall j | 0 <= j < n ensures !OccursAt(r, "?", j) {
      assert r[j..j + 1] == [r[j]];
      assert r[j] == pathname[j];
    }
    if |query| > 0 {
      assert OccursAt(r, "?", n) by {
        assert r[n..n + 1] == [r[n]];
      }
      assert FindFirst(r, "?") == Some(n);
    } else {
      assert r == pathname;
      assert FindFirst(r, "?").None?;
    }
  }

  /** The result of `matchPath`: `params` is absent when the record has no `params` key. */
  datatype MatchResult = MatchResult(matches: bool, params: Option<Record>)

  /**
   * `matchPath` of the newer helper files: the pattern with its `://` escaped is matched
   * against the comparable form of the path; a miss is exactly `{matches: false}`.
   */
  function MatchPath(p: Platform, pattern: string, actualPath: string): (r: MatchResult)
    ensures r.matches <==> p.matcher(NormalizePathCreator(pattern), GetComparablePath(p, actualPath)).Some?
    ensures r.matches ==> r.params == p.matcher(NormalizePathCreator(pattern), GetComparablePath(p, actualPath))
    ensures !r.matches ==> r.params.None?
  {
    match p.matcher(NormalizePathCreator(pattern), GetComparablePath(p, actualPath))
    case Some(params) => MatchResult(true, Some(params))
    case None => MatchResult(false, None)
  }

  /**
   * `matchPath` of the earliest helper file: the raw pattern against the raw path, and a miss
   * still carries `params: {}`.
   */
  function MatchPathLegacy(p: Platform, pattern: string, actualPath: string): (r: MatchResult)
    ensures r.matches <==> p.matcher(pattern, actualPath).Some?
    ensures r.params.Some?
    ensures r.matches ==> r.params == p.matcher(pattern, actualPath)
    ensures !r.matches ==> r.params == Some(map[])
  {
    match p.matcher(pattern, actualPath)
    case Some(params) => MatchResult(true, Some(params))
    case None => MatchResult(false, Some(map[]))
  }

  /** Paths with the same pathname and hash match alike: the search part never takes part. */
  lemma MatchPathIgnoresSearch(p: Platform, pattern: string, a: string, b: string)
    requires !IsSchemePrefixed(a) && !IsSchemePrefixed(b)
    requires p.url("http://_" + a) == p.url("http://_" + b)
    ensures MatchPath(p, pattern, a) == MatchPath(p, pattern, b)
  {
  }

  /** The two `matchPath` generations agree on hits but differ in the shape of a miss. */
  lemma MatchPathMissShapes(p: Platform, pattern: string, path: string)
    requires p.matcher(pattern, path).None?
    requires NormalizePathCreator(pattern) == pattern && GetComparablePath(p, path) == path
    ensures MatchPath(p, pattern, path) == MatchResult(false, None)
    ensures MatchPathLegacy(p, pattern, path) == MatchResult(false, Some(map[]))
  {
  }
}
