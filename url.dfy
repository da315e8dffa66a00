/**
 * The part of Python's `urllib.parse.urlparse` that the canonical request
 * reads: the scheme, network location, path, `;params`, query and fragment
 * of a URL, split the way `urlsplit` and `_splitparams` split them.
 */
module Url {
  import opened Strings

  datatype ParseResult = ParseResult(
    scheme: string, netloc: string, path: string, params: string, query: string, fragment: string)

  predicate AsciiAlpha(c: char) { 'a' <= c <= 'z' || 'A' <= c <= 'Z' }

  /** The characters `urlsplit` accepts in a scheme. */
  predicate SchemeChar(c: char) { AsciiAlpha(c) || '0' <= c <= '9' || c == '+' || c == '-' || c == '.' }

  function LowerAscii(s: string): (r: string)
    ensures |r| == |s|
  {
    if |s| == 0 then ""
    else [if 'A' <= s[0] <= 'Z' then (s[0] as int + 32) as char else s[0]] + LowerAscii(s[1..])
  }

  /** Python's `s.split(c, 1)` read as a pair: the text after the first `c` is "" when there is none. */
  function SplitOnce(s: string, c: char): (string, string)
  {
    var i := FindAny(s, {c});
    if i == |s| then (s, "") else (s[..i], s[i + 1..])
  }

  /** The index of the last `c` in `s`, or -1 (Python's `s.rfind(c)`). */
  function FindLast(s: string, c: char): (i: int)
    ensures -1 <= i < |s|
    ensures i >= 0 ==> s[i] == c
    ensures forall j :: i < j < |s| ==> s[j] != c
  {
    if |s| == 0 then -1
    else if s[|s| - 1] == c then |s| - 1
    else FindLast(s[..|s| - 1], c)
  }

  /** The schemes whose paths `urlparse` splits at ';' (`urllib.parse.uses_params`). */
  const UsesParams: set<string> :=
    {"", "ftp", "hdl", "prospero", "http", "imap", "https", "shttp", "rtsp", "rtspu", "sip", "sips", "mms", "sftp", "tel"}

  /** `urlsplit`'s scheme step: a leading `letter (scheme-char)* ':'` is taken off and lower-cased. */
  function SplitScheme(url: string): (string, string)
  {
    var i := FindAny(url, {':'});
    if 0 < i < |url| && AsciiAlpha(url[0]) && forall k :: 0 <= k < i ==> SchemeChar(url[k])
    then (LowerAscii(url[..i]), url[i + 1..])
    else ("", url)
  }

  /** `urlsplit`'s netloc step: after "//", everything up to the first '/', '?' or '#'. */
  function SplitNetloc(rest: string): (string, string)
  {
    if |rest| >= 2 && rest[..2] == "//" then
      var tail := rest[2..];
      var d := FindAny(tail, {'/', '?', '#'});
      (tail[..d], tail[d..])
    else ("", rest)
  }

  /** `_splitparams`: the ';' looked for is the first one after the last '/'. */
  function SplitParams(path: string): (string, string)
    requires ';' in path
  {
    var slash := FindLast(path, '/');
    if slash >= 0 then
      var j := FindAny(path[slash..], {';'});
      if j == |path[slash..]| then (path, "") else (path[..slash + j], path[slash + j + 1..])
    else
      var i := FindAny(path, {';'});
      (path[..i], path[i + 1..])
  }

  /** `urlparse(url)`. */
  function UrlParse(url: string): ParseResult
  {
    var (scheme, rest) := SplitScheme(url);
    var (netloc, afterNetloc) := SplitNetloc(rest);
    var (beforeFragment, fragment) := SplitOnce(afterNetloc, '#');
    var (path, query) := SplitOnce(beforeFragment, '?');
    var (path', params) := if scheme in UsesParams && ';' in path then SplitParams(path) else (path, "");
    ParseResult(scheme, netloc, path', params, query, fragment)
  }

  /**
   * Characters that `urlsplit`, before splitting, removes (tab, CR, LF) or
   * strips from the front (C0 controls and space); URLs without them are
   * split as they stand.
   */
  predicate PlainChar(c: char) { c > ' ' }

  predicate SchemeName(s: string)
  {
    |s| > 0 && AsciiAlpha(s[0]) && forall k :: 0 <= k < |s| ==> SchemeChar(s[k])
  }

  /**
   * A network location `urlsplit` accepts and ends where it should: ASCII,
   * no brackets (which it checks for balance and IPv6 form) and none of the
   * characters that end the netloc.
   */
  predicate HostText(h: string)
  {
    forall k :: 0 <= k < |h| ==> PlainChar(h[k]) && (h[k] as int) < 127 && h[k] !in {'/', '?', '#', '[', ']'}
  }

  predicate PathText(p: string)
  {
    (p == [] || p[0] == '/') && forall k :: 0 <= k < |p| ==> PlainChar(p[k]) && p[k] !in {'?', '#', ';'}
  }

  predicate QueryText(q: string)
  {
    forall k :: 0 <= k < |q| ==> PlainChar(q[k]) && q[k] != '#'
  }

  /** "?" + the query when there is one. */
  function QuerySuffix(hasQuery: bool, query: string): string
  {
    if hasQuery then "?" + query else ""
  }

  lemma SchemeStep(scheme: string, rest: string)
    requires SchemeName(scheme)
    ensures SplitScheme(scheme + ":" + rest) == (LowerAscii(scheme), rest)
  {
    var url := scheme + ":" + rest;
    assert url == scheme + (":" + rest);
    FindAnySkip(scheme, ":" + rest, {':'});
    assert url[..|scheme|] == scheme && url[|scheme| + 1..] == rest;
  }

  lemma NetlocStep(host: string, after: string)
    requires HostText(host)
    requires after == [] || after[0] in {'/', '?'}
    ensures SplitNetloc("//" + host + after) == (host, after)
  {
    var rest := "//" + host + after;
    assert rest[..2] == "//" && rest[2..] == host + after;
    FindAnySkip(host, after, {'/', '?', '#'});
    assert (host + after)[..|host|] == host && (host + after)[|host|..] == after;
  }

  lemma QueryStep(path: string, hasQuery: bool, query: string)
    requires PathText(path) && QueryText(query)
    ensures SplitOnce(path + QuerySuffix(hasQuery, query), '#') == (path + QuerySuffix(hasQuery, query), "")
    ensures SplitOnce(path + QuerySuffix(hasQuery, query), '?') == (path, if hasQuery then query else "")
  {
    if hasQuery {
      WithQuery(path, query);
    } else {
      assert path + QuerySuffix(hasQuery, query) == path;
      FindAnyAbsent(path, {'#'});
      FindAnyAbsent(path, {'?'});
    }
  }

  lemma WithQuery(path: string, query: string)
    requires PathText(path) && QueryText(query)
    ensures SplitOnce(path + ("?" + query), '#') == (path + ("?" + query), "")
    ensures SplitOnce(path + ("?" + query), '?') == (path, query)
  {
    var s := path + ("?" + query);
    assert forall k :: 0 <= k < |s| ==> s[k] != '#' by {
      forall k | 0 <= k < |s|
        ensures s[k] != '#'
      {
        if k < |path| {
          assert s[k] == path[k];
        } else if k > |path| {
          assert s[k] == query[k - |path| - 1];
        }
      }
    }
    FindAnyAbsent(s, {'#'});
    FindAnySkip(path, "?" + query, {'?'});
    assert s[..|path|] == path && s[|path| + 1..] == query;
  }

  /**
   * On an absolute URL `scheme://host/path[?query]` with no fragment and no
   * ';' in the path, `urlparse` gives back exactly the host, path and query
   * the URL was built from.
   */
  lemma ParseAbsoluteUrl(scheme: string, host: string, path: string, hasQuery: bool, query: string)
    requires SchemeName(scheme) && HostText(host) && PathText(path) && QueryText(query)
    ensures var r := UrlParse(scheme + "://" + host + path + QuerySuffix(hasQuery, query));
      && r.netloc == host && r.path == path && r.params == ""
      && r.query == (if hasQuery then query else "") && r.fragment == ""
  {
    var after := path + QuerySuffix(hasQuery, query);
    var url := scheme + "://" + host + path + QuerySuffix(hasQuery, query);
    assert url == scheme + ":" + ("//" + host + after);
    SchemeStep(scheme, "//" + host + after);
    assert after == [] || after[0] in {'/', '?'};
    NetlocStep(host, after);
    QueryStep(path, hasQuery, query);
    assert ';' !in path;
  }
}
