/**
 * Sequence facts shared by the canonical request and the query string:
 * joining on a separator, splitting it back (Python's `sep.join` and
 * `str.split(sep)`), cancelling a common prefix or suffix, and the keys of
 * a sequence of key/value pairs.
 */
module Strings {

  /** The keys of a sequence of key/value pairs, in order (`list(d)` of a dict, the names of a header list). */
  function Keys<V>(d: seq<(string, V)>): (ks: seq<string>)
    ensures |ks| == |d|
    ensures forall i :: 0 <= i < |d| ==> ks[i] == d[i].0
  {
    if |d| == 0 then [] else [d[0].0] + Keys(d[1..])
  }

  /** The first index of a character of `cs` in `s`, or `|s|` when there is none. */
  function FindAny(s: string, cs: set<char>): (i: nat)
    ensures i <= |s|
    ensures i < |s| ==> s[i] in cs
    ensures forall j :: 0 <= j < i ==> s[j] !in cs
  {
    if |s| == 0 then 0
    else if s[0] in cs then 0
    else 1 + FindAny(s[1..], cs)
  }

  /** `FindAny` finds the first separator of `a + [sep] + b` right after `a` when `a` has none. */
  lemma {:induction false} FindAfterPrefix(a: string, sep: char, b: string)
    requires sep !in a
    ensures FindAny(a + [sep] + b, {sep}) == |a|
  {
    if |a| > 0 {
      assert (a + [sep] + b)[1..] == a[1..] + [sep] + b;
      FindAfterPrefix(a[1..], sep, b);
    }
  }

  /** Characters outside `cs` are skipped over by `FindAny`. */
  lemma {:induction false} FindAnySkip(a: string, b: string, cs: set<char>)
    requires forall j :: 0 <= j < |a| ==> a[j] !in cs
    ensures FindAny(a + b, cs) == |a| + FindAny(b, cs)
  {
    if |a| > 0 {
      assert (a + b)[0] == a[0] && a[0] !in cs;
      assert (a + b)[1..] == a[1..] + b;
      FindAnySkip(a[1..], b, cs);
      assert FindAny(a + b, cs) == 1 + FindAny((a + b)[1..], cs);
    } else {
      assert a + b == b;
    }
  }

  /** `FindAny` returns `|s|` exactly when no character of `cs` occurs in `s`. */
  lemma FindAnyAbsent(s: string, cs: set<char>)
    requires forall j :: 0 <= j < |s| ==> s[j] !in cs
    ensures FindAny(s, cs) == |s|
  {
  }

  /** Python's `sep.join(parts)`. */
  function Join(parts: seq<string>, sep: char): (r: string)
    ensures |parts| == 1 ==> r == parts[0]
  {
    if |parts| == 0 then ""
    else if |parts| == 1 then parts[0]
    else parts[0] + [sep] + Join(parts[1..], sep)
  }

  /** Python's `s.split(sep)`: the pieces between separators, never an empty list. */
  function Split(s: string, sep: char): (r: seq<string>)
    ensures |r| > 0
    decreases |s|
  {
    var i := FindAny(s, {sep});
    if i == |s| then [s] else [s[..i]] + Split(s[i + 1..], sep)
  }

  predicate NoneContains(parts: seq<string>, sep: char)
  {
    forall k :: 0 <= k < |parts| ==> sep !in parts[k]
  }

  /** Splitting a join gives the parts back when no part holds the separator. */
  lemma {:induction false} SplitJoin(parts: seq<string>, sep: char)
    requires |parts| > 0
    requires NoneContains(parts, sep)
    ensures Split(Join(parts, sep), sep) == parts
  {
    if |parts| == 1 {
      FindAnyAbsent(parts[0], {sep});
    } else {
      var rest := Join(parts[1..], sep);
      var s := parts[0] + [sep] + rest;
      FindAfterPrefix(parts[0], sep, rest);
      assert s[..|parts[0]|] == parts[0];
      assert s[|parts[0]| + 1..] == rest;
      SplitJoin(parts[1..], sep);
      assert [parts[0]] + parts[1..] == parts;
    }
  }

  /** A common prefix and suffix cancel: the middle parts are then equal. */
  lemma CancelAround(a: string, x: string, y: string, b: string)
    requires a + x + b == a + y + b
    ensures x == y
  {
    var s1, s2 := a + x + b, a + y + b;
    assert |x| == |y|;
    assert x == s1[|a|..|a| + |x|];
    assert y == s2[|a|..|a| + |y|];
  }
}
