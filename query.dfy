/**
 * Query parameters as the client builds them and `urllib.parse.urlencode`
 * turns them into a query string. Parameters are a sequence of key/value
 * pairs, because a Python dict keeps insertion order and `urlencode` walks it
 * in that order.
 */
module Query {
  import opened Wrappers
  import opened Strings
  import Decimal
  import Url

  /** The values the client puts in a parameter dict. */
  datatype PyValue = PyNone | PyStr(s: string) | PyInt(n: int) | PyList(items: seq<string>)

  type Params = seq<(string, PyValue)>

  /** Python truthiness: `None`, "", 0 and [] are false. */
  predicate Truthy(v: PyValue)
  {
    match v
    case PyNone => false
    case PyStr(s) => s != ""
    case PyInt(n) => n != 0
    case PyList(items) => items != []
  }

  function OptStr(o: Option<string>): PyValue
  {
    if o.Some? then PyStr(o.value) else PyNone
  }

  function OptInt(o: Option<int>): PyValue
  {
    if o.Some? then PyInt(o.value) else PyNone
  }

  function OptList(o: Option<seq<string>>): PyValue
  {
    if o.Some? then PyList(o.value) else PyNone
  }

  /**
   * The dict a run of `if value: params[key] = value` statements leaves behind
   * (keys distinct): the truthy candidates, in the order they were tried.
   */
  function KeepTruthy(cands: Params): (r: Params)
    ensures |r| <= |cands|
    ensures forall i :: 0 <= i < |r| ==> Truthy(r[i].1)
  {
    if |cands| == 0 then [] else Kept(cands[0]) + KeepTruthy(cands[1..])
  }

  /** One `if value: params[key] = value` on its own: the pair when its value is truthy, nothing otherwise. */
  function Kept(p: (string, PyValue)): Params
  {
    if Truthy(p.1) then [p] else []
  }

  /** A pair is kept exactly when it is a candidate with a truthy value. */
  lemma {:induction false} KeepTruthyMember(cands: Params, p: (string, PyValue))
    ensures p in KeepTruthy(cands) <==> p in cands && Truthy(p.1)
  {
    if |cands| > 0 {
      KeepTruthyMember(cands[1..], p);
      assert cands == [cands[0]] + cands[1..];
    }
  }

  /** Filtering commutes with concatenation, so kept pairs stay in their order. */
  lemma {:induction false} KeepTruthyAppend(a: Params, b: Params)
    ensures KeepTruthy(a + b) == KeepTruthy(a) + KeepTruthy(b)
  {
    if |a| == 0 {
      assert a + b == b;
    } else {
      assert (a + b)[1..] == a[1..] + b;
      KeepTruthyAppend(a[1..], b);
    }
  }

  /** Four candidates tried one after another: the kept ones, in order. */
  lemma KeepTruthyFour(c0: (string, PyValue), c1: (string, PyValue), c2: (string, PyValue), c3: (string, PyValue))
    ensures KeepTruthy([c0, c1, c2, c3]) == ((Kept(c0) + Kept(c1)) + Kept(c2)) + Kept(c3)
  {
    var k0, k1, k2, k3 := Kept(c0), Kept(c1), Kept(c2), Kept(c3);
    var s3, s2, s1, s0 := [c3], [c2, c3], [c1, c2, c3], [c0, c1, c2, c3];
    assert s3[1..] == [] && s2[1..] == s3 && s1[1..] == s2 && s0[1..] == s1;
    assert KeepTruthy(s3) == k3 + [] == k3;
    assert KeepTruthy(s2) == k2 + k3;
    assert KeepTruthy(s1) == k1 + (k2 + k3);
    assert KeepTruthy(s0) == k0 + (k1 + (k2 + k3));
    assert k0 + (k1 + (k2 + k3)) == ((k0 + k1) + k2) + k3;
  }

  /** `if value: params[key] = value`, for a key not yet in `params`. */
  method SetIfTruthy(params: Params, key: string, value: PyValue) returns (params': Params)
    ensures params' == params + Kept((key, value))
  {
    params' := params;
    if Truthy(value) {
      params' := params' + [(key, value)];
    }
  }

  lemma AppendFour(base: Params, a: Params, b: Params, c: Params, d: Params)
    ensures (((base + a) + b) + c) + d == base + (((a + b) + c) + d)
  {
  }

  /** When every candidate is truthy nothing is dropped. */
  lemma {:induction false} KeepTruthyAll(cands: Params)
    requires forall i :: 0 <= i < |cands| ==> Truthy(cands[i].1)
    ensures KeepTruthy(cands) == cands
  {
    if |cands| > 0 {
      KeepTruthyAll(cands[1..]);
    }
  }

  /** The library formatting `urlencode` relies on: `quote_plus` and `str` of a list. */
  datatype Encoder = Encoder(quotePlus: string -> string, listStr: seq<string> -> string)

  /** `str(v)`. */
  function StrOf(v: PyValue, enc: Encoder): string
  {
    match v
    case PyNone => "None"
    case PyStr(s) => s
    case PyInt(n) => Decimal.IntToDecimal(n)
    case PyList(items) => enc.listStr(items)
  }

  function EncodePair(p: (string, PyValue), enc: Encoder): string
  {
    enc.quotePlus(p.0) + "=" + enc.quotePlus(StrOf(p.1, enc))
  }

  function EncodePairs(ps: Params, enc: Encoder): (parts: seq<string>)
    ensures |parts| == |ps|
    ensures forall i :: 0 <= i < |ps| ==> parts[i] == EncodePair(ps[i], enc)
  {
    if |ps| == 0 then [] else [EncodePair(ps[0], enc)] + EncodePairs(ps[1..], enc)
  }

  /** `urlencode(params)` with its default `quote_plus`, one `key=value` per pair. */
  function Urlencode(ps: Params, enc: Encoder): string
  {
    Join(EncodePairs(ps, enc), '&')
  }

  /** The characters `quote_plus(s, safe='')` can produce: unreserved ones, '%' escapes and '+'. */
  predicate QuoteChar(c: char)
  {
    'a' <= c <= 'z' || 'A' <= c <= 'Z' || '0' <= c <= '9' || c in {'_', '.', '-', '~', '%', '+'}
  }

  predicate QuoteText(s: string)
  {
    forall k :: 0 <= k < |s| ==> QuoteChar(s[k])
  }

  ghost predicate UrlSafe(enc: Encoder)
  {
    forall s: string, k :: 0 <= k < |enc.quotePlus(s)| ==> QuoteChar(enc.quotePlus(s)[k])
  }

  /** Every character of a query string is a quoted one, '=' or '&'. */
  lemma {:induction false} UrlencodeChars(ps: Params, enc: Encoder)
    requires UrlSafe(enc)
    ensures forall k :: 0 <= k < |Urlencode(ps, enc)| ==>
      QuoteChar(Urlencode(ps, enc)[k]) || Urlencode(ps, enc)[k] in {'=', '&'}
  {
    if |ps| > 0 {
      var a := EncodePair(ps[0], enc);
      PairChars(ps[0], enc);
      if |ps| > 1 {
        UrlencodeChars(ps[1..], enc);
        assert EncodePairs(ps, enc)[1..] == EncodePairs(ps[1..], enc);
        var rest := Urlencode(ps[1..], enc);
        var s := a + ['&'] + rest;
        assert Urlencode(ps, enc) == s;
        forall k | 0 <= k < |s|
          ensures QuoteChar(s[k]) || s[k] in {'=', '&'}
        {
          if k > |a| {
            assert s[k] == rest[k - |a| - 1];
          }
        }
      }
    }
  }

  lemma PairChars(p: (string, PyValue), enc: Encoder)
    requires UrlSafe(enc)
    ensures forall k :: 0 <= k < |EncodePair(p, enc)| ==> QuoteChar(EncodePair(p, enc)[k]) || EncodePair(p, enc)[k] == '='
  {
    var a, b := enc.quotePlus(p.0), enc.quotePlus(StrOf(p.1, enc));
    var s := a + "=" + b;
    forall k | 0 <= k < |s|
      ensures QuoteChar(s[k]) || s[k] == '='
    {
      if k > |a| {
        assert s[k] == b[k - |a| - 1];
      }
    }
  }

  /** A query string built with a URL-safe quoting is query text for `urlsplit`: no '#', no blanks or controls. */
  lemma UrlencodeIsQueryText(ps: Params, enc: Encoder)
    requires UrlSafe(enc)
    ensures Url.QueryText(Urlencode(ps, enc))
  {
    UrlencodeChars(ps, enc);
  }

  /**
   * A plain reading of a query: split at '&', then each piece at its first
   * '=', each side unquoted by `unquote`. Unlike `parse_qsl` it keeps blank
   * values and leaves '+' to `unquote`.
   */
  function ParseQuery(q: string, unquote: string -> string): seq<(string, string)>
  {
    var pieces := Split(q, '&');
    seq(|pieces|, i requires 0 <= i < |pieces| =>
      var (k, v) := Url.SplitOnce(pieces[i], '='); (unquote(k), unquote(v)))
  }

  ghost predicate Unquotes(unquote: string -> string, enc: Encoder)
  {
    forall s :: unquote(enc.quotePlus(s)) == s
  }

  lemma PairSplits(p: (string, PyValue), enc: Encoder)
    requires UrlSafe(enc)
    ensures Url.SplitOnce(EncodePair(p, enc), '=') == (enc.quotePlus(p.0), enc.quotePlus(StrOf(p.1, enc)))
  {
    var a, b := enc.quotePlus(p.0), enc.quotePlus(StrOf(p.1, enc));
    assert forall k :: 0 <= k < |a| ==> QuoteChar(a[k]);
    FindAfterPrefix(a, '=', b);
    var s := a + ['='] + b;
    assert EncodePair(p, enc) == s;
    assert s[..|a|] == a && s[|a| + 1..] == b;
  }

  /**
   * Reading a query string back gives every key with `str` of its value, in
   * order, when the quoting is URL-safe and has an inverse.
   */
  lemma ParseUrlencode(ps: Params, enc: Encoder, unquote: string -> string)
    requires |ps| > 0
    requires UrlSafe(enc) && Unquotes(unquote, enc)
    ensures ParseQuery(Urlencode(ps, enc), unquote) == seq(|ps|, i requires 0 <= i < |ps| => (ps[i].0, StrOf(ps[i].1, enc)))
  {
    var parts := EncodePairs(ps, enc);
    forall k | 0 <= k < |parts|
      ensures '&' !in parts[k]
    {
      var a, b := enc.quotePlus(ps[k].0), enc.quotePlus(StrOf(ps[k].1, enc));
      assert parts[k] == a + "=" + b;
      assert forall j :: 0 <= j < |a| ==> QuoteChar(a[j]);
      assert forall j :: 0 <= j < |b| ==> QuoteChar(b[j]);
    }
    SplitJoin(parts, '&');
    forall i | 0 <= i < |ps|
      ensures Url.SplitOnce(parts[i], '=') == (enc.quotePlus(ps[i].0), enc.quotePlus(StrOf(ps[i].1, enc)))
    {
      PairSplits(ps[i], enc);
    }
  }
}
