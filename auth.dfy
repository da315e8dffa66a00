/**
 * Request signing (`universal_ads_sdk/auth.py`): the canonical request string,
 * its ECDSA signature over SHA-256, and the authentication headers. The
 * cryptography library (PEM loading, SHA-256, ECDSA) is a `Crypto` record of
 * functions the model knows nothing about; the clock is the `now` argument.
 */
module Auth {
  import opened Wrappers
  import opened Strings
  import opened Errors
  import Utf8
  import Base64
  import Url
  import Decimal

  type byte = Utf8.byte

  datatype PrivateKey = PrivateKey(material: seq<byte>)

  /**
   * `serialization.load_pem_private_key` (the message of its exception on
   * failure), `hashlib.sha256(...).digest()`, and
   * `key.sign(digest, ECDSA(Prehashed(SHA256())))` (failing, for one, on a key
   * that is not an EC key).
   */
  datatype Crypto = Crypto(
    loadPemPrivateKey: seq<byte> -> Result<PrivateKey, string>,
    sha256: seq<byte> -> seq<byte>,
    signPrehashed: (PrivateKey, seq<byte>) -> Result<seq<byte>, string>)

  /** A `Dict[str, str]` of headers, in insertion order. */
  type Headers = seq<(string, string)>

  /** `h.get(k)`: the value stored under `k`. */
  function HeaderValue(h: Headers, k: string): Option<string>
  {
    if |h| == 0 then None else if h[0].0 == k then Some(h[0].1) else HeaderValue(h[1..], k)
  }

  /** A found value is stored under `k`, and `None` means no pair has the key `k`. */
  lemma {:induction false} HeaderValueSpec(h: Headers, k: string)
    ensures HeaderValue(h, k).Some? ==> (k, HeaderValue(h, k).value) in h
    ensures HeaderValue(h, k).None? <==> forall i :: 0 <= i < |h| ==> h[i].0 != k
  {
    if |h| > 0 && h[0].0 != k {
      HeaderValueSpec(h[1..], k);
      assert forall i :: 1 <= i < |h| ==> h[i] == h[1..][i - 1];
    }
  }


  const ApiKeyHeader := "x-api-key"
  const TimestampHeader := "x-timestamp"
  const SignatureHeader := "x-signature"
  const SignedHeaders := "x-api-key;x-timestamp"
  const SdkVersion := "1.0.0"
  const SdkSource := "universal-ads-python-sdk"

  /** The two signed header lines, one newline between them. */
  function CanonicalHeaders(apiKey: string, timestamp: string): string
  {
    "x-api-key:" + apiKey + "\n" + "x-timestamp:" + timestamp
  }

  /** The canonical request from its six parts, newline-separated, signed-header list last. */
  function Render(verb: string, path: string, query: string, apiKey: string, timestamp: string, body: string): string
  {
    verb + "\n" + path + "\n" + query + "\n" + CanonicalHeaders(apiKey, timestamp) + "\n" + body + "\n" + SignedHeaders
  }

  lemma JoinCons(parts: seq<string>, sep: char)
    requires |parts| >= 2
    ensures Join(parts, sep) == parts[0] + [sep] + Join(parts[1..], sep)
  {
  }

  /** The canonical request is the `'\n'.join` of its seven lines. */
  lemma RenderIsJoin(verb: string, path: string, query: string, apiKey: string, timestamp: string, body: string)
    ensures Render(verb, path, query, apiKey, timestamp, body)
      == Join([verb, path, query, "x-api-key:" + apiKey, "x-timestamp:" + timestamp, body, SignedHeaders], '\n')
  {
    var xs := [verb, path, query, "x-api-key:" + apiKey, "x-timestamp:" + timestamp, body, SignedHeaders];
    var j6 := Join(xs[6..], '\n');
    assert j6 == SignedHeaders;
    JoinCons(xs[5..], '\n');
    assert xs[5..][1..] == xs[6..];
    var j5 := body + "\n" + j6;
    JoinCons(xs[4..], '\n');
    assert xs[4..][1..] == xs[5..];
    var j4 := "x-timestamp:" + timestamp + "\n" + j5;
    JoinCons(xs[3..], '\n');
    assert xs[3..][1..] == xs[4..];
    var j3 := "x-api-key:" + apiKey + "\n" + j4;
    JoinCons(xs[2..], '\n');
    assert xs[2..][1..] == xs[3..];
    var j2 := query + "\n" + j3;
    JoinCons(xs[1..], '\n');
    assert xs[1..][1..] == xs[2..];
    var j1 := path + "\n" + j2;
    JoinCons(xs, '\n');
    assert Join(xs, '\n') == verb + "\n" + j1;
  }

  /**
   * `create_canonical_request`: the path `urlparse` finds (or "/"), its query
   * (or ""), the `x-api-key` header, the timestamp argument and the body (or
   * "" when falsy). A missing `x-api-key` header is the lookup's `KeyError`.
   */
  function CanonicalRequest(verb: string, url: string, headers: Headers, timestamp: string, body: Option<string>): (r: Result<string, Error>)
    ensures r.Failure? <==> HeaderValue(headers, ApiKeyHeader).None?
    ensures r.Failure? ==> r.error == KeyError(ApiKeyHeader)
  {
    var parsed := Url.UrlParse(url);
    var path := if parsed.path != "" then parsed.path else "/";
    var query := parsed.query;
    match HeaderValue(headers, ApiKeyHeader)
    case None => Failure(KeyError(ApiKeyHeader))
    case Some(apiKey) =>
      var body' := if body.Some? && body.value != "" then body.value else "";
      Success(Render(verb, path, query, apiKey, timestamp, body'))
  }

  predicate NoNewline(s: string) { '\n' !in s }

  /**
   * On `scheme://host/path[?query]` the canonical request is exactly the
   * HTTP method as given, the path ("/" when empty), the query ("" when absent),
   * the two header lines, the body ("" when None or empty) and the signed
   * header list, newline-joined.
   */
  lemma {:induction false} CanonicalOfAbsoluteUrl(verb: string, scheme: string, host: string, path: string,
                                                  hasQuery: bool, query: string, headers: Headers,
                                                  timestamp: string, body: Option<string>)
    requires Url.SchemeName(scheme) && Url.HostText(host) && Url.PathText(path) && Url.QueryText(query)
    requires HeaderValue(headers, ApiKeyHeader).Some?
    ensures CanonicalRequest(verb, scheme + "://" + host + path + Url.QuerySuffix(hasQuery, query), headers, timestamp, body)
      == Success(Render(verb, if path == "" then "/" else path, if hasQuery then query else "",
                        HeaderValue(headers, ApiKeyHeader).value, timestamp, if body.Some? then body.value else ""))
  {
    var url := scheme + "://" + host + path + Url.QuerySuffix(hasQuery, query);
    Url.ParseAbsoluteUrl(scheme, host, path, hasQuery, query);
    var parsed := Url.UrlParse(url);
    assert parsed.path == path;
    assert parsed.query == if hasQuery then query else "";
  }

  /** Splitting the canonical request at newlines gives back its seven lines. */
  lemma CanonicalLines(verb: string, path: string, query: string, apiKey: string, timestamp: string, body: string)
    requires NoNewline(verb) && NoNewline(path) && NoNewline(query) && NoNewline(apiKey)
    requires NoNewline(timestamp) && NoNewline(body)
    ensures Split(Render(verb, path, query, apiKey, timestamp, body), '\n')
      == [verb, path, query, "x-api-key:" + apiKey, "x-timestamp:" + timestamp, body, SignedHeaders]
  {
    var lines := [verb, path, query, "x-api-key:" + apiKey, "x-timestamp:" + timestamp, body, SignedHeaders];
    assert '\n' !in "x-api-key:" + apiKey;
    assert '\n' !in "x-timestamp:" + timestamp;
    assert NoneContains(lines, '\n');
    RenderIsJoin(verb, path, query, apiKey, timestamp, body);
    SplitJoin(lines, '\n');
  }

  /**
   * Changing any one part changes the canonical request: when no part holds a
   * newline, equal canonical requests have equal methods, paths, queries,
   * API keys, timestamps and bodies.
   */
  lemma RenderInjective(v1: string, p1: string, q1: string, k1: string, t1: string, b1: string,
                        v2: string, p2: string, q2: string, k2: string, t2: string, b2: string)
    requires NoNewline(v1) && NoNewline(p1) && NoNewline(q1) && NoNewline(k1) && NoNewline(t1) && NoNewline(b1)
    requires NoNewline(v2) && NoNewline(p2) && NoNewline(q2) && NoNewline(k2) && NoNewline(t2) && NoNewline(b2)
    requires Render(v1, p1, q1, k1, t1, b1) == Render(v2, p2, q2, k2, t2, b2)
    ensures v1 == v2 && p1 == p2 && q1 == q2 && k1 == k2 && t1 == t2 && b1 == b2
  {
    CanonicalLines(v1, p1, q1, k1, t1, b1);
    CanonicalLines(v2, p2, q2, k2, t2, b2);
    var l1 := [v1, p1, q1, "x-api-key:" + k1, "x-timestamp:" + t1, b1, SignedHeaders];
    var l2 := [v2, p2, q2, "x-api-key:" + k2, "x-timestamp:" + t2, b2, SignedHeaders];
    assert l1 == l2;
    assert l1[3] == l2[3] && l1[4] == l2[4];
    assert k1 == l1[3][10..] && k2 == l2[3][10..];
    assert t1 == l1[4][12..] && t2 == l2[4][12..];
  }

  /** With everything else fixed, distinct methods give distinct canonical requests. */
  lemma VerbDistinguishes(verb1: string, verb2: string, path: string, query: string, apiKey: string, timestamp: string, body: string)
    requires verb1 != verb2
    ensures Render(verb1, path, query, apiKey, timestamp, body) != Render(verb2, path, query, apiKey, timestamp, body)
  {
    var post := "\n" + path + "\n" + query + "\n" + CanonicalHeaders(apiKey, timestamp) + "\n" + body + "\n" + SignedHeaders;
    assert Render(verb1, path, query, apiKey, timestamp, body) == [] + verb1 + post;
    assert Render(verb2, path, query, apiKey, timestamp, body) == [] + verb2 + post;
    if [] + verb1 + post == [] + verb2 + post {
      CancelAround([], verb1, verb2, post);
    }
  }

  /** With everything else fixed, distinct paths give distinct canonical requests. */
  lemma PathDistinguishes(verb: string, path1: string, path2: string, query: string, apiKey: string, timestamp: string, body: string)
    requires path1 != path2
    ensures Render(verb, path1, query, apiKey, timestamp, body) != Render(verb, path2, query, apiKey, timestamp, body)
  {
    var pre := verb + "\n";
    var post := "\n" + query + "\n" + CanonicalHeaders(apiKey, timestamp) + "\n" + body + "\n" + SignedHeaders;
    assert Render(verb, path1, query, apiKey, timestamp, body) == pre + path1 + post;
    assert Render(verb, path2, query, apiKey, timestamp, body) == pre + path2 + post;
    if pre + path1 + post == pre + path2 + post {
      CancelAround(pre, path1, path2, post);
    }
  }

  /** With everything else fixed, distinct queries give distinct canonical requests. */
  lemma QueryDistinguishes(verb: string, path: string, query1: string, query2: string, apiKey: string, timestamp: string, body: string)
    requires query1 != query2
    ensures Render(verb, path, query1, apiKey, timestamp, body) != Render(verb, path, query2, apiKey, timestamp, body)
  {
    var pre := verb + "\n" + path + "\n";
    var post := "\n" + CanonicalHeaders(apiKey, timestamp) + "\n" + body + "\n" + SignedHeaders;
    assert Render(verb, path, query1, apiKey, timestamp, body) == pre + query1 + post;
    assert Render(verb, path, query2, apiKey, timestamp, body) == pre + query2 + post;
    if pre + query1 + post == pre + query2 + post {
      CancelAround(pre, query1, query2, post);
    }
  }

  /** With everything else fixed, distinct API keys give distinct canonical requests. */
  lemma ApiKeyDistinguishes(verb: string, path: string, query: string, apiKey1: string, apiKey2: string, timestamp: string, body: string)
    requires apiKey1 != apiKey2
    ensures Render(verb, path, query, apiKey1, timestamp, body) != Render(verb, path, query, apiKey2, timestamp, body)
  {
    var pre := verb + "\n" + path + "\n" + query + "\n" + "x-api-key:";
    var post := "\n" + "x-timestamp:" + timestamp + "\n" + body + "\n" + SignedHeaders;
    assert Render(verb, path, query, apiKey1, timestamp, body) == pre + apiKey1 + post;
    assert Render(verb, path, query, apiKey2, timestamp, body) == pre + apiKey2 + post;
    if pre + apiKey1 + post == pre + apiKey2 + post {
      CancelAround(pre, apiKey1, apiKey2, post);
    }
  }

  /** With everything else fixed, distinct bodies give distinct canonical requests. */
  lemma BodyDistinguishes(verb: string, path: string, query: string, apiKey: string, timestamp: string, body1: string, body2: string)
    requires body1 != body2
    ensures Render(verb, path, query, apiKey, timestamp, body1) != Render(verb, path, query, apiKey, timestamp, body2)
  {
    var pre := verb + "\n" + path + "\n" + query + "\n" + CanonicalHeaders(apiKey, timestamp) + "\n";
    var post := "\n" + SignedHeaders;
    assert Render(verb, path, query, apiKey, timestamp, body1) == pre + body1 + post;
    assert Render(verb, path, query, apiKey, timestamp, body2) == pre + body2 + post;
    if pre + body1 + post == pre + body2 + post {
      CancelAround(pre, body1, body2, post);
    }
  }

  /** With everything else fixed, distinct timestamps give distinct canonical requests. */
  lemma TimestampDistinguishes(verb: string, path: string, query: string, apiKey: string, ts1: string, ts2: string, body: string)
    requires ts1 != ts2
    ensures Render(verb, path, query, apiKey, ts1, body) != Render(verb, path, query, apiKey, ts2, body)
  {
    var pre := verb + "\n" + path + "\n" + query + "\n" + "x-api-key:" + apiKey + "\n" + "x-timestamp:";
    var post := "\n" + body + "\n" + SignedHeaders;
    assert Render(verb, path, query, apiKey, ts1, body) == pre + ts1 + post;
    assert Render(verb, path, query, apiKey, ts2, body) == pre + ts2 + post;
    if pre + ts1 + post == pre + ts2 + post {
      CancelAround(pre, ts1, ts2, post);
    }
  }

  /** Only the `x-api-key` header is read: other headers, `x-timestamp` among them, do not matter. */
  lemma CanonicalReadsOnlyApiKey(verb: string, url: string, h1: Headers, h2: Headers, timestamp: string, body: Option<string>)
    requires HeaderValue(h1, ApiKeyHeader) == HeaderValue(h2, ApiKeyHeader)
    ensures CanonicalRequest(verb, url, h1, timestamp, body) == CanonicalRequest(verb, url, h2, timestamp, body)
  {
  }

  /** `str(int(time.time()))` for a clock reading in whole seconds. */
  function Timestamp(now: int): string
  {
    Decimal.IntToDecimal(now)
  }

  /** The four headers built before signing. */
  function UnsignedHeaders(apiKey: string, timestamp: string): Headers
  {
    [(ApiKeyHeader, apiKey), (TimestampHeader, timestamp), ("x-sdk-version", SdkVersion), ("x-sdk-source", SdkSource)]
  }

  /** The headers `get_auth_headers` returns: five keys, in this order, with these values. */
  lemma SignedHeadersShape(apiKey: string, timestamp: string, signature: string)
    ensures var h := UnsignedHeaders(apiKey, timestamp) + [(SignatureHeader, signature)];
      && Keys(h) == [ApiKeyHeader, TimestampHeader, "x-sdk-version", "x-sdk-source", SignatureHeader]
      && HeaderValue(h, ApiKeyHeader) == Some(apiKey)
      && HeaderValue(h, TimestampHeader) == Some(timestamp)
      && HeaderValue(h, "x-sdk-version") == Some("1.0.0")
      && HeaderValue(h, "x-sdk-source") == Some("universal-ads-python-sdk")
      && HeaderValue(h, SignatureHeader) == Some(signature)
  {
    HeaderNamesDistinct();
    FiveHeaders(ApiKeyHeader, TimestampHeader, "x-sdk-version", "x-sdk-source", SignatureHeader,
                apiKey, timestamp, SdkVersion, SdkSource, signature);
    assert UnsignedHeaders(apiKey, timestamp) + [(SignatureHeader, signature)]
      == [(ApiKeyHeader, apiKey)] + ([(TimestampHeader, timestamp)] + ([("x-sdk-version", SdkVersion)]
          + ([("x-sdk-source", SdkSource)] + [(SignatureHeader, signature)])));
  }

  /** Five pairs with distinct keys: each key reads its own value, and the keys keep their order. */
  lemma FiveHeaders(k0: string, k1: string, k2: string, k3: string, k4: string,
                    v0: string, v1: string, v2: string, v3: string, v4: string)
    requires k0 != k1 && k0 != k2 && k0 != k3 && k0 != k4 && k1 != k2 && k1 != k3 && k1 != k4
    requires k2 != k3 && k2 != k4 && k3 != k4
    ensures var h := [(k0, v0)] + ([(k1, v1)] + ([(k2, v2)] + ([(k3, v3)] + [(k4, v4)])));
      && Keys(h) == [k0, k1, k2, k3, k4]
      && HeaderValue(h, k0) == Some(v0) && HeaderValue(h, k1) == Some(v1) && HeaderValue(h, k2) == Some(v2)
      && HeaderValue(h, k3) == Some(v3) && HeaderValue(h, k4) == Some(v4)
  {
    var t4 := [(k4, v4)];
    var t3 := [(k3, v3)] + t4;
    var t2 := [(k2, v2)] + t3;
    var t1 := [(k1, v1)] + t2;
    var h := [(k0, v0)] + t1;
    HeaderCons((k4, v4), [], k4);
    HeaderCons((k3, v3), t4, k3);
    HeaderCons((k3, v3), t4, k4);
    HeaderCons((k2, v2), t3, k2);
    HeaderCons((k2, v2), t3, k3);
    HeaderCons((k2, v2), t3, k4);
    HeaderCons((k1, v1), t2, k1);
    HeaderCons((k1, v1), t2, k2);
    HeaderCons((k1, v1), t2, k3);
    HeaderCons((k1, v1), t2, k4);
    HeaderCons((k0, v0), t1, k0);
    HeaderCons((k0, v0), t1, k1);
    HeaderCons((k0, v0), t1, k2);
    HeaderCons((k0, v0), t1, k3);
    HeaderCons((k0, v0), t1, k4);
    assert t4 == [(k4, v4)] + [];
  }

  lemma HeaderCons(p: (string, string), rest: Headers, k: string)
    ensures HeaderValue([p] + rest, k) == if p.0 == k then Some(p.1) else HeaderValue(rest, k)
    ensures Keys([p] + rest) == [p.0] + Keys(rest)
  {
    assert ([p] + rest)[1..] == rest;
  }

  lemma HeaderNamesDistinct()
    ensures ApiKeyHeader != TimestampHeader
    ensures ApiKeyHeader != "x-sdk-version" && TimestampHeader != "x-sdk-version"
    ensures ApiKeyHeader != "x-sdk-source" && TimestampHeader != "x-sdk-source" && "x-sdk-version" != "x-sdk-source"
    ensures SignatureHeader != ApiKeyHeader && SignatureHeader != TimestampHeader
    ensures SignatureHeader != "x-sdk-version" && SignatureHeader != "x-sdk-source"
  {
    assert ApiKeyHeader[2] == 'a' && TimestampHeader[2] == 't' && SignatureHeader[2] == 's';
    assert "x-sdk-version"[2] == 's' && "x-sdk-source"[2] == 's';
    assert "x-sdk-version"[6] == 'v' && "x-sdk-source"[6] == 's';
    assert SignatureHeader[3] == 'i' && "x-sdk-version"[3] == 'd' && "x-sdk-source"[3] == 'd';
  }

  lemma UnsignedHasApiKey(apiKey: string, timestamp: string)
    ensures HeaderValue(UnsignedHeaders(apiKey, timestamp), ApiKeyHeader) == Some(apiKey)
  {
  }

  class Authenticator {
    const apiKey: string
    const privateKeyPem: string
    const privateKey: PrivateKey
    const crypto: Crypto

    constructor (apiKey: string, privateKeyPem: string, privateKey: PrivateKey, crypto: Crypto)
      ensures this.apiKey == apiKey && this.privateKeyPem == privateKeyPem
      ensures this.privateKey == privateKey && this.crypto == crypto
    {
      this.apiKey := apiKey;
      this.privateKeyPem := privateKeyPem;
      this.privateKey := privateKey;
      this.crypto := crypto;
    }

    /**
     * `Authenticator(api_key, private_key_pem)`: the key is loaded from the
     * PEM's UTF-8 bytes; a load failure is a `ValueError` carrying its message.
     */
    static method Create(apiKey: string, privateKeyPem: string, crypto: Crypto) returns (r: Result<Authenticator, Error>)
      ensures crypto.loadPemPrivateKey(Utf8.Encode(privateKeyPem)).Failure? <==> r.Failure?
      ensures r.Failure? ==>
        r.error == ValueError("Invalid private key format: " + crypto.loadPemPrivateKey(Utf8.Encode(privateKeyPem)).error)
      ensures r.Success? ==>
        && r.value.apiKey == apiKey && r.value.privateKeyPem == privateKeyPem && r.value.crypto == crypto
        && crypto.loadPemPrivateKey(Utf8.Encode(privateKeyPem)) == Success(r.value.privateKey)
    {
      match crypto.loadPemPrivateKey(Utf8.Encode(privateKeyPem))
      case Failure(e) =>
        r := Failure(ValueError("Invalid private key format: " + e));
      case Success(key) =>
        var a := new Authenticator(apiKey, privateKeyPem, key, crypto);
        r := Success(a);
    }

    /** The bytes handed to the signer: the SHA-256 digest of the UTF-8 encoding, hashed once. */
    function Digest(canonical: string): seq<byte>
    {
      crypto.sha256(Utf8.Encode(canonical))
    }

    /**
     * `sign_request`: the ECDSA signature of the digest, signed as prehashed,
     * in standard Base64. A signer failure propagates as `SigningError`.
     */
    function SignRequest(canonical: string): (r: Result<string, Error>)
      ensures r.Failure? <==> crypto.signPrehashed(privateKey, Digest(canonical)).Failure?
      ensures r.Success? ==>
        && Base64.Decode(r.value).Some?
        && crypto.signPrehashed(privateKey, crypto.sha256(Utf8.Encode(canonical))) == Success(Base64.Decode(r.value).value)
    {
      match crypto.signPrehashed(privateKey, Digest(canonical))
      case Failure(e) => Failure(SigningError(e))
      case Success(signature) =>
        Base64.DecodeEncode(signature);
        Success(Base64.Encode(signature))
    }

    /** What `get_auth_headers(method, url, body)` returns when the clock reads `now`. */
    function AuthHeaders(verb: string, url: string, body: string, now: int): Result<Headers, Error>
    {
      var headers := UnsignedHeaders(apiKey, Timestamp(now));
      match CanonicalRequest(verb, url, headers, Timestamp(now), Some(body))
      case Failure(e) => Failure(e)
      case Success(canonical) =>
        match SignRequest(canonical)
        case Failure(e) => Failure(e)
        case Success(signature) => Success(headers + [(SignatureHeader, signature)])
    }

    /** `get_auth_headers`: the four identification headers, then `x-signature` added to them. */
    method GetAuthHeaders(verb: string, url: string, body: string, now: int) returns (r: Result<Headers, Error>)
      ensures r == AuthHeaders(verb, url, body, now)
      ensures r.Success? ==>
        && Keys(r.value) == [ApiKeyHeader, TimestampHeader, "x-sdk-version", "x-sdk-source", SignatureHeader]
        && HeaderValue(r.value, ApiKeyHeader) == Some(apiKey)
        && HeaderValue(r.value, TimestampHeader) == Some(Timestamp(now))
        && HeaderValue(r.value, "x-sdk-version") == Some("1.0.0")
        && HeaderValue(r.value, "x-sdk-source") == Some("universal-ads-python-sdk")
    {
      var timestamp := Timestamp(now);
      var headers := UnsignedHeaders(apiKey, timestamp);
      UnsignedHasApiKey(apiKey, timestamp);
      var canonical := CanonicalRequest(verb, url, headers, timestamp, Some(body)).value;
      var signature := SignRequest(canonical);
      if signature.Failure? {
        return Failure(signature.error);
      }
      SignedHeadersShape(apiKey, timestamp, signature.value);
      headers := headers + [(SignatureHeader, signature.value)];
      r := Success(headers);
    }

    /** Signing fails only when the signer refuses; the header lookup inside always succeeds. */
    lemma AuthHeadersFailure(verb: string, url: string, body: string, now: int)
      ensures AuthHeaders(verb, url, body, now).Failure? <==>
        SignRequest(CanonicalRequest(verb, url, UnsignedHeaders(apiKey, Timestamp(now)), Timestamp(now), Some(body)).value).Failure?
    {
    }

    /**
     * What the server can check: recomputing the canonical request from the
     * headers it received (its `x-api-key`, its `x-timestamp`) gives the string
     * whose digest the decoded `x-signature` is a signature of.
     */
    lemma SignatureCoversHeaders(verb: string, url: string, body: string, now: int)
      requires AuthHeaders(verb, url, body, now).Success?
      ensures var h := AuthHeaders(verb, url, body, now).value;
        && HeaderValue(h, ApiKeyHeader) == Some(apiKey)
        && HeaderValue(h, TimestampHeader) == Some(Timestamp(now)) && HeaderValue(h, SignatureHeader).Some?
        && var c := CanonicalRequest(verb, url, h, HeaderValue(h, TimestampHeader).value, Some(body));
        && c.Success?
        && Base64.Decode(HeaderValue(h, SignatureHeader).value).Some?
        && crypto.signPrehashed(privateKey, crypto.sha256(Utf8.Encode(c.value)))
           == Success(Base64.Decode(HeaderValue(h, SignatureHeader).value).value)
    {
      var unsigned := UnsignedHeaders(apiKey, Timestamp(now));
      var h := AuthHeaders(verb, url, body, now).value;
      var c0 := CanonicalRequest(verb, url, unsigned, Timestamp(now), Some(body));
      UnsignedHasApiKey(apiKey, Timestamp(now));
      assert h == unsigned + [(SignatureHeader, SignRequest(c0.value).value)];
      SignedHeadersShape(apiKey, Timestamp(now), SignRequest(c0.value).value);
      CanonicalReadsOnlyApiKey(verb, url, h, unsigned, Timestamp(now), Some(body));
    }

    /** Two clock readings a second or more apart sign different strings, hence different digest inputs. */
    lemma ClockDistinguishes(verb: string, url: string, body: string, now1: int, now2: int)
      requires now1 != now2
      ensures var c1 := CanonicalRequest(verb, url, UnsignedHeaders(apiKey, Timestamp(now1)), Timestamp(now1), Some(body));
        var c2 := CanonicalRequest(verb, url, UnsignedHeaders(apiKey, Timestamp(now2)), Timestamp(now2), Some(body));
        c1.Success? && c2.Success? && c1.value != c2.value && Utf8.Encode(c1.value) != Utf8.Encode(c2.value)
    {
      Decimal.DecimalInjective(now1, now2);
      var parsed := Url.UrlParse(url);
      var path := if parsed.path != "" then parsed.path else "/";
      TimestampDistinguishes(verb, path, parsed.query, apiKey, Timestamp(now1), Timestamp(now2), body);
      var c1 := CanonicalRequest(verb, url, UnsignedHeaders(apiKey, Timestamp(now1)), Timestamp(now1), Some(body));
      var c2 := CanonicalRequest(verb, url, UnsignedHeaders(apiKey, Timestamp(now2)), Timestamp(now2), Some(body));
      Utf8.EncodeInjective(c1.value, c2.value);
    }
  }
}
