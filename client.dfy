/**
 * The API client (`universal_ads_sdk/client.py`): construction, request
 * composition (URL with its query string, body, signed headers), the mapping
 * from an HTTP outcome to a result or an error, and the endpoint methods with
 * their parameter and body builders. The network is the `server` argument:
 * it maps the request handed to the session to what came back.
 */
module Client {
  import opened Wrappers
  import opened Json
  import opened Strings
  import opened Errors
  import Query
  import Auth
  import Url
  import Decimal
  import Utf8
  import Base64

  const BaseUrl := "https://api.universalads.com/v1"
  const DefaultTimeout := 30
  const DefaultMaxRetries := 3
  const RetryStatuses := [429, 500, 502, 503, 504]

  /** The production base URL has the shape the signing lemmas ask for: scheme `https`, a host, and path `/v1`. */
  lemma DefaultBaseUrlShape()
    ensures BaseUrl == "https" + "://" + "api.universalads.com" + "/v1"
    ensures Url.SchemeName("https") && Url.HostText("api.universalads.com") && Url.PathText("/v1")
  {
    ProductionUrlParts();
    assert BaseUrl == "https" + "://" + "api.universalads.com" + "/v1";
  }

  lemma ProductionUrlParts()
    ensures Url.SchemeName("https") && Url.HostText("api.universalads.com") && Url.PathText("/v1")
  {
    assert Url.SchemeName("https");
    assert Url.HostText("api.universalads.com");
    assert Url.PathText("/v1");
  }

  /** The urllib3 `Retry` the session is mounted with; the retrying itself is not modelled. */
  datatype RetryPolicy = RetryPolicy(total: int, backoffFactor: int, statusForcelist: seq<int>)

  /**
   * Library behaviour the client relies on: `quote_plus` and `str(list)` for
   * `urlencode`, `json.dumps` of a dict, and `str` of a JSON list or dict.
   */
  datatype Library = Library(encoder: Query.Encoder, jsonDumps: Dict -> string, reprJson: Json -> string)

  /** The `data` argument of `_make_request`: absent, a string, or a dict. */
  datatype RequestData = NoData | TextData(text: string) | DictData(dict: Dict)

  /** What is handed to `session.request`; `body` is `None` when the body string is empty. */
  datatype HttpRequest = HttpRequest(verb: string, url: string, headers: Auth.Headers, body: Option<string>, timeout: int)

  /** A response: its status, what `response.json()` gives (or the message it raises), and its text. */
  datatype HttpResponse = HttpResponse(status: int, json: Result<Json, string>, text: string)

  /** A response, or the message of the `requests.RequestException` the session raised. */
  datatype TransportOutcome = Received(response: HttpResponse) | TransportFailure(reason: string)

  /** `str(x)` of a value taken from a parsed JSON body. */
  function Display(j: Json, lib: Library): string
  {
    match j
    case JNull => "None"
    case JBool(b) => if b then "True" else "False"
    case JInt(n) => Decimal.IntToDecimal(n)
    case JStr(s) => s
    case _ => lib.reprJson(j)
  }

  /** The `error_data` of a failed request: the parsed body, or `{"message": text}` when it is not JSON. */
  function ErrorData(resp: HttpResponse): Json
  {
    match resp.json
    case Success(j) => j
    case Failure(_) => JObject([("message", JStr(resp.text))])
  }

  /** `error_data.get('message', 'Unknown error')` shown in an f-string. */
  function ErrorMessage(errorData: Dict, lib: Library): string
  {
    match Get(errorData, "message")
    case None => "Unknown error"
    case Some(m) => Display(m, lib)
  }

  /**
   * The response handling of `_make_request`. A status of 400 or more is an
   * `APIError` with that status; 204 is `{}`; any other status is the parsed
   * body. A transport failure, and a body `response.json()` cannot parse on
   * success, is an `APIError` without status or data. An error body that
   * parses to something other than an object makes `.get` raise.
   */
  function Classify(outcome: TransportOutcome, lib: Library): (r: Result<Json, Error>)
    ensures r.Success? <==>
      outcome.Received? && outcome.response.status < 400
      && (outcome.response.status == 204 || outcome.response.json.Success?)
    ensures r.Failure? ==> r.error.APIError? || r.error.AttributeError?
    ensures r.Failure? && r.error.APIError? ==>
      (r.error.statusCode.Some? <==> outcome.Received? && outcome.response.status >= 400)
    ensures r.Failure? && r.error.APIError? && r.error.statusCode.Some? ==>
      r.error.statusCode.value == outcome.response.status && r.error.responseData == ErrorData(outcome.response)
    ensures r.Failure? && r.error.APIError? && r.error.statusCode.None? ==> r.error.responseData == JObject([])
    ensures r.Failure? && r.error.AttributeError? <==>
      outcome.Received? && outcome.response.status >= 400 && !ErrorData(outcome.response).JObject?
    ensures outcome.Received? && outcome.response.status == 204 ==> r == Success(JObject([]))
    ensures (outcome.Received? && outcome.response.status < 400 && outcome.response.status != 204
             && outcome.response.json.Success?) ==> r == Success(outcome.response.json.value)
    ensures outcome.TransportFailure? ==> r == Failure(APIError("Request failed: " + outcome.reason, None, JObject([])))
    ensures (outcome.Received? && outcome.response.status < 400 && outcome.response.status != 204
             && outcome.response.json.Failure?) ==>
      r == Failure(APIError("Request failed: " + outcome.response.json.error, None, JObject([])))
  {
    match outcome
    case TransportFailure(reason) => Failure(APIError("Request failed: " + reason, None, JObject([])))
    case Received(resp) =>
      if resp.status >= 400 then
        var errorData := ErrorData(resp);
        match errorData
        case JObject(fields) =>
          Failure(APIError("API request failed: " + ErrorMessage(fields, lib), Some(resp.status), errorData))
        case _ => Failure(AttributeError(TypeName(errorData)))
      else if resp.status == 204 then Success(JObject([]))
      else
        match resp.json
        case Success(j) => Success(j)
        case Failure(reason) => Failure(APIError("Request failed: " + reason, None, JObject([])))
  }

  /** A failed request whose body is not JSON reports the raw text, and keeps it as `{"message": text}`. */
  lemma ErrorFromText(status: int, reason: string, text: string, lib: Library)
    requires status >= 400
    ensures Classify(Received(HttpResponse(status, Failure(reason), text)), lib)
      == Failure(APIError("API request failed: " + text, Some(status), JObject([("message", JStr(text))])))
  {
    assert Get([("message", JStr(text))], "message") == Some(JStr(text));
  }

  /** A failed request whose JSON object has a string "message", in any position, reports that message. */
  lemma ErrorWithMessage(status: int, fields: Dict, m: string, text: string, lib: Library)
    requires status >= 400
    requires Get(fields, "message") == Some(JStr(m))
    ensures Classify(Received(HttpResponse(status, Success(JObject(fields)), text)), lib)
      == Failure(APIError("API request failed: " + m, Some(status), JObject(fields)))
  {
  }

  /** A failed request whose JSON object has no "message" reports "Unknown error". */
  lemma ErrorWithoutMessage(status: int, fields: Dict, text: string, lib: Library)
    requires status >= 400
    requires "message" !in Keys(fields)
    ensures Classify(Received(HttpResponse(status, Success(JObject(fields)), text)), lib)
      == Failure(APIError("API request failed: Unknown error", Some(status), JObject(fields)))
  {
    assert Get(fields, "message") == None;
    assert "API request failed: " + "Unknown error" == "API request failed: Unknown error";
  }

  /** A 422 whose JSON body lists field errors surfaces as an `APIError` carrying that status and body. */
  lemma FieldErrorScenario(text: string, lib: Library)
    ensures var body := JObject([("errors", JArray([JObject([("field", JStr("adaccount_id"))])]))]);
      var r := Classify(Received(HttpResponse(422, Success(body), text)), lib);
      && r.Failure? && r.error.APIError? && r.error.statusCode == Some(422)
      && r.error.responseData.JObject?
      && Get(r.error.responseData.fields, "errors") == Some(JArray([JObject([("field", JStr("adaccount_id"))])]))
  {
  }

  /** A 200 with body `{"id": "x"}` returns that mapping; a 204 returns `{}` whatever its body. */
  lemma SuccessScenarios(json: Result<Json, string>, text: string, lib: Library)
    ensures Classify(Received(HttpResponse(200, Success(JObject([("id", JStr("x"))])), text)), lib)
      == Success(JObject([("id", JStr("x"))]))
    ensures Classify(Received(HttpResponse(204, json, text)), lib) == Success(JObject([]))
  {
  }

  /** `os.path.basename` (POSIX): the text after the last '/'. */
  function Basename(p: string): (b: string)
    ensures '/' !in b
    ensures |b| <= |p| && p[|p| - |b|..] == b
    ensures |b| < |p| ==> p[|p| - |b| - 1] == '/'
  {
    var i := Url.FindLast(p, '/');
    p[i + 1..]
  }

  /** The dict `data` is truthy exactly when it is a non-empty string or dict. */
  predicate DataTruthy(data: RequestData)
  {
    match data
    case NoData => false
    case TextData(text) => text != ""
    case DictData(d) => d != []
  }

  /** The body string of `_make_request`: "" for falsy data, a string as it is, a dict as `json.dumps` writes it. */
  function BodyString(data: RequestData, lib: Library): string
  {
    if !DataTruthy(data) then ""
    else match data
      case TextData(text) => text
      case DictData(d) => lib.jsonDumps(d)
  }

  /**
   * The body the session receives: none when the body string is empty. Read
   * back with "" for no body, it is the very string the authenticator signed,
   * and an empty body is never sent as such.
   */
  function TransportBody(body: string): (r: Option<string>)
    ensures (if r.Some? then r.value else "") == body
    ensures r != Some("")
  {
    if body != "" then Some(body) else None
  }

  /** Falsy data, an empty dict among it, sends no body; non-empty text is sent verbatim. */
  lemma BodyDefaults(lib: Library, text: string)
    ensures TransportBody(BodyString(NoData, lib)) == None
    ensures TransportBody(BodyString(DictData([]), lib)) == None
    ensures TransportBody(BodyString(TextData(""), lib)) == None
    ensures text != "" ==> TransportBody(BodyString(TextData(text), lib)) == Some(text)
  {
  }

  /** `HeaderValue` ignores pairs after the first one with the key. */
  lemma {:induction false} HeaderValueAppend(h: Auth.Headers, extra: Auth.Headers, k: string)
    requires Auth.HeaderValue(h, k).Some?
    ensures Auth.HeaderValue(h + extra, k) == Auth.HeaderValue(h, k)
  {
    if h[0].0 != k {
      assert (h + extra)[1..] == h[1..] + extra;
      HeaderValueAppend(h[1..], extra, k);
    }
  }

  function CreativePath(creativeId: string): string { "/creative/" + creativeId }

  function VerifyMediaPath(mediaId: string): string { "/media/" + mediaId + "/verify" }

  /** The dict `get_creatives` builds, before filtering out the falsy candidates. */
  function CreativeListCandidates(adaccountId: Option<string>, limit: Option<int>, offset: Option<int>, sort: Option<string>): Query.Params
  {
    [("adaccount_id", Query.OptStr(adaccountId)), ("limit", Query.OptInt(limit)),
     ("offset", Query.OptInt(offset)), ("sort", Query.OptStr(sort))]
  }

  /** `get_creatives`' parameters: each optional one only when truthy, in a fixed order. */
  method CreativeListParams(adaccountId: Option<string>, limit: Option<int>, offset: Option<int>, sort: Option<string>)
    returns (params: Query.Params)
    ensures params == Query.KeepTruthy(CreativeListCandidates(adaccountId, limit, offset, sort))
  {
    params := [];
    params := Query.SetIfTruthy(params, "adaccount_id", Query.OptStr(adaccountId));
    params := Query.SetIfTruthy(params, "limit", Query.OptInt(limit));
    params := Query.SetIfTruthy(params, "offset", Query.OptInt(offset));
    params := Query.SetIfTruthy(params, "sort", Query.OptStr(sort));
    Query.KeepTruthyFour(("adaccount_id", Query.OptStr(adaccountId)), ("limit", Query.OptInt(limit)),
                         ("offset", Query.OptInt(offset)), ("sort", Query.OptStr(sort)));
    Query.AppendFour([], Query.Kept(("adaccount_id", Query.OptStr(adaccountId))), Query.Kept(("limit", Query.OptInt(limit))),
                     Query.Kept(("offset", Query.OptInt(offset))), Query.Kept(("sort", Query.OptStr(sort))));
  }

  /** A parameter of the list call is sent exactly when it was given a truthy value: `limit=0` is not sent. */
  lemma CreativeListSendsTruthy(adaccountId: Option<string>, limit: Option<int>, offset: Option<int>, sort: Option<string>, v: Query.PyValue)
    ensures ("limit", v) in Query.KeepTruthy(CreativeListCandidates(adaccountId, limit, offset, sort))
      <==> Query.Truthy(v) && v == Query.OptInt(limit)
    ensures ("sort", v) in Query.KeepTruthy(CreativeListCandidates(adaccountId, limit, offset, sort))
      <==> Query.Truthy(v) && v == Query.OptStr(sort)
  {
    var cands := CreativeListCandidates(adaccountId, limit, offset, sort);
    Query.KeepTruthyMember(cands, ("limit", v));
    Query.KeepTruthyMember(cands, ("sort", v));
  }

  /** Listing creatives with `limit=10` alone sends exactly `limit=10`. */
  lemma LimitOnlyScenario(enc: Query.Encoder)
    ensures Query.KeepTruthy(CreativeListCandidates(None, Some(10), None, None)) == [("limit", Query.PyInt(10))]
    ensures Query.Urlencode([("limit", Query.PyInt(10))], enc) == enc.quotePlus("limit") + "=" + enc.quotePlus("10")
  {
    assert Decimal.NatToDecimal(10) == Decimal.NatToDecimal(1) + [Decimal.DigitChar(0)];
    assert Decimal.IntToDecimal(10) == "10";
  }

  /** The optional part of a report's parameters; `idsKey` is `campaign_ids`, `adset_ids` or `ad_ids`. */
  function ReportCandidates(adaccountId: Option<string>, idsKey: string, ids: Option<seq<string>>, limit: Option<int>, offset: Option<int>): Query.Params
  {
    [("adaccount_id", Query.OptStr(adaccountId)), (idsKey, Query.OptList(ids)),
     ("limit", Query.OptInt(limit)), ("offset", Query.OptInt(offset))]
  }

  /** A report's parameters: the two dates always, first, then the truthy optional ones in order. */
  method ReportParams(startDate: string, endDate: string, adaccountId: Option<string>, idsKey: string,
                      ids: Option<seq<string>>, limit: Option<int>, offset: Option<int>)
    returns (params: Query.Params)
    ensures params == [("start_date", Query.PyStr(startDate)), ("end_date", Query.PyStr(endDate))]
                      + Query.KeepTruthy(ReportCandidates(adaccountId, idsKey, ids, limit, offset))
  {
    params := [("start_date", Query.PyStr(startDate)), ("end_date", Query.PyStr(endDate))];
    params := Query.SetIfTruthy(params, "adaccount_id", Query.OptStr(adaccountId));
    params := Query.SetIfTruthy(params, idsKey, Query.OptList(ids));
    params := Query.SetIfTruthy(params, "limit", Query.OptInt(limit));
    params := Query.SetIfTruthy(params, "offset", Query.OptInt(offset));
    Query.KeepTruthyFour(("adaccount_id", Query.OptStr(adaccountId)), (idsKey, Query.OptList(ids)),
                         ("limit", Query.OptInt(limit)), ("offset", Query.OptInt(offset)));
    Query.AppendFour([("start_date", Query.PyStr(startDate)), ("end_date", Query.PyStr(endDate))],
                     Query.Kept(("adaccount_id", Query.OptStr(adaccountId))), Query.Kept((idsKey, Query.OptList(ids))),
                     Query.Kept(("limit", Query.OptInt(limit))), Query.Kept(("offset", Query.OptInt(offset))));
  }

  /** The two dates lead every report query, even when empty. */
  lemma ReportDatesFirst(startDate: string, endDate: string, rest: Query.Params)
    ensures var ps := [("start_date", Query.PyStr(startDate)), ("end_date", Query.PyStr(endDate))] + rest;
      Keys(ps)[..2] == ["start_date", "end_date"]
  {
  }

  /** The name part of `update_creative`'s body: present whenever a name was given, "" included. */
  function NameField(name: Option<string>): Dict
  {
    if name.Some? then [("name", JStr(name.value))] else []
  }

  /**
   * `update_creative`'s body: `name` when it is not None, then `data.update(kwargs)`.
   * Python's keyword arguments are distinct and cannot be called `name`.
   */
  method UpdateCreativeBody(name: Option<string>, extra: Dict) returns (data: Dict)
    requires DistinctKeys(extra) && "name" !in Keys(extra)
    ensures data == NameField(name) + extra
    ensures Get(data, "name") == if name.Some? then Some(JStr(name.value)) else None
    ensures forall k :: k != "name" ==> Get(data, k) == Get(extra, k)
  {
    data := [];
    if name.Some? {
      data := Put(data, "name", JStr(name.value));
    }
    ghost var start := data;
    assert start == NameField(name);
    var i := 0;
    while i < |extra|
      invariant 0 <= i <= |extra|
      invariant Update(data, extra[i..]) == Update(start, extra)
    {
      assert extra[i..][1..] == extra[i + 1..];
      data := Put(data, extra[i].0, extra[i].1);
      i := i + 1;
    }
    assert extra[i..] == [];
    forall j | 0 <= j < |extra|
      ensures extra[j].0 !in Keys(start)
    {
      assert extra[j].0 in Keys(extra);
    }
    UpdateFresh(start, extra);
    forall k | k != "name"
      ensures Get(data, k) == Get(extra, k)
    {
      GetUpdate(start, extra, k);
    }
    GetUpdate(start, extra, "name");
  }

  /** `upload_media`'s body: the filename, or the path's basename when it is falsy, and the content type. */
  method MediaUploadBody(filePath: string, contentType: string, filename: Option<string>) returns (data: Dict)
    ensures data == [("filename", JStr(if filename.Some? && filename.value != "" then filename.value else Basename(filePath))),
                     ("content_type", JStr(contentType))]
  {
    var name := if filename.Some? then filename.value else "";
    if name == "" {
      name := Basename(filePath);
    }
    data := [("filename", JStr(name)), ("content_type", JStr(contentType))];
  }

  class UniversalAdsClient {
    const baseUrl: string
    const timeout: int
    const retry: RetryPolicy
    const authenticator: Auth.Authenticator
    const lib: Library

    constructor (baseUrl: string, timeout: int, retry: RetryPolicy, authenticator: Auth.Authenticator, lib: Library)
      ensures this.baseUrl == baseUrl && this.timeout == timeout && this.retry == retry
      ensures this.authenticator == authenticator && this.lib == lib
    {
      this.baseUrl := baseUrl;
      this.timeout := timeout;
      this.retry := retry;
      this.authenticator := authenticator;
      this.lib := lib;
    }

    /**
     * `UniversalAdsClient(...)`: the base URL falls back to the production one
     * when None or empty; any authenticator failure is wrapped as an
     * `AuthenticationError` and no client is made.
     */
    static method Create(apiKey: string, privateKeyPem: string, baseUrl: Option<string>, timeout: int, maxRetries: int,
                         crypto: Auth.Crypto, lib: Library)
      returns (r: Result<UniversalAdsClient, Error>)
      ensures r.Failure? <==> crypto.loadPemPrivateKey(Utf8.Encode(privateKeyPem)).Failure?
      ensures r.Failure? ==> r.error == AuthenticationError(
        "Failed to initialize authenticator: " + ("Invalid private key format: "
        + crypto.loadPemPrivateKey(Utf8.Encode(privateKeyPem)).error))
      ensures r.Success? ==>
        && r.value.baseUrl == (if baseUrl.Some? && baseUrl.value != "" then baseUrl.value else BaseUrl)
        && r.value.timeout == timeout
        && r.value.retry == RetryPolicy(maxRetries, 1, RetryStatuses)
        && r.value.authenticator.apiKey == apiKey
        && r.value.authenticator.privateKeyPem == privateKeyPem
        && r.value.authenticator.crypto == crypto
        && crypto.loadPemPrivateKey(Utf8.Encode(privateKeyPem)) == Success(r.value.authenticator.privateKey)
        && r.value.lib == lib
    {
      var url := if baseUrl.Some? && baseUrl.value != "" then baseUrl.value else BaseUrl;
      var authenticator := Auth.Authenticator.Create(apiKey, privateKeyPem, crypto);
      if authenticator.Failure? {
        return Failure(AuthenticationError("Failed to initialize authenticator: " + authenticator.error.message));
      }
      var retry := RetryPolicy(maxRetries, 1, RetryStatuses);
      var client := new UniversalAdsClient(url, timeout, retry, authenticator.value, lib);
      r := Success(client);
    }

    /**
     * `UniversalAdsClient(api_key, private_key_pem)` with the defaults of its
     * signature: no base URL, `timeout=30`, `max_retries=3`.
     */
    static method CreateWithDefaults(apiKey: string, privateKeyPem: string, crypto: Auth.Crypto, lib: Library)
      returns (r: Result<UniversalAdsClient, Error>)
      ensures r.Failure? <==> crypto.loadPemPrivateKey(Utf8.Encode(privateKeyPem)).Failure?
      ensures r.Success? ==>
        && r.value.baseUrl == BaseUrl
        && r.value.timeout == 30
        && r.value.retry == RetryPolicy(3, 1, [429, 500, 502, 503, 504])
        && r.value.authenticator.apiKey == apiKey
        && r.value.authenticator.crypto == crypto
    {
      r := Create(apiKey, privateKeyPem, None, DefaultTimeout, DefaultMaxRetries, crypto, lib);
    }

    /** The request URL: the base URL, the endpoint, and "?" with the encoded parameters when there are any. */
    function RequestUrl(endpoint: string, params: Query.Params): string
    {
      if |params| > 0 then baseUrl + endpoint + "?" + Query.Urlencode(params, lib.encoder) else baseUrl + endpoint
    }

    /** The request `_make_request` hands to the session when the clock reads `now`. */
    function Prepare(verb: string, endpoint: string, data: RequestData, params: Query.Params, now: int): Result<HttpRequest, Error>
    {
      var url := RequestUrl(endpoint, params);
      var body := BodyString(data, lib);
      match authenticator.AuthHeaders(verb, url, body, now)
      case Failure(e) => Failure(e)
      case Success(headers) =>
        Success(HttpRequest(verb, url, headers + [("Content-Type", "application/json")], TransportBody(body), timeout))
    }

    /** What `_make_request` returns or raises. */
    function Call(verb: string, endpoint: string, data: RequestData, params: Query.Params, now: int,
                  server: HttpRequest -> TransportOutcome): Result<Json, Error>
    {
      match Prepare(verb, endpoint, data, params, now)
      case Failure(e) => Failure(e)
      case Success(request) => Classify(server(request), lib)
    }

    /** `_make_request`: the URL and body built step by step, signed, sent once, and the outcome classified. */
    method MakeRequest(verb: string, endpoint: string, data: RequestData, params: Query.Params, now: int,
                       server: HttpRequest -> TransportOutcome)
      returns (r: Result<Json, Error>)
      ensures r == Call(verb, endpoint, data, params, now, server)
    {
      var url := baseUrl + endpoint;
      if |params| > 0 {
        var queryString := Query.Urlencode(params, lib.encoder);
        url := url + "?" + queryString;
      }
      var bodyStr := "";
      if DataTruthy(data) {
        if data.TextData? {
          bodyStr := data.text;
        } else {
          bodyStr := lib.jsonDumps(data.dict);
        }
      }
      var headers := authenticator.GetAuthHeaders(verb, url, bodyStr, now);
      if headers.Failure? {
        return Failure(headers.error);
      }
      var sent := headers.value + [("Content-Type", "application/json")];
      var request := HttpRequest(verb, url, sent, if bodyStr != "" then Some(bodyStr) else None, timeout);
      r := Classify(server(request), lib);
    }

    /**
     * The signature covers what is sent. On a base URL `scheme://host/path`
     * and an endpoint that keep the path free of '?', '#' and ';', the query
     * `urlparse` finds in the sent URL is the `urlencode` string appended to
     * it, and the `x-signature` header decodes to a signature over the
     * canonical request of the sent path, that query, the sent `x-timestamp`
     * and the sent body.
     */
    lemma SignatureCoversSentRequest(verb: string, endpoint: string, data: RequestData, params: Query.Params, now: int,
                                     scheme: string, host: string, basePath: string)
      requires baseUrl == scheme + "://" + host + basePath
      requires Url.SchemeName(scheme) && Url.HostText(host) && Url.PathText(basePath + endpoint)
      requires Query.UrlSafe(lib.encoder)
      requires Prepare(verb, endpoint, data, params, now).Success?
      ensures var req := Prepare(verb, endpoint, data, params, now).value;
        var query := if |params| > 0 then Query.Urlencode(params, lib.encoder) else "";
        var path := basePath + endpoint;
        && Url.UrlParse(req.url).query == query
        && Url.UrlParse(req.url).path == path
        && Auth.HeaderValue(req.headers, Auth.ApiKeyHeader) == Some(authenticator.apiKey)
        && Auth.HeaderValue(req.headers, Auth.TimestampHeader) == Some(Auth.Timestamp(now))
        && Auth.HeaderValue(req.headers, Auth.SignatureHeader).Some?
        && var signature := Base64.Decode(Auth.HeaderValue(req.headers, Auth.SignatureHeader).value);
        && signature.Some?
        && authenticator.crypto.signPrehashed(authenticator.privateKey, authenticator.Digest(
             Auth.Render(verb, if path == "" then "/" else path, query, authenticator.apiKey, Auth.Timestamp(now),
                         if req.body.Some? then req.body.value else "")))
           == Success(signature.value)
    {
      var url := RequestUrl(endpoint, params);
      var body := BodyString(data, lib);
      var path := basePath + endpoint;
      var hasQuery := |params| > 0;
      var q := Query.Urlencode(params, lib.encoder);
      SentUrlShape(endpoint, params, scheme, host, basePath);
      Url.ParseAbsoluteUrl(scheme, host, path, hasQuery, q);
      authenticator.SignatureCoversHeaders(verb, url, body, now);
      var h := authenticator.AuthHeaders(verb, url, body, now).value;
      Auth.CanonicalOfAbsoluteUrl(verb, scheme, host, path, hasQuery, q, h, Auth.Timestamp(now), Some(body));
      HeaderValueAppend(h, [("Content-Type", "application/json")], Auth.ApiKeyHeader);
      HeaderValueAppend(h, [("Content-Type", "application/json")], Auth.TimestampHeader);
      HeaderValueAppend(h, [("Content-Type", "application/json")], Auth.SignatureHeader);
    }

    lemma SentUrlShape(endpoint: string, params: Query.Params, scheme: string, host: string, basePath: string)
      requires baseUrl == scheme + "://" + host + basePath
      requires Query.UrlSafe(lib.encoder)
      ensures var q := Query.Urlencode(params, lib.encoder);
        && Url.QueryText(q)
        && RequestUrl(endpoint, params) == scheme + "://" + host + (basePath + endpoint) + Url.QuerySuffix(|params| > 0, q)
    {
      var q := Query.Urlencode(params, lib.encoder);
      var head := scheme + "://" + host;
      Query.UrlencodeIsQueryText(params, lib.encoder);
      assert baseUrl + endpoint == head + (basePath + endpoint);
      if |params| > 0 {
        assert RequestUrl(endpoint, params) == (baseUrl + endpoint) + ("?" + q);
      } else {
        assert RequestUrl(endpoint, params) == (baseUrl + endpoint) + "";
      }
    }

    /** `get_creatives`. */
    method GetCreatives(adaccountId: Option<string>, limit: Option<int>, offset: Option<int>, sort: Option<string>,
                        now: int, server: HttpRequest -> TransportOutcome)
      returns (r: Result<Json, Error>)
      ensures r == Call("GET", "/creative", NoData, Query.KeepTruthy(CreativeListCandidates(adaccountId, limit, offset, sort)), now, server)
    {
      var params := CreativeListParams(adaccountId, limit, offset, sort);
      r := MakeRequest("GET", "/creative", NoData, params, now, server);
    }

    /** `get_creative`: a GET of `/creative/{id}` with no query. */
    method GetCreative(creativeId: string, now: int, server: HttpRequest -> TransportOutcome) returns (r: Result<Json, Error>)
      ensures r == Call("GET", CreativePath(creativeId), NoData, [], now, server)
    {
      r := MakeRequest("GET", CreativePath(creativeId), NoData, [], now, server);
    }

    /** `create_creative`: the three fields, in this order, as the body. */
    method CreateCreative(adaccountId: string, name: string, mediaId: string, now: int, server: HttpRequest -> TransportOutcome)
      returns (r: Result<Json, Error>)
      ensures r == Call("POST", "/creative",
        DictData([("adaccount_id", JStr(adaccountId)), ("name", JStr(name)), ("media_id", JStr(mediaId))]), [], now, server)
    {
      var data := [("adaccount_id", JStr(adaccountId)), ("name", JStr(name)), ("media_id", JStr(mediaId))];
      r := MakeRequest("POST", "/creative", DictData(data), [], now, server);
    }

    /** `update_creative`. */
    method UpdateCreative(creativeId: string, name: Option<string>, extra: Dict, now: int, server: HttpRequest -> TransportOutcome)
      returns (r: Result<Json, Error>)
      requires DistinctKeys(extra) && "name" !in Keys(extra)
      ensures r == Call("PUT", CreativePath(creativeId), DictData(NameField(name) + extra), [], now, server)
    {
      var data := UpdateCreativeBody(name, extra);
      r := MakeRequest("PUT", CreativePath(creativeId), DictData(data), [], now, server);
    }

    /** `delete_creative`. */
    method DeleteCreative(creativeId: string, now: int, server: HttpRequest -> TransportOutcome) returns (r: Result<Json, Error>)
      ensures r == Call("DELETE", CreativePath(creativeId), NoData, [], now, server)
    {
      r := MakeRequest("DELETE", CreativePath(creativeId), NoData, [], now, server);
    }

    /** `upload_media`. */
    method UploadMedia(filePath: string, contentType: string, filename: Option<string>, now: int,
                       server: HttpRequest -> TransportOutcome)
      returns (r: Result<Json, Error>)
      ensures r == Call("POST", "/media", DictData([
        ("filename", JStr(if filename.Some? && filename.value != "" then filename.value else Basename(filePath))),
        ("content_type", JStr(contentType))]), [], now, server)
    {
      var data := MediaUploadBody(filePath, contentType, filename);
      r := MakeRequest("POST", "/media", DictData(data), [], now, server);
    }

    /** `verify_media`: a POST of `/media/{id}/verify` with no body. */
    method VerifyMedia(mediaId: string, now: int, server: HttpRequest -> TransportOutcome) returns (r: Result<Json, Error>)
      ensures r == Call("POST", VerifyMediaPath(mediaId), NoData, [], now, server)
    {
      r := MakeRequest("POST", VerifyMediaPath(mediaId), NoData, [], now, server);
    }

    /** `get_campaign_report`. */
    method GetCampaignReport(startDate: string, endDate: string, adaccountId: Option<string>, campaignIds: Option<seq<string>>,
                             limit: Option<int>, offset: Option<int>, now: int, server: HttpRequest -> TransportOutcome)
      returns (r: Result<Json, Error>)
      ensures r == Call("GET", "/report/campaign", NoData,
        [("start_date", Query.PyStr(startDate)), ("end_date", Query.PyStr(endDate))]
        + Query.KeepTruthy(ReportCandidates(adaccountId, "campaign_ids", campaignIds, limit, offset)), now, server)
    {
      var params := ReportParams(startDate, endDate, adaccountId, "campaign_ids", campaignIds, limit, offset);
      r := MakeRequest("GET", "/report/campaign", NoData, params, now, server);
    }

    /** `get_adset_report`. */
    method GetAdsetReport(startDate: string, endDate: string, adaccountId: Option<string>, adsetIds: Option<seq<string>>,
                          limit: Option<int>, offset: Option<int>, now: int, server: HttpRequest -> TransportOutcome)
      returns (r: Result<Json, Error>)
      ensures r == Call("GET", "/report/adset", NoData,
        [("start_date", Query.PyStr(startDate)), ("end_date", Query.PyStr(endDate))]
        + Query.KeepTruthy(ReportCandidates(adaccountId, "adset_ids", adsetIds, limit, offset)), now, server)
    {
      var params := ReportParams(startDate, endDate, adaccountId, "adset_ids", adsetIds, limit, offset);
      r := MakeRequest("GET", "/report/adset", NoData, params, now, server);
    }

    /** `get_ad_report`. */
    method GetAdReport(startDate: string, endDate: string, adaccountId: Option<string>, adIds: Option<seq<string>>,
                       limit: Option<int>, offset: Option<int>, now: int, server: HttpRequest -> TransportOutcome)
      returns (r: Result<Json, Error>)
      ensures r == Call("GET", "/report/ad", NoData,
        [("start_date", Query.PyStr(startDate)), ("end_date", Query.PyStr(endDate))]
        + Query.KeepTruthy(ReportCandidates(adaccountId, "ad_ids", adIds, limit, offset)), now, server)
    {
      var params := ReportParams(startDate, endDate, adaccountId, "ad_ids", adIds, limit, offset);
      r := MakeRequest("GET", "/report/ad", NoData, params, now, server);
    }
  }
}
