# Universal Ads SDK (Python) — a Dafny model of request signing and request handling

This project models the two pipelines in the Universal Ads Python SDK that hold
real logic. The properties are proved with Dafny.

- **Request signing** (`universal_ads_sdk/auth.py`):
  - the `Authenticator` loads an EC private key from PEM;
  - it builds a fixed-format *canonical request* from the HTTP method, the URL's
    path and query, the API key, a timestamp and the body;
  - it hashes that string's UTF-8 bytes with SHA-256, signs the digest with ECDSA
    (prehashed), and Base64-encodes the signature;
  - it returns five headers: `x-api-key`, `x-timestamp`, `x-sdk-version`,
    `x-sdk-source` and `x-signature`.
- **Request handling** (`universal_ads_sdk/client.py`):
  - the `UniversalAdsClient` builds query parameters and bodies for each endpoint;
  - it builds the URL, with its `urlencode` query string, *before* signing;
  - it sends the signed request once;
  - it maps the HTTP outcome to a result or an `APIError`.

Modules:

- `Auth` — the canonical request, the `Authenticator` class and the header assembly.
- `Client` — the `UniversalAdsClient` class, the builders and response classification.
- Modules for the library behaviour these depend on:
  - `Url`: `urllib.parse.urlparse`;
  - `Query`: truthiness-gated parameters and `urlencode`;
  - `Json`: JSON values and Python dict `get`, `d[k] = v` and `update`;
  - `Base64`: RFC 4648 section 4;
  - `Utf8`: RFC 3629;
  - `Decimal`: `str(int)`;
  - `Strings`: `join` and `split`;
  - `Errors`: the exceptions of `universal_ads_sdk/exceptions.py`.

What the model cannot see is passed in as an argument:

- PEM loading, SHA-256 and ECDSA are functions in an `Auth.Crypto` record.
- `quote_plus`, `str` of a list, `json.dumps` and `str` of a JSON container are
  functions in a `Client.Library` record.
- The clock is the `now` argument, in whole seconds.
- The network is a `server` function from the request handed to the session to
  the outcome.

The central cross-module property is `Client.UniversalAdsClient.SignatureCoversSentRequest`.
It holds for a base URL `scheme://host/path` and endpoint paths free of `?`, `#` and `;`.
- The query `urlparse` finds in the sent URL is exactly the `urlencode` string
  appended to it.
- The `x-signature` header decodes to an ECDSA signature over the digest of the
  canonical request. That request is built from the sent path, that query, the
  sent `x-timestamp` and the body actually sent.

Where the SDK's design description and its code differ, the model follows the code:
- A PEM that loads but does not hold an EC key is accepted at construction. It
  fails only when signing, not with a key-format error when the client is built.
  The SDK defines no signing exception: the failure is whatever
  `private_key.sign` raises, uncaught (for an RSA key, a `TypeError` from the
  two-argument call). `SigningError` is this model's name for that failure.
- Key-load failures are `ValueError` inside the authenticator. The client
  re-raises them as `AuthenticationError`.
- Transport failures are `APIError` with no status, not a separate error kind.
- Only the statuses 429, 500, 502, 503 and 504 are retry-eligible (`Client.RetryStatuses`).
- A status of 400 or more is an error. Statuses 100–399 are success, and 204 yields `{}`.

## Model

| member | source | states |
|---|---|---|
| `Auth.CanonicalRequest` | universal_ads_sdk/auth.py:38-71 | fails exactly when the headers hold no `x-api-key` (the lookup's `KeyError`); needs nothing else of its inputs |
| `Auth.HeaderValueSpec` | universal_ads_sdk/auth.py:63 | the lookup `headers['x-api-key']` returns a value stored under that key, and finds nothing exactly when no header has the key |
| `Auth.CanonicalOfAbsoluteUrl` | universal_ads_sdk/auth.py:59-70 | on `scheme://host/path[?query]` the canonical request is the method as given, the path or "/" when empty, the query or "" when absent, the api-key and timestamp lines, the body or "" when None or empty, and `x-api-key;x-timestamp` |
| `Auth.RenderIsJoin` | universal_ads_sdk/auth.py:63-70 | the canonical request is the newline join of its seven lines, the signed-header list last |
| `Auth.CanonicalLines` | universal_ads_sdk/auth.py:63-70 | splitting the canonical request at newlines gives back its seven lines when no part holds a newline |
| `Auth.RenderInjective` | universal_ads_sdk/auth.py:63-70 | when no part contains a newline, equal canonical requests have equal method, path, query, API key, timestamp and body; without that condition parts can trade a newline (`"a\nb"` and `"c"` render like `"a"` and `"b\nc"`) |
| `Auth.VerbDistinguishes` | universal_ads_sdk/auth.py:68-70 | with everything else fixed, distinct methods give distinct canonical requests, with no restriction on the method |
| `Auth.PathDistinguishes` | universal_ads_sdk/auth.py:60-70 | with everything else fixed, distinct paths give distinct canonical requests, with no restriction on the path |
| `Auth.QueryDistinguishes` | universal_ads_sdk/auth.py:61-70 | with everything else fixed, distinct queries give distinct canonical requests, with no restriction on the query |
| `Auth.ApiKeyDistinguishes` | universal_ads_sdk/auth.py:63-70 | with everything else fixed, distinct API keys give distinct canonical requests, with no restriction on the key |
| `Auth.BodyDistinguishes` | universal_ads_sdk/auth.py:65-70 | with everything else fixed, distinct bodies give distinct canonical requests, with no restriction on the body |
| `Auth.TimestampDistinguishes` | universal_ads_sdk/auth.py:63-70 | with everything else fixed, distinct timestamps give distinct canonical requests |
| `Auth.CanonicalReadsOnlyApiKey` | universal_ads_sdk/auth.py:63 | only the `x-api-key` header is read; the timestamp comes from the argument, not from an `x-timestamp` header |
| `Auth.SignedHeadersShape` | universal_ads_sdk/auth.py:108-122 | the returned headers have exactly the keys `x-api-key`, `x-timestamp`, `x-sdk-version`, `x-sdk-source`, `x-signature` in that order, with values the key, the timestamp, "1.0.0", "universal-ads-python-sdk" and the signature |
| `Auth.Authenticator.Create` | universal_ads_sdk/auth.py:18-36 | construction fails exactly when the PEM's UTF-8 bytes do not load, with `ValueError("Invalid private key format: " + message)`; otherwise the fields hold the key, the PEM and the loaded key |
| `Auth.Authenticator.SignRequest` | universal_ads_sdk/auth.py:73-92 | fails exactly when the signer refuses; on success the result is valid Base64 that decodes to the signer's output on the SHA-256 digest of the UTF-8 bytes, hashed once |
| `Auth.Authenticator.GetAuthHeaders` | universal_ads_sdk/auth.py:94-124 | agrees with `AuthHeaders`; returns the five keys in order with the API key, `str(now)`, the SDK version and the SDK source as values |
| `Auth.Authenticator.AuthHeadersFailure` | universal_ads_sdk/auth.py:116-122 | header assembly fails exactly when signing the canonical request fails |
| `Auth.Authenticator.SignatureCoversHeaders` | universal_ads_sdk/auth.py:106-122 | recomputing the canonical request from the returned headers (their `x-api-key` and `x-timestamp`) gives the string whose digest the decoded `x-signature` signs |
| `Auth.Authenticator.ClockDistinguishes` | universal_ads_sdk/auth.py:106-118 | two different clock readings sign different canonical strings and hash different bytes |
| `Url.ParseAbsoluteUrl` | universal_ads_sdk/auth.py:59-61 | `urlparse` of `scheme://host/path[?query]` without fragment or ';' gives back that host, path and query, with empty params and fragment |
| `Base64.DecodeEncode` | universal_ads_sdk/auth.py:92 | standard Base64 decoding inverts `b64encode` on every byte string |
| `Base64.EncodeInjective` | universal_ads_sdk/auth.py:92 | distinct signatures have distinct Base64 texts |
| `Utf8.DecodeEncode` | universal_ads_sdk/auth.py:84 | UTF-8 decoding inverts `encode("utf-8")` on every string |
| `Utf8.EncodeInjective` | universal_ads_sdk/auth.py:84 | distinct strings have distinct UTF-8 bytes |
| `Decimal.DecimalRoundTrip` | universal_ads_sdk/auth.py:106 | `int(str(n)) == n` for the timestamp's decimal text |
| `Decimal.DecimalInjective` | universal_ads_sdk/auth.py:106 | distinct integers have distinct decimal texts |
| `Query.KeepTruthyMember` | universal_ads_sdk/client.py:159-167 | a candidate parameter is in the dict exactly when its value is truthy |
| `Query.KeepTruthyAppend` | universal_ads_sdk/client.py:159-167 | the kept parameters stay in the order they were tried |
| `Query.KeepTruthyAll` | universal_ads_sdk/client.py:159-167 | when every candidate is truthy, all are kept |
| `Query.UrlencodeIsQueryText` | universal_ads_sdk/client.py:88-91 | with URL-safe quoting the encoded query has no '#', blank or control character |
| `Query.ParseUrlencode` | universal_ads_sdk/client.py:88-91 | reading the query string back with the inverse of the quoting gives each key with `str` of its value, in order |
| `Json.GetPut` | universal_ads_sdk/client.py:216 | after `d[k] = v`, `k` reads `v` and other keys are unchanged |
| `Json.GetUpdate` | universal_ads_sdk/client.py:217 | after `d.update(e)`, a key reads as in `e` when `e` has it and as in `d` otherwise |
| `Json.UpdateFresh` | universal_ads_sdk/client.py:214-217 | updating with distinct keys that `d` lacks appends them in order |
| `Client.Classify` | universal_ads_sdk/client.py:115-136 | success exactly for statuses below 400 that are 204 or whose body parses; 204 is `{}`; 400 and above is `APIError` with the status and the parsed or text-wrapped body, or `AttributeError` when that body is not an object; a transport failure is `APIError("Request failed: " + the reason)` with no status and `{}`, and so is a success body that does not parse |
| `Client.ErrorFromText` | universal_ads_sdk/client.py:116-127 | a non-JSON error body gives the message "API request failed: " + text and response data `{"message": text}` |
| `Client.ErrorWithMessage` | universal_ads_sdk/client.py:116-127 | an error object whose "message" field, wherever it stands, is a string gives "API request failed: " + that message, with the status and the object as data |
| `Client.ErrorWithoutMessage` | universal_ads_sdk/client.py:123-127 | an error object without "message" gives "API request failed: Unknown error" |
| `Client.FieldErrorScenario` | universal_ads_sdk/client.py:116-127 | a 422 with a JSON `errors` list surfaces as `APIError` with status 422 and that list in its data |
| `Client.SuccessScenarios` | universal_ads_sdk/client.py:129-133 | 200 with `{"id": "x"}` returns that mapping; 204 returns `{}` |
| `Client.TransportBody` | universal_ads_sdk/client.py:102-110 | the body handed to the session, with no body read as "", is exactly the body string given to `get_auth_headers`, and an empty body is never sent as such |
| `Client.BodyDefaults` | universal_ads_sdk/client.py:94-99 | absent data, `{}` and "" send no body; a non-empty string is sent verbatim |
| `Client.Basename` | universal_ads_sdk/client.py:251-252 | the basename is the longest suffix of the path without '/' |
| `Client.HeaderValueAppend` | universal_ads_sdk/client.py:102-103 | adding `Content-Type` leaves the authentication headers' values as they were |
| `Client.CreativeListParams` | universal_ads_sdk/client.py:159-167 | the parameters are the truthy ones of adaccount_id, limit, offset, sort, in that order |
| `Client.CreativeListSendsTruthy` | universal_ads_sdk/client.py:159-167 | `limit` and `sort` are sent exactly when truthy, so `limit=0` is not sent |
| `Client.LimitOnlyScenario` | universal_ads_sdk/client.py:159-169 | listing with only `limit=10` sends the single pair `limit=10` |
| `Client.ReportParams` | universal_ads_sdk/client.py:295-304 | a report's parameters are start_date and end_date always, then the truthy ones of adaccount_id, the ids list, limit and offset, in that order |
| `Client.ReportDatesFirst` | universal_ads_sdk/client.py:295 | the two dates are the first two keys |
| `Client.UpdateCreativeBody` | universal_ads_sdk/client.py:214-217 | the body is `name` whenever it is not None (even "") followed by the extra fields, and the extra fields read as given |
| `Client.MediaUploadBody` | universal_ads_sdk/client.py:251-254 | the body is the filename, or the path's basename when it is None or "", then the content type |
| `Client.DefaultBaseUrlShape` | universal_ads_sdk/client.py:23 | the production base URL is `https`, a host and path `/v1`, the shape the signing lemma needs |
| `Client.UniversalAdsClient.Create` | universal_ads_sdk/client.py:25-61 | fails exactly when the key does not load, with `AuthenticationError("Failed to initialize authenticator: " + the ValueError's message)`; otherwise the base URL falls back to the production one when None or "", the authenticator holds the given API key, PEM text and crypto functions and the key they loaded, and the retry policy is `max_retries`, backoff 1, statuses 429/500/502/503/504 |
| `Client.UniversalAdsClient.CreateWithDefaults` | universal_ads_sdk/client.py:25-31 | the signature's defaults: the production base URL, a 30-second timeout and 3 retries |
| `Client.UniversalAdsClient.MakeRequest` | universal_ads_sdk/client.py:63-136 | building the URL, body and headers step by step and sending once agrees with `Call` |
| `Client.UniversalAdsClient.SentUrlShape` | universal_ads_sdk/client.py:86-91 | the sent URL is base URL + endpoint, then "?" + the encoded parameters exactly when there are any |
| `Client.UniversalAdsClient.SignatureCoversSentRequest` | universal_ads_sdk/client.py:86-113 | the query `urlparse` finds in the sent URL is the `urlencode` string, the sent `x-api-key` is the client's key, and the sent `x-signature` signs the canonical request of the sent path, that query, the sent timestamp and the sent body |
| `Client.UniversalAdsClient.GetCreatives` | universal_ads_sdk/client.py:140-169 | a GET of `/creative` with the truthy list parameters |
| `Client.UniversalAdsClient.GetCreative` | universal_ads_sdk/client.py:171-181 | a GET of `/creative/{id}` with no query and no body |
| `Client.UniversalAdsClient.CreateCreative` | universal_ads_sdk/client.py:183-198 | a POST of `/creative` with adaccount_id, name and media_id as the body |
| `Client.UniversalAdsClient.UpdateCreative` | universal_ads_sdk/client.py:200-219 | a PUT of `/creative/{id}` with the name-then-extra-fields body |
| `Client.UniversalAdsClient.DeleteCreative` | universal_ads_sdk/client.py:221-231 | a DELETE of `/creative/{id}` |
| `Client.UniversalAdsClient.UploadMedia` | universal_ads_sdk/client.py:235-256 | a POST of `/media` with the filename (defaulted) and content type |
| `Client.UniversalAdsClient.VerifyMedia` | universal_ads_sdk/client.py:258-268 | a POST of `/media/{id}/verify` with no body |
| `Client.UniversalAdsClient.GetCampaignReport` | universal_ads_sdk/client.py:272-306 | a GET of `/report/campaign` with the report parameters, ids under `campaign_ids` |
| `Client.UniversalAdsClient.GetAdsetReport` | universal_ads_sdk/client.py:308-342 | a GET of `/report/adset` with the report parameters, ids under `adset_ids` |
| `Client.UniversalAdsClient.GetAdReport` | universal_ads_sdk/client.py:344-378 | a GET of `/report/ad` with the report parameters, ids under `ad_ids` |

## Left out

- ECDSA, SHA-256 and PEM parsing are not modelled. They are the `Auth.Crypto` functions, so the model proves what is signed, not that a signature verifies under the public key.
- ECDSA nonces are not modelled. The signer is a function of key and digest, while real signatures differ from call to call.
- Reading the system clock is not modelled. The timestamp is `str(now)` for a given whole-second `now`.
- `requests.Session` is not modelled, and neither are the `HTTPAdapter` mounts or urllib3's retrying and backoff (universal_ads_sdk/client.py:53-61). Only the `Retry` settings are kept, as `Client.RetryPolicy`. A request is sent once, and `server` stands for the whole exchange, retries included.
- The percent-encoding of `quote_plus`, `str` of a list, `json.dumps` and `str` of a JSON list or dict are the `Client.Library` functions. `json.dumps` key order is therefore not modelled.
- `Url.UrlParse` does not strip leading blanks and C0 controls, does not remove tab, CR and LF, and does not validate brackets or Unicode in the network location (where `urlsplit` raises `ValueError`). The lemmas ask for URLs without these: `Url.HostText` requires an ASCII host with no brackets.
- `Utf8.Encode` is total because a Dafny `char` is a Unicode scalar value. A Python `str` can also hold lone surrogates, and `encode("utf-8")` then raises `UnicodeEncodeError`. At universal_ads_sdk/auth.py:32 that becomes `ValueError("Invalid private key format: …")`. At universal_ads_sdk/auth.py:84 it escapes `get_auth_headers` and `_make_request` uncaught, because the signing at universal_ads_sdk/client.py:102 comes before the `try` at universal_ads_sdk/client.py:105. Strings with lone surrogates are not part of this model.
- JSON numbers other than integers are not modelled.
- Query values other than `str`, `int`, `None` and lists of strings are not modelled.
- A `params` argument of `None` and one of `{}` are both the empty sequence.
- Response handling does not model redirects or the text encoding of responses.
- `Auth.Authenticator.GetAuthHeaders` and `Client.UniversalAdsClient.MakeRequest` model `headers[k] = v` on a new key as an append. In these two places the key is never already present.
- `Client.UpdateCreativeBody` requires distinct extra-field names, none of them `name`. Python's keyword arguments guarantee this.
- `Client.Classify` reads a success body that `response.json()` cannot parse as an `APIError` with no status. That holds for `requests` 2.27 and later, where the parse error is a `requests.RequestException` that universal_ads_sdk/client.py:135 catches. In earlier versions a plain `ValueError` escapes uncaught. No `requests` version is part of this model.
- `tests/`, `examples/` and `setup.py` are not part of this model, and neither is the re-export module `universal_ads_sdk/__init__.py`.
