/** The shared HTTP client of src/services/api.js: the normalised base URL,
    the request interceptor that attaches the stored bearer token, and the
    response interceptor that ends the stored session on 401/403. The HTTP
    transport itself is not modelled: every reply is a parameter. */
module Api {
  import opened Js
  import opened Web

  /** The part of a failed response the client reads: the status code and
      `data.message` ("" when the body carries none). */
  datatype ErrorResponse = ErrorResponse(status: int, message: string)

  /** An axios error: `response` is absent when the server was not reached;
      `code` is e.g. "ERR_NETWORK"; `message` is the error's own message. */
  datatype HttpError = HttpError(response: Option<ErrorResponse>, code: string, message: string)

  /** The outcome of one request. */
  datatype Reply<T> = Ok(value: T) | Failed(error: HttpError)

  /** `err.response?.data?.message`, "" when missing. */
  function ServerMessage(e: HttpError): (m: string)
    ensures e.response.None? ==> m == ""
    ensures m != "" ==> e.response.Some? && m == e.response.value.message
  {
    if e.response.Some? then e.response.value.message else ""
  }

  /** `err.response?.data?.message || fallback` */
  function MessageOr(e: HttpError, fallback: string): (m: string)
    ensures ServerMessage(e) != "" ==> m == ServerMessage(e)
    ensures ServerMessage(e) == "" ==> m == fallback
  {
    if ServerMessage(e) != "" then ServerMessage(e) else fallback
  }

  // ---------------------------------------------------------------------------
  // Base URL

  const DefaultBaseUrl := "http://localhost:8080/api"

  /** The configured value with the fallback applied and one trailing slash
      dropped: the string the `/api` check looks at. */
  function TrimmedBaseUrl(env: Option<string>): string {
    var raw := if env.None? || env.value == "" then DefaultBaseUrl else env.value;
    if EndsWith(raw, "/") then raw[..|raw| - 1] else raw
  }

  /** The value `API_BASE_URL` ends up with for a given
      `REACT_APP_API_BASE_URL` (None when the variable is unset). */
  function NormalizedBaseUrl(env: Option<string>): (url: string)
    ensures EndsWith(url, "/api")
    ensures EndsWith(TrimmedBaseUrl(env), "/api") ==> url == TrimmedBaseUrl(env)
    ensures !EndsWith(TrimmedBaseUrl(env), "/api") ==>
      url == TrimmedBaseUrl(env) + (if EndsWith(TrimmedBaseUrl(env), "/") then "api" else "/api")
  {
    var s := TrimmedBaseUrl(env);
    if EndsWith(s, "/api") then s
    else if EndsWith(s, "/") then
      EndsWithConcat(s[..|s| - 1], "/api");
      assert s + "api" == s[..|s| - 1] + "/api";
      s + "api"
    else
      EndsWithConcat(s, "/api");
      s + "/api"
  }

  /** Module initialisation of api.js: `apiBaseUrl` is assigned the configured
      value or the default, then loses one trailing slash, then gains `/api`
      unless it already ends with it. */
  method ComputeBaseUrl(env: Option<string>) returns (apiBaseUrl: string)
    ensures apiBaseUrl == NormalizedBaseUrl(env)
  {
    apiBaseUrl := if env.None? || env.value == "" then DefaultBaseUrl else env.value;
    apiBaseUrl := if EndsWith(apiBaseUrl, "/") then apiBaseUrl[..|apiBaseUrl| - 1] else apiBaseUrl;
    if !EndsWith(apiBaseUrl, "/api") {
      apiBaseUrl := if EndsWith(apiBaseUrl, "/") then apiBaseUrl + "api" else apiBaseUrl + "/api";
    }
  }

  /** With the variable unset (or empty) the base URL is the local default. */
  lemma UnsetBaseUrlIsDefault()
    ensures NormalizedBaseUrl(None) == DefaultBaseUrl
    ensures NormalizedBaseUrl(Some("")) == DefaultBaseUrl
  {
    assert EndsWith(DefaultBaseUrl, "/api");
    assert !EndsWith(DefaultBaseUrl, "/") by {
      assert DefaultBaseUrl[|DefaultBaseUrl| - 1] == 'i';
    }
  }

  /** A value already ending in `/api`, without a trailing slash, is kept. */
  lemma NormalizedKeepsApiUrl(url: string)
    requires EndsWith(url, "/api")
    ensures NormalizedBaseUrl(Some(url)) == url
  {
    assert url != "";
    assert !EndsWith(url, "/") by {
      assert url[|url| - 1] == "/api"[3];
    }
  }

  /** Normalising an already normalised base URL changes nothing. */
  lemma NormalizeIdempotent(env: Option<string>)
    ensures NormalizedBaseUrl(Some(NormalizedBaseUrl(env))) == NormalizedBaseUrl(env)
  {
    NormalizedKeepsApiUrl(NormalizedBaseUrl(env));
  }

  // ---------------------------------------------------------------------------
  // Interceptors

  /** The mutable request configuration axios hands to an interceptor. */
  class RequestConfig {
    var headers: map<string, string>

    constructor (headers: map<string, string>)
      ensures this.headers == headers
    {
      this.headers := headers;
    }
  }

  function BearerHeader(token: string): string {
    "Bearer " + token
  }

  /** The request interceptor: reads the token from storage (not from the
      in-memory session) and, when one is stored, sets the Authorization
      header. */
  method AttachToken(browser: Browser, config: RequestConfig)
    modifies config
    ensures browser.GetItem("token") != "" ==>
      config.headers == old(config.headers)["Authorization" := BearerHeader(browser.GetItem("token"))]
    ensures browser.GetItem("token") == "" ==> config.headers == old(config.headers)
  {
    var token := browser.GetItem("token");
    if token != "" {
      config.headers := config.headers["Authorization" := BearerHeader(token)];
    }
  }

  /** A response carrying 401 or 403. */
  predicate IsAuthFailure(e: HttpError)
    ensures IsAuthFailure(e) ==> e.response.Some? && e.response.value.status in {401, 403}
    ensures e.response.None? ==> !IsAuthFailure(e)
  {
    e.response.Some? && (e.response.value.status == 401 || e.response.value.status == 403)
  }

  const SessionExpiredUrl := "/login?sessionExpired=true"

  /** The response-error interceptor: on 401/403 it removes the stored token
      and user and sends the page to the login screen; it never touches the
      in-memory session (it has no access to it). Every error is rejected
      again, unchanged. */
  method OnResponseError(browser: Browser, err: HttpError) returns (rejected: HttpError)
    modifies browser
    ensures rejected == err
    ensures IsAuthFailure(err) ==>
      browser.storage == old(browser.storage) - {"token", "user"} && browser.href == SessionExpiredUrl
    ensures !IsAuthFailure(err) ==>
      browser.storage == old(browser.storage) && browser.href == old(browser.href)
  {
    if err.response.Some? && (err.response.value.status == 401 || err.response.value.status == 403) {
      browser.RemoveItem("token");
      browser.RemoveItem("user");
      browser.Assign(SessionExpiredUrl);
    }
    rejected := err;
  }
}
