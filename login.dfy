/** src/components/LoginPage.js: the sign-in form. It reports an expired
    session named in the query string and, after signing in, returns to the
    page the gate turned the visitor away from. */
module Login {
  import opened Js
  import opened Api
  import opened Web
  import opened Auth
  import opened AuthErrors
  import opened Access
  import opened Routes

  const SessionExpiredError := "Your session has expired. Please log in again."
  const LoginFallback := "Login failed. Please check your username and password."

  /** `location.search`: the part of a location from its first `?` on, or
      "" without one. Locations here carry no fragment: the browser's
      `search` would end before a `#` and be "" for a bare trailing `?`,
      while this keeps both. */
  function SearchOf(href: string): (search: string)
    ensures search == "" || search[0] == '?'
    ensures '?' !in href ==> search == ""
  {
    var (_, query) := SplitAt(href, '?');
    if query.None? then "" else "?" + query.value
  }

  /** `location.pathname`: the part before the query string. */
  function PathOf(href: string): (path: string)
    ensures path + SearchOf(href) == href
    ensures '?' !in path
  {
    SplitAt(href, '?').0
  }

  /** A query string without its leading `?`, which `URLSearchParams` drops
      once. */
  function QueryText(search: string): string {
    if search != [] && search[0] == '?' then search[1..] else search
  }

  /** The name of a `name=value` pair: all of it up to the first `=`. */
  function PairName(pair: string): string {
    SplitAt(pair, '=').0
  }

  /** The value of a pair: all of it after the first `=`, or "" without one. */
  function PairValue(pair: string): string {
    var (_, value) := SplitAt(pair, '=');
    if value.None? then "" else value.value
  }

  /** A pair that `URLSearchParams` reads under `name`: empty pairs are
      skipped. */
  predicate Names(pair: string, name: string) {
    pair != "" && PairName(pair) == name
  }

  /** The value of the first pair named `name`, if any. */
  function ParamsGet(pairs: seq<string>, name: string): (r: Option<string>)
    ensures r.None? <==> forall i :: 0 <= i < |pairs| ==> !Names(pairs[i], name)
    ensures r.Some? ==> exists i :: (0 <= i < |pairs| && Names(pairs[i], name) && r.value == PairValue(pairs[i])
      && forall j :: 0 <= j < i ==> !Names(pairs[j], name))
  {
    if pairs == [] then None
    else if Names(pairs[0], name) then Some(PairValue(pairs[0]))
    else
      var r := ParamsGet(pairs[1..], name);
      assert forall i :: 1 <= i < |pairs| ==> pairs[i] == pairs[1..][i - 1];
      r
  }

  /** The `&`-separated pairs of a query string. */
  function QueryPairs(search: string): seq<string> {
    Split(QueryText(search), '&')
  }

  /** `new URLSearchParams(search).get(name)`: the value of the first pair
      named `name` among the pairs of the query, without percent-decoding. A
      pair without `=` has the empty value. */
  function QueryGet(search: string, name: string): (r: Option<string>)
    ensures r.None? <==> forall i :: 0 <= i < |QueryPairs(search)| ==> !Names(QueryPairs(search)[i], name)
    ensures r.Some? ==> exists i :: (0 <= i < |QueryPairs(search)| && Names(QueryPairs(search)[i], name)
      && r.value == PairValue(QueryPairs(search)[i])
      && forall j :: 0 <= j < i ==> !Names(QueryPairs(search)[j], name))
    ensures search == "" ==> r.None?
  {
    ParamsGet(QueryPairs(search), name)
  }

  /** The pairs of `?a=1&?b=2`: only the first `?` goes. */
  lemma PairsOfTwoParams()
    ensures QueryPairs("?a=1&?b=2") == ["a=1", "?b=2"]
  {
    assert QueryText("?a=1&?b=2") == "a=1" + ['&'] + "?b=2";
    SplitAtFirst("a=1", '&', "?b=2");
    assert '&' !in "?b=2";
    assert Split("?b=2", '&') == ["?b=2"];
  }

  /** The names and values of those two pairs. */
  lemma TwoParamsNamed()
    ensures PairName("a=1") == "a"
    ensures PairName("?b=2") == "?b" && PairValue("?b=2") == "2"
  {
    SplitAtFirst("a", '=', "1");
    assert "?b=2" == "?b" + ['='] + "2";
    SplitAtFirst("?b", '=', "2");
  }

  /** Only the leading `?` of the whole query is dropped: in `?a=1&?b=2` the
      second pair is named `?b`, so there is no `b`. */
  lemma QuestionMarkDroppedOnce()
    ensures QueryGet("?a=1&?b=2", "?b") == Some("2")
    ensures QueryGet("?a=1&?b=2", "b") == None
  {
    PairsOfTwoParams();
    TwoParamsNamed();
    var pairs := ["a=1", "?b=2"];
    assert !Names(pairs[0], "?b") && Names(pairs[1], "?b");
    assert !Names(pairs[0], "b") && !Names(pairs[1], "b");
    assert pairs[1..] == ["?b=2"];
    assert ParamsGet(pairs[1..], "?b") == Some("2");
  }

  /** `if (sessionExpired)`: the parameter is present and not empty. */
  predicate SessionExpired(search: string)
    ensures SessionExpired(search) ==>
      exists i :: 0 <= i < |QueryPairs(search)| && Names(QueryPairs(search)[i], "sessionExpired")
  {
    var v := QueryGet(search, "sessionExpired");
    v.Some? && v.value != ""
  }

  /** A query string led by a `key=value` pair yields that value for the
      key, whatever pairs follow. */
  lemma FirstPairWins(key: string, value: string, more: string)
    requires key != "" && '=' !in key && '&' !in key && '&' !in value
    ensures QueryGet("?" + key + "=" + value, key) == Some(value)
    ensures QueryGet("?" + key + "=" + value + "&" + more, key) == Some(value)
  {
    var pair := key + "=" + value;
    assert QueryText("?" + key + "=" + value) == pair;
    assert QueryText("?" + key + "=" + value + "&" + more) == pair + "&" + more;
    assert '&' !in pair;
    SplitAtFirst(pair, '&', more);
    SplitJoin([pair], '&');
    SplitAtFirst(key, '=', value);
    assert Names(pair, key) && PairValue(pair) == value;
  }

  /** A location cut at its first `?`. */
  lemma LocationParts(path: string, query: string)
    requires '?' !in path
    ensures PathOf(path + ['?'] + query) == path
    ensures SearchOf(path + ['?'] + query) == "?" + query
  {
    SplitAtFirst(path, '?', query);
  }

  lemma ExpiredUrlShape()
    ensures SessionExpiredUrl == "/login" + ['?'] + "sessionExpired=true"
    ensures "?" + "sessionExpired=true" == "?" + "sessionExpired" + "=" + "true"
  {
  }

  /** The query string of that location raises the flag. */
  lemma ExpiredQueryFlag()
    ensures SessionExpired("?" + "sessionExpired=true")
  {
    ExpiredUrlShape();
    FirstPairWins("sessionExpired", "true", "");
  }

  /** The location the response interceptor assigns after a 401 or 403 opens
      the login route with the query that makes the page report the expired
      session. */
  lemma ExpiredRedirectReported()
    ensures PathOf(SessionExpiredUrl) == "/login"
    ensures SessionExpired(SearchOf(SessionExpiredUrl))
  {
    ExpiredUrlShape();
    LocationParts("/login", "sessionExpired=true");
    ExpiredQueryFlag();
  }

  /** `location.state?.from?.pathname || '/'`; `from` is the path the gate
      put into the navigation state, None when there is none. */
  function From(from: Option<string>): (target: string)
    ensures from.Some? && from.value != "" ==> target == from.value
    ensures from.None? || from.value == "" ==> target == "/"
  {
    if from.Some? && from.value != "" then from.value else "/"
  }

  /** A signed-out visitor turned away from a protected path is brought back
      to exactly that path after signing in. */
  lemma LoginReturnsToRequestedPath(pathname: string, role: Option<string>)
    requires GuardOf(MatchRoute(pathname)).Protected?
    ensures Resolve(pathname, false, false, role) == Navigate("/login", Some(pathname), None)
    ensures From(Resolve(pathname, false, false, role).from) == pathname
  {
  }

  /** One call of `navigate`. */
  datatype Navigation = Navigation(to: string, replace: bool)

  class LoginPage {
    var username: string
    var password: string
    var error: string
    var navigated: seq<Navigation>

    /** Mounting the page at a location with query string `search`, including
        the effect that reports an expired session. */
    constructor (search: string)
      ensures username == "" && password == "" && navigated == []
      ensures error == (if SessionExpired(search) then SessionExpiredError else "")
    {
      username, password, navigated := "", "", [];
      error := "";
      if SessionExpired(search) {
        error := SessionExpiredError;
      }
    }

    /** `handleSubmit`, with the reply to the login request as a parameter;
        `from` is the path in the navigation state. */
    method Submit(auth: AuthProvider, browser: Browser, base: string, from: Option<string>,
                  reply: Reply<LoginReply>) returns (request: PublicRequest)
      modifies this, auth, browser
      ensures request == PublicRequest(AuthUrl(base, "auth/login"), old(username), old(password))
      ensures username == old(username) && password == old(password)
      ensures reply.Ok? ==>
        && error == "" && navigated == old(navigated) + [Navigation(From(from), true)]
        && auth.token == Some(reply.value.token)
        && auth.user == JsonObject(Some(old(username)), reply.value.role)
        && (reply.value.token != "" ==> auth.IsAuthenticated())
        && browser.storage == old(browser.storage)["token" := reply.value.token]
                                                  ["user" := auth.codec.stringify(auth.user)]
      ensures browser.href == old(browser.href)
      ensures reply.Failed? ==>
        && error == FailureMessage(reply.error, LoginFallback) && navigated == old(navigated)
        && auth.token == old(auth.token) && auth.user == old(auth.user)
        && browser.storage == old(browser.storage)
    {
      error := "";
      var outcome;
      request, outcome := auth.Login(browser, base, username, password, reply);
      match outcome {
        case Ok(_) =>
          navigated := navigated + [Navigation(From(from), true)];
        case Failed(e) =>
          error := FailureMessage(e, LoginFallback);
      }
    }
  }
}
