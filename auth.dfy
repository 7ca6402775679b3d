/** The session held by src/context/AuthContext.js: an in-memory token and
    user, restored from `localStorage` at start-up, set by login and cleared by
    logout, with `isAuthenticated` and `isAdmin` derived from them. */
module Auth {
  import opened Js
  import opened Web
  import opened Api

  /** What `JSON.parse` can give back for the stored user: `null`, an object
      (only its `username` and `role` properties matter), or any other value,
      of which only its truthiness matters. */
  datatype JsonValue =
    | JsonNull
    | JsonObject(username: Option<string>, role: Option<string>)
    | JsonOther(truthy: bool)

  /** `JSON.parse` (None when it throws) and `JSON.stringify`, which are
      outside the model. */
  datatype Codec = Codec(parse: string -> Option<JsonValue>, stringify: JsonValue -> string)

  /** Stringifying a user object and parsing the text gives the object back. */
  ghost predicate Faithful(codec: Codec) {
    forall u: string, r: Option<string> {:trigger JsonObject(Some(u), r)} ::
      codec.parse(codec.stringify(JsonObject(Some(u), r))) == Some(JsonObject(Some(u), r))
  }

  predicate Truthy(v: JsonValue) {
    match v
    case JsonNull => false
    case JsonObject(_, _) => true
    case JsonOther(t) => t
  }

  /** `user?.role` */
  function RoleOf(v: JsonValue): Option<string> {
    if v.JsonObject? then v.role else None
  }

  /** `user?.username` */
  function UsernameOf(v: JsonValue): Option<string> {
    if v.JsonObject? then v.username else None
  }

  /** `!!token && !!user` */
  predicate Authenticated(token: Option<string>, user: JsonValue) {
    token.Some? && token.value != "" && Truthy(user)
  }

  /** `user?.role === 'ROLE_ADMIN'` */
  predicate Admin(user: JsonValue) {
    RoleOf(user) == Some("ROLE_ADMIN")
  }

  /** `JSON.parse(localStorage.getItem('user'))` inside the try of the initial
      state: a missing key parses as `null`, a parse error yields `null`. */
  function InitialUser(codec: Codec, storage: map<string, string>): (u: JsonValue)
    ensures "user" !in storage ==> u == JsonNull
    ensures "user" in storage && codec.parse(storage["user"]).None? ==> u == JsonNull
    ensures "user" in storage && codec.parse(storage["user"]).Some? ==> u == codec.parse(storage["user"]).value
  {
    if "user" !in storage then JsonNull
    else match codec.parse(storage["user"])
      case None => JsonNull
      case Some(v) => v
  }

  /** `localStorage.getItem('token') || null` */
  function InitialToken(storage: map<string, string>): (t: Option<string>)
    ensures t.Some? <==> "token" in storage && storage["token"] != ""
    ensures t.Some? ==> t.value == storage["token"]
  {
    if "token" in storage && storage["token"] != "" then Some(storage["token"]) else None
  }

  /** URL of a public auth endpoint: base and path joined with one slash,
      whether or not the base already ends with one. */
  function AuthUrl(base: string, path: string): (url: string)
    ensures EndsWith(base, "/") ==> url == base[..|base| - 1] + "/" + path
    ensures !EndsWith(base, "/") ==> url == base + "/" + path
  {
    if EndsWith(base, "/") then
      assert base == base[..|base| - 1] + "/";
      base + path
    else base + "/" + path
  }

  /** A base ending in `/api` gets exactly one slash before the path. */
  lemma AuthUrlOfApiBase(base: string, path: string)
    requires EndsWith(base, "/api")
    ensures AuthUrl(base, path) == base + "/" + path
  {
    assert base[|base| - 4..][3] == 'i';
  }

  /** With the normalised API base URL the login URL is that base, one slash
      and `auth/login`. */
  lemma LoginUrlOfNormalizedBase(env: Option<string>)
    ensures AuthUrl(NormalizedBaseUrl(env), "auth/login") == NormalizedBaseUrl(env) + "/" + "auth/login"
  {
    AuthUrlOfApiBase(NormalizedBaseUrl(env), "auth/login");
  }

  datatype LoginReply = LoginReply(token: string, role: Option<string>)

  /** A request sent to a public endpoint (with the base axios instance, so
      the response interceptor of api.js does not run on it). */
  datatype PublicRequest = PublicRequest(url: string, username: string, password: string)

  class AuthProvider {
    const codec: Codec
    var token: Option<string>
    var user: JsonValue
    var isLoading: bool
    var isAuthLoading: bool

    /** The initial `useState` values, computed from storage. */
    constructor (browser: Browser, codec: Codec)
      ensures this.codec == codec
      ensures token == InitialToken(browser.storage)
      ensures user == InitialUser(codec, browser.storage)
      ensures !isLoading && isAuthLoading
    {
      this.codec := codec;
      token := InitialToken(browser.storage);
      user := InitialUser(codec, browser.storage);
      isLoading := false;
      isAuthLoading := true;
    }

    /** `isAuthenticated`: a session needs both a token and a user. */
    predicate IsAuthenticated()
      reads this
      ensures IsAuthenticated() ==> token.Some? && user != JsonNull
    {
      Authenticated(token, user)
    }

    /** `isAdmin`: the signed-in user's role is the admin role. */
    predicate IsAdmin()
      reads this
      ensures IsAdmin() ==> user.JsonObject? && user.role == Some("ROLE_ADMIN")
    {
      Admin(user)
    }

    /** The restore effect run once after mounting: when both keys are stored,
        adopt them; a user that does not parse wipes the whole storage and the
        session. Either way the initial check is then finished. */
    method Restore(browser: Browser)
      modifies this, browser
      ensures !isAuthLoading && isLoading == old(isLoading)
      ensures browser.href == old(browser.href)
      ensures old(browser.GetItem("token")) == "" || old(browser.GetItem("user")) == "" ==>
        token == old(token) && user == old(user) && browser.storage == old(browser.storage)
      ensures old(browser.GetItem("token")) != "" && old(browser.GetItem("user")) != "" ==>
        match codec.parse(old(browser.storage["user"]))
        case None => token == None && user == JsonNull && browser.storage == map[]
        case Some(v) => token == Some(old(browser.storage["token"])) && user == v
                        && browser.storage == old(browser.storage)
    {
      var storedToken := browser.GetItem("token");
      var storedUser := browser.GetItem("user");
      if storedToken != "" && storedUser != "" {
        token := Some(storedToken);
        match codec.parse(storedUser)
        case None =>
          browser.Clear();
          token := None;
          user := JsonNull;
        case Some(v) =>
          user := v;
      }
      isAuthLoading := false;
    }

    /** `login`: on success the token and `{username, role}` are stored both
        in memory and in storage; on failure nothing changes and the error is
        handed back to the caller. */
    method Login(browser: Browser, base: string, username: string, password: string, reply: Reply<LoginReply>)
      returns (request: PublicRequest, outcome: Reply<()>)
      modifies this, browser
      ensures request == PublicRequest(AuthUrl(base, "auth/login"), username, password)
      ensures !isLoading && isAuthLoading == old(isAuthLoading)
      ensures browser.href == old(browser.href)
      ensures reply.Ok? ==>
        && outcome == Ok(())
        && token == Some(reply.value.token)
        && user == JsonObject(Some(username), reply.value.role)
        && browser.storage == old(browser.storage)["token" := reply.value.token]
                                                  ["user" := codec.stringify(user)]
      ensures reply.Failed? ==>
        && outcome == Failed(reply.error)
        && token == old(token) && user == old(user) && browser.storage == old(browser.storage)
    {
      isLoading := true;
      request := PublicRequest(AuthUrl(base, "auth/login"), username, password);
      match reply
      case Ok(data) =>
        var userData := JsonObject(Some(username), data.role);
        token := Some(data.token);
        user := userData;
        browser.SetItem("token", data.token);
        browser.SetItem("user", codec.stringify(userData));
        isLoading := false;
        outcome := Ok(());
      case Failed(e) =>
        isLoading := false;
        outcome := Failed(e);
    }

    /** `register`: a public request that never touches the session. */
    method Register(base: string, username: string, password: string, reply: Reply<()>)
      returns (request: PublicRequest, outcome: Reply<()>)
      modifies this
      ensures request == PublicRequest(AuthUrl(base, "auth/register"), username, password)
      ensures outcome == reply
      ensures token == old(token) && user == old(user)
      ensures !isLoading && isAuthLoading == old(isAuthLoading)
    {
      isLoading := true;
      request := PublicRequest(AuthUrl(base, "auth/register"), username, password);
      isLoading := false;
      outcome := reply;
    }

    /** Both keys gone from storage and from memory. */
    predicate LoggedOut(browser: Browser)
      reads this, browser
    {
      token == None && user == JsonNull && "token" !in browser.storage && "user" !in browser.storage
    }

    /** `logout`: clears memory and the two storage keys and goes to /login.
        Logging out again from a logged-out state changes nothing but the
        (already /login) location. */
    method Logout(browser: Browser)
      modifies this, browser
      ensures token == None && user == JsonNull
      ensures browser.storage == old(browser.storage) - {"token", "user"}
      ensures browser.href == "/login"
      ensures LoggedOut(browser) && !IsAuthenticated() && !IsAdmin()
      ensures old(LoggedOut(browser)) ==> browser.storage == old(browser.storage)
      ensures isLoading == old(isLoading) && isAuthLoading == old(isAuthLoading)
    {
      token := None;
      user := JsonNull;
      browser.RemoveItem("token");
      browser.RemoveItem("user");
      browser.Assign("/login");
    }
  }

  /** The user written by a successful login is the user the next page load
      restores (given a faithful JSON codec). */
  lemma LoginSurvivesReload(codec: Codec, storage: map<string, string>, username: string, reply: LoginReply)
    requires Faithful(codec)
    ensures var user := JsonObject(Some(username), reply.role);
            var stored := storage["token" := reply.token]["user" := codec.stringify(user)];
            InitialUser(codec, stored) == user
            && (reply.token != "" ==> InitialToken(stored) == Some(reply.token))
  {
    var user := JsonObject(Some(username), reply.role);
    assert codec.parse(codec.stringify(user)) == Some(user);
  }

  /** In memory a token may exist without a user: the initial state reads the
      two keys independently, so storage with a token and no user gives a
      token and a `null` user (and so no authenticated session). */
  lemma TokenWithoutUserAtStart(codec: Codec, t: string)
    requires t != ""
    ensures InitialToken(map["token" := t]) == Some(t)
    ensures InitialUser(codec, map["token" := t]) == JsonNull
    ensures !Authenticated(InitialToken(map["token" := t]), InitialUser(codec, map["token" := t]))
  {
  }
}
