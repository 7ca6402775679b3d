/** How the response interceptor of src/services/api.js and the session of
    src/context/AuthContext.js meet when a request fails with 401 or 403. */
module Session {
  import opened Js
  import opened Web
  import opened Api
  import opened Auth
  import opened Login

  /** A rejected request ends the stored session but not the one in memory:
      until the assigned location loads, the provider still reports a
      signed-in user, and requests made meanwhile carry no token. */
  method ExpiredRequest(auth: AuthProvider, browser: Browser, err: HttpError, config: RequestConfig)
      returns (rejected: HttpError)
    requires IsAuthFailure(err)
    modifies browser, config
    ensures rejected == err
    ensures auth.IsAuthenticated() == old(auth.IsAuthenticated()) && auth.IsAdmin() == old(auth.IsAdmin())
    ensures "token" !in browser.storage && "user" !in browser.storage
    ensures config.headers == old(config.headers)
    ensures browser.href == SessionExpiredUrl
  {
    rejected := OnResponseError(browser, err);
    AttachToken(browser, config);
  }

  /** The page the interceptor assigns starts without a session: the
      provider built from the cleared storage is signed out, and the login
      page it opens reports the expired session. */
  method ReloadAfterExpiry(browser: Browser, codec: Codec) returns (auth: AuthProvider, page: LoginPage)
    requires "token" !in browser.storage && "user" !in browser.storage
    requires browser.href == SessionExpiredUrl
    ensures fresh(auth) && fresh(page)
    ensures !auth.IsAuthenticated() && !auth.IsAdmin()
    ensures page.error == SessionExpiredError
  {
    auth := new AuthProvider(browser, codec);
    ExpiredRedirectReported();
    page := new LoginPage(SearchOf(browser.href));
  }
}
