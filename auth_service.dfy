/** The token lifecycle of src/services/authService.ts: login stores the
    access token, logout removes it and leaves for '/', and the session
    counts as authenticated while a non-empty token is stored. */
module AuthService {
  import opened Wrappers
  import opened Domain
  import opened Api

  const LoginUrl := "http://localhost:8000/auth/token"
  const InvalidCredentials := "Invalid credentials"

  /** `isAuthenticated()`: `!!localStorage.getItem('access_token')`. */
  predicate IsAuthenticated(storage: Storage) {
    HasToken(storage)
  }

  /** The form post `login` sends to the token endpoint (no auth headers). */
  datatype LoginPost = LoginPost(url: string, username: string, password: string)

  /** `login(credentials)`: a non-ok answer throws 'Invalid credentials' and
      a network failure throws its reason; neither touches storage. An ok
      answer stores the access token and returns the token data. The login
      request bypasses `apiRequest`, so a 401 here does not redirect. */
  method Login(browser: Browser, credentials: LoginRequest, fetch: LoginPost -> Fetched<TokenResponse>)
    returns (sent: LoginPost, result: Result<TokenResponse, string>)
    modifies browser
    ensures sent == LoginPost(LoginUrl, credentials.username, credentials.password)
    ensures browser.location == old(browser.location)
    ensures fetch(sent).NetworkError? ==>
      result == Err(fetch(sent).reason) && browser.storage == old(browser.storage)
    ensures fetch(sent).Response? && !IsOk(fetch(sent).status) ==>
      result == Err(InvalidCredentials) && browser.storage == old(browser.storage)
    ensures fetch(sent).Response? && IsOk(fetch(sent).status) ==>
      result == Ok(fetch(sent).body) &&
      browser.storage == old(browser.storage)[TokenKey := fetch(sent).body.accessToken]
    ensures result.Err? ==> unchanged(browser)
    ensures result.Ok? ==> (IsAuthenticated(browser.storage) <==> result.value.accessToken != "")
  {
    sent := LoginPost(LoginUrl, credentials.username, credentials.password);
    var response := fetch(sent);
    match response
    case NetworkError(reason) =>
      result := Err(reason);
    case Response(status, _, tokenData) =>
      if !IsOk(status) {
        result := Err(InvalidCredentials);
        return;
      }
      browser.storage := browser.storage[TokenKey := tokenData.accessToken];
      result := Ok(tokenData);
  }

  /** `getCurrentUser()`: exactly one `apiRequest('/auth/me')`, with its
      four outcomes: the profile, `undefined` after a 401 (token removed,
      page sent to '/'), the `API Error` of any other status, or the
      network failure. */
  method GetCurrentUser(browser: Browser, fetch: Request -> Fetched<User>)
    returns (sent: Request, result: ApiResult<User>)
    modifies browser
    ensures sent == BuildRequest(old(browser.storage), "/auth/me", Get)
    ensures sent.url == ApiBaseUrl + "/auth/me" && sent.verb == "GET" && sent.body == NoBody
    ensures sent.headers == AuthHeaders(old(browser.storage))
    ensures fetch(sent).Response? && IsOk(fetch(sent).status) ==>
      result == Returned(fetch(sent).body) && unchanged(browser)
    ensures fetch(sent).Response? && fetch(sent).status == 401 ==>
      result == Undefined && !IsAuthenticated(browser.storage)
      && browser.storage == old(browser.storage) - {TokenKey} && browser.location == "/"
    ensures fetch(sent).Response? && !IsOk(fetch(sent).status) && fetch(sent).status != 401 ==>
      result == Thrown(ApiErrorMessage(fetch(sent).status, fetch(sent).statusText)) && unchanged(browser)
    ensures fetch(sent).NetworkError? ==> result == Thrown(fetch(sent).reason) && unchanged(browser)
  {
    sent, result := ApiRequest(browser, "/auth/me", Get, fetch);
    assert MergeHeaders(old(browser.storage), map[]) == AuthHeaders(old(browser.storage));
  }

  /** `logout()`: removes the token and navigates to '/'. */
  method Logout(browser: Browser)
    modifies browser
    ensures browser.storage == old(browser.storage) - {TokenKey}
    ensures browser.location == "/"
    ensures !IsAuthenticated(browser.storage)
  {
    browser.storage := browser.storage - {TokenKey};
    browser.location := "/";
  }
}
