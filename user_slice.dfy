/** The session store (src/store/slices/userSlice.ts): the current user,
    a loading flag and an error, with the `loginUser` thunk that logs in and
    then fetches the profile. */
module UserSlice {
  import opened Wrappers
  import opened Text
  import opened Domain
  import opened Api
  import AuthService

  const LoginFailed := "Login failed"
  const FailedToGetUser := "Failed to get user"

  class UserStore {
    /** `undefined` (a profile fetch answered with 401) and `null` are both None. */
    var currentUser: Option<User>
    var isLoading: bool
    var error: Option<string>

    constructor ()
      ensures currentUser == None && !isLoading && error == None
    {
      currentUser, isLoading, error := None, false, None;
    }

    /** `logout`: forgets the user and the error, and logs out of the browser
        session (token removed, page sent to '/'). */
    method Logout(browser: Browser)
      modifies this, browser
      ensures currentUser == None && error == None && isLoading == old(isLoading)
      ensures browser.storage == old(browser.storage) - {TokenKey} && browser.location == "/"
      ensures !AuthService.IsAuthenticated(browser.storage)
    {
      currentUser := None;
      error := None;
      AuthService.Logout(browser);
    }

    method ClearError()
      modifies this
      ensures error == None
      ensures currentUser == old(currentUser) && isLoading == old(isLoading)
    {
      error := None;
    }

    method LoginPending()
      modifies this
      ensures isLoading && error == None && currentUser == old(currentUser)
    {
      isLoading := true;
      error := None;
    }

    method LoginFulfilled(user: Option<User>)
      modifies this
      ensures !isLoading && currentUser == user && error == None
    {
      isLoading := false;
      currentUser := user;
      error := None;
    }

    /** A rejected login keeps the previous user. */
    method LoginRejected(message: string)
      modifies this
      ensures !isLoading && error == Some(OrElse(message, LoginFailed))
      ensures currentUser == old(currentUser)
    {
      isLoading := false;
      error := Some(OrElse(message, LoginFailed));
    }

    /** Unlike the login case, this pending case leaves `error` alone. */
    method GetCurrentUserPending()
      modifies this
      ensures isLoading && error == old(error) && currentUser == old(currentUser)
    {
      isLoading := true;
    }

    method GetCurrentUserFulfilled(user: Option<User>)
      modifies this
      ensures !isLoading && currentUser == user && error == old(error)
    {
      isLoading := false;
      currentUser := user;
    }

    method GetCurrentUserRejected(message: string)
      modifies this
      ensures !isLoading && error == Some(OrElse(message, FailedToGetUser))
      ensures currentUser == old(currentUser)
    {
      isLoading := false;
      error := Some(OrElse(message, FailedToGetUser));
    }
  }

  /** The profile request `getCurrentUser` sends once the token is stored. */
  function ProfileRequest(storage: Storage, token: TokenResponse): Request {
    BuildRequest(storage[TokenKey := token.accessToken], "/auth/me", Get)
  }

  /** The body of `loginUser`: `login`, then `getCurrentUser`. A failed login
      throws before the profile is asked for; after a stored token the
      profile request carries it, and the thunk settles with what that
      request gives. */
  method LoginUserThunk(browser: Browser, credentials: LoginRequest,
                        fetchToken: AuthService.LoginPost -> Fetched<TokenResponse>,
                        fetchUser: Request -> Fetched<User>)
    returns (profile: Option<Request>, settled: Settled<Option<User>>)
    modifies browser
    ensures var post := AuthService.LoginPost(AuthService.LoginUrl, credentials.username, credentials.password);
      && (profile.Some? <==> fetchToken(post).Response? && IsOk(fetchToken(post).status))
      && (profile.None? ==> settled.Rejected? && unchanged(browser))
      && (fetchToken(post).Response? && !IsOk(fetchToken(post).status) ==>
            settled == Rejected(AuthService.InvalidCredentials))
      && (fetchToken(post).NetworkError? ==> settled == Rejected(fetchToken(post).reason))
      && (profile.Some? ==> profile.value == ProfileRequest(old(browser.storage), fetchToken(post).body))
    ensures var post := AuthService.LoginPost(AuthService.LoginUrl, credentials.username, credentials.password);
      profile.Some? && fetchUser(profile.value).Response? && IsOk(fetchUser(profile.value).status) ==>
        settled == Fulfilled(Some(fetchUser(profile.value).body))
        && browser.storage == old(browser.storage)[TokenKey := fetchToken(post).body.accessToken]
    ensures profile.Some? && fetchUser(profile.value).Response? && fetchUser(profile.value).status == 401 ==>
      settled == Fulfilled(None) && browser.location == "/" && !AuthService.IsAuthenticated(browser.storage)
    ensures profile.Some? && fetchUser(profile.value).Response? && !IsOk(fetchUser(profile.value).status)
            && fetchUser(profile.value).status != 401 ==>
      settled == Rejected(ApiErrorMessage(fetchUser(profile.value).status, fetchUser(profile.value).statusText))
    ensures profile.Some? && fetchUser(profile.value).NetworkError? ==>
      settled == Rejected(fetchUser(profile.value).reason)
  {
    var post, login := AuthService.Login(browser, credentials, fetchToken);
    if login.Err? {
      profile, settled := None, Rejected(login.error);
      return;
    }
    var sent, user := AuthService.GetCurrentUser(browser, fetchUser);
    profile, settled := Some(sent), SettleWith(user);
  }

  /** `dispatch(loginUser(credentials))` as the event sequence it produces:
      pending, the thunk body, then fulfilled or rejected. A login whose
      profile is answered ok leaves that profile as the current user with
      no error; a 401 on the profile leaves no user and no error. */
  method LoginUser(store: UserStore, browser: Browser, credentials: LoginRequest,
                   fetchToken: AuthService.LoginPost -> Fetched<TokenResponse>,
                   fetchUser: Request -> Fetched<User>)
    returns (profile: Option<Request>)
    modifies store, browser
    ensures !store.isLoading
    ensures profile.None? ==>
      store.error.Some? && store.currentUser == old(store.currentUser) && unchanged(browser)
    ensures var post := AuthService.LoginPost(AuthService.LoginUrl, credentials.username, credentials.password);
      (profile.Some? <==> fetchToken(post).Response? && IsOk(fetchToken(post).status))
      && (fetchToken(post).Response? && !IsOk(fetchToken(post).status) ==>
            store.error == Some(AuthService.InvalidCredentials))
      && (fetchToken(post).NetworkError? ==>
            store.error == Some(OrElse(fetchToken(post).reason, LoginFailed)))
      && (profile.Some? ==> profile.value == ProfileRequest(old(browser.storage), fetchToken(post).body))
    ensures profile.Some? && fetchUser(profile.value).Response? && IsOk(fetchUser(profile.value).status) ==>
      store.currentUser == Some(fetchUser(profile.value).body) && store.error == None
    ensures profile.Some? && fetchUser(profile.value).Response? && fetchUser(profile.value).status == 401 ==>
      store.currentUser == None && store.error == None
      && browser.location == "/" && !AuthService.IsAuthenticated(browser.storage)
    ensures profile.Some? && fetchUser(profile.value).Response? && !IsOk(fetchUser(profile.value).status)
            && fetchUser(profile.value).status != 401 ==>
      store.currentUser == old(store.currentUser)
      && store.error == Some(ApiErrorMessage(fetchUser(profile.value).status, fetchUser(profile.value).statusText))
    ensures profile.Some? && fetchUser(profile.value).NetworkError? ==>
      store.currentUser == old(store.currentUser)
      && store.error == Some(OrElse(fetchUser(profile.value).reason, LoginFailed))
    ensures store.error == None ==> profile.Some?
  {
    store.LoginPending();
    var settled;
    profile, settled := LoginUserThunk(browser, credentials, fetchToken, fetchUser);
    match settled
    case Fulfilled(user) => store.LoginFulfilled(user);
    case Rejected(message) => store.LoginRejected(message);
  }
}
