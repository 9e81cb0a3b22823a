/**
 * The authentication hooks of `src/hooks/useAuth.ts`: when the current-user
 * query runs, and the cookie, cache, toast and location effects of logging in
 * and out.
 */
module Auth {
  import opened Wrappers
  import opened QueryKeys
  import opened Users
  import opened BrowserState
  import opened HttpClient

  /** `staleTime: 5 * 60 * 1000`. */
  const UserStaleTimeMs: nat := 5 * 60 * 1000
  /** `{ expires: 7 }` on both auth cookies. */
  const CookieExpiryDays: nat := 7

  const ConflictCode := "user_already_logged_in"
  const LoginFailedMessage := "Login failed. Please check your credentials."

  /** The options `useUser` passes to `useQuery`. */
  datatype QueryOptions = QueryOptions(key: QueryKey, retry: bool, staleTimeMs: nat, enabled: bool)

  /** `useUser()`: the query runs only while a token cookie is set, and never retries. */
  function UserQuery(jar: map<string, Cookie>): (o: QueryOptions)
    ensures o.enabled <==> HasToken(jar)
    ensures o.key == AuthUser() && !o.retry && o.staleTimeMs == 300000
  {
    QueryOptions(AuthUser(), false, UserStaleTimeMs, AuthTokenCookie in jar && jar[AuthTokenCookie].value != "")
  }

  /** The successful body of `POST auth/login`. */
  datatype LoginResponse = LoginResponse(tokenType: string, token: string, expiresIn: string, user: User)

  /** `error.details?.process_code === 'user_already_logged_in'`. */
  predicate IsSessionConflict(e: ErrorBody)
  {
    e.details.Some? && e.details.value.processCode == Some(ConflictCode)
  }

  /** `useIsAuthenticated()`: authenticated exactly when the user query holds a user. */
  function IsAuthenticated(user: Option<User>): (b: bool)
    ensures b <==> user != None
  {
    user.Some?
  }

  function WelcomeToast(u: User): Toast
  {
    Toast("Welcome back!", "Logged in as " + (if u.firstName != "" then u.firstName else "User"), false)
  }

  /**
   * `useLogin` onSuccess: both auth cookies are set for 7 days, the user is
   * put in the cache, a welcome toast is shown and the browser goes home.
   */
  method OnLoginSuccess(b: Browser, data: LoginResponse)
    modifies b
    ensures b.cookies == old(b.cookies)[AuthTokenCookie := Cookie(data.token, Some(CookieExpiryDays))]
                                       [UserDetailsCookie := Cookie(UserJson(data.user), Some(CookieExpiryDays))]
    ensures b.cache == old(b.cache)[AuthUser() := data.user]
    ensures b.toasts == old(b.toasts) + [WelcomeToast(data.user)]
    ensures b.location == "/"
    ensures IsAuthenticated(CachedUser(b.cache)) && CachedUser(b.cache) == Some(data.user)
    ensures UserQuery(b.cookies).enabled <==> data.token != ""
    ensures ParseUserJson(b.cookies[UserDetailsCookie].value) == Some(data.user)
  {
    b.cookies := b.cookies[AuthTokenCookie := Cookie(data.token, Some(CookieExpiryDays))];
    b.cookies := b.cookies[UserDetailsCookie := Cookie(UserJson(data.user), Some(CookieExpiryDays))];
    b.cache := b.cache[AuthUser() := data.user];
    b.toasts := b.toasts + [WelcomeToast(data.user)];
    b.location := "/";
    UserJsonRoundTrip(data.user);
  }

  /**
   * The toast `useLogin` onError shows: none for a session conflict, which
   * the login page handles; otherwise the error's message, or the fallback
   * text when the message is missing or empty.
   */
  function LoginErrorToast(e: ErrorBody): (t: Option<Toast>)
    ensures t.None? <==> IsSessionConflict(e)
    ensures t.Some? ==> t.value.title == "Error" && t.value.destructive
    ensures t.Some? && e.message.Some? && e.message.value != "" ==> t.value.description == e.message.value
    ensures t.Some? && (e.message.None? || e.message.value == "") ==> t.value.description == LoginFailedMessage
  {
    if e.details.Some? && e.details.value.processCode == Some(ConflictCode) then None
    else
      var message := if e.message.Some? && e.message.value != "" then e.message.value else LoginFailedMessage;
      Some(Toast("Error", message, true))
  }

  /** `useLogin` onError: shows the toast above, if any, and changes nothing else. */
  method OnLoginError(b: Browser, e: Rejection)
    modifies b`toasts
    ensures b.toasts == old(b.toasts) + (if IsSessionConflict(Fields(e)) then [] else [LoginErrorToast(Fields(e)).value])
  {
    var t := LoginErrorToast(Fields(e));
    if t.Some? {
      b.toasts := b.toasts + [t.value];
    }
  }

  /** What the server said to `DELETE auth/logout`; the client ignores it. */
  datatype LogoutOutcome = LoggedOut | LogoutFailed(reason: Rejection)

  const LoggedOutToast := Toast("Logged out", "You have been logged out successfully", false)

  /**
   * `useLogout` onSettled, run on success and on failure alike: both auth
   * cookies are removed and the whole cache is cleared, then the browser goes
   * to the login page. Afterwards no user is cached and the user query is off.
   */
  method OnLogoutSettled(b: Browser, outcome: LogoutOutcome)
    modifies b
    ensures b.cookies == old(b.cookies) - {AuthTokenCookie, UserDetailsCookie}
    ensures b.cache == map[]
    ensures b.toasts == old(b.toasts) + [LoggedOutToast]
    ensures b.location == "/login"
    ensures !IsAuthenticated(CachedUser(b.cache)) && !UserQuery(b.cookies).enabled
  {
    b.cookies := b.cookies - {AuthTokenCookie};
    b.cookies := b.cookies - {UserDetailsCookie};
    b.cache := map[];
    b.toasts := b.toasts + [LoggedOutToast];
    b.location := "/login";
  }
}
