/**
 * The global state the authentication code reads and writes: the cookie jar
 * (js-cookie), the react-query cache, `window.location.href` and the toasts
 * shown. Each is a field, so every effect is a state transition.
 */
module BrowserState {
  import opened Wrappers
  import opened QueryKeys
  import opened Users

  /** A cookie value and the expiry, in days, it was set with. */
  datatype Cookie = Cookie(value: string, expiresDays: Option<nat>)

  datatype Toast = Toast(title: string, description: string, destructive: bool)

  const AuthTokenCookie := "auth_token"
  const UserDetailsCookie := "user_details"

  /** `!!Cookies.get('auth_token')`: a token cookie is present and not the empty string. */
  predicate HasToken(jar: map<string, Cookie>)
  {
    AuthTokenCookie in jar && jar[AuthTokenCookie].value != ""
  }

  /** The user the cache holds under `queryKeys.auth.user()`, if any. */
  function CachedUser(cache: map<QueryKey, User>): Option<User>
  {
    if AuthUser() in cache then Some(cache[AuthUser()]) else None
  }

  class Browser {
    var cookies: map<string, Cookie>
    var cache: map<QueryKey, User>
    var location: string
    var toasts: seq<Toast>

    /** A page load at `location` with the cookies persisted from earlier visits and an empty cache. */
    constructor (cookies: map<string, Cookie>, location: string)
      ensures this.cookies == cookies && this.location == location
      ensures cache == map[] && toasts == []
    {
      this.cookies := cookies;
      this.location := location;
      cache := map[];
      toasts := [];
    }
  }
}
