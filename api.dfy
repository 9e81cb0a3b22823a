/** The authentication request descriptors of `src/services/api/index.js`. */
module Api {
  import opened Wrappers

  datatype Method = Get | Post | Delete

  /** The body of a login request. */
  datatype Credentials = Credentials(mobile: string, password: string)

  /** The object passed to the HTTP client: method, url, optional body and optional headers. */
  datatype Request = Request(verb: Method, url: string, data: Option<Credentials>, headers: Option<map<string, string>>)

  /** `getAuthUser()`. */
  function GetAuthUser(): Request { Request(Get, "auth/user", None, None) }

  /** `accountLogin(data)`: the credentials go out as the body, unchanged. */
  function AccountLogin(data: Credentials): (r: Request)
    ensures r.verb == Post && r.url == "auth/login" && r.data == Some(data)
  {
    Request(Post, "auth/login", Some(data), None)
  }

  /** `accountLogout()`. */
  function AccountLogout(): Request { Request(Delete, "auth/logout", None, None) }

  const SessionsPath := "auth/sessions/"

  /**
   * `logoutSession(sessionId, token = null)`: a headers object is attached only
   * for a truthy token, and it carries the raw token with no "Bearer " prefix.
   */
  function LogoutSession(sessionId: string, token: Option<string>): (r: Request)
    ensures r.verb == Delete && r.data == None
    ensures r.headers.Some? <==> token.Some? && token.value != ""
    ensures r.headers.Some? ==> r.headers.value == map["Authorization" := token.value]
  {
    var url := SessionsPath + sessionId;
    if token.Some? && token.value != "" then Request(Delete, url, None, Some(map["Authorization" := token.value]))
    else Request(Delete, url, None, None)
  }

  /** The session id a `logoutSession` url addresses. */
  function SessionIdOf(url: string): Option<string>
  {
    if SessionsPath <= url then Some(url[|SessionsPath|..]) else None
  }

  /** The url of `logoutSession` names exactly the session it was given. */
  lemma LogoutSessionUrl(sessionId: string, token: Option<string>)
    ensures SessionIdOf(LogoutSession(sessionId, token).url) == Some(sessionId)
  {
    assert (SessionsPath + sessionId)[|SessionsPath|..] == sessionId;
  }

  /** The four endpoints differ pairwise in method or url; no session url is the user or logout url. */
  lemma EndpointsDistinct(c: Credentials, sessionId: string, token: Option<string>)
    ensures GetAuthUser().verb != AccountLogin(c).verb
    ensures GetAuthUser().verb != AccountLogout().verb
    ensures GetAuthUser().url != LogoutSession(sessionId, token).url
    ensures AccountLogin(c).verb != AccountLogout().verb
    ensures AccountLogin(c).verb != LogoutSession(sessionId, token).verb
    ensures AccountLogout().url != LogoutSession(sessionId, token).url
  {
    var u := LogoutSession(sessionId, token).url;
    assert u[5] == 's';
  }
}
