/**
 * The axios instance of `src/services/api/httpRequest.js`: the request
 * interceptor that adds headers, and the response interceptor that unwraps
 * payloads, normalises errors and ends an expired session.
 */
module HttpClient {
  import opened Wrappers
  import opened Api
  import opened BrowserState

  /** Another device signed in to the same account, as the server lists it. */
  datatype Session = Session(id: string, userAgent: string, createdAt: string)

  /** The `details` object of a login error body. */
  datatype Details = Details(processCode: Option<string>, token: string, sessions: seq<Session>)

  /** The fields of an error value that callers read. */
  datatype ErrorBody = ErrorBody(code: Option<string>, message: Option<string>, details: Option<Details>)

  datatype ErrorResponse = ErrorResponse(status: int, data: ErrorBody)

  /** An axios error: the server's response, when there was one, and the error's own code and message. */
  datatype AxiosError = AxiosError(response: Option<ErrorResponse>, code: Option<string>, message: string)

  /** What a failed request rejects with: the server's body, or the client-side error itself. */
  datatype Rejection = ServerBody(body: ErrorBody) | ClientError(error: AxiosError)

  /** The fields callers read from a rejection (`error.message`, `error.details`). */
  function Fields(r: Rejection): ErrorBody
  {
    match r
    case ServerBody(b) => b
    case ClientError(e) => ErrorBody(e.code, Some(e.message), None)
  }

  datatype Response<T> = Response(status: int, data: T)

  const BypassHeader := "ngrok-skip-browser-warning"
  const AuthorizationHeader := "Authorization"

  /**
   * The headers after the request interceptor: the proxy bypass header is
   * always set; `Authorization` becomes the bearer token when a token cookie
   * is present, replacing any value the caller gave, and is left alone
   * otherwise; every other header is untouched.
   */
  function InterceptedHeaders(headers: map<string, string>, jar: map<string, Cookie>): (r: map<string, string>)
    ensures BypassHeader in r && r[BypassHeader] == "true"
    ensures HasToken(jar) ==>
              AuthorizationHeader in r && r[AuthorizationHeader] == "Bearer " + jar[AuthTokenCookie].value
    ensures !HasToken(jar) ==>
              (AuthorizationHeader in r <==> AuthorizationHeader in headers)
              && (AuthorizationHeader in headers ==> r[AuthorizationHeader] == headers[AuthorizationHeader])
    ensures forall k :: k != BypassHeader && k != AuthorizationHeader ==>
              (k in r <==> k in headers) && (k in headers ==> r[k] == headers[k])
  {
    var h := headers[BypassHeader := "true"];
    if HasToken(jar) then h[AuthorizationHeader := "Bearer " + jar[AuthTokenCookie].value] else h
  }

  /** The config object axios builds from a request descriptor and hands to the interceptor. */
  class RequestConfig {
    const verb: Method
    const url: string
    const data: Option<Credentials>
    var headers: map<string, string>

    constructor (req: Request)
      ensures verb == req.verb && url == req.url && data == req.data
      ensures headers == req.headers.GetOr(map[])
    {
      verb, url, data := req.verb, req.url, req.data;
      headers := req.headers.GetOr(map[]);
    }

    /** The request interceptor: writes the headers into `config.headers` in place. */
    method Intercept(jar: map<string, Cookie>)
      modifies this`headers
      ensures headers == InterceptedHeaders(old(headers), jar)
    {
      headers := headers[BypassHeader := "true"];
      if AuthTokenCookie in jar && jar[AuthTokenCookie].value != "" {
        headers := headers[AuthorizationHeader := "Bearer " + jar[AuthTokenCookie].value];
      }
    }
  }

  /**
   * A session-logout request made during a login conflict, when no token
   * cookie is set, reaches the server with the conflict token as given, not as
   * a bearer token; with a token cookie the cookie's bearer token wins.
   */
  lemma ConflictTokenHeader(sessionId: string, token: string, jar: map<string, Cookie>)
    requires token != ""
    ensures var h := InterceptedHeaders(LogoutSession(sessionId, Some(token)).headers.GetOr(map[]), jar);
            h[AuthorizationHeader] == if HasToken(jar) then "Bearer " + jar[AuthTokenCookie].value else token
  {
  }

  /** The request-stage error handler passes the error on unchanged. */
  function RejectRequestError(e: AxiosError): (r: Rejection)
    ensures r == ClientError(e)
    ensures Fields(r).message == Some(e.message) && Fields(r).details == None
  {
    ClientError(e)
  }

  /** The success handler: a response resolves to its body. */
  function Unwrap<T>(r: Response<T>): (v: T)
    ensures v == r.data
  {
    r.data
  }

  /** A 401 whose body says `unauthorized`: the token has expired. */
  predicate EndsSession(e: AxiosError)
  {
    e.response.Some? && e.response.value.status == 401 && e.response.value.data.code == Some("unauthorized")
  }

  /**
   * The value the error handler rejects with, branch by branch as written:
   * every error with a response, whatever its status, rejects with the server
   * body; an error without one rejects with itself.
   */
  function RejectionOf(e: AxiosError): (r: Rejection)
    ensures e.response.Some? ==> r == ServerBody(e.response.value.data)
    ensures e.response.None? ==> r == ClientError(e)
  {
    match e.response
    case Some(ErrorResponse(status, data)) =>
      if status == 403 then ServerBody(data)
      else if status == 500 then ServerBody(data)
      else ServerBody(data)
    case None => ClientError(e)
  }

  /**
   * The response error handler: an expired token removes both auth cookies
   * and sends the browser to the login page before rejecting; any other error
   * leaves the browser as it was.
   */
  method HandleResponseError(b: Browser, e: AxiosError) returns (r: Rejection)
    modifies b
    ensures r == RejectionOf(e)
    ensures EndsSession(e) ==>
              b.cookies == old(b.cookies) - {AuthTokenCookie, UserDetailsCookie} && b.location == "/login"
    ensures !EndsSession(e) ==> b.cookies == old(b.cookies) && b.location == old(b.location)
    ensures b.cache == old(b.cache) && b.toasts == old(b.toasts)
  {
    if e.response.Some? {
      var status, data := e.response.value.status, e.response.value.data;
      if status == 401 && data.code == Some("unauthorized") {
        b.cookies := b.cookies - {AuthTokenCookie};
        b.cookies := b.cookies - {UserDetailsCookie};
        b.location := "/login";
      }
      if status == 403 {
        return ServerBody(data);
      }
      if status == 500 {
        return ServerBody(data);
      }
      return ServerBody(data);
    }
    return ClientError(e);
  }
}
