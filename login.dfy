/**
 * The login page of `src/pages/Login.tsx`: field validation, submission, the
 * "session limit reached" conflict state, logging out a remote session with
 * its automatic re-login, and the device label shown for each session.
 */
module LoginPage {
  import opened Wrappers
  import opened Strings
  import Lists
  import opened Api
  import opened BrowserState
  import opened HttpClient
  import opened Auth

  const MobileRequired := "Mobile number is required"
  const MobileInvalid := "Please enter a valid mobile number (10-15 digits)"
  const PasswordRequired := "Password is required"

  /** `/^[0-9]{10,15}$/.test(t)`. */
  predicate MatchesMobilePattern(t: string)
  {
    10 <= |t| <= 15 && forall i :: 0 <= i < |t| ==> IsDigit(t[i])
  }

  /** `mobile.replace(/\D/g, '')`: the digits of the input, in order. */
  function DigitsOf(mobile: string): string
  {
    Lists.Filter(mobile, IsDigit)
  }

  /**
   * The mobile passes `validate()`: it is not blank and, once every
   * non-digit is removed, 10 to 15 digits remain.
   */
  predicate MobileAccepted(mobile: string)
  {
    !IsBlank(mobile) && 10 <= Lists.Count(mobile, IsDigit) <= 15
  }

  /**
   * `validate()`'s error map. A blank mobile gets only the "required" error;
   * any other mobile is accepted exactly when it holds 10 to 15 digits,
   * whatever else it contains. The password is not trimmed: only the empty
   * string is refused.
   */
  method CollectErrors(mobile: string, password: string) returns (errors: map<string, string>)
    ensures errors.Keys <= {"mobile", "password"}
    ensures "mobile" in errors <==> !MobileAccepted(mobile)
    ensures "mobile" in errors ==> errors["mobile"] == if IsBlank(mobile) then MobileRequired else MobileInvalid
    ensures "password" in errors <==> password == ""
    ensures "password" in errors ==> errors["password"] == PasswordRequired
  {
    errors := map[];

    if IsBlank(mobile) {
      errors := errors["mobile" := MobileRequired];
    } else if !MatchesMobilePattern(DigitsOf(mobile)) {
      errors := errors["mobile" := MobileInvalid];
    }
    if password == "" {
      errors := errors["password" := PasswordRequired];
    }
  }

  /** The conflict state: the conflict-scoped token and the sessions to choose from. */
  datatype Conflict = Conflict(token: string, sessions: seq<Session>)

  /**
   * A mutation the page started. A login call records whether it carries
   * the page's own error handler (the one that opens the conflict state).
   */
  datatype Call =
    | LoginCall(credentials: Credentials, handlesConflict: bool)
    | LogoutSessionCall(sessionId: string, token: string)

  /** The request each call sends. */
  function RequestOf(c: Call): (r: Request)
    ensures c.LoginCall? ==> r.data == Some(c.credentials) && r.url == "auth/login"
    ensures c.LogoutSessionCall? ==> r == LogoutSession(c.sessionId, Some(c.token))
  {
    match c
    case LoginCall(credentials, _) => AccountLogin(credentials)
    case LogoutSessionCall(id, token) => LogoutSession(id, Some(token))
  }

  const SessionClearedToast := Toast("Session cleared", "You can now log in.", false)

  class LoginPage {
    var mobile: string
    var password: string
    var errors: map<string, string>
    var sessionError: Option<Conflict>
    /** Every mutation started, oldest first. */
    var calls: seq<Call>

    constructor ()
      ensures mobile == "" && password == "" && errors == map[] && sessionError == None && calls == []
    {
      mobile, password := "", "";
      errors := map[];
      sessionError := None;
      calls := [];
    }

    method SetMobile(value: string)
      modifies this`mobile
      ensures mobile == value
    {
      mobile := value;
    }

    method SetPassword(value: string)
      modifies this`password
      ensures password == value
    {
      password := value;
    }

    /**
     * `handleSubmit`: records the field errors and, only when there are none,
     * starts one login with the mobile as typed (digits not stripped) and
     * the password.
     */
    method HandleSubmit() returns (valid: bool)
      modifies this`errors, this`calls
      ensures errors.Keys <= {"mobile", "password"}
      ensures "mobile" in errors <==> !MobileAccepted(mobile)
      ensures "mobile" in errors ==> errors["mobile"] == if IsBlank(mobile) then MobileRequired else MobileInvalid
      ensures "password" in errors <==> password == ""
      ensures "password" in errors ==> errors["password"] == PasswordRequired
      ensures valid <==> MobileAccepted(mobile) && password != ""
      ensures valid <==> errors == map[]
      ensures calls == old(calls) + if valid then [LoginCall(Credentials(mobile, password), true)] else []
    {
      errors := CollectErrors(mobile, password);
      valid := "mobile" !in errors && "password" !in errors;
      assert valid ==> errors.Keys == {};
      if !valid {
        return;
      }
      calls := calls + [LoginCall(Credentials(mobile, password), true)];
    }

    /**
     * A login call failed: the hook's handler (toast unless it is a conflict)
     * runs, then the call's own handler if it has one, which opens the
     * conflict state with the token and sessions exactly as the server sent them.
     */
    method HandleLoginError(i: nat, b: Browser, e: Rejection)
      requires i < |calls| && calls[i].LoginCall?
      modifies this`sessionError, b`toasts
      ensures b.toasts == old(b.toasts) + (if IsSessionConflict(Fields(e)) then [] else [LoginErrorToast(Fields(e)).value])
      ensures calls[i].handlesConflict && IsSessionConflict(Fields(e)) ==>
                sessionError == Some(Conflict(Fields(e).details.value.token, Fields(e).details.value.sessions))
      ensures !(calls[i].handlesConflict && IsSessionConflict(Fields(e))) ==> sessionError == old(sessionError)
    {
      OnLoginError(b, e);
      var body := Fields(e);
      if calls[i].handlesConflict && body.details.Some? && body.details.value.processCode == Some(ConflictCode) {
        sessionError := Some(Conflict(body.details.value.token, body.details.value.sessions));
      }
    }

    /** A login call succeeded: only the hook's handler runs. */
    method HandleLoginSuccess(i: nat, b: Browser, data: LoginResponse)
      requires i < |calls| && calls[i].LoginCall?
      modifies b
      ensures b.cookies == old(b.cookies)[AuthTokenCookie := Cookie(data.token, Some(CookieExpiryDays))]
                                         [UserDetailsCookie := Cookie(Users.UserJson(data.user), Some(CookieExpiryDays))]
      ensures b.cache == old(b.cache)[QueryKeys.AuthUser() := data.user]
      ensures b.toasts == old(b.toasts) + [WelcomeToast(data.user)]
      ensures b.location == "/"
      ensures IsAuthenticated(CachedUser(b.cache))
    {
      OnLoginSuccess(b, data);
    }

    /**
     * `handleLogoutSession(sessionId)`: nothing happens outside the conflict
     * state; inside it, one session logout starts, authorised by the
     * conflict token.
     */
    method HandleLogoutSession(sessionId: string)
      modifies this`calls
      ensures sessionError == None ==> calls == old(calls)
      ensures sessionError != None ==> calls == old(calls) + [LogoutSessionCall(sessionId, sessionError.value.token)]
    {
      if sessionError == None {
        return;
      }
      calls := calls + [LogoutSessionCall(sessionId, sessionError.value.token)];
    }

    /**
     * The session logout succeeded: a toast, the conflict state closes, and
     * exactly one new login starts with the current form. That login carries
     * no page handler of its own.
     */
    method HandleLogoutSessionSuccess(i: nat, b: Browser)
      requires i < |calls| && calls[i].LogoutSessionCall?
      modifies this`sessionError, this`calls, b`toasts
      ensures sessionError == None
      ensures calls == old(calls) + [LoginCall(Credentials(mobile, password), false)]
      ensures b.toasts == old(b.toasts) + [SessionClearedToast]
    {
      b.toasts := b.toasts + [SessionClearedToast];
      sessionError := None;
      calls := calls + [LoginCall(Credentials(mobile, password), false)];
    }

    /** The back arrow of the conflict view. */
    method GoBack()
      modifies this`sessionError
      ensures sessionError == None
    {
      sessionError := None;
    }
  }

  const UnknownDevice := "Unknown Device"

  /** `userAgent.split(')')[0].split('(')[1] || 'Unknown Device'`. */
  function DeviceLabel(userAgent: string): string
  {
    var head := Split(userAgent, ')')[0];
    var parts := Split(head, '(');
    if |parts| > 1 && parts[1] != "" then parts[1] else UnknownDevice
  }

  /**
   * The device label, by positions: the text before the first ')' is
   * searched for its first '('; the segment runs from just after it up to
   * the next '(' or the end. Empty when there is no '(' before the first ')'.
   */
  function DeviceSegment(userAgent: string): string
  {
    var head := userAgent[..FirstIndex(userAgent, ')')];
    var j := FirstIndex(head, '(');
    if j == |head| then ""
    else
      var rest := head[j + 1..];
      rest[..FirstIndex(rest, '(')]
  }

  /** The two splits pick out exactly the positional segment, or the fallback when it is empty. */
  lemma DeviceLabelByPosition(userAgent: string)
    ensures DeviceLabel(userAgent) == if DeviceSegment(userAgent) == "" then UnknownDevice else DeviceSegment(userAgent)
  {
    var head := userAgent[..FirstIndex(userAgent, ')')];
    assert Split(userAgent, ')')[0] == head;
    var parts := Split(head, '(');
    var j := FirstIndex(head, '(');
    if j < |head| {
      assert '(' in head;
      SplitSecond(head, '(');
    } else {
      assert '(' !in head;
      assert |parts| == 1;
    }
  }

  /**
   * A non-empty segment holds no parenthesis and occurs in the user agent
   * right after a '('.
   */
  lemma DeviceSegmentOccurs(userAgent: string)
    ensures var name := DeviceSegment(userAgent);
            name != "" ==>
              '(' !in name && ')' !in name
              && exists k :: 0 < k <= |userAgent| && userAgent[k - 1] == '(' && OccursAt(userAgent, name, k)
  {
    var name := DeviceSegment(userAgent);
    var k0 := FirstIndex(userAgent, ')');
    var head := userAgent[..k0];
    var j := FirstIndex(head, '(');
    if name != "" {
      var rest := head[j + 1..];
      var m := FirstIndex(rest, '(');
      assert name == rest[..m];
      assert forall i :: 0 <= i < m ==> name[i] == userAgent[j + 1 + i] && j + 1 + i < k0;
      assert userAgent[j + 1..j + 1 + m] == name;
      assert OccursAt(userAgent, name, j + 1);
    }
  }
}
