/**
 * The authentication middleware of the API (api/src/middleware/auth.ts):
 * a token is taken from the `auth_token` cookie, otherwise from a
 * `Bearer` Authorization header, and the single sign-on service decides
 * whose it is. The service is a parameter: a function from the token to
 * its reply.
 */
module Auth {
  import opened Wrappers
  import opened Strings
  import opened Cookie

  /** The two request headers the middleware reads. */
  datatype Request = Request(cookie: Option<string>, authorization: Option<string>)

  datatype SsoUser = SsoUser(email: string, username: string)

  /** What the sign-on service's verify call comes to: an exception, a non-ok status, or the parsed reply. */
  datatype SsoReply =
    | Thrown
    | NotOk(status: int)
    | Reply(valid: bool, user: Option<SsoUser>)

  const AUTH_COOKIE: string := "auth_token"
  const BEARER: string := "Bearer "

  /** The cookie's token, `""` when there is none. */
  function CookieToken(req: Request): string {
    var cookies := ParseCookies(req.cookie);
    if AUTH_COOKIE in cookies then cookies[AUTH_COOKIE] else ""
  }

  /** The token a request carries: the cookie's when it is not empty, otherwise the text after `Bearer `; never empty. */
  function SelectToken(req: Request): (t: Option<string>)
    ensures t.Some? ==> t.value != ""
  {
    var fromCookie := CookieToken(req);
    var token :=
      if fromCookie != "" then fromCookie
      else if req.authorization.Some? && StartsWith(req.authorization.value, BEARER) then req.authorization.value[|BEARER|..]
      else "";
    if token == "" then None else Some(token)
  }

  /** The user a reply names: its email, when the reply is valid and names a user with an email. */
  function UserOf(reply: SsoReply): (u: Option<string>)
    ensures u.Some? <==> reply.Reply? && reply.valid && reply.user.Some? && reply.user.value.email != ""
    ensures u.Some? ==> u.value == reply.user.value.email
  {
    match reply
    case Reply(valid, Some(user)) => if valid && user.email != "" then Some(user.email) else None
    case _ => None
  }

  /** The outcome of verification: no user without a token, otherwise the user the service names. */
  function Verify(req: Request, sso: string -> SsoReply): Option<string> {
    var token := SelectToken(req);
    if token.None? then None else UserOf(sso(token.value))
  }

  /**
   * verifyToken, step by step; `consulted` is the token sent to the
   * service, and None when the service is not called.
   */
  method VerifyToken(req: Request, sso: string -> SsoReply) returns (auth: Option<string>, consulted: Option<string>)
    ensures consulted == SelectToken(req)
    ensures auth == Verify(req, sso)
  {
    var cookies := ParseCookieHeader(req.cookie);
    var token := if AUTH_COOKIE in cookies then cookies[AUTH_COOKIE] else "";
    if token == "" {
      var authHeader := req.authorization;
      if authHeader.Some? && authHeader.value != "" && StartsWith(authHeader.value, BEARER) {
        token := authHeader.value[7..];
      }
    }
    if token == "" {
      return None, None;
    }
    consulted := Some(token);
    var response := sso(token);
    if response.Thrown? || response.NotOk? {
      return None, consulted;
    }
    if !response.valid || response.user.None? || response.user.value.email == "" {
      return None, consulted;
    }
    auth := Some(response.user.value.email);
  }

  /** A non-empty cookie token wins over any Authorization header. */
  lemma CookieTakesPrecedence(req: Request, authorization: Option<string>)
    requires CookieToken(req) != ""
    ensures SelectToken(req) == Some(CookieToken(req))
    ensures SelectToken(req.(authorization := authorization)) == SelectToken(req)
  {
  }

  /** Without a cookie token the header counts only when it starts with `Bearer `, and the token is what follows. */
  lemma BearerFallback(req: Request)
    requires CookieToken(req) == ""
    ensures SelectToken(req).Some? <==>
      req.authorization.Some? && StartsWith(req.authorization.value, BEARER) && |req.authorization.value| > 7
    ensures SelectToken(req).Some? ==> req.authorization.value == BEARER + SelectToken(req).value
  {
    if SelectToken(req).Some? {
      var a := req.authorization.value;
      assert a == a[..7] + a[7..];
    }
  }

  /** With no token the result is no user, whatever the service would say. */
  lemma NoTokenNoUser(req: Request, sso: string -> SsoReply, other: string -> SsoReply)
    requires SelectToken(req).None?
    ensures Verify(req, sso).None? && Verify(req, sso) == Verify(req, other)
  {
  }

  /** A user is authenticated exactly when the service, asked about the request's token, validates a user with an email. */
  lemma VerifiedUser(req: Request, sso: string -> SsoReply)
    ensures Verify(req, sso).Some? <==>
      SelectToken(req).Some? && sso(SelectToken(req).value).Reply? && sso(SelectToken(req).value).valid
      && sso(SelectToken(req).value).user.Some? && sso(SelectToken(req).value).user.value.email != ""
    ensures Verify(req, sso).Some? ==> Verify(req, sso) == Some(sso(SelectToken(req).value).user.value.email)
  {
  }

  /** A header holding one well-formed cookie parses to that cookie alone. */
  lemma SingleCookie(name: string, value: string)
    requires name != "" && '=' !in name && ';' !in name && ';' !in value
    requires Trimmed(name + "=" + value)
    ensures ParseCookies(Some(name + "=" + value)) == map[name := value]
  {
    var header := name + "=" + value;
    assert header != "";
    assert ';' !in header by {
      assert forall i :: 0 <= i < |header| ==> header[i] == (if i < |name| then name[i] else if i == |name| then '=' else value[i - |name| - 1]);
    }
    assert Split(header, ';') == [header];
    EntryOfPair(name, value);
    OnePiece(header, name, value);
  }

  /** A request whose Cookie header is just the `auth_token` cookie presents that token. */
  lemma SentCookieSelected(token: string, authorization: Option<string>)
    requires token != "" && ';' !in token && !IsWhitespace(token[|token| - 1])
    ensures SelectToken(Request(Some(AUTH_COOKIE + "=" + token), authorization)) == Some(token)
  {
    var header := AUTH_COOKIE + "=" + token;
    assert header[0] == 'a' && header[|header| - 1] == token[|token| - 1];
    assert '=' !in AUTH_COOKIE && ';' !in AUTH_COOKIE;
    SingleCookie(AUTH_COOKIE, token);
  }

  /** The reply of a route that requires a user: 401 without one, otherwise the handler's reply. */
  datatype Gate<R> = Rejected(status: int, error: string, code: string) | Passed(response: R)

  /** requireAuth: the handler runs only for a verified user, and receives that user's id. */
  function RequireAuth<R>(auth: Option<string>, handler: string -> R): (g: Gate<R>)
    ensures auth.None? <==> g == Rejected(401, "Unauthorized", "UNAUTHORIZED")
    ensures auth.Some? ==> g == Passed(handler(auth.value))
  {
    if auth.None? then Rejected(401, "Unauthorized", "UNAUTHORIZED") else Passed(handler(auth.value))
  }

  /** A request reaches the handler exactly when its token names a user, and the handler gets that user's email. */
  lemma GatePasses<R>(req: Request, sso: string -> SsoReply, handler: string -> R)
    ensures RequireAuth(Verify(req, sso), handler).Passed? <==> SelectToken(req).Some? && UserOf(sso(SelectToken(req).value)).Some?
    ensures RequireAuth(Verify(req, sso), handler).Passed? ==>
      RequireAuth(Verify(req, sso), handler).response == handler(sso(SelectToken(req).value).user.value.email)
  {
  }
}
