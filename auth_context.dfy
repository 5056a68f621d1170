/** The dashboard's client-side authentication state: whether the user is signed in, who
    the user is, whether the first check is still loading, and the token kept in local
    storage ("" when none is stored). Server answers are inputs; a request that throws
    (network failure, a body that is not JSON) is the `Threw` answer. */
module AuthClient {
  import opened Wrappers
  import AuthBackend

  type UserInfo = AuthBackend.UserInfo

  const ApiBase: string := "http://localhost:3001"

  /** The path the client asks for the status; the server serves `/api/auth/status`. */
  const StatusPath: string := "/api/status"

  /** The answer to a status request: thrown, or a response with its `ok` flag and, when it
      is ok, the `authenticated` and `user` fields of its body. */
  datatype StatusReply = StatusThrew | StatusAnswered(ok: bool, authenticated: bool, user: Option<UserInfo>)

  /** The answer to a login request; `token` and `error` are "" when the body lacks them. */
  datatype LoginReply =
    | LoginThrew
    | LoginAnswered(ok: bool, success: bool, user: Option<UserInfo>, token: string, error: string)

  /** What `login` resolves to. */
  datatype LoginResult = LoginResult(success: bool, error: Option<string>)

  /** The state after `checkAuthStatus`, with the URLs it requested in order. */
  datatype CheckOutcome = CheckOutcome(isAuthenticated: bool, user: Option<UserInfo>, storedToken: string,
                                       requests: seq<string>)

  /** A status reply that signs the user in. */
  predicate SignsIn(r: StatusReply) {
    r.StatusAnswered? && r.ok && r.authenticated
  }

  /** `checkAuthStatus` on a stored token and the answers of the session and token requests:
      the session answer decides first; the token is tried only when one is stored; anything
      else, a thrown request included, signs out and clears the stored token. */
  function Check(stored: string, session: StatusReply, byToken: StatusReply): (o: CheckOutcome)
    ensures SignsIn(session) ==>
      o == CheckOutcome(true, session.user, stored, [ApiBase + StatusPath])
    ensures !SignsIn(session) && session.StatusAnswered? && stored != "" ==>
      o.requests == [ApiBase + StatusPath, ApiBase + StatusPath + "?token=" + stored]
    ensures stored == "" || session.StatusThrew? ==> o.requests == [ApiBase + StatusPath]
    ensures o.isAuthenticated <==>
      SignsIn(session) || (session.StatusAnswered? && stored != "" && SignsIn(byToken))
    ensures !SignsIn(session) && session.StatusAnswered? && stored != "" && SignsIn(byToken) ==>
      o.user == byToken.user
    ensures !o.isAuthenticated ==> o.user == None && o.storedToken == ""
    ensures o.isAuthenticated ==> o.storedToken == stored
  {
    var first := [ApiBase + StatusPath];
    if session.StatusThrew? then CheckOutcome(false, None, "", first)
    else if SignsIn(session) then CheckOutcome(true, session.user, stored, first)
    else if stored == "" then CheckOutcome(false, None, "", first)
    else
      var both := first + [ApiBase + StatusPath + "?token=" + stored];
      if SignsIn(byToken) then CheckOutcome(true, byToken.user, stored, both)
      else CheckOutcome(false, None, "", both)
  }

  /** `login` on the server's answer: the result, and whether a token gets stored. */
  function LoginOutcome(reply: LoginReply): (r: LoginResult)
    ensures r.success <==> reply.LoginAnswered? && reply.ok && reply.success
    ensures r.success <==> r.error == None
    ensures reply.LoginThrew? ==> r.error == Some("Network error. Please try again.")
    ensures reply.LoginAnswered? && !r.success ==>
      r.error == Some(if reply.error != "" then reply.error else "Login failed")
  {
    match reply
    case LoginThrew => LoginResult(false, Some("Network error. Please try again."))
    case LoginAnswered(ok, success, _, _, error) =>
      if ok && success then LoginResult(true, None)
      else LoginResult(false, Some(if error != "" then error else "Login failed"))
  }

  /** How the client reads a login response of the server: `ok` for a 2xx status, the
      `success`, `user` and `error` fields, and `data.token`, which the server never sends
      (it names the token `devToken`). */
  function ReadLoginResponse(resp: AuthBackend.Response): (reply: LoginReply)
    ensures reply.LoginAnswered? && reply.token == ""
    ensures reply.ok && reply.success <==> 200 <= resp.status < 300 && resp.body.LoginOk?
  {
    var ok := 200 <= resp.status < 300;
    match resp.body
    case LoginOk(user, _) => LoginAnswered(ok, true, Some(user), "", "")
    case ErrorBody(e) => LoginAnswered(ok, false, None, "", e)
    case _ => LoginAnswered(ok, false, None, "", "")
  }

  /** A server login that succeeds is a client login that succeeds, and a rejected one shows
      the server's own message. */
  lemma ServerLoginSeenByClient(resp: AuthBackend.Response)
    ensures resp.status == 200 && resp.body.LoginOk? ==> LoginOutcome(ReadLoginResponse(resp)).success
    ensures resp.body.ErrorBody? && resp.body.error != "" ==>
      LoginOutcome(ReadLoginResponse(resp)) == LoginResult(false, Some(resp.body.error))
  {
  }

  /** The status path the client uses is not an endpoint of the server, so the session check
      always answers not-ok; with nothing in storage the check can never sign in. */
  lemma StatusPathNotServed(byToken: StatusReply, authenticated: bool, user: Option<UserInfo>)
    ensures AuthBackend.ServerRoute("GET", StatusPath) == AuthBackend.NotFound
    ensures !Check("", StatusAnswered(false, authenticated, user), byToken).isAuthenticated
  {
  }

  /** The client's authentication state. */
  class AuthState {
    var isAuthenticated: bool
    var user: Option<UserInfo>
    var loading: bool
    var storedToken: string

    constructor (stored: string)
      ensures !isAuthenticated && user == None && loading && storedToken == stored
    {
      isAuthenticated := false;
      user := None;
      loading := true;
      storedToken := stored;
    }

    /** `checkAuthStatus`: the state becomes that of `Check`, and `loading` ends false on
        every path. */
    method CheckAuthStatus(session: StatusReply, byToken: StatusReply) returns (requests: seq<string>)
      modifies this
      ensures var o := Check(old(storedToken), session, byToken);
        && isAuthenticated == o.isAuthenticated && user == o.user && storedToken == o.storedToken
        && requests == o.requests
      ensures !loading
    {
      requests := [ApiBase + StatusPath];
      if session.StatusAnswered? {
        if session.ok && session.authenticated {
          isAuthenticated := true;
          user := session.user;
          loading := false;
          return;
        }
        var token := storedToken;
        if token != "" {
          requests := requests + [ApiBase + StatusPath + "?token=" + token];
          if byToken.StatusAnswered? && byToken.ok && byToken.authenticated {
            isAuthenticated := true;
            user := byToken.user;
            loading := false;
            return;
          }
        }
      }
      isAuthenticated := false;
      user := None;
      storedToken := "";
      loading := false;
    }

    /** `login`: a success signs in with the reply's user and stores its token if it has one;
        a failure or a thrown request changes nothing. */
    method Login(reply: LoginReply) returns (result: LoginResult)
      modifies this
      ensures result == LoginOutcome(reply)
      ensures result.success ==>
        isAuthenticated && user == reply.user
        && storedToken == (if reply.token != "" then reply.token else old(storedToken))
      ensures !result.success ==>
        isAuthenticated == old(isAuthenticated) && user == old(user) && storedToken == old(storedToken)
      ensures loading == old(loading)
    {
      result := LoginOutcome(reply);
      if result.success {
        isAuthenticated := true;
        user := reply.user;
        if reply.token != "" {
          storedToken := reply.token;
        }
      }
    }

    /** `logout`: signed out with no stored token, whether or not the request went through. */
    method Logout(requestThrew: bool)
      modifies this
      ensures !isAuthenticated && user == None && storedToken == ""
      ensures loading == old(loading)
    {
      isAuthenticated := false;
      user := None;
      storedToken := "";
    }
  }
}
