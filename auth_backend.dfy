/** The authentication server: a store of users keyed by email, a per-client session record,
    and an in-memory map of development tokens. Password hashing and checking are passed in
    as functions, the clock as `now` (milliseconds), the random part of a token as a string,
    and database failures as flags. */
module AuthBackend {
  import opened Wrappers
  import opened Text

  /** 24 hours in milliseconds, the lifetime of a development token. */
  const DayMs: nat := 24 * 60 * 60 * 1000

  /** A row of the `users` table. */
  datatype UserRow = UserRow(id: nat, email: string, passwordHash: string, name: string)

  /** The user as the responses show it. */
  datatype UserInfo = UserInfo(id: nat, email: string, name: string)

  /** A `devTokens` entry. */
  datatype TokenData = TokenData(id: nat, email: string, name: string, expires: int)

  /** The JSON bodies the handlers send. */
  datatype Body =
    | ErrorBody(error: string)
    | LoginOk(user: UserInfo, devToken: string)
    | LoggedOut
    /** `{authenticated: true, user}`; a user read from a token also carries its expiry. */
    | Authenticated(user: UserInfo, expires: Option<int>)
    | NotAuthenticated
    | ProtectedOk(user: UserInfo)
    | SetupOk(userId: nat)

  datatype Response = Response(status: nat, body: Body)

  function Info(u: UserRow): UserInfo {
    UserInfo(u.id, u.email, u.name)
  }

  const InvalidCredentials: Response := Response(401, ErrorBody("Invalid email or password"))

  /** The endpoints the server answers. */
  datatype Route = LoginRoute | LogoutRoute | StatusRoute | ProtectedRoute | SetupRoute | HealthRoute | NotFound

  function ServerRoute(verb: string, path: string): (r: Route)
    ensures r == StatusRoute <==> verb == "GET" && path == "/api/auth/status"
    ensures r == LoginRoute <==> verb == "POST" && path == "/api/login"
  {
    if verb == "POST" && path == "/api/login" then LoginRoute
    else if verb == "POST" && path == "/api/logout" then LogoutRoute
    else if verb == "GET" && path == "/api/auth/status" then StatusRoute
    else if verb == "GET" && path == "/api/protected" then ProtectedRoute
    else if verb == "POST" && path == "/api/setup/admin" then SetupRoute
    else if verb == "GET" && path == "/api/health" then HealthRoute
    else NotFound
  }

  /** What `/api/login` decides before it touches any state. */
  datatype LoginDecision = LoginRejected(response: Response) | LoginAccepted(user: UserRow)

  /** Missing fields are a 400; a failed lookup a 500; an unknown email and a wrong password
      give the very same 401, so a caller cannot tell which emails are registered. */
  function DecideLogin(users: map<string, UserRow>, email: string, password: string,
                       verify: (string, string) -> bool, dbFails: bool): (d: LoginDecision)
    ensures email == "" || password == "" ==>
      d == LoginRejected(Response(400, ErrorBody("Email and password are required")))
    ensures d.LoginAccepted? <==>
      email != "" && password != "" && !dbFails && email in users && verify(password, users[email].passwordHash)
    ensures d.LoginAccepted? ==> d.user == users[email]
    ensures email != "" && password != "" && !dbFails && d.LoginRejected? ==> d.response == InvalidCredentials
    ensures email != "" && password != "" && dbFails ==>
      d == LoginRejected(Response(500, ErrorBody("Internal server error")))
  {
    if email == "" || password == "" then LoginRejected(Response(400, ErrorBody("Email and password are required")))
    else if dbFails then LoginRejected(Response(500, ErrorBody("Internal server error")))
    else if email !in users then LoginRejected(InvalidCredentials)
    else if !verify(password, users[email].passwordHash) then LoginRejected(InvalidCredentials)
    else LoginAccepted(users[email])
  }

  /** The token minted by a login at time `now`: `dev_<now>_<random>`. */
  function DevToken(now: nat, random: string): (t: string)
    ensures "dev_" <= t && t != ""
  {
    "dev_" + Decimal(now) + "_" + random
  }

  /** `req.query.token || (authorization && authorization.replace('Bearer ', ''))`;
      "" stands for no token. */
  function ExtractToken(query: string, authorization: string): (t: string)
    ensures query != "" ==> t == query
    ensures query == "" && authorization == "" ==> t == ""
  {
    if query != "" then query
    else if authorization == "" then ""
    else ReplaceFirst(authorization, "Bearer ", "")
  }

  /** A query token wins over the header, and a `Bearer ` prefix is stripped from the header. */
  lemma ExtractTokenBearer(query: string, token: string)
    ensures ExtractToken(query, "Bearer " + token) == (if query != "" then query else token)
  {
    ReplaceFirstPrefix("Bearer ", token);
  }

  /** How the token fallback of `/api/auth/status` judges a token. */
  datatype TokenVerdict = Accepted(data: TokenData) | Expired | Unknown

  function TokenLookup(tokens: map<string, TokenData>, token: string, now: int): (v: TokenVerdict)
    ensures v.Accepted? <==> token != "" && token in tokens && tokens[token].expires > now
    ensures v.Accepted? ==> v.data == tokens[token]
    ensures v.Expired? <==> token != "" && token in tokens && tokens[token].expires <= now
  {
    if token == "" || token !in tokens then Unknown
    else if tokens[token].expires > now then Accepted(tokens[token])
    else Expired
  }

  /** A token minted at `minted` is accepted strictly before `minted + DayMs` and expired from
      then on. */
  lemma TokenLifetime(tokens: map<string, TokenData>, token: string, data: TokenData, minted: int, t: int)
    requires token != "" && data.expires == minted + DayMs
    ensures t < minted + DayMs ==> TokenLookup(tokens[token := data], token, t) == Accepted(data)
    ensures t >= minted + DayMs ==> TokenLookup(tokens[token := data], token, t) == Expired
  {
  }

  /** Expiry is final: a token expired now stays expired later, and once evicted it is unknown. */
  lemma {:induction false} ExpiryIsFinal(tokens: map<string, TokenData>, token: string, now: int, later: int)
    requires TokenLookup(tokens, token, now) == Expired && now <= later
    ensures TokenLookup(tokens, token, later) == Expired
    ensures TokenLookup(tokens - {token}, token, later) == Unknown
  {
    assert token in tokens && tokens[token].expires <= now;
  }

  /** The response of the token fallback. */
  function TokenResponse(v: TokenVerdict): (r: Response)
    ensures r.status == 200
    ensures r.body.Authenticated? <==> v.Accepted?
  {
    match v
    case Accepted(d) => Response(200, Authenticated(UserInfo(d.id, d.email, d.name), Some(d.expires)))
    case _ => Response(200, NotAuthenticated)
  }

  /** What `/api/setup/admin` decides before it inserts. */
  datatype SetupDecision = SetupRejected(response: Response) | SetupInsert

  function DecideSetup(users: map<string, UserRow>, email: string, password: string, name: string,
                       lookupFails: bool): (d: SetupDecision)
    ensures email == "" || password == "" || name == "" ==>
      d == SetupRejected(Response(400, ErrorBody("Email, password, and name are required")))
    ensures d == SetupInsert <==> email != "" && password != "" && name != "" && !lookupFails && email !in users
    ensures email != "" && password != "" && name != "" && !lookupFails && email in users ==>
      d == SetupRejected(Response(400, ErrorBody("User already exists")))
  {
    if email == "" || password == "" || name == "" then
      SetupRejected(Response(400, ErrorBody("Email, password, and name are required")))
    else if lookupFails then SetupRejected(Response(500, ErrorBody("Internal server error")))
    else if email in users then SetupRejected(Response(400, ErrorBody("User already exists")))
    else SetupInsert
  }

  /** A user created by the setup endpoint can log in with the password it was created with,
      provided the checker accepts a password against its own hash. */
  lemma SetupThenLogin(users: map<string, UserRow>, email: string, password: string, name: string,
                       id: nat, hash: string -> string, verify: (string, string) -> bool)
    requires DecideSetup(users, email, password, name, false) == SetupInsert
    requires verify(password, hash(password))
    ensures DecideLogin(users[email := UserRow(id, email, hash(password), name)], email, password, verify, false)
      == LoginAccepted(UserRow(id, email, hash(password), name))
  {
  }

  /** The per-client session. `userId` 0 stands for "not set": table ids start at 1. */
  class Session {
    var userId: nat
    var userEmail: string
    var userName: string

    constructor ()
      ensures userId == 0 && userEmail == "" && userName == ""
    {
      userId := 0;
      userEmail := "";
      userName := "";
    }

    /** The session user as the status and protected endpoints show it. */
    function User(): UserInfo
      reads this
    {
      UserInfo(userId, userEmail, userName)
    }
  }

  /** `requireAuth`: a request passes exactly when its session holds a user id. */
  function RequireAuth(session: Session): (pass: bool)
    reads session
    ensures pass <==> session.userId != 0
  {
    session.userId != 0
  }

  /** `/api/protected`: the session user, or 401 when `requireAuth` stops the request. */
  function Protected(session: Session): (r: Response)
    reads session
    ensures r.status == 200 <==> RequireAuth(session)
    ensures r.status == 200 ==> r.body == ProtectedOk(session.User())
    ensures r.status != 200 ==> r == Response(401, ErrorBody("Authentication required"))
  {
    if session.userId != 0 then Response(200, ProtectedOk(session.User()))
    else Response(401, ErrorBody("Authentication required"))
  }

  /** The server state: the user store (unique emails, autoincrement ids) and `devTokens`. */
  class Server {
    var users: map<string, UserRow>
    var nextId: nat
    var devTokens: map<string, TokenData>

    /** Every user is filed under its own email with an id below `nextId`, ids are unique,
        and every token names an id that was handed out. */
    ghost predicate Valid()
      reads this
    {
      && nextId >= 1
      && (forall e :: e in users ==> users[e].email == e && 1 <= users[e].id < nextId)
      && (forall e1, e2 :: e1 in users && e2 in users && users[e1].id == users[e2].id ==> e1 == e2)
      && (forall t :: t in devTokens ==> 1 <= devTokens[t].id < nextId)
    }

    constructor ()
      ensures Valid()
      ensures users == map[] && devTokens == map[] && nextId == 1
    {
      users := map[];
      nextId := 1;
      devTokens := map[];
    }

    /** `POST /api/login`. On success the session gets the user and a token valid for 24 hours
        is stored; on any rejection nothing changes. */
    method Login(session: Session, email: string, password: string, verify: (string, string) -> bool,
                 dbFails: bool, now: nat, random: string) returns (resp: Response)
      requires Valid()
      modifies this, session
      ensures Valid()
      ensures users == old(users) && nextId == old(nextId)
      ensures DecideLogin(old(users), email, password, verify, dbFails).LoginRejected? ==>
        resp == DecideLogin(old(users), email, password, verify, dbFails).response
        && devTokens == old(devTokens)
        && session.userId == old(session.userId) && session.userEmail == old(session.userEmail)
        && session.userName == old(session.userName)
      ensures DecideLogin(old(users), email, password, verify, dbFails).LoginAccepted? ==>
        var u := DecideLogin(old(users), email, password, verify, dbFails).user;
        && resp == Response(200, LoginOk(Info(u), DevToken(now, random)))
        && session.User() == Info(u) && RequireAuth(session)
        && devTokens == old(devTokens)[DevToken(now, random) := TokenData(u.id, u.email, u.name, now + DayMs)]
    {
      var d := DecideLogin(users, email, password, verify, dbFails);
      if d.LoginRejected? {
        return d.response;
      }
      var u := d.user;
      session.userId := u.id;
      session.userEmail := u.email;
      session.userName := u.name;
      var token := DevToken(now, random);
      devTokens := devTokens[token := TokenData(u.id, u.email, u.name, now + DayMs)];
      resp := Response(200, LoginOk(Info(u), token));
    }

    /** `POST /api/logout`: destroys the session only; tokens and users are untouched. */
    method Logout(session: Session, destroyFails: bool) returns (resp: Response)
      modifies session
      ensures destroyFails ==>
        resp == Response(500, ErrorBody("Could not log out")) && session.User() == old(session.User())
      ensures !destroyFails ==>
        resp == Response(200, LoggedOut) && session.User() == UserInfo(0, "", "") && !RequireAuth(session)
    {
      if destroyFails {
        return Response(500, ErrorBody("Could not log out"));
      }
      session.userId := 0;
      session.userEmail := "";
      session.userName := "";
      resp := Response(200, LoggedOut);
    }

    /** `GET /api/auth/status`: the session first, and then the token, which is evicted when
        it is found expired. */
    method AuthStatus(session: Session, query: string, authorization: string, now: int) returns (resp: Response)
      requires Valid()
      modifies this
      ensures Valid()
      ensures users == old(users) && nextId == old(nextId)
      ensures session.userId != 0 ==>
        resp == Response(200, Authenticated(session.User(), None)) && devTokens == old(devTokens)
      ensures session.userId == 0 ==>
        var token := ExtractToken(query, authorization);
        var v := TokenLookup(old(devTokens), token, now);
        && resp == TokenResponse(v)
        && devTokens == (if v.Expired? then old(devTokens) - {token} else old(devTokens))
    {
      if session.userId != 0 {
        return Response(200, Authenticated(session.User(), None));
      }
      var token := ExtractToken(query, authorization);
      var v := TokenLookup(devTokens, token, now);
      if v.Expired? {
        devTokens := devTokens - {token};
      }
      resp := TokenResponse(v);
    }

    /** `POST /api/setup/admin`: inserts a user under a fresh id unless a field is missing,
        the email is taken, or the database fails; only an insert changes the store. */
    method SetupAdmin(email: string, password: string, name: string, hash: string -> string,
                      lookupFails: bool, insertFails: bool) returns (resp: Response)
      requires Valid()
      modifies this
      ensures Valid()
      ensures devTokens == old(devTokens)
      ensures DecideSetup(old(users), email, password, name, lookupFails).SetupRejected? ==>
        resp == DecideSetup(old(users), email, password, name, lookupFails).response
        && users == old(users) && nextId == old(nextId)
      ensures DecideSetup(old(users), email, password, name, lookupFails) == SetupInsert && insertFails ==>
        resp == Response(500, ErrorBody("Could not create user")) && users == old(users) && nextId == old(nextId)
      ensures DecideSetup(old(users), email, password, name, lookupFails) == SetupInsert && !insertFails ==>
        resp == Response(200, SetupOk(old(nextId)))
        && users == old(users)[email := UserRow(old(nextId), email, hash(password), name)]
        && nextId == old(nextId) + 1
    {
      var d := DecideSetup(users, email, password, name, lookupFails);
      if d.SetupRejected? {
        return d.response;
      }
      if insertFails {
        return Response(500, ErrorBody("Could not create user"));
      }
      var id := nextId;
      users := users[email := UserRow(id, email, hash(password), name)];
      nextId := nextId + 1;
      resp := Response(200, SetupOk(id));
    }
  }
}
