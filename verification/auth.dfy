/** Registration, login and token issue (application/backend/auth.py). */
module Auth {

  import opened Wrappers
  import opened Tables
  import opened Crypto

  /** An HTTPException: status code, `detail` text and extra headers. */
  datatype HttpError = HttpError(status: int, detail: string, headers: map<string, string>)

  /** The server's configuration: the crypto primitives and the
      `ACCESS_TOKEN_EXPIRE_MINUTES` setting. */
  datatype Env = Env(crypto: Primitives, expireMinutes: int)

  /** `exp` of a token issued at `now` (seconds). Python's
      `expires_delta or timedelta(minutes=...)` treats a zero delta like a
      missing one, since `timedelta(0)` is falsy. */
  function Expiry(now: int, delta: Option<int>, expireMinutes: int): (exp: int)
    ensures delta.Some? && delta.value != 0 ==> exp == now + delta.value
    ensures delta.None? || delta.value == 0 ==> exp == now + expireMinutes * 60
  {
    match delta
    case Some(d) => if d != 0 then now + d else now + expireMinutes * 60
    case None => now + expireMinutes * 60
  }

  /** `create_access_token({"sub": sub}, delta)`. */
  function CreateAccessToken(env: Env, sub: string, now: int, delta: Option<int>): string {
    env.crypto.encode(Claims(Some(sub), Expiry(now, delta, env.expireMinutes)))
  }

  /** Until it expires, an issued token decodes to its subject and to the
      expiry `create_access_token` computed. */
  lemma TokenCarriesClaims(env: Env, sub: string, now: int, delta: Option<int>, later: int)
    requires TokensRoundTrip(env.crypto)
    requires later <= Expiry(now, delta, env.expireMinutes)
    ensures env.crypto.decode(CreateAccessToken(env, sub, now, delta), later)
            == Some(Claims(Some(sub), Expiry(now, delta, env.expireMinutes)))
  {
  }

  const UsernameRegistered := "Username already registered"
  const EmailRegistered := "Email already registered"

  function BadRequest(detail: string): HttpError {
    HttpError(400, detail, map[])
  }

  datatype RegisterRequest = RegisterRequest(username: string, email: string, password: string)

  /** The user table after a request, and the request's reply. */
  datatype Registered = Registered(users: Users, reply: Result<string, HttpError>)

  /** The row `register` inserts: only the three submitted fields are set,
      and the password is stored hashed. */
  function NewUser(env: Env, req: RegisterRequest): User {
    User(req.username, req.email, env.crypto.hash(req.password), None, None, None, None)
  }

  /** `register`: the username is checked first, then the email; a new
      row is inserted only when both are free, and its access token is
      returned. */
  function Register(users: Users, req: RegisterRequest, env: Env, now: int): (r: Registered)
    ensures UsernameTaken(users, req.username)
            ==> r == Registered(users, Err(BadRequest(UsernameRegistered)))
    ensures !UsernameTaken(users, req.username) && EmailTaken(users, req.email)
            ==> r == Registered(users, Err(BadRequest(EmailRegistered)))
    ensures r.reply.Err? ==> r.users == users
    ensures r.reply.Ok? <==> !UsernameTaken(users, req.username) && !EmailTaken(users, req.email)
    ensures r.reply.Ok? ==>
              var id := FreshId(users);
              && id !in users
              && r.users.Keys == users.Keys + {id}
              && r.users[id] == NewUser(env, req)
              && r.users[id].hashedPassword == env.crypto.hash(req.password)
              && (forall k :: k in users ==> r.users[k] == users[k])
              && r.reply.value == CreateAccessToken(env, req.username, now, None)
    ensures Unique(users) ==> Unique(r.users)
  {
    if FindByUsername(users, req.username).Some? then
      Registered(users, Err(BadRequest(UsernameRegistered)))
    else if FindByEmail(users, req.email).Some? then
      Registered(users, Err(BadRequest(EmailRegistered)))
    else
      var users' := users[FreshId(users) := NewUser(env, req)];
      Registered(users', Ok(CreateAccessToken(env, req.username, now, None)))
  }

  /** The table after a series of registrations, failed ones included. */
  function RegisterAll(users: Users, reqs: seq<RegisterRequest>, env: Env, now: int): Users
    decreases |reqs|
  {
    if reqs == [] then users
    else RegisterAll(Register(users, reqs[0], env, now).users, reqs[1..], env, now)
  }

  /** Usernames and emails stay unique whatever is registered. */
  lemma {:induction false} RegisterAllKeepsUnique(users: Users, reqs: seq<RegisterRequest>, env: Env, now: int)
    requires Unique(users)
    ensures Unique(RegisterAll(users, reqs, env, now))
    decreases |reqs|
  {
    if reqs != [] {
      RegisterAllKeepsUnique(Register(users, reqs[0], env, now).users, reqs[1..], env, now);
    }
  }

  const LoginFailed := "Incorrect email or password"
  const LoginMissing := "Incorrect username or email"

  function Unauthorized(detail: string): HttpError {
    HttpError(401, detail, map[])
  }

  /** `login`: the first user with the email, if its password verifies,
      gets a token whose subject is its username. */
  function Login(users: Users, email: Option<string>, password: string, env: Env, now: int)
    : (r: Result<string, HttpError>)
    ensures email.None? ==> r == Err(Unauthorized(LoginMissing))
    ensures email.Some? && !EmailTaken(users, email.value) ==> r == Err(Unauthorized(LoginFailed))
    ensures r.Ok? <==> && email.Some?
                       && EmailTaken(users, email.value)
                       && env.crypto.verify(password, users[FindByEmail(users, email.value).value].hashedPassword)
    ensures r.Err? && email.Some? ==> r.error == Unauthorized(LoginFailed)
    ensures r.Ok? ==> r.value == CreateAccessToken(env, users[FindByEmail(users, email.value).value].username, now, None)
  {
    match email
    case None => Err(Unauthorized(LoginMissing))
    case Some(e) =>
      match FindByEmail(users, e)
      case None => Err(Unauthorized(LoginFailed))
      case Some(id) =>
        if !env.crypto.verify(password, users[id].hashedPassword) then Err(Unauthorized(LoginFailed))
        else Ok(CreateAccessToken(env, users[id].username, now, None))
  }

  /** With unique emails, a user who registered can log in with the
      password given at registration, provided hashes verify. */
  lemma {:induction false} RegisteredUserCanLogIn(users: Users, req: RegisterRequest, env: Env, now: int)
    requires Unique(users)
    requires HashesVerify(env.crypto)
    requires Register(users, req, env, now).reply.Ok?
    ensures Login(Register(users, req, env, now).users, Some(req.email), req.password, env, now)
            == Ok(CreateAccessToken(env, req.username, now, None))
  {
    var users' := Register(users, req, env, now).users;
    var id := FreshId(users);
    assert users'[id].email == req.email;
    var found := FindByEmail(users', req.email);
    assert found.Some?;
    assert found.value == id;
    assert env.crypto.verify(req.password, env.crypto.hash(req.password));
  }
}
