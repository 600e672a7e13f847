/** The user table and the password and token libraries the authentication code calls. */
module Accounts {
  import opened Wrappers

  /** A row of the `user` table. `password` holds the bcrypt hash. */
  datatype Account = Account(id: string, username: string, password: string)

  /** bcrypt and jsonwebtoken as functions. `verify` is `None` where `jwt.verify` throws
      (bad signature, malformed token) and otherwise the payload's `id`. */
  datatype Crypto = Crypto(
    hash: (string, int) -> string,      // bcrypt.hash(password, cost)
    compare: (string, string) -> bool,  // bcrypt.compare(password, hashed)
    sign: (string, string) -> string,   // jwt.sign({id}, secret)
    verify: (string, string) -> Option<string>)  // jwt.verify(token, secret).id

  /** A password matches its own hash. */
  ghost predicate HashMatches(c: Crypto) {
    forall p, cost :: c.compare(p, c.hash(p, cost))
  }

  /** A hash is never the plaintext it was computed from. */
  ghost predicate HashHides(c: Crypto) {
    forall p, cost :: c.hash(p, cost) != p
  }

  /** A token verifies, under the secret it was signed with, to the id it was signed over. */
  ghost predicate SignVerifies(c: Crypto) {
    forall id, secret :: c.verify(c.sign(id, secret), secret) == Some(id)
  }

  /** A signed token is never the empty string. */
  ghost predicate TokensNonEmpty(c: Crypto) {
    forall id, secret :: c.sign(id, secret) != ""
  }

  ghost predicate Sound(c: Crypto) {
    HashMatches(c) && HashHides(c) && SignVerifies(c) && TokensNonEmpty(c)
  }

  /** Functions that meet `Sound`: the assumptions can all be met at once. A hash that
      appends a mark and a token that is the id behind a prefix only show consistency;
      they are of course neither bcrypt nor a signature. */
  function ExampleCrypto(): (c: Crypto)
    ensures Sound(c)
  {
    var c := Crypto(
      (pw: string, cost: int) => pw + "$",
      (pw: string, hashed: string) => hashed == pw + "$",
      (id: string, secret: string) => "t" + id,
      (token: string, secret: string) => if |token| > 0 && token[0] == 't' then Some(token[1..]) else None);
    assert HashHides(c) by {
      forall pw: string, cost: int ensures c.hash(pw, cost) != pw {
        assert |c.hash(pw, cost)| == |pw| + 1;
      }
    }
    assert SignVerifies(c) by {
      forall id: string, secret: string ensures c.verify(c.sign(id, secret), secret) == Some(id) {
        assert ("t" + id)[1..] == id;
      }
    }
    c
  }

  /** The bcrypt cost factor both registrations use. */
  const SALT_ROUNDS: int := 10

  /** `process.env.JWT_SECRET || fallback`: an unset or empty variable gives the fallback. */
  function SecretOf(env: Option<string>, fallback: string): (s: string)
    ensures env.Some? && env.value != "" ==> s == env.value
    ensures env.None? || env.value == "" ==> s == fallback
  {
    if env.Some? && env.value != "" then env.value else fallback
  }

  /** `findUnique({where: {username}})`: the lookup is exact, case included. */
  function FindByUsername(users: seq<Account>, username: string): (r: Option<Account>)
    ensures r.Some? ==> r.value in users && r.value.username == username
    ensures r.None? <==> forall u :: u in users ==> u.username != username
  {
    if |users| == 0 then None
    else if users[0].username == username then Some(users[0])
    else FindByUsername(users[1..], username)
  }

  /** Looking a name up after appending a row: an earlier row with the name still wins;
      otherwise the new row is found when it carries the name. */
  lemma {:induction false} FindAfterAppend(users: seq<Account>, user: Account, username: string)
    ensures FindByUsername(users + [user], username) ==
      if FindByUsername(users, username).Some? then FindByUsername(users, username)
      else if user.username == username then Some(user)
      else None
  {
    if |users| > 0 {
      assert (users + [user])[1..] == users[1..] + [user];
      FindAfterAppend(users[1..], user, username);
    }
  }

  /** The message a unique-constraint violation carries out of `create`. */
  const UNIQUE_VIOLATION: string := "Unique constraint failed"

  /** The `user` table: ids and usernames are unique. */
  class UserTable {
    var users: seq<Account>

    ghost predicate Valid()
      reads this
    {
      forall i, j :: 0 <= i < j < |users| ==>
        users[i].id != users[j].id && users[i].username != users[j].username
    }

    constructor()
      ensures users == [] && Valid()
    {
      users := [];
    }

    /** `user.create`: the new row, or the constraint error when the id or the username is
        taken. `id` is the key the database generates. */
    method Create(id: string, username: string, password: string) returns (r: Result<Account>)
      requires Valid()
      modifies this
      ensures Valid()
      ensures (exists u :: u in old(users) && (u.id == id || u.username == username)) ==>
        r == Err(UNIQUE_VIOLATION) && users == old(users)
      ensures (forall u :: u in old(users) ==> u.id != id && u.username != username) ==>
        r == Ok(Account(id, username, password)) && users == old(users) + [Account(id, username, password)]
    {
      if exists i | 0 <= i < |users| :: users[i].id == id || users[i].username == username {
        return Err(UNIQUE_VIOLATION);
      }
      users := users + [Account(id, username, password)];
      return Ok(Account(id, username, password));
    }
  }
}

/** `AuthService.registerUser` and `AuthService.loginUser`. */
module AuthService {
  import opened Wrappers
  import opened Accounts

  const DEFAULT_SECRET: string := "your-secret-key"
  const USERNAME_TAKEN: string := "Username already exists"
  const INVALID_CREDENTIALS: string := "Invalid credentials"

  /** The created or found user and a token signed over its id. */
  datatype Session = Session(user: Account, token: string)

  /** `registerUser`: refuses a taken username, stores the hash of the password, and signs
      a token over the new id. */
  method RegisterUser(table: UserTable, c: Crypto, secret: string, username: string, password: string, newId: string)
    returns (r: Result<Session>)
    requires table.Valid()
    modifies table
    ensures table.Valid()
    ensures FindByUsername(old(table.users), username).Some? ==>
      r == Err(USERNAME_TAKEN) && table.users == old(table.users)
    ensures FindByUsername(old(table.users), username).None? && (exists u :: u in old(table.users) && u.id == newId) ==>
      r == Err(UNIQUE_VIOLATION) && table.users == old(table.users)
    ensures FindByUsername(old(table.users), username).None? && (forall u :: u in old(table.users) ==> u.id != newId) ==>
      var user := Account(newId, username, c.hash(password, SALT_ROUNDS));
      && table.users == old(table.users) + [user]
      && r == Ok(Session(user, c.sign(newId, secret)))
  {
    var existing := FindByUsername(table.users, username);
    if existing.Some? {
      return Err(USERNAME_TAKEN);
    }
    var hashed := c.hash(password, SALT_ROUNDS);
    var created := table.Create(newId, username, hashed);
    if created.Err? {
      return Err(created.message);
    }
    var user := created.value;
    return Ok(Session(user, c.sign(user.id, secret)));
  }

  /** `loginUser`: the same error for an unknown username and for a wrong password. */
  function LoginUser(users: seq<Account>, c: Crypto, secret: string, username: string, password: string)
    : (r: Result<Session>)
    ensures r.Err? ==> r.message == INVALID_CREDENTIALS
    ensures r.Ok? <==> (FindByUsername(users, username).Some? &&
      c.compare(password, FindByUsername(users, username).value.password))
    ensures r.Ok? ==> (r.value.user in users && r.value.user.username == username &&
      r.value.token == c.sign(r.value.user.id, secret))
  {
    match FindByUsername(users, username)
    case None => Err(INVALID_CREDENTIALS)
    case Some(user) =>
      if !c.compare(password, user.password) then Err(INVALID_CREDENTIALS)
      else Ok(Session(user, c.sign(user.id, secret)))
  }

  /** After a registration, logging in with the same name and password succeeds and issues
      a token for the same user id. */
  lemma LoginAfterRegister(users: seq<Account>, c: Crypto, secret: string, username: string, password: string, newId: string)
    requires HashMatches(c)
    requires FindByUsername(users, username).None?
    ensures var user := Account(newId, username, c.hash(password, SALT_ROUNDS));
      LoginUser(users + [user], c, secret, username, password) == Ok(Session(user, c.sign(newId, secret)))
  {
    var user := Account(newId, username, c.hash(password, SALT_ROUNDS));
    FindAfterAppend(users, user, username);
  }
}

/** The `register` and `login` handlers of the auth module. */
module AuthController {
  import opened Wrappers
  import opened Accounts
  import opened AuthService

  const REQUIRED: string := "Username and password are required"

  /** The `data` of a success: the user without the password, and the token. */
  datatype AuthData = AuthData(id: string, username: string, token: string)

  /** `!username || !password`: absent or empty. */
  predicate Missing(field: Option<string>) {
    field.None? || field.value == ""
  }

  /** `register`: 400 before the service for a missing field, 400 with the service's
      message when it throws, and 201 with the user's id, name and token. */
  method Register(table: UserTable, c: Crypto, secret: string, username: Option<string>, password: Option<string>, newId: string)
    returns (r: Reply<AuthData>)
    requires table.Valid()
    modifies table
    ensures table.Valid()
    ensures Missing(username) || Missing(password) ==>
      r == Failure(400, REQUIRED) && table.users == old(table.users)
    ensures r.Success? ==> (r.status == 201 && !Missing(username) && !Missing(password) &&
      r.value.username == username.value && r.value.token == c.sign(r.value.id, secret) &&
      table.users == old(table.users) + [Account(r.value.id, username.value, c.hash(password.value, SALT_ROUNDS))])
    ensures r.Failure? ==> r.status == 400 && table.users == old(table.users)
    ensures !Missing(username) && !Missing(password) && FindByUsername(old(table.users), username.value).Some? ==>
      r == Failure(400, USERNAME_TAKEN)
    ensures (!Missing(username) && !Missing(password) && FindByUsername(old(table.users), username.value).None? &&
             forall u :: u in old(table.users) ==> u.id != newId) ==>
      r == Success(201, AuthData(newId, username.value, c.sign(newId, secret)))
  {
    if Missing(username) || Missing(password) {
      return Failure(400, REQUIRED);
    }
    var outcome := RegisterUser(table, c, secret, username.value, password.value, newId);
    if outcome.Err? {
      return Failure(400, outcome.message);
    }
    var session := outcome.value;
    return Success(201, AuthData(session.user.id, session.user.username, session.token));
  }

  /** `login`: 400 for a missing field, 401 'Invalid credentials' for any failure of the
      service, and the default 200 on success. */
  function Login(users: seq<Account>, c: Crypto, secret: string, username: Option<string>, password: Option<string>)
    : (r: Reply<AuthData>)
    ensures Missing(username) || Missing(password) ==> r == Failure(400, REQUIRED)
    ensures r.Failure? && r.status != 400 ==> r == Failure(401, INVALID_CREDENTIALS)
    ensures !Missing(username) && !Missing(password) ==>
      (r.Success? <==> LoginUser(users, c, secret, username.value, password.value).Ok?)
    ensures r.Success? ==> (r.status == 200 &&
      exists u :: u in users && u.username == username.value && r.value == AuthData(u.id, u.username, c.sign(u.id, secret)))
  {
    if Missing(username) || Missing(password) then Failure(400, REQUIRED)
    else
      match LoginUser(users, c, secret, username.value, password.value)
      case Err(_) => Failure(401, INVALID_CREDENTIALS)
      case Ok(session) => Success(200, AuthData(session.user.id, session.user.username, session.token))
  }
}

/** The older `routes/authController.ts`: the same two endpoints with the table and the
    libraries called inline, its own secret, and 500 for unexpected errors. */
module LegacyAuthController {
  import opened Wrappers
  import opened Accounts
  import opened AuthController

  const DEFAULT_SECRET: string := "taen-kluch"
  const USERNAME_TAKEN: string := "Username already exists"
  const INVALID_CREDENTIALS: string := "Invalid credentials"
  const REGISTER_FAILED: string := "Unable to register user"

  /** `register`: 400 for a missing field or a taken username, 500 when `create` throws,
      201 with the new user and its token. */
  method Register(table: UserTable, c: Crypto, secret: string, username: Option<string>, password: Option<string>, newId: string)
    returns (r: Reply<AuthData>)
    requires table.Valid()
    modifies table
    ensures table.Valid()
    ensures Missing(username) || Missing(password) ==>
      r == Failure(400, REQUIRED) && table.users == old(table.users)
    ensures !Missing(username) && !Missing(password) && FindByUsername(old(table.users), username.value).Some? ==>
      r == Failure(400, USERNAME_TAKEN) && table.users == old(table.users)
    ensures r.Failure? && r.status != 400 ==> r == Failure(500, REGISTER_FAILED) && table.users == old(table.users)
    ensures r.Success? ==> (r.status == 201 && !Missing(username) && !Missing(password) &&
      r.value == AuthData(newId, username.value, c.sign(newId, secret)) &&
      table.users == old(table.users) + [Account(newId, username.value, c.hash(password.value, SALT_ROUNDS))])
    ensures (!Missing(username) && !Missing(password) && FindByUsername(old(table.users), username.value).None? &&
             forall u :: u in old(table.users) ==> u.id != newId) ==>
      r == Success(201, AuthData(newId, username.value, c.sign(newId, secret)))
  {
    if Missing(username) || Missing(password) {
      return Failure(400, REQUIRED);
    }
    if FindByUsername(table.users, username.value).Some? {
      return Failure(400, USERNAME_TAKEN);
    }
    var hashed := c.hash(password.value, SALT_ROUNDS);
    var created := table.Create(newId, username.value, hashed);
    if created.Err? {
      return Failure(500, REGISTER_FAILED);
    }
    var user := created.value;
    return Success(201, AuthData(user.id, user.username, c.sign(user.id, secret)));
  }

  /** `login`: 400 for a missing field; 401 for an unknown user and for a wrong password
      alike; 200 with a token over the user's id. */
  function Login(users: seq<Account>, c: Crypto, secret: string, username: Option<string>, password: Option<string>)
    : (r: Reply<AuthData>)
    ensures Missing(username) || Missing(password) ==> r == Failure(400, REQUIRED)
    ensures r.Failure? && r.status != 400 ==> r == Failure(401, INVALID_CREDENTIALS)
    ensures !Missing(username) && !Missing(password) ==>
      (r.Success? <==> (FindByUsername(users, username.value).Some? &&
        c.compare(password.value, FindByUsername(users, username.value).value.password)))
    ensures r.Success? ==>
      && r.status == 200 && !Missing(username) && FindByUsername(users, username.value).Some?
      && var user := FindByUsername(users, username.value).value;
         r.value == AuthData(user.id, user.username, c.sign(user.id, secret))
  {
    if Missing(username) || Missing(password) then Failure(400, REQUIRED)
    else
      match FindByUsername(users, username.value)
      case None => Failure(401, INVALID_CREDENTIALS)
      case Some(user) =>
        if !c.compare(password.value, user.password) then Failure(401, INVALID_CREDENTIALS)
        else Success(200, AuthData(user.id, user.username, c.sign(user.id, secret)))
  }

  /** Both login handlers accept and refuse the same requests; only the secret differs. */
  lemma LoginsAgree(users: seq<Account>, c: Crypto, s1: string, s2: string, username: Option<string>, password: Option<string>)
    ensures Login(users, c, s1, username, password).Success? <==>
      AuthController.Login(users, c, s2, username, password).Success?
    ensures Login(users, c, s1, username, password).Failure? ==>
      Login(users, c, s1, username, password) == AuthController.Login(users, c, s2, username, password)
  {
  }
}

/** The two `authMiddleware`s: the token is the `Authorization` header with its first
    'Bearer ' removed; they differ only in their fallback secret. */
module AuthMiddleware {
  import opened Wrappers
  import opened Text
  import opened Accounts

  const SHARED_SECRET: string := "your-secret-key"
  const LEGACY_SECRET: string := "taen-kluch"
  const PLEASE_AUTHENTICATE: string := "Please authenticate"
  const BEARER: string := "Bearer "

  /** The request the middleware annotates: `req.user.id` once authenticated. */
  class AuthRequest {
    var user: Option<string>
  }

  /** `next()`, or a 401 written to the response. */
  datatype Outcome = Next | Unauthorized(status: int, message: string)

  /** `req.header('Authorization')?.replace('Bearer ', '')`: the first occurrence anywhere
      in the header, not only at its start. */
  function ExtractToken(header: Option<string>): (t: Option<string>)
    ensures header.None? <==> t.None?
    ensures header.Some? && StartsWith(header.value, BEARER) ==> t == Some(header.value[|BEARER|..])
    ensures header.Some? && !Contains(header.value, BEARER) ==> t == header
  {
    match header
    case None => None
    case Some(h) =>
      assert StartsWith(h, BEARER) ==> ReplaceFirst(h, BEARER, "") == h[|BEARER|..] by {
        if StartsWith(h, BEARER) {
          ReplaceFirstOfPrefix(h, BEARER);
        }
      }
      assert !Contains(h, BEARER) ==> ReplaceFirst(h, BEARER, "") == h by {
        if !Contains(h, BEARER) {
          ReplaceFirstAbsent(h, BEARER, "");
        }
      }
      Some(ReplaceFirst(h, BEARER, ""))
  }

  /** What the middleware decides: the verified id, or `None` for the 401. */
  function Authenticate(c: Crypto, secret: string, header: Option<string>): (id: Option<string>)
    ensures ExtractToken(header).None? || ExtractToken(header).value == "" ==> id.None?
    ensures ExtractToken(header).Some? && ExtractToken(header).value != "" ==>
      id == c.verify(ExtractToken(header).value, secret)
  {
    match ExtractToken(header)
    case None => None
    case Some(token) => if token == "" then None else c.verify(token, secret)
  }

  /** One `authMiddleware` call under `secret`: on success `req.user` is the decoded id and
      `next` is called; otherwise 401 'Please authenticate' and `req.user` is untouched. */
  method Handle(c: Crypto, secret: string, header: Option<string>, req: AuthRequest) returns (outcome: Outcome)
    modifies req
    ensures Authenticate(c, secret, header).Some? ==>
      outcome == Next && req.user == Authenticate(c, secret, header)
    ensures Authenticate(c, secret, header).None? ==>
      outcome == Unauthorized(401, PLEASE_AUTHENTICATE) && req.user == old(req.user)
  {
    var token := ExtractToken(header);
    if token.None? || token.value == "" {
      return Unauthorized(401, PLEASE_AUTHENTICATE);
    }
    var decoded := c.verify(token.value, secret);
    if decoded.None? {
      return Unauthorized(401, PLEASE_AUTHENTICATE);
    }
    req.user := Some(decoded.value);
    return Next;
  }

  /** `shared/middleware/auth.middleware.ts`. */
  method SharedAuthMiddleware(c: Crypto, env: Option<string>, header: Option<string>, req: AuthRequest)
    returns (outcome: Outcome)
    modifies req
    ensures var id := Authenticate(c, SecretOf(env, SHARED_SECRET), header);
      && (id.Some? ==> outcome == Next && req.user == id)
      && (id.None? ==> outcome == Unauthorized(401, PLEASE_AUTHENTICATE) && req.user == old(req.user))
  {
    outcome := Handle(c, SecretOf(env, SHARED_SECRET), header, req);
  }

  /** `middleware/auth.ts`. */
  method LegacyAuthMiddleware(c: Crypto, env: Option<string>, header: Option<string>, req: AuthRequest)
    returns (outcome: Outcome)
    modifies req
    ensures var id := Authenticate(c, SecretOf(env, LEGACY_SECRET), header);
      && (id.Some? ==> outcome == Next && req.user == id)
      && (id.None? ==> outcome == Unauthorized(401, PLEASE_AUTHENTICATE) && req.user == old(req.user))
  {
    outcome := Handle(c, SecretOf(env, LEGACY_SECRET), header, req);
  }

  /** A token signed over `id` and sent as `Bearer <token>` authenticates as `id` under the
      secret it was signed with. */
  lemma IssuedTokenAuthenticates(c: Crypto, secret: string, id: string)
    requires SignVerifies(c) && TokensNonEmpty(c)
    ensures Authenticate(c, secret, Some(BEARER + c.sign(id, secret))) == Some(id)
  {
    var token := c.sign(id, secret);
    assert StartsWith(BEARER + token, BEARER);
    assert (BEARER + token)[|BEARER|..] == token;
  }

  /** The header "Bearer " alone leaves an empty token: 401. */
  lemma EmptyBearerRejected(c: Crypto, secret: string)
    ensures Authenticate(c, secret, Some(BEARER)) == None
  {
    assert StartsWith(BEARER, BEARER);
  }

  /** The removal is not anchored: 'Bearer ' inside the header is cut out too. */
  lemma UnanchoredRemoval(token: string)
    ensures ExtractToken(Some("Token " + BEARER + token)) == Some("Token " + token)
  {
    var h := "Token " + BEARER + token;
    assert OccursAt(h, BEARER, 6);
    forall j | 0 <= j < 6 ensures !OccursAt(h, BEARER, j) {
      assert h[j] != 'B';
    }
    var k := IndexOfSub(h, BEARER);
    assert k.Some?;
    assert k.value == 6;
    assert h[..6] == "Token ";
    assert h[6 + |BEARER|..] == token;
    assert ReplaceFirst(h, BEARER, "") == "Token " + token;
  }
}
