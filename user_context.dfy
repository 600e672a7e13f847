/** The client's user context: the stored session (token, user, timestamp) in device
    storage, its four-hour expiry, and the login, logout and start-up check that keep the
    in-memory state in step with it. */
module UserContext {
  import opened Wrappers
  import opened Clock
  import opened ClientData

  const TOKEN_EXPIRATION_HOURS: int := 4

  const TOKEN_KEY: string := "userToken"
  const USER_DATA_KEY: string := "userData"
  const TIMESTAMP_KEY: string := "tokenTimestamp"
  const SESSION_KEYS: set<string> := {TOKEN_KEY, USER_DATA_KEY, TIMESTAMP_KEY}

  datatype User = User(id: string, username: string)

  /** The conversions the context relies on, taken as given: `new Date(s).getTime()`
      (`None` for NaN), `toISOString()`, `JSON.stringify` of a user and `JSON.parse` back
      (`None` where it throws). */
  datatype Codec = Codec(
    parseTime: string -> Option<int>,
    formatTime: int -> string,
    encodeUser: User -> string,
    decodeUser: string -> Option<User>)

  /** What the runtime guarantees of these conversions: each parse undoes its format, and
      neither format yields the empty string. */
  ghost predicate Sound(codec: Codec) {
    && (forall t :: codec.parseTime(codec.formatTime(t)) == Some(t))
    && (forall t :: codec.formatTime(t) != "")
    && (forall u :: codec.decodeUser(codec.encodeUser(u)) == Some(u))
    && (forall u :: codec.encodeUser(u) != "")
  }

  /** A sign mark followed by the magnitude in unary. */
  function UnaryTime(t: int): (s: string)
    ensures |s| == 1 + (if t >= 0 then t else -t)
    ensures s[0] == (if t >= 0 then 'p' else 'n')
  {
    (if t >= 0 then "p" else "n") + seq(if t >= 0 then t else -t, _ => 'x')
  }

  function ReadUnaryTime(s: string): Option<int> {
    if |s| == 0 then None
    else if s[0] == 'p' then Some(|s| - 1)
    else if s[0] == 'n' then Some(-(|s| - 1))
    else None
  }

  /** The id's length in unary, a bar, the id and the username. */
  function PackUser(u: User): (s: string)
    ensures |s| == 2 * |u.id| + 1 + |u.username|
  {
    seq(|u.id|, _ => 'a') + "|" + u.id + u.username
  }

  function LeadingAs(s: string): (n: nat)
    ensures n <= |s|
    ensures forall i :: 0 <= i < n ==> s[i] == 'a'
    ensures n < |s| ==> s[n] != 'a'
  {
    if |s| > 0 && s[0] == 'a' then 1 + LeadingAs(s[1..]) else 0
  }

  function UnpackUser(s: string): Option<User> {
    var n := LeadingAs(s);
    if n < |s| && s[n] == '|' && 2 * n + 1 <= |s| then Some(User(s[n + 1..2 * n + 1], s[2 * n + 1..]))
    else None
  }

  lemma LeadingAsOfPrefix(k: nat, rest: string)
    requires |rest| > 0 && rest[0] != 'a'
    ensures LeadingAs(seq(k, _ => 'a') + rest) == k
  {
    var s := seq(k, _ => 'a') + rest;
    assert s[k] == rest[0];
    assert forall i :: 0 <= i < k ==> s[i] == 'a';
  }

  lemma UnpackPackUser(u: User)
    ensures UnpackUser(PackUser(u)) == Some(u)
  {
    var s := PackUser(u);
    var k := |u.id|;
    assert s == seq(k, _ => 'a') + ("|" + u.id + u.username);
    LeadingAsOfPrefix(k, "|" + u.id + u.username);
    assert s[k + 1..2 * k + 1] == u.id;
    assert s[2 * k + 1..] == u.username;
  }

  /** Conversions that meet `Sound`: the assumptions can all be met at once. */
  function ExampleCodec(): (codec: Codec)
    ensures Sound(codec)
  {
    var codec := Codec(ReadUnaryTime, UnaryTime, PackUser, UnpackUser);
    forall u ensures codec.decodeUser(codec.encodeUser(u)) == Some(u) {
      UnpackPackUser(u);
    }
    codec
  }

  /** `checkTokenExpiration`: fewer than four hours have passed since the timestamp. A
      timestamp that does not parse gives NaN, which compares false. */
  predicate TokenValid(timestamp: string, now: int, codec: Codec) {
    match codec.parseTime(timestamp)
    case None => false
    case Some(t) => now - t < TOKEN_EXPIRATION_HOURS * MS_PER_HOUR
  }

  /** The context's state together with the device storage. */
  datatype State = State(user: Option<User>, isLoggedIn: bool, isLoading: bool, items: map<string, string>)

  /** The state before the start-up check has run. */
  function Initial(items: map<string, string>): (s: State)
    ensures s.user.None? && !s.isLoggedIn && s.isLoading && s.items == items
  {
    State(None, false, true, items)
  }

  /** All three session keys hold a non-empty value. */
  predicate HasSession(items: map<string, string>) {
    Present(Lookup(items, TOKEN_KEY)) && Present(Lookup(items, USER_DATA_KEY)) &&
    Present(Lookup(items, TIMESTAMP_KEY))
  }

  /** `checkLoginStatus`. A complete, unexpired session restores its user; an expired one is
      removed; a stored user that does not parse throws, which leaves everything as it was.
      In every case loading ends. */
  function CheckLoginStatus(s: State, now: int, codec: Codec): (r: State)
    ensures !r.isLoading
    ensures !HasSession(s.items) ==> r == s.(isLoading := false)
    ensures HasSession(s.items) && !TokenValid(s.items[TIMESTAMP_KEY], now, codec) ==>
      r == State(None, false, false, s.items - SESSION_KEYS)
    ensures HasSession(s.items) && TokenValid(s.items[TIMESTAMP_KEY], now, codec) ==>
      r.items == s.items &&
      match codec.decodeUser(s.items[USER_DATA_KEY])
      case None => r == s.(isLoading := false)
      case Some(u) => r.user == Some(u) && r.isLoggedIn
  {
    if !HasSession(s.items) then s.(isLoading := false)
    else if !TokenValid(s.items[TIMESTAMP_KEY], now, codec) then State(None, false, false, s.items - SESSION_KEYS)
    else
      match codec.decodeUser(s.items[USER_DATA_KEY])
      case None => s.(isLoading := false)
      case Some(u) => State(Some(u), true, false, s.items)
  }

  /** How `authApi.login` settles: a successful result with its token and user, an
      unsuccessful result, or a thrown error. */
  datatype LoginOutcome = LoginOk(token: string, user: User) | LoginRefused | LoginThrew

  /** `login`: a success stores the token, the user and the current time and logs in; any
      other outcome writes nothing and returns false. Loading ends either way. */
  function Login(s: State, outcome: LoginOutcome, now: int, codec: Codec): (r: (State, bool))
    ensures r.1 <==> outcome.LoginOk?
    ensures !r.0.isLoading
    ensures !outcome.LoginOk? ==> r.0 == s.(isLoading := false)
    ensures outcome.LoginOk? ==>
      && r.0.user == Some(outcome.user) && r.0.isLoggedIn
      && r.0.items == s.items[TOKEN_KEY := outcome.token][USER_DATA_KEY := codec.encodeUser(outcome.user)]
                             [TIMESTAMP_KEY := codec.formatTime(now)]
  {
    match outcome
    case LoginOk(token, user) =>
      var items := s.items[TOKEN_KEY := token][USER_DATA_KEY := codec.encodeUser(user)][TIMESTAMP_KEY := codec.formatTime(now)];
      (State(Some(user), true, false, items), true)
    case _ => (s.(isLoading := false), false)
  }

  /** `logout`: the three keys are removed and the user is cleared. */
  function Logout(s: State): (r: State)
    ensures r.user.None? && !r.isLoggedIn && r.isLoading == s.isLoading
    ensures r.items == s.items - SESSION_KEYS
  {
    State(None, false, s.isLoading, s.items - SESSION_KEYS)
  }

  /** After a login with a non-empty token, a start-up check less than four hours later
      restores the same user. */
  lemma LoginThenCheckRestores(s: State, token: string, u: User, loginTime: int, later: int, codec: Codec)
    requires Sound(codec) && token != ""
    requires later - loginTime < TOKEN_EXPIRATION_HOURS * MS_PER_HOUR
    ensures var r := CheckLoginStatus(Login(s, LoginOk(token, u), loginTime, codec).0, later, codec);
      r.user == Some(u) && r.isLoggedIn && !r.isLoading
  {
    var items := Login(s, LoginOk(token, u), loginTime, codec).0.items;
    assert items[TOKEN_KEY] == token;
    assert items[USER_DATA_KEY] == codec.encodeUser(u);
    assert items[TIMESTAMP_KEY] == codec.formatTime(loginTime);
    assert codec.parseTime(codec.formatTime(loginTime)) == Some(loginTime);
    assert codec.decodeUser(codec.encodeUser(u)) == Some(u);
  }

  /** Four hours or more after a login, the start-up check removes the session and leaves
      the user logged out. */
  lemma LoginThenLateCheckClears(s: State, token: string, u: User, loginTime: int, later: int, codec: Codec)
    requires Sound(codec) && token != ""
    requires later - loginTime >= TOKEN_EXPIRATION_HOURS * MS_PER_HOUR
    ensures var r := CheckLoginStatus(Login(s, LoginOk(token, u), loginTime, codec).0, later, codec);
      r.user.None? && !r.isLoggedIn && !r.isLoading &&
      TOKEN_KEY !in r.items && USER_DATA_KEY !in r.items && TIMESTAMP_KEY !in r.items
  {
    var items := Login(s, LoginOk(token, u), loginTime, codec).0.items;
    assert items[TOKEN_KEY] == token;
    assert items[USER_DATA_KEY] == codec.encodeUser(u);
    assert items[TIMESTAMP_KEY] == codec.formatTime(loginTime);
    assert codec.parseTime(codec.formatTime(loginTime)) == Some(loginTime);
  }

  /** After a logout, the start-up check finds no session and stays logged out. */
  lemma LogoutThenCheckStaysOut(s: State, now: int, codec: Codec)
    ensures var r := CheckLoginStatus(Logout(s), now, codec);
      r.user.None? && !r.isLoggedIn && !r.isLoading
  {
    assert !Present(Lookup(Logout(s).items, TOKEN_KEY));
  }

  /** The provider: the state it holds and the storage it writes. */
  class UserProvider {
    var user: Option<User>
    var isLoggedIn: bool
    var isLoading: bool
    const storage: KeyValueStore

    function Snapshot(): State
      reads this, storage
    {
      State(user, isLoggedIn, isLoading, storage.items)
    }

    constructor(storage: KeyValueStore)
      ensures this.storage == storage
      ensures Snapshot() == Initial(storage.items)
    {
      user := None;
      isLoggedIn := false;
      isLoading := true;
      this.storage := storage;
    }

    /** The start-up effect. */
    method CheckLoginStatusStep(now: int, codec: Codec)
      modifies this, storage
      ensures Snapshot() == CheckLoginStatus(old(Snapshot()), now, codec)
    {
      var token := Lookup(storage.items, TOKEN_KEY);
      var userData := Lookup(storage.items, USER_DATA_KEY);
      var timestamp := Lookup(storage.items, TIMESTAMP_KEY);
      if Present(token) && Present(userData) && Present(timestamp) {
        if TokenValid(timestamp.value, now, codec) {
          var parsed := codec.decodeUser(userData.value);
          if parsed.Some? {
            user := parsed;
            isLoggedIn := true;
          }
        } else {
          storage.items := storage.items - {TOKEN_KEY};
          storage.items := storage.items - {USER_DATA_KEY};
          storage.items := storage.items - {TIMESTAMP_KEY};
          user := None;
          isLoggedIn := false;
        }
      }
      isLoading := false;
    }

    /** `login(username, password)`, with `outcome` how the API call settled. */
    method LoginStep(outcome: LoginOutcome, now: int, codec: Codec) returns (ok: bool)
      modifies this, storage
      ensures (Snapshot(), ok) == Login(old(Snapshot()), outcome, now, codec)
    {
      isLoading := true;
      ok := false;
      if outcome.LoginOk? {
        storage.items := storage.items[TOKEN_KEY := outcome.token];
        storage.items := storage.items[USER_DATA_KEY := codec.encodeUser(outcome.user)];
        storage.items := storage.items[TIMESTAMP_KEY := codec.formatTime(now)];
        user := Some(outcome.user);
        isLoggedIn := true;
        ok := true;
      }
      isLoading := false;
    }

    /** `logout()`. */
    method LogoutStep()
      modifies this, storage
      ensures Snapshot() == Logout(old(Snapshot()))
    {
      storage.items := storage.items - {TOKEN_KEY};
      storage.items := storage.items - {USER_DATA_KEY};
      storage.items := storage.items - {TIMESTAMP_KEY};
      user := None;
      isLoggedIn := false;
    }
  }
}
