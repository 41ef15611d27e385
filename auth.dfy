/** The authentication store of src/stores/auth.js: the session (user, token,
    isAuthenticated, lastActivity) with its mirror in localStorage under the
    keys `user`, `auth_token` and `lastActivity`, the 24-hour expiry rule and
    the login flows. The clock reading `now`, the build mode and the login
    endpoint's reply are inputs. */
module AuthStore {
  import opened Js

  /** `SESSION_DURATION`: 24 hours in milliseconds. */
  const SessionDuration: int := 24 * 60 * 60 * 1000
  const UserKey: string := "user"
  const TokenKey: string := "auth_token"
  const ActivityKey: string := "lastActivity"

  const DevEmail: string := "test@example.com"
  const DevPassword: string := "password"
  const DevLoginError: string := "Credenciais inválidas"
  const ProdLoginError: string := "Invalid credentials"

  /** One localStorage entry, described by how its text was written:
      `Json(v)` is `JSON.stringify(v)` and `Text(v)` is `String(v)`. */
  datatype Entry = Json(value: Value) | Text(value: Value)

  /** The entry `setItem(key, JSON.stringify(v))` leaves. `JSON.stringify(undefined)`
      is `undefined`, which `setItem` stores as the text "undefined". */
  function JsonEntry(v: Value): Entry {
    if v == Undefined then Text(Undefined) else Json(v)
  }

  /** The stored text is non-empty. JSON text never is; `String(v)` is empty
      only for the empty string. */
  predicate NonEmptyText(e: Entry) {
    match e
    case Json(_) => true
    case Text(v) => v != Str("")
  }

  /** `JSON.parse(text)`; `None` when it throws. */
  function ParseJson(e: Entry): Option<Value> {
    match e
    case Json(v) => Some(v)
    case Text(v) =>
      match v
      case Null => Some(Null)
      case Bool(b) => Some(Bool(b))
      case Num(n) => Some(Num(n))
      case _ => None
  }

  /** `Number(text)`; `None` for NaN. Only the decimal text of a number and the
      empty text convert to numbers here. */
  function NumberOf(e: Entry): Option<int> {
    match e
    case Json(v) => if v.Num? then Some(v.n) else None
    case Text(v) =>
      match v
      case Num(n) => Some(n)
      case Str(s) => if s == "" then Some(0) else None
      case _ => None
  }

  /** `localStorage.getItem(key)`: the stored string, or null. */
  function GetItem(storage: map<string, Entry>, key: string): Value {
    if key in storage then StringOf(storage[key].value) else Null
  }

  /** `!!localStorage.getItem('user')`: a stored user text counts whether or
      not it parses; only a missing or empty entry does not. */
  predicate LoadIsAuthenticated(storage: map<string, Entry>)
    ensures LoadIsAuthenticated(storage) <==> UserKey in storage && storage[UserKey] != Text(Str(""))
  {
    UserKey in storage && NonEmptyText(storage[UserKey])
  }

  /** `getStoredItem('user')`: null for a missing, empty or unparsable entry. */
  function LoadUser(storage: map<string, Entry>): (user: Value)
    ensures !LoadIsAuthenticated(storage) ==> user == Null
    ensures LoadIsAuthenticated(storage) && ParseJson(storage[UserKey]).None? ==> user == Null
    ensures user != Null ==> LoadIsAuthenticated(storage) && ParseJson(storage[UserKey]) == Some(user)
    ensures LoadIsAuthenticated(storage) && ParseJson(storage[UserKey]).Some? ==> user == ParseJson(storage[UserKey]).value
  {
    if LoadIsAuthenticated(storage) then
      match ParseJson(storage[UserKey])
      case Some(v) => v
      case None => Null
    else Null
  }

  /** `localStorage.getItem('auth_token')`: null when absent, otherwise a
      string; a token written with `String(v)` of a string reads back as itself. */
  function LoadToken(storage: map<string, Entry>): (token: Value)
    ensures TokenKey !in storage <==> token == Null
    ensures token != Null ==> token.Str? || token.DateText?
    ensures TokenKey in storage && storage[TokenKey].Text? ==> token == StringOf(storage[TokenKey].value)
    ensures TokenKey in storage && storage[TokenKey].Text? && storage[TokenKey].value.Str? ==> token == storage[TokenKey].value
  {
    GetItem(storage, TokenKey)
  }

  /** `Number(localStorage.getItem('lastActivity')) || null`: a missing entry,
      zero and NaN all become null. */
  function LoadLastActivity(storage: map<string, Entry>): (t: Option<int>)
    ensures t != Some(0)
    ensures ActivityKey !in storage ==> t == None
    ensures t.Some? ==> NumberOf(storage[ActivityKey]) == t
    ensures ActivityKey in storage && NumberOf(storage[ActivityKey]).Some? && NumberOf(storage[ActivityKey]).value != 0 ==>
      t == NumberOf(storage[ActivityKey])
  {
    if ActivityKey !in storage then None
    else
      match NumberOf(storage[ActivityKey])
      case Some(n) => if n != 0 then Some(n) else None
      case None => None
  }

  /** `isAuthenticated` and `user` are loaded independently: every non-empty
      stored user text that does not parse gives an authenticated session
      without a user, and such a text exists. */
  lemma AuthenticatedWithoutUser(storage: map<string, Entry>)
    requires UserKey in storage && NonEmptyText(storage[UserKey]) && ParseJson(storage[UserKey]).None?
    ensures LoadIsAuthenticated(storage) && LoadUser(storage) == Null
    ensures var s := map[UserKey := Text(Str("{oops"))];
      ParseJson(s[UserKey]).None? && LoadIsAuthenticated(s) && LoadUser(s) == Null
  {
  }

  /** `userEmail`: `user?.email` */
  function UserEmail(user: Value): (email: Value)
    ensures !user.Obj? ==> email == Undefined
    ensures user.Obj? ==> email == Get(user.fields, "email")
  {
    Member(user, "email")
  }

  /** `isAdmin`: `user?.role === 'admin'` */
  predicate IsAdmin(user: Value)
    ensures IsAdmin(user) <==> user.Obj? && "role" in user.fields && user.fields["role"] == Str("admin")
  {
    Member(user, "role") == Str("admin")
  }

  /** `isSessionValid`: false for a null or zero `lastActivity`, otherwise
      whether less than 24 hours have passed since it. */
  predicate SessionValid(lastActivity: Option<int>, now: int)
    ensures SessionValid(lastActivity, now) ==> lastActivity.Some? && lastActivity.value != 0
  {
    match lastActivity
    case None => false
    case Some(t) => t != 0 && now - t < SessionDuration
  }

  /** Expiry is exact: a session is valid strictly less than 24 hours after its
      last activity and invalid from then on. */
  lemma SessionExpiry(t: int, now: int)
    requires t != 0
    ensures SessionValid(Some(t), now) <==> now < t + SessionDuration
    ensures !SessionValid(Some(t), t + SessionDuration)
    ensures SessionValid(Some(t), t + SessionDuration - 1)
  {
  }

  /** The credentials the development login accepts. */
  predicate DevCredentials(credentials: Record) {
    Get(credentials, "email") == Str(DevEmail) && Get(credentials, "password") == Str(DevPassword)
  }

  /** `mockUser` */
  function DevUser(credentials: Record, now: int): (user: Value)
    ensures DevCredentials(credentials) ==> UserEmail(user) == Str(DevEmail)
    ensures !IsAdmin(user) && Member(user, "role") == Str("user")
  {
    Obj(map["email" := Get(credentials, "email"), "role" := Str("user"), "lastLogin" := DateText(now)])
  }

  /** `'mock_token_' + Date.now()`: the prefix followed by the clock's digits. */
  function DevToken(now: int): (token: Value)
    ensures token.Str? && |token.s| > |"mock_token_"| && token.s[..|"mock_token_"|] == "mock_token_"
    ensures token.s[|"mock_token_"|..] == Decimal(now)
  {
    Str("mock_token_" + Decimal(now))
  }

  /** The storage `setAuthData` leaves: the three session keys written, every
      other key as it was. */
  function StorageAfterSetAuthData(storage: map<string, Entry>, user: Value, token: Value, now: int): (s: map<string, Entry>)
    ensures s.Keys == storage.Keys + {UserKey, TokenKey, ActivityKey}
    ensures forall k :: k in storage && k != UserKey && k != TokenKey && k != ActivityKey ==> s[k] == storage[k]
  {
    storage[UserKey := JsonEntry(user)][TokenKey := Text(token)][ActivityKey := Text(Num(now))]
  }

  /** The storage `clearAuthData` leaves: the three session keys removed. */
  function StorageAfterClear(storage: map<string, Entry>): (s: map<string, Entry>)
    ensures s.Keys == storage.Keys - {UserKey, TokenKey, ActivityKey}
    ensures forall k :: k in s ==> s[k] == storage[k]
  {
    storage - {UserKey, TokenKey, ActivityKey}
  }

  /** The mirror round-trips: reloading the store from the storage
      `setAuthData(user, token)` wrote restores the session it set (an
      undefined user reloads as null, a zero clock as no activity). */
  lemma ReloadAfterSetAuthData(storage: map<string, Entry>, user: Value, token: Value, now: int)
    ensures var s := StorageAfterSetAuthData(storage, user, token, now);
      LoadIsAuthenticated(s) &&
      LoadUser(s) == (if user == Undefined then Null else user) &&
      LoadToken(s) == StringOf(token) &&
      LoadLastActivity(s) == (if now != 0 then Some(now) else None)
  {
    var s := StorageAfterSetAuthData(storage, user, token, now);
    assert s[UserKey] == JsonEntry(user);
    assert s[TokenKey] == Text(token);
    assert s[ActivityKey] == Text(Num(now));
  }

  /** Reloading after `clearAuthData` yields a signed-out session. */
  lemma ReloadAfterClear(storage: map<string, Entry>)
    ensures var s := StorageAfterClear(storage);
      !LoadIsAuthenticated(s) && LoadUser(s) == Null && LoadToken(s) == Null && LoadLastActivity(s) == None
  {
  }

  /** Clearing twice is clearing once. */
  lemma ClearIdempotent(storage: map<string, Entry>)
    ensures StorageAfterClear(StorageAfterClear(storage)) == StorageAfterClear(storage)
  {
  }

  /** The message a V8 engine gives when reading `.user` of null or undefined. */
  function PropertyOfNothingMessage(v: Value): string {
    "Cannot read properties of " + (if v == Null then "null" else "undefined") + " (reading 'user')"
  }

  class Session {
    var user: Value
    var token: Value
    var isAuthenticated: bool
    var loading: bool
    var error: Option<string>
    var lastActivity: Option<int>
    /** The browser's localStorage. */
    var storage: map<string, Entry>

    /** The store's initial `state`, read once from `storage`. */
    constructor (storage: map<string, Entry>)
      ensures this.storage == storage
      ensures isAuthenticated == LoadIsAuthenticated(storage)
      ensures user == LoadUser(storage) && token == LoadToken(storage)
      ensures lastActivity == LoadLastActivity(storage)
      ensures !loading && error == None
    {
      this.storage := storage;
      isAuthenticated := LoadIsAuthenticated(storage);
      user := LoadUser(storage);
      token := LoadToken(storage);
      loading := false;
      error := None;
      lastActivity := LoadLastActivity(storage);
    }

    /** `setAuthData(user, token)` */
    method SetAuthData(user: Value, token: Value, now: int)
      modifies this
      ensures this.user == user && this.token == token && isAuthenticated && lastActivity == Some(now)
      ensures storage == StorageAfterSetAuthData(old(storage), user, token, now)
      ensures loading == old(loading) && error == old(error)
    {
      this.user := user;
      this.token := token;
      isAuthenticated := true;
      lastActivity := Some(now);
      storage := storage[UserKey := JsonEntry(user)];
      storage := storage[TokenKey := Text(token)];
      storage := storage[ActivityKey := Text(Num(now))];
    }

    /** `clearAuthData()` */
    method ClearAuthData()
      modifies this
      ensures user == Null && token == Null && !isAuthenticated && lastActivity == None && error == None
      ensures storage == StorageAfterClear(old(storage))
      ensures loading == old(loading)
    {
      user := Null;
      token := Null;
      isAuthenticated := false;
      lastActivity := None;
      error := None;
      storage := storage - {UserKey};
      storage := storage - {TokenKey};
      storage := storage - {ActivityKey};
    }

    /** `logout()`: clears the session and always succeeds. */
    method Logout() returns (ok: bool)
      modifies this
      ensures ok
      ensures user == Null && token == Null && !isAuthenticated && lastActivity == None && error == None
      ensures storage == StorageAfterClear(old(storage))
      ensures !loading
    {
      loading := true;
      ClearAuthData();
      loading := false;
      return true;
    }

    /** `checkSession()`: an authenticated session that is no longer valid is
      logged out and reported invalid; anything else is left as it is. */
    method CheckSession(now: int) returns (valid: bool)
      modifies this
      ensures valid <==> SessionValid(old(lastActivity), now) || !old(isAuthenticated)
      ensures valid ==> unchanged(this)
      ensures !valid ==> user == Null && token == Null && !isAuthenticated && lastActivity == None && error == None
      ensures !valid ==> storage == StorageAfterClear(old(storage)) && !loading
    {
      if !SessionValid(lastActivity, now) && isAuthenticated {
        var _ := Logout();
        return false;
      }
      return true;
    }

    /** `updateActivity()` */
    method UpdateActivity(now: int)
      modifies this
      ensures lastActivity == Some(now)
      ensures storage == old(storage)[ActivityKey := Text(Num(now))]
      ensures user == old(user) && token == old(token) && isAuthenticated == old(isAuthenticated)
      ensures loading == old(loading) && error == old(error)
    {
      lastActivity := Some(now);
      storage := storage[ActivityKey := Text(Num(now))];
    }

    /** `clearError()` */
    method ClearError()
      modifies this`error
      ensures error == None
    {
      error := None;
    }

    /** `handleDevLogin(credentials)`: the fixed test account logs in with a
      mock user and token; anything else raises. */
    method HandleDevLogin(credentials: Record, now: int) returns (outcome: Outcome)
      modifies this
      ensures DevCredentials(credentials) ==> (
        outcome == Returned(true) &&
        user == DevUser(credentials, now) && token == DevToken(now) && isAuthenticated && lastActivity == Some(now) &&
        storage == StorageAfterSetAuthData(old(storage), DevUser(credentials, now), DevToken(now), now) &&
        loading == old(loading) && error == old(error))
      ensures !DevCredentials(credentials) ==> outcome == Raised(DevLoginError) && unchanged(this)
    {
      if DevCredentials(credentials) {
        SetAuthData(DevUser(credentials, now), DevToken(now), now);
        return Returned(true);
      }
      return Raised(DevLoginError);
    }

    /** `handleProdLogin(credentials)`: adopts `data.user` and `data.token` of an
      ok reply; raises otherwise. */
    method HandleProdLogin(now: int, reply: Reply<Value>) returns (outcome: Outcome)
      modifies this
      ensures reply.NotOk? ==> outcome == Raised(ProdLoginError) && unchanged(this)
      ensures reply.Failed? ==> outcome == Raised(reply.message) && unchanged(this)
      ensures reply.Answered? && (reply.body == Null || reply.body == Undefined) ==>
        outcome == Raised(PropertyOfNothingMessage(reply.body)) && unchanged(this)
      ensures reply.Answered? && reply.body != Null && reply.body != Undefined ==> (
        outcome == Returned(true) &&
        user == Member(reply.body, "user") && token == Member(reply.body, "token") &&
        isAuthenticated && lastActivity == Some(now) &&
        storage == StorageAfterSetAuthData(old(storage), user, token, now) &&
        loading == old(loading) && error == old(error))
    {
      match reply {
        case NotOk =>
          return Raised(ProdLoginError);
        case Failed(m) =>
          return Raised(m);
        case Answered(data) =>
          if data == Null || data == Undefined {
            return Raised(PropertyOfNothingMessage(data));
          }
          SetAuthData(Member(data, "user"), Member(data, "token"), now);
          return Returned(true);
      }
    }

    /** `login(credentials)`: the development build checks the fixed test
      account, any other build posts to the login endpoint; a raised error
      becomes `error` and a false result. */
    method Login(credentials: Record, development: bool, now: int, reply: Reply<Value>) returns (ok: bool)
      modifies this
      ensures !loading
      ensures development ==> (ok <==> DevCredentials(credentials))
      ensures ok ==> (
        error == None && isAuthenticated && lastActivity == Some(now) &&
        storage == StorageAfterSetAuthData(old(storage), user, token, now))
      ensures ok && development ==> user == DevUser(credentials, now) && token == DevToken(now)
      ensures !ok ==> (
        error.Some? && user == old(user) && token == old(token) &&
        isAuthenticated == old(isAuthenticated) && lastActivity == old(lastActivity) && storage == old(storage))
      ensures !ok && development ==> error == Some(DevLoginError)
      ensures !development ==> (ok <==> reply.Answered? && reply.body != Null && reply.body != Undefined)
      ensures ok && !development ==> user == Member(reply.body, "user") && token == Member(reply.body, "token")
      ensures !development && reply.NotOk? ==> error == Some(ProdLoginError)
      ensures !development && reply.Failed? ==> error == Some(reply.message)
      ensures !development && reply.Answered? && (reply.body == Null || reply.body == Undefined) ==>
        error == Some(PropertyOfNothingMessage(reply.body))
    {
      loading := true;
      error := None;
      var outcome: Outcome;
      if development {
        outcome := HandleDevLogin(credentials, now);
      } else {
        outcome := HandleProdLogin(now, reply);
      }
      match outcome {
        case Returned(b) =>
          ok := b;
        case Raised(m) =>
          error := Some(m);
          ok := false;
      }
      loading := false;
    }
  }
}
