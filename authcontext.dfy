/** The session context (context/AuthContext.tsx): the token and user of the
    current session, the `loading` flag, and the two entries of the browser's
    durable key-value store that survive a reload. Navigation is not performed
    here: `Login` and `Logout` return the navigation they ask for. */
module AuthContext {
  import opened Types
  import UserCodec

  /** The storage key of the bearer token. */
  const TokenKey: string := "authToken"
  /** The storage key of the serialised user record. */
  const UserKey: string := "authUser"

  /** `localStorage.getItem(key)`: the stored value, or `null`. */
  function GetItem(entries: map<string, string>, key: string): (r: Option<string>)
    ensures r.Some? <==> key in entries
    ensures r.Some? ==> r.value == entries[key]
  {
    if key in entries then Some(entries[key]) else None
  }

  /** The browser's `localStorage`, shared by the session and the HTTP client. */
  class LocalStorage {
    var entries: map<string, string>

    constructor (initial: map<string, string>)
      ensures entries == initial
    {
      entries := initial;
    }

    method SetItem(key: string, value: string)
      modifies this
      ensures entries == old(entries)[key := value]
    {
      entries := entries[key := value];
    }

    method RemoveItem(key: string)
      modifies this
      ensures entries == old(entries) - {key}
    {
      entries := entries - {key};
    }
  }

  // ---------- what the store holds, as values ----------

  /** What hydration finds in the store: no session, a session to restore, or
      a user entry the codec cannot parse (the model's stand-in for
      `JSON.parse` throwing). */
  datatype StoredSession = NoSession | Restored(token: string, user: User) | Corrupt

  /** The reading performed by the hydration effect: a session is restored only
      when both entries are present and non-empty and the user entry parses. */
  function ReadStoredSession(entries: map<string, string>): (r: StoredSession)
    ensures r.NoSession? <==> !(Truthy(GetItem(entries, TokenKey)) && Truthy(GetItem(entries, UserKey)))
    ensures r.Corrupt? <==>
      Truthy(GetItem(entries, TokenKey)) && Truthy(GetItem(entries, UserKey)) &&
      UserCodec.Deserialize(entries[UserKey]).None?
    ensures r.Restored? ==>
      r.token != "" && GetItem(entries, TokenKey) == Some(r.token) &&
      UserKey in entries && UserCodec.Deserialize(entries[UserKey]) == Some(r.user)
  {
    var storedToken := GetItem(entries, TokenKey);
    var storedUser := GetItem(entries, UserKey);
    if Truthy(storedToken) && Truthy(storedUser) then
      match UserCodec.Deserialize(storedUser.value)
      case None => Corrupt
      case Some(u) => Restored(storedToken.value, u)
    else
      NoSession
  }

  /** The store after `login(t, u)`. */
  function LoginEntries(entries: map<string, string>, t: string, u: User): (r: map<string, string>)
    ensures TokenKey in r && r[TokenKey] == t
    ensures UserKey in r && UserCodec.Deserialize(r[UserKey]) == Some(u)
    ensures forall k :: k != TokenKey && k != UserKey ==> (k in r <==> k in entries)
    ensures forall k :: k in entries && k != TokenKey && k != UserKey ==> r[k] == entries[k]
  {
    UserCodec.DeserializeSerialize(u);
    entries[TokenKey := t][UserKey := UserCodec.Serialize(u)]
  }

  /** The store after `logout()`. */
  function LogoutEntries(entries: map<string, string>): (r: map<string, string>)
    ensures TokenKey !in r && UserKey !in r
    ensures forall k :: k != TokenKey && k != UserKey ==> (k in r <==> k in entries)
    ensures forall k :: k in r ==> r[k] == entries[k]
  {
    entries - {TokenKey, UserKey}
  }

  /** The session's two entries are present together or absent together. */
  predicate BothOrNeither(entries: map<string, string>) {
    TokenKey in entries <==> UserKey in entries
  }

  /** Login writes both entries, leaves every other entry alone, and a reload
      reads back exactly the session that was written (for a non-empty token). */
  lemma LoginThenReload(entries: map<string, string>, t: string, u: User)
    ensures BothOrNeither(LoginEntries(entries, t, u))
    ensures GetItem(LoginEntries(entries, t, u), TokenKey) == Some(t)
    ensures forall k :: k != TokenKey && k != UserKey ==> GetItem(LoginEntries(entries, t, u), k) == GetItem(entries, k)
    ensures t != "" ==> ReadStoredSession(LoginEntries(entries, t, u)) == Restored(t, u)
    ensures t == "" ==> ReadStoredSession(LoginEntries(entries, t, u)) == NoSession
  {
    var e := LoginEntries(entries, t, u);
    assert e[UserKey] == UserCodec.Serialize(u);
    assert e[TokenKey] == t;
    UserCodec.DeserializeSerialize(u);
  }

  /** Logout removes both entries, so a reload finds no session; every other
      entry is kept, and a second logout changes nothing. */
  lemma LogoutThenReload(entries: map<string, string>)
    ensures BothOrNeither(LogoutEntries(entries))
    ensures GetItem(LogoutEntries(entries), TokenKey).None? && GetItem(LogoutEntries(entries), UserKey).None?
    ensures forall k :: k != TokenKey && k != UserKey ==> GetItem(LogoutEntries(entries), k) == GetItem(entries, k)
    ensures ReadStoredSession(LogoutEntries(entries)) == NoSession
    ensures LogoutEntries(LogoutEntries(entries)) == LogoutEntries(entries)
  {
  }

  // ---------- what consumers see ----------

  /** The value the provider hands to its consumers (`AuthContextType`). */
  datatype AuthView = AuthView(user: Option<User>, token: Option<string>, isAuthenticated: bool, loading: bool)

  /** `useAuth()`: the provider's value, or the wiring error raised when the
      caller sits outside an `AuthProvider`. */
  datatype UseAuthResult = Provided(view: AuthView) | OutsideProvider(message: string)

  const OutsideProviderMessage: string := "useAuth debe ser usado dentro de un AuthProvider"

  function UseAuth(context: Option<AuthView>): (r: UseAuthResult)
    ensures r.OutsideProvider? <==> context.None?
    ensures r.OutsideProvider? ==> r.message == OutsideProviderMessage
    ensures r.Provided? ==> r.view == context.value
  {
    match context
    case None => OutsideProvider(OutsideProviderMessage)
    case Some(v) => Provided(v)
  }

  // ---------- the provider ----------

  /** The session state held by `AuthProvider`, over the store it shares with
      the HTTP client. */
  class AuthProvider {
    const storage: LocalStorage
    var token: Option<string>
    var user: Option<User>
    var loading: bool

    /** Token and user are set and cleared together. */
    predicate Paired()
      reads this
    {
      token.Some? <==> user.Some?
    }

    /** `isAuthenticated = !!token`, recomputed from the token on every read. */
    function IsAuthenticated(): bool
      reads this
    {
      Truthy(token)
    }

    function View(): (v: AuthView)
      reads this
      ensures v.isAuthenticated <==> token.Some? && token.value != ""
      ensures v.token == token && v.user == user && v.loading == loading
    {
      AuthView(user, token, IsAuthenticated(), loading)
    }

    /** A freshly mounted provider: nothing in memory, still loading. */
    constructor (storage: LocalStorage)
      ensures this.storage == storage
      ensures token.None? && user.None? && loading
      ensures Paired() && !IsAuthenticated()
    {
      this.storage := storage;
      token, user, loading := None, None, true;
    }

    /** The mount effect: reads both entries once; restores the session only
        when both are present and non-empty, then ends loading. A user entry
        that does not parse makes the effect throw: nothing is updated and
        loading never ends. */
    method Hydrate() returns (found: StoredSession)
      modifies this`token, this`user, this`loading
      ensures found == ReadStoredSession(storage.entries)
      ensures found.Restored? ==> token == Some(found.token) && user == Some(found.user) && !loading && IsAuthenticated()
      ensures found.NoSession? ==> token == old(token) && user == old(user) && !loading
      ensures found.Corrupt? ==> token == old(token) && user == old(user) && loading == old(loading)
      ensures old(Paired()) ==> Paired()
    {
      var storedToken := GetItem(storage.entries, TokenKey);
      var storedUser := GetItem(storage.entries, UserKey);
      if Truthy(storedToken) && Truthy(storedUser) {
        var parsed := UserCodec.Deserialize(storedUser.value);
        if parsed.None? {
          found := Corrupt;
          return;
        }
        token := storedToken;
        user := parsed;
        found := Restored(storedToken.value, parsed.value);
      } else {
        found := NoSession;
      }
      loading := false;
    }

    /** `login(newToken, userData)`: writes both entries, sets both fields and
        asks for the landing page. */
    method Login(newToken: string, userData: User) returns (nav: Nav)
      modifies this`token, this`user, storage
      ensures storage.entries == LoginEntries(old(storage.entries), newToken, userData)
      ensures token == Some(newToken) && user == Some(userData) && Paired()
      ensures IsAuthenticated() <==> newToken != ""
      ensures nav == NavRoot && nav.Path() == "/"
    {
      storage.SetItem(TokenKey, newToken);
      storage.SetItem(UserKey, UserCodec.Serialize(userData));
      token := Some(newToken);
      user := Some(userData);
      nav := NavRoot;
    }

    /** `logout()`: removes both entries, clears both fields and asks for the
        login page. */
    method Logout() returns (nav: Nav)
      modifies this`token, this`user, storage
      ensures storage.entries == LogoutEntries(old(storage.entries))
      ensures token.None? && user.None? && Paired() && !IsAuthenticated()
      ensures nav == NavLogin && nav.Path() == "/login"
    {
      storage.RemoveItem(TokenKey);
      storage.RemoveItem(UserKey);
      token := None;
      user := None;
      nav := NavLogin;
    }
  }

  /** A reload after a login: a new provider over the same store restores the
      session that was logged in. */
  method ReloadAfterLogin(storage: LocalStorage, t: string, u: User) returns (reloaded: AuthProvider)
    requires t != ""
    modifies storage
    ensures reloaded.storage == storage
    ensures reloaded.token == Some(t) && reloaded.user == Some(u) && !reloaded.loading
  {
    var session := new AuthProvider(storage);
    var _ := session.Login(t, u);
    LoginThenReload(old(storage.entries), t, u);
    reloaded := new AuthProvider(storage);
    var found := reloaded.Hydrate();
  }

  /** Logging out twice leaves the same store and fields as logging out once,
      and a reload afterwards finds no session. */
  method LogoutTwiceThenReload(session: AuthProvider) returns (reloaded: AuthProvider)
    modifies session, session.storage
    ensures session.storage.entries == LogoutEntries(old(session.storage.entries))
    ensures session.token.None? && session.user.None?
    ensures reloaded.token.None? && reloaded.user.None? && !reloaded.loading
  {
    var _ := session.Logout();
    var once := session.storage.entries;
    var _ := session.Logout();
    LogoutThenReload(old(session.storage.entries));
    assert session.storage.entries == once;
    reloaded := new AuthProvider(session.storage);
    var found := reloaded.Hydrate();
  }
}
