/** Browser storage and the session store: whether someone is logged in and
    with which role, hydrated from the stored `session` record. */
module AuthProvider {
  import opened Outcomes
  import opened Types

  /** The stored session descriptor; any field may be missing. */
  datatype SessionRecord = SessionRecord(token: Option<string>, role: Option<Role>, email: Option<string>)

  /** A stored value: a JSON object, or text that is not valid JSON (the theme
      preference "dark" or "light" is such text, and so is the empty text). */
  datatype Stored = Record(session: SessionRecord) | Unparsable(text: string)

  const SessionKey: string := "session"
  const ThemeKey: string := "theme"

  /** `JSON.parse(localStorage.getItem("session") || "{}")`: a missing key and
      the empty text both fall back to `"{}"` and read as the empty object; any
      other text that is not JSON makes the parse throw. */
  datatype Parsed = Parsed(record: SessionRecord) | ParseError

  function ReadSession(entries: map<string, Stored>): (p: Parsed)
    ensures SessionKey !in entries || entries[SessionKey] == Unparsable("") ==>
      p == Parsed(SessionRecord(None, None, None))
    ensures SessionKey in entries && entries[SessionKey].Record? ==> p == Parsed(entries[SessionKey].session)
    ensures p.ParseError? <==>
      SessionKey in entries && entries[SessionKey].Unparsable? && entries[SessionKey].text != ""
  {
    if SessionKey !in entries then Parsed(SessionRecord(None, None, None))
    else match entries[SessionKey]
      case Record(r) => Parsed(r)
      case Unparsable(t) => if t == "" then Parsed(SessionRecord(None, None, None)) else ParseError
  }

  /** `session?.token && session?.role`: a non-empty token and a role. */
  predicate HasCredentials(r: SessionRecord) {
    r.token.Some? && r.token.value != "" && r.role.Some?
  }

  /** A key-value store that survives reloads. */
  class BrowserStorage {
    var entries: map<string, Stored>

    constructor (initial: map<string, Stored>)
      ensures entries == initial
    {
      entries := initial;
    }

    method SetItem(key: string, value: Stored)
      modifies this
      ensures entries == old(entries)[key := value]
    {
      entries := entries[key := value];
    }

    method RemoveItem(key: string)
      modifies this
      ensures entries == old(entries) - {key}
    {
      entries := entries - {key};
    }
  }

  datatype AuthState = AuthState(isAuthenticated: bool, role: Option<Role>)

  /** `useState(false)`, `useState(null)`. */
  function Initial(): AuthState {
    AuthState(false, None)
  }

  /** The mount effect: the stored record sets the state only when it carries
      credentials; a parse error leaves the state as it is. */
  function Hydrated(s: AuthState, entries: map<string, Stored>): AuthState {
    match ReadSession(entries)
    case Parsed(r) => if HasCredentials(r) then AuthState(true, r.role) else s
    case ParseError => s
  }

  function LoggedIn(auth: bool, role: Option<Role>): AuthState {
    AuthState(auth, role)
  }

  /** Storage after `localStorage.removeItem("session")`. */
  function WithoutSession(entries: map<string, Stored>): map<string, Stored> {
    entries - {SessionKey}
  }

  /** Hydrating a fresh store authenticates exactly when the stored record
      has credentials, and then with the stored role. */
  lemma HydratedFromInitial(entries: map<string, Stored>)
    ensures Hydrated(Initial(), entries).isAuthenticated <==>
      ReadSession(entries).Parsed? && HasCredentials(ReadSession(entries).record)
    ensures Hydrated(Initial(), entries).isAuthenticated ==>
      Hydrated(Initial(), entries).role == ReadSession(entries).record.role
    ensures !Hydrated(Initial(), entries).isAuthenticated ==> Hydrated(Initial(), entries) == Initial()
  {
  }

  /** Logout removes the session key and no other: the theme survives, and a
      second logout changes nothing. */
  lemma LogoutStorage(entries: map<string, Stored>)
    ensures SessionKey !in WithoutSession(entries)
    ensures forall k :: k in entries && k != SessionKey ==> k in WithoutSession(entries) && WithoutSession(entries)[k] == entries[k]
    ensures ThemeKey in entries ==> WithoutSession(entries)[ThemeKey] == entries[ThemeKey]
    ensures WithoutSession(WithoutSession(entries)) == WithoutSession(entries)
  {
  }

  /** After a logout, a reload hydrates to the logged-out state. */
  lemma HydratedAfterLogout(entries: map<string, Stored>)
    ensures Hydrated(Initial(), WithoutSession(entries)) == Initial()
  {
  }

  /** A role is only held together with authentication by every state the
      store can reach through its own operations with `login(true, _)`. */
  ghost predicate Consistent(s: AuthState) {
    s.role.Some? ==> s.isAuthenticated
  }

  lemma ReachableStatesConsistent(s: AuthState, entries: map<string, Stored>, role: Option<Role>)
    requires Consistent(s)
    ensures Consistent(Initial())
    ensures Consistent(Hydrated(s, entries))
    ensures Consistent(LoggedIn(true, role))
  {
  }

  /** The session store. */
  class AuthStore {
    var isAuthenticated: bool
    var role: Option<Role>

    function State(): AuthState
      reads this
    {
      AuthState(isAuthenticated, role)
    }

    constructor ()
      ensures State() == Initial()
    {
      isAuthenticated, role := false, None;
    }

    /** The mount effect. It only reads storage. `threw` reports the parse
        error that the effect does not catch. */
    method Hydrate(storage: BrowserStorage) returns (threw: bool)
      modifies this
      ensures State() == Hydrated(old(State()), storage.entries)
      ensures threw <==> ReadSession(storage.entries).ParseError?
    {
      var parsed := ReadSession(storage.entries);
      threw := parsed.ParseError?;
      if parsed.Parsed? && HasCredentials(parsed.record) {
        isAuthenticated := true;
        role := parsed.record.role;
      }
    }

    /** `login(auth, userRole)`: in memory only. The role is whatever the
        caller passes, which from a server record may be missing. */
    method Login(auth: bool, userRole: Option<Role>)
      modifies this
      ensures State() == LoggedIn(auth, userRole)
    {
      isAuthenticated := auth;
      role := userRole;
    }

    method Logout(storage: BrowserStorage)
      modifies this, storage
      ensures storage.entries == WithoutSession(old(storage.entries))
      ensures State() == Initial()
    {
      storage.RemoveItem(SessionKey);
      isAuthenticated := false;
      role := None;
    }
  }

  /** Login followed by logout leaves the same in-memory state as a fresh
      store, and logout twice is logout once. */
  method LoginThenLogout(auth: bool, role: Option<Role>, storage: BrowserStorage) returns (store: AuthStore)
    modifies storage
    ensures fresh(store) && store.State() == Initial()
    ensures storage.entries == WithoutSession(old(storage.entries))
  {
    store := new AuthStore();
    store.Login(auth, role);
    store.Logout(storage);
    store.Logout(storage);
    LogoutStorage(old(storage.entries));
  }
}
