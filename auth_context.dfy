/**
 * The session store behind `AuthProvider`: the in-memory `user` and `loading`
 * cells plus the two `localStorage` keys that survive a page reload.
 *
 * The transitions are first given as functions on an abstract `ProviderState`
 * (the spec), and then as methods of the `AuthProvider` class that perform
 * the same `setItem` / `removeItem` calls as the source, each proved to
 * produce exactly the spec's next state. `JSON.parse` and `JSON.stringify`
 * are abstract functions fixed when the provider is created.
 */
module AuthContext {
  import opened Wrappers
  import opened BrowserStorage
  import opened Api

  /** The storage key holding the serialised session. */
  const UserKey: string := "user"

  /** What `JSON.parse` makes of a string: it throws, or yields a value (`None` is JSON `null`). */
  datatype Parsed = Malformed | Value(user: Option<AuthResponse>)

  /** The provider's observable state: the two state cells and the storage contents. */
  datatype ProviderState = ProviderState(user: Option<AuthResponse>, loading: bool, items: map<string, string>)

  /** JavaScript truthiness of a `getItem` result: present and not the empty string. */
  predicate Truthy(v: Option<string>)
    ensures Truthy(v) <==> v != None && v != Some("")
  {
    v.Some? && v.value != ""
  }

  /** `!!user`: derived from `user`, never stored on its own. */
  predicate Authenticated(s: ProviderState)
    ensures Authenticated(s) <==> s.user != None
  {
    s.user.Some?
  }

  /** The state right after the first render: nobody logged in, still loading. */
  function Initial(items: map<string, string>): (r: ProviderState)
    ensures !Authenticated(r) && r.loading && r.items == items
  {
    ProviderState(None, true, items)
  }

  /** The three outcomes of the mount effect. */
  datatype MountStep = Skip | Adopt(restored: Option<AuthResponse>) | Purge

  /** Which way the mount effect goes for the stored items. */
  function MountDecision(items: map<string, string>, parse: string -> Parsed): (step: MountStep)
    ensures step.Skip? <==> !(Truthy(Lookup(items, TokenKey)) && Truthy(Lookup(items, UserKey)))
    ensures step.Purge? <==> !step.Skip? && parse(items[UserKey]).Malformed?
    ensures step.Adopt? ==> Value(step.restored) == parse(items[UserKey])
  {
    if Truthy(Lookup(items, TokenKey)) && Truthy(Lookup(items, UserKey)) then
      match parse(items[UserKey])
      case Malformed => Purge
      case Value(u) => Adopt(u)
    else
      Skip
  }

  /** The mount effect: restore, purge or leave alone, and in every case stop loading. */
  function MountEffect(s: ProviderState, parse: string -> Parsed): (r: ProviderState)
    ensures !r.loading
  {
    match MountDecision(s.items, parse)
    case Skip => s.(loading := false)
    case Adopt(u) => s.(user := u, loading := false)
    case Purge => s.(loading := false, items := s.items - {TokenKey, UserKey})
  }

  /** `login(a)`: the new session fully replaces the old one and both keys are rewritten. */
  function LoginStep(s: ProviderState, a: AuthResponse, serialize: AuthResponse -> string): (r: ProviderState)
    ensures Authenticated(r) && r.user == Some(a) && r.loading == s.loading
    ensures r.items.Keys == s.items.Keys + {TokenKey, UserKey}
    ensures r.items[TokenKey] == a.jwtToken && r.items[UserKey] == serialize(a)
    ensures forall k :: k in s.items && k != TokenKey && k != UserKey ==> r.items[k] == s.items[k]
  {
    s.(user := Some(a), items := s.items[TokenKey := a.jwtToken][UserKey := serialize(a)])
  }

  /** `logout()`: forget the user and remove both keys; everything else stays. */
  function LogoutStep(s: ProviderState): (r: ProviderState)
    ensures !Authenticated(r) && r.loading == s.loading
    ensures r.items.Keys == s.items.Keys - {TokenKey, UserKey}
    ensures forall k :: k in r.items ==> r.items[k] == s.items[k]
  {
    s.(user := None, items := s.items - {TokenKey, UserKey})
  }

  // ---------------------------------------------------------------------
  // Properties of the transitions

  /** Both keys present and non-empty, and the user value parses: adopt it and leave storage alone. */
  lemma MountRestores(s: ProviderState, parse: string -> Parsed, u: Option<AuthResponse>)
    requires Truthy(Lookup(s.items, TokenKey)) && Truthy(Lookup(s.items, UserKey))
    requires parse(s.items[UserKey]) == Value(u)
    ensures MountEffect(s, parse) == ProviderState(u, false, s.items)
  {
  }

  /** Both keys present but the user value does not parse: purge both keys, keep the user cell. */
  lemma MountPurgesCorrupt(s: ProviderState, parse: string -> Parsed)
    requires Truthy(Lookup(s.items, TokenKey)) && Truthy(Lookup(s.items, UserKey))
    requires parse(s.items[UserKey]).Malformed?
    ensures var r := MountEffect(s, parse);
      r.user == s.user && TokenKey !in r.items && UserKey !in r.items && r.items == s.items - {TokenKey, UserKey}
  {
  }

  /** A key missing or empty: nothing is parsed or removed, so a lone surviving key stays in place. */
  lemma MountSkipsIncomplete(s: ProviderState, parse: string -> Parsed)
    requires !Truthy(Lookup(s.items, TokenKey)) || !Truthy(Lookup(s.items, UserKey))
    ensures MountEffect(s, parse) == s.(loading := false)
  {
  }

  /**
   * The effect may run twice (React's strict mode does so on mount); the
   * second run changes nothing.
   */
  lemma MountIdempotent(s: ProviderState, parse: string -> Parsed)
    ensures MountEffect(MountEffect(s, parse), parse) == MountEffect(s, parse)
  {
  }

  /** On a fresh start the user is restored only from a parsed, non-null value. */
  lemma MountFromInitial(items: map<string, string>, parse: string -> Parsed)
    ensures var r := MountEffect(Initial(items), parse);
      !r.loading && (Authenticated(r) <==> MountDecision(items, parse).Adopt? && MountDecision(items, parse).restored.Some?)
  {
  }

  /** Calling `logout()` twice ends in the same state as calling it once. */
  lemma LogoutIdempotent(s: ProviderState)
    ensures LogoutStep(LogoutStep(s)) == LogoutStep(s)
  {
  }

  /** Logging out after logging in leaves storage as logging out alone would. */
  lemma LogoutUndoesLogin(s: ProviderState, a: AuthResponse, serialize: AuthResponse -> string)
    ensures LogoutStep(LoginStep(s, a, serialize)) == LogoutStep(s)
  {
  }

  /**
   * Restart round trip: after `login(a)`, a reload (fresh state over the same
   * storage) followed by the mount effect gives back `a` and keeps storage,
   * provided the token is non-empty and `JSON.parse` inverts `JSON.stringify`
   * on `a` (and, like `JSON.parse('')`, rejects the empty string).
   */
  lemma RestartRoundTrip(s: ProviderState, a: AuthResponse, parse: string -> Parsed, serialize: AuthResponse -> string)
    requires parse(serialize(a)) == Value(Some(a)) && parse("").Malformed?
    requires a.jwtToken != ""
    ensures var stored := LoginStep(s, a, serialize).items;
      MountEffect(Initial(stored), parse) == ProviderState(Some(a), false, stored)
  {
  }

  /** An empty token counts as absent on reload: nobody is restored and the user key is left behind. */
  lemma RestartWithEmptyToken(s: ProviderState, a: AuthResponse, parse: string -> Parsed, serialize: AuthResponse -> string)
    requires a.jwtToken == ""
    ensures var stored := LoginStep(s, a, serialize).items;
      MountEffect(Initial(stored), parse) == ProviderState(None, false, stored) && UserKey in stored
  {
  }

  /** A tampered user value is purged on reload only while the token key is also truthy. */
  lemma TamperedUserAfterReload(items: map<string, string>, v: string, parse: string -> Parsed)
    requires parse(v).Malformed? && v != ""
    ensures var r := MountEffect(Initial(items[UserKey := v]), parse);
      !Authenticated(r) && !r.loading &&
      (Truthy(Lookup(items, TokenKey)) ==> TokenKey !in r.items && UserKey !in r.items) &&
      (!Truthy(Lookup(items, TokenKey)) ==> r.items == items[UserKey := v])
  {
  }

  /**
   * The backend scenario: a successful login response stored by `login`
   * leaves the user authenticated with the token in storage.
   */
  lemma LoginScenario(s: ProviderState, serialize: AuthResponse -> string)
    ensures var a := AuthResponse("u1", "john@example.com", None, "abc.def.ghi", "Doe", "John");
      var r := LoginStep(s, a, serialize);
      Interpret(LoginOp, Ok(Parsed(a))) == Resolved(a) && Authenticated(r) && r.items[TokenKey] == "abc.def.ghi"
  {
  }

  /** A stored token reaches the API client: after `login(a)` with a token, `getHeaders(true)` carries it. */
  lemma LoginFeedsBearerHeader(s: ProviderState, a: AuthResponse, serialize: AuthResponse -> string)
    requires a.jwtToken != ""
    ensures var h := Headers(true, LoginStep(s, a, serialize).items);
      AuthorizationHeader in h && h[AuthorizationHeader] == BearerPrefix + a.jwtToken
  {
  }

  /** After `logout()`, `getHeaders(true)` carries no bearer token. */
  lemma LogoutDropsBearerHeader(s: ProviderState)
    ensures Headers(true, LogoutStep(s).items) == map[ContentTypeHeader := JsonMediaType]
  {
  }

  // ---------------------------------------------------------------------
  // The provider itself

  class AuthProvider {
    var user: Option<AuthResponse>
    var loading: bool
    /** The page's `localStorage`, shared with the API client. */
    const storage: Storage
    /** `JSON.parse`, read as a session. */
    const parse: string -> Parsed
    /** `JSON.stringify` on a session. */
    const serialize: AuthResponse -> string

    function State(): ProviderState
      reads this, storage
    {
      ProviderState(user, loading, storage.items)
    }

    /** `isAuthenticated: !!user`. */
    predicate IsAuthenticated()
      reads this, storage
      ensures IsAuthenticated() == Authenticated(State())
    {
      user.Some?
    }

    /** First render: `useState(null)` and `useState(true)`; storage is not touched. */
    constructor (storage: Storage, parse: string -> Parsed, serialize: AuthResponse -> string)
      ensures this.storage == storage && this.parse == parse && this.serialize == serialize
      ensures State() == Initial(storage.items)
    {
      this.storage := storage;
      this.parse := parse;
      this.serialize := serialize;
      user := None;
      loading := true;
    }

    /** The mount effect. */
    method Mount()
      modifies this, storage
      ensures State() == MountEffect(old(State()), parse)
      ensures IsAuthenticated() == Authenticated(State())
    {
      var storedToken := storage.GetItem(TokenKey);
      var storedUser := storage.GetItem(UserKey);
      if Truthy(storedToken) && Truthy(storedUser) {
        var parsed := parse(storedUser.value);
        match parsed
        case Value(u) =>
          user := u;
        case Malformed =>
          storage.RemoveItem(TokenKey);
          storage.RemoveItem(UserKey);
      }
      loading := false;
    }

    method Login(authData: AuthResponse)
      modifies this, storage
      ensures State() == LoginStep(old(State()), authData, serialize)
      ensures IsAuthenticated()
    {
      user := Some(authData);
      storage.SetItem(TokenKey, authData.jwtToken);
      storage.SetItem(UserKey, serialize(authData));
    }

    method Logout()
      modifies this, storage
      ensures State() == LogoutStep(old(State()))
      ensures !IsAuthenticated()
    {
      user := None;
      storage.RemoveItem(TokenKey);
      storage.RemoveItem(UserKey);
    }
  }

  /**
   * A page reload after a login: a second provider over the same storage
   * restores the session the first one stored.
   */
  method ReloadAfterLogin(storage: Storage, a: AuthResponse, parse: string -> Parsed, serialize: AuthResponse -> string)
    returns (first: AuthProvider, second: AuthProvider)
    requires parse(serialize(a)) == Value(Some(a)) && parse("").Malformed?
    requires a.jwtToken != ""
    modifies storage
    ensures first.storage == storage && second.storage == storage
    ensures second.State() == ProviderState(Some(a), false, storage.items) && second.IsAuthenticated()
    ensures storage.items == LoginStep(MountEffect(Initial(old(storage.items)), parse), a, serialize).items
  {
    first := new AuthProvider(storage, parse, serialize);
    first.Mount();
    first.Login(a);
    second := new AuthProvider(storage, parse, serialize);
    RestartRoundTrip(first.State(), a, parse, serialize);
    second.Mount();
  }
}
