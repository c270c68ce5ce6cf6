/** The session state machine of the authentication provider: the decoded user,
    the `isAuthenticated` and `isLoading` flags, the persisted `jwtToken` slot and
    the default `Authorization` header of the HTTP client, changed by three
    transitions (bootstrap from storage, login, logout).

    JWT parsing is a parameter `decode` (None when the token cannot be parsed),
    the clock is a parameter `now` in milliseconds, and the sign-in request is
    represented by its reply. */
module AuthContext {
  import opened Util

  /** The decoded JWT payload. `exp` is in seconds; it is optional because the
      parser does not check that the claim is there. The same holds for
      `roles`, but the model takes every payload to carry a role list: a
      payload without one makes every `roles.includes` test throw. */
  datatype Token = Token(
    id: int,
    username: string,
    email: string,
    nomComplet: string,
    roles: seq<string>,
    exp: Option<int>,
    iat: int)

  const ROLE_ADMIN := "ROLE_ADMIN"
  const ROLE_MEDECIN := "ROLE_MEDECIN"

  /** `user?.roles.includes(role)`: false when there is no user. */
  predicate HasRole(user: Option<Token>, role: string)
  {
    user.Some? && role in user.value.roles
  }

  /** The value of the `Authorization` header that carries a token. */
  function BearerHeader(token: string): (h: string)
    ensures |h| == |token| + 7 && h[..7] == "Bearer " && h[7..] == token
  {
    "Bearer " + token
  }

  /** `exp * 1000 < now`: strict, so a token is still accepted at the exact
      expiry instant, and a token without `exp` is never expired (the source's
      comparison with NaN is false). */
  function Expired(t: Token, now: int): (r: bool)
    ensures t.exp.None? ==> !r
    ensures t.exp.Some? && now == t.exp.value * 1000 ==> !r
    ensures t.exp.Some? && now % 1000 == 0 ==> (r <==> t.exp.value < now / 1000)
  {
    t.exp.Some? && t.exp.value * 1000 < now
  }

  /** `if (token)`: a stored string counts only when it is present and non-empty. */
  function Present(stored: Option<string>): (r: bool)
    ensures r <==> stored.Some? && |stored.value| > 0
  {
    stored.Some? && stored.value != ""
  }

  /** What a component obtains from the context. */
  datatype ContextValue = ContextValue(user: Option<Token>, isAuthenticated: bool, isLoading: bool)

  /** Everything the provider changes: its three state slices, the persisted
      token slot and the HTTP client's default `Authorization` header. */
  datatype SessionState = SessionState(
    user: Option<Token>,
    isAuthenticated: bool,
    isLoading: bool,
    storedToken: Option<string>,
    authHeader: Option<string>)

  /** The failure a login re-throws to its caller. */
  datatype LoginError = SignInRejected(serverMessage: Option<string>) | UndecodableToken

  /** How the promise returned by `login` settles. */
  datatype LoginOutcome = Resolved(success: bool) | Rejected(error: LoginError)

  /** The session invariant: authentication implies a user, and that user is the
      decoding of the stored token, which is also the token in the default header. */
  predicate Consistent(s: SessionState, decode: string -> Option<Token>)
  {
    s.isAuthenticated ==>
      && s.user.Some?
      && s.storedToken.Some?
      && decode(s.storedToken.value) == s.user
      && s.authHeader == Some(BearerHeader(s.storedToken.value))
  }

  /** The state right after mounting: no user, not authenticated, loading. */
  predicate Mounted(s: SessionState)
  {
    s.user.None? && !s.isAuthenticated && s.isLoading
  }

  /** `logout`: clear the stored token, the user, the flag and the default header. */
  function LoggedOut(s: SessionState): (r: SessionState)
    ensures !r.isAuthenticated && r.user.None?
    ensures r.storedToken.None? && r.authHeader.None?
    ensures r.isLoading == s.isLoading
  {
    SessionState(None, false, s.isLoading, None, None)
  }

  /** `loadUserFromLocalStorage`, run once on mount. */
  function Bootstrapped(s: SessionState, decode: string -> Option<Token>, now: int): (r: SessionState)
    requires Mounted(s)
    ensures !r.isLoading
    ensures Consistent(r, decode)
    ensures r.isAuthenticated <==>
      Present(s.storedToken) && decode(s.storedToken.value).Some? && !Expired(decode(s.storedToken.value).value, now)
    ensures r.isAuthenticated ==> r.storedToken == s.storedToken && !Expired(r.user.value, now)
    ensures !r.isAuthenticated ==> r.user.None?
    ensures !r.isAuthenticated && Present(s.storedToken) ==> r.storedToken.None? && r.authHeader.None?
    ensures !Present(s.storedToken) ==> r.storedToken == s.storedToken && r.authHeader == s.authHeader
  {
    if Present(s.storedToken) then
      var token := s.storedToken.value;
      match decode(token)
      case None => LoggedOut(s).(isLoading := false)
      case Some(t) =>
        if Expired(t, now) then LoggedOut(s).(isLoading := false)
        else s.(user := Some(t), isAuthenticated := true, authHeader := Some(BearerHeader(token)), isLoading := false)
    else
      s.(isLoading := false)
  }

  /** `login`, given how the sign-in request settled: the new state and how the
      returned promise settles. */
  function LoginStep(s: SessionState, decode: string -> Option<Token>, reply: Reply<string>): (r: (SessionState, LoginOutcome))
    ensures !r.0.isLoading
    ensures Consistent(r.0, decode)
    ensures r.0.isAuthenticated <==> r.1 == Resolved(true)
    ensures r.1.Resolved? ==> r.1.success
    ensures r.0.isAuthenticated <==> reply.Ok? && decode(reply.value).Some?
    ensures r.0.isAuthenticated ==>
      r.0.storedToken == Some(reply.value) && r.0.user == decode(reply.value) &&
      r.0.authHeader == Some(BearerHeader(reply.value))
    ensures !r.0.isAuthenticated ==>
      r.0.user.None? && r.0.storedToken.None? && r.0.authHeader == s.authHeader
    ensures reply.Failed? ==> r.1 == Rejected(SignInRejected(reply.serverMessage))
  {
    match reply
    case Failed(message) =>
      (s.(user := None, isAuthenticated := false, storedToken := None, isLoading := false),
       Rejected(SignInRejected(message)))
    case Ok(token) =>
      match decode(token)
      case None =>
        (s.(user := None, isAuthenticated := false, storedToken := None, isLoading := false),
         Rejected(UndecodableToken))
      case Some(t) =>
        (s.(user := Some(t), isAuthenticated := true, storedToken := Some(token),
            authHeader := Some(BearerHeader(token)), isLoading := false),
         Resolved(true))
  }

  /** The browser's origin-scoped storage, reduced to the one slot the application uses. */
  class LocalStorage {
    var jwtToken: Option<string>

    constructor (initial: Option<string>)
      ensures jwtToken == initial
    {
      jwtToken := initial;
    }
  }

  /** The HTTP client's process-wide default headers, reduced to `Authorization`. */
  class HttpDefaults {
    var authorization: Option<string>

    constructor ()
      ensures authorization.None?
    {
      authorization := None;
    }
  }

  /** The provider: three state slices of its own, plus the storage slot and the
      default header it writes. */
  class AuthProvider {
    const storage: LocalStorage
    const defaults: HttpDefaults
    const decode: string -> Option<Token>
    var user: Option<Token>
    var isAuthenticated: bool
    var isLoading: bool

    function State(): (s: SessionState)
      reads this, storage, defaults
    {
      SessionState(user, isAuthenticated, isLoading, storage.jwtToken, defaults.authorization)
    }

    function Value(): (v: ContextValue)
      reads this
      ensures v.user == user && v.isAuthenticated == isAuthenticated && v.isLoading == isLoading
    {
      ContextValue(user, isAuthenticated, isLoading)
    }

    ghost predicate Valid()
      reads this, storage, defaults
    {
      Consistent(State(), decode)
    }

    constructor (storage: LocalStorage, defaults: HttpDefaults, decode: string -> Option<Token>)
      ensures this.storage == storage && this.defaults == defaults && this.decode == decode
      ensures Mounted(State()) && Valid()
      ensures storage.jwtToken == old(storage.jwtToken) && defaults.authorization == old(defaults.authorization)
    {
      this.storage := storage;
      this.defaults := defaults;
      this.decode := decode;
      user := None;
      isAuthenticated := false;
      isLoading := true;
    }

    method Logout()
      modifies this, storage, defaults
      ensures State() == LoggedOut(old(State()))
      ensures Valid()
    {
      storage.jwtToken := None;
      user := None;
      isAuthenticated := false;
      defaults.authorization := None;
    }

    method Bootstrap(now: int)
      requires Mounted(State())
      modifies this, storage, defaults
      ensures State() == Bootstrapped(old(State()), decode, now)
      ensures Valid()
    {
      var token := storage.jwtToken;
      if Present(token) {
        var decoded := decode(token.value);
        if decoded.None? {
          Logout();
        } else if Expired(decoded.value, now) {
          Logout();
        } else {
          user := decoded;
          isAuthenticated := true;
          defaults.authorization := Some(BearerHeader(token.value));
        }
      }
      isLoading := false;
    }

    method Login(reply: Reply<string>) returns (outcome: LoginOutcome)
      modifies this, storage, defaults
      ensures (State(), outcome) == LoginStep(old(State()), decode, reply)
      ensures Valid()
    {
      isLoading := true;
      match reply {
        case Failed(message) =>
          isAuthenticated := false;
          user := None;
          storage.jwtToken := None;
          outcome := Rejected(SignInRejected(message));
        case Ok(token) =>
          storage.jwtToken := Some(token);
          var decoded := decode(token);
          if decoded.None? {
            isAuthenticated := false;
            user := None;
            storage.jwtToken := None;
            outcome := Rejected(UndecodableToken);
          } else {
            user := decoded;
            isAuthenticated := true;
            defaults.authorization := Some(BearerHeader(token));
            outcome := Resolved(true);
          }
      }
      isLoading := false;
    }
  }

  // ---------------------------------------------------------------------------
  // Properties of the transitions

  lemma BootstrapWithoutToken(s: SessionState, decode: string -> Option<Token>, now: int)
    requires Mounted(s) && !Present(s.storedToken)
    ensures var r := Bootstrapped(s, decode, now);
      r.user.None? && !r.isAuthenticated && !r.isLoading && r.storedToken == s.storedToken
  {
  }

  lemma BootstrapExpiredLogsOut(s: SessionState, decode: string -> Option<Token>, now: int)
    requires Mounted(s) && Present(s.storedToken)
    requires decode(s.storedToken.value).Some? && Expired(decode(s.storedToken.value).value, now)
    ensures Bootstrapped(s, decode, now) == LoggedOut(s).(isLoading := false)
  {
  }

  lemma BootstrapAcceptsExpiryInstant(s: SessionState, decode: string -> Option<Token>, now: int)
    requires Mounted(s) && Present(s.storedToken)
    requires decode(s.storedToken.value).Some?
    requires decode(s.storedToken.value).value.exp == Some(now / 1000) && now % 1000 == 0
    ensures Bootstrapped(s, decode, now).isAuthenticated
  {
  }

  lemma BootstrapUndecodableLogsOut(s: SessionState, decode: string -> Option<Token>, now: int)
    requires Mounted(s) && Present(s.storedToken) && decode(s.storedToken.value).None?
    ensures Bootstrapped(s, decode, now) == LoggedOut(s).(isLoading := false)
  {
  }

  lemma BootstrapValidToken(s: SessionState, decode: string -> Option<Token>, now: int)
    requires Mounted(s) && Present(s.storedToken)
    requires decode(s.storedToken.value).Some? && !Expired(decode(s.storedToken.value).value, now)
    ensures var r := Bootstrapped(s, decode, now);
      r.isAuthenticated && r.user == decode(s.storedToken.value) &&
      r.authHeader == Some("Bearer " + s.storedToken.value) && !r.isLoading
  {
  }

  lemma LoginFailureClearsSession(s: SessionState, decode: string -> Option<Token>, reply: Reply<string>)
    requires reply.Failed? || decode(reply.value).None?
    ensures var r := LoginStep(s, decode, reply);
      r.0.user.None? && !r.0.isAuthenticated && r.0.storedToken.None? && !r.0.isLoading && r.1.Rejected?
  {
  }

  lemma LogoutIdempotent(s: SessionState)
    ensures LoggedOut(LoggedOut(s)) == LoggedOut(s)
  {
  }
}
