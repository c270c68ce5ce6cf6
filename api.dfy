/** The shared HTTP client's interceptors. Outgoing requests get a bearer
    `Authorization` header when a token is available; a 401 on any request
    other than sign-in logs the session out through the registered context
    reference. Every failure is re-rejected unchanged and nothing is retried. */
module Api {
  import opened Util
  import opened AuthContext

  const SIGNIN_URL := "/auth/signin"
  const AUTHORIZATION := "Authorization"

  datatype RequestConfig = RequestConfig(url: string, headers: map<string, string>)

  /** A failed request: `error.response?.status` (absent for a network error)
      and the URL of the request that failed. */
  datatype HttpError = HttpError(status: Option<int>, url: string)

  /** How an intercepted promise settles. */
  datatype Settled<+T> = Fulfilled(value: T) | Rejected(error: HttpError)

  /** `contextToken || storedToken`, then `if (token)`: the first non-empty one. */
  function SelectToken(contextToken: Option<string>, storedToken: Option<string>): (r: Option<string>)
    ensures r.Some? ==> r.value != "" && (r == contextToken || r == storedToken)
    ensures r.None? <==> !Present(contextToken) && !Present(storedToken)
    ensures Present(contextToken) ==> r == contextToken
  {
    if Present(contextToken) then contextToken
    else if Present(storedToken) then storedToken
    else None
  }

  /** The request interceptor's change to a config: the bearer header for the
      token, every other header and the URL untouched. */
  function Authorize(config: RequestConfig, token: Option<string>): (r: RequestConfig)
    ensures r.url == config.url
    ensures token.None? ==> r == config
    ensures token.Some? ==>
      AUTHORIZATION in r.headers && r.headers[AUTHORIZATION] == BearerHeader(token.value)
    ensures forall h :: h in config.headers && h != AUTHORIZATION ==> h in r.headers && r.headers[h] == config.headers[h]
    ensures r.headers.Keys == config.headers.Keys + (if token.Some? then {AUTHORIZATION} else {})
  {
    if token.Some? then config.(headers := config.headers[AUTHORIZATION := BearerHeader(token.value)])
    else config
  }

  /** A 401 logs out unless it answers the sign-in request itself. */
  function TriggersLogout(e: HttpError): (r: bool)
    ensures r ==> e.status == Some(401)
    ensures e.url == SIGNIN_URL ==> !r
    ensures e.status == Some(401) && e.url != SIGNIN_URL ==> r
  {
    e.status == Some(401) && e.url != SIGNIN_URL
  }

  class ApiClient {
    const storage: LocalStorage
    /** `authContextRef`: null until `setAuthContextRef` registers a provider. */
    var authContextRef: AuthProvider?

    constructor (storage: LocalStorage)
      ensures this.storage == storage && authContextRef == null
    {
      this.storage := storage;
      authContextRef := null;
    }

    method SetAuthContextRef(ref: AuthProvider)
      modifies this
      ensures authContextRef == ref
    {
      authContextRef := ref;
    }

    /** The request interceptor. The context value has no `jwtToken` member, so
        the token always comes from storage. */
    method InterceptRequest(pending: Settled<RequestConfig>) returns (r: Settled<RequestConfig>)
      ensures pending.Rejected? ==> r == pending
      ensures pending.Fulfilled? ==> r == Fulfilled(Authorize(pending.value, SelectToken(None, storage.jwtToken)))
    {
      match pending {
        case Rejected(_) =>
          r := pending;
        case Fulfilled(config) =>
          var contextToken: Option<string> := None;
          var token := SelectToken(contextToken, storage.jwtToken);
          r := Fulfilled(Authorize(config, token));
      }
    }

    /** The response interceptor: successes pass through, failures are rejected
        with the same error after logging out on a qualifying 401. */
    method InterceptResponse<T>(settled: Settled<T>) returns (r: Settled<T>)
      modifies if authContextRef == null then {} else {authContextRef, authContextRef.storage, authContextRef.defaults}
      ensures r == settled
      ensures authContextRef == old(authContextRef)
      ensures authContextRef != null && settled.Rejected? && TriggersLogout(settled.error) ==>
        authContextRef.State() == LoggedOut(old(authContextRef.State()))
      ensures authContextRef != null && !(settled.Rejected? && TriggersLogout(settled.error)) ==>
        authContextRef.State() == old(authContextRef.State())
    {
      r := settled;
      if settled.Rejected? && TriggersLogout(settled.error) {
        if authContextRef != null {
          authContextRef.Logout();
        }
      }
    }
  }

  lemma StoredTokenIsSent(contextToken: Option<string>, storedToken: Option<string>)
    requires !Present(contextToken) && Present(storedToken)
    ensures SelectToken(contextToken, storedToken) == storedToken
  {
  }

  lemma NoTokenLeavesConfigUnchanged(config: RequestConfig, storedToken: Option<string>)
    requires !Present(storedToken)
    ensures Authorize(config, SelectToken(None, storedToken)) == config
  {
  }

  lemma SignInFailureNeverLogsOut(status: Option<int>)
    ensures !TriggersLogout(HttpError(status, SIGNIN_URL))
  {
  }

  lemma OnlyUnauthorizedLogsOut(e: HttpError)
    requires e.status != Some(401)
    ensures !TriggersLogout(e)
  {
  }
}
