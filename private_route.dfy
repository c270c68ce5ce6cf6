/** The route guard: from the authentication context and an optional list of
    allowed roles, decide between a loading placeholder, a redirect (which
    replaces the history entry) and the protected content. */
module PrivateRoute {
  import opened Util
  import opened AuthContext

  datatype View = LoadingPlaceholder | Navigate(to: string) | Outlet

  const LOGIN_PATH := "/login"
  const UNAUTHORIZED_PATH := "/unauthorized"
  const MISSING_PROVIDER := "PrivateRoute must be used within an AuthProvider"

  /** `allowedRoles.some(role => roles.includes(role))`. */
  predicate SharesRole(allowedRoles: seq<string>, roles: seq<string>)
  {
    exists i :: 0 <= i < |allowedRoles| && allowedRoles[i] in roles
  }

  /** The guard, checks in source order: a missing provider throws, then
      loading, then authentication, then roles. `allowedRoles` is checked for
      presence only, so an empty list is a list that no user satisfies. */
  function Guard(ctx: Option<ContextValue>, allowedRoles: Option<seq<string>>): (r: Result<View, string>)
    ensures r.Failure? <==> ctx.None?
    ensures r.Failure? ==> r.error == MISSING_PROVIDER
    ensures r == Success(Outlet) ==>
      !ctx.value.isLoading && ctx.value.isAuthenticated &&
      (allowedRoles.None? || ctx.value.user.None? || SharesRole(allowedRoles.value, ctx.value.user.value.roles))
    ensures r == Success(Navigate(UNAUTHORIZED_PATH)) ==>
      ctx.value.isAuthenticated && allowedRoles.Some? && ctx.value.user.Some? &&
      !SharesRole(allowedRoles.value, ctx.value.user.value.roles)
    ensures r.Success? && r.value.Navigate? ==> r.value.to in {LOGIN_PATH, UNAUTHORIZED_PATH}
  {
    if ctx.None? then Failure(MISSING_PROVIDER)
    else
      var c := ctx.value;
      if c.isLoading then Success(LoadingPlaceholder)
      else if !c.isAuthenticated then Success(Navigate(LOGIN_PATH))
      else if allowedRoles.Some? && c.user.Some? && !SharesRole(allowedRoles.value, c.user.value.roles) then
        Success(Navigate(UNAUTHORIZED_PATH))
      else Success(Outlet)
  }

  lemma LoadingWins(c: ContextValue, allowedRoles: Option<seq<string>>)
    requires c.isLoading
    ensures Guard(Some(c), allowedRoles) == Success(LoadingPlaceholder)
  {
  }

  lemma UnauthenticatedGoesToLogin(c: ContextValue, allowedRoles: Option<seq<string>>)
    requires !c.isLoading && !c.isAuthenticated
    ensures Guard(Some(c), allowedRoles) == Success(Navigate(LOGIN_PATH))
  {
  }

  lemma DisjointRolesAreUnauthorized(c: ContextValue, allowedRoles: seq<string>)
    requires !c.isLoading && c.isAuthenticated && c.user.Some?
    requires forall role :: role in allowedRoles ==> role !in c.user.value.roles
    ensures Guard(Some(c), Some(allowedRoles)) == Success(Navigate(UNAUTHORIZED_PATH))
  {
  }

  lemma NoRoleListRendersForAnyUser(c: ContextValue)
    requires !c.isLoading && c.isAuthenticated
    ensures Guard(Some(c), None) == Success(Outlet)
  {
  }

  lemma SharedRoleRenders(c: ContextValue, allowedRoles: seq<string>, role: string)
    requires !c.isLoading && c.isAuthenticated && c.user.Some?
    requires role in allowedRoles && role in c.user.value.roles
    ensures Guard(Some(c), Some(allowedRoles)) == Success(Outlet)
  {
  }

  lemma MissingUserSkipsRoleCheck(c: ContextValue, allowedRoles: seq<string>)
    requires !c.isLoading && c.isAuthenticated && c.user.None?
    ensures Guard(Some(c), Some(allowedRoles)) == Success(Outlet)
  {
  }

  lemma EmptyRoleListRejectsEveryUser(c: ContextValue)
    requires !c.isLoading && c.isAuthenticated && c.user.Some?
    ensures Guard(Some(c), Some([])) == Success(Navigate(UNAUTHORIZED_PATH))
  {
  }

  /** Over a consistent provider's context value, the protected content is
      shown only for a stored token that decodes to the current user, with the
      bearer header installed, and with a shared role whenever roles are
      required: the missing-user bypass of the role check cannot occur. */
  lemma ProviderOutletIsBacked(p: AuthProvider, allowedRoles: Option<seq<string>>)
    requires p.Valid()
    ensures Guard(Some(p.Value()), allowedRoles) == Success(Outlet) ==>
      && p.user.Some? && p.storage.jwtToken.Some?
      && p.decode(p.storage.jwtToken.value) == p.user
      && p.defaults.authorization == Some(BearerHeader(p.storage.jwtToken.value))
      && (allowedRoles.None? || SharesRole(allowedRoles.value, p.user.value.roles))
  {
  }
}
