/** The navigation menu: three links for everybody, the users link for
    administrators, the reports link for administrators and physicians. */
module Sidebar {
  import opened Util
  import opened AuthContext

  datatype Link = Link(to: string, text: string)

  const DASHBOARD := Link("/", "Tableau de Bord")
  const PATIENTS := Link("/patients", "Patients")
  const ADMISSIONS := Link("/admissions", "Admissions")
  const USERS := Link("/users", "Utilisateurs")
  const REPORTS := Link("/reports", "Rapports")
  const MISSING_PROVIDER := "AuthContext must be used within an AuthProvider"

  predicate IsAdmin(user: Option<Token>)
  {
    HasRole(user, ROLE_ADMIN)
  }

  predicate IsMedecin(user: Option<Token>)
  {
    HasRole(user, ROLE_MEDECIN)
  }

  /** The links rendered, in order; rendering without a provider throws. */
  function Links(ctx: Option<ContextValue>): (r: Result<seq<Link>, string>)
    ensures r.Failure? <==> ctx.None?
    ensures r.Failure? ==> r.error == MISSING_PROVIDER
    ensures r.Success? ==> 3 <= |r.value| <= 5 && r.value[..3] == [DASHBOARD, PATIENTS, ADMISSIONS]
    ensures r.Success? ==> (USERS in r.value <==> IsAdmin(ctx.value.user))
    ensures r.Success? ==> (REPORTS in r.value <==> IsAdmin(ctx.value.user) || IsMedecin(ctx.value.user))
    ensures r.Success? ==>
      (r.value[3..] ==
         (if IsAdmin(ctx.value.user) then [USERS] else []) +
         (if IsAdmin(ctx.value.user) || IsMedecin(ctx.value.user) then [REPORTS] else []))
    ensures r.Success? && ctx.value.user.None? ==> r.value == [DASHBOARD, PATIENTS, ADMISSIONS]
  {
    if ctx.None? then Failure(MISSING_PROVIDER)
    else
      var user := ctx.value.user;
      var isAdmin := IsAdmin(user);
      var isMedecin := IsMedecin(user);
      Success([DASHBOARD, PATIENTS, ADMISSIONS]
        + (if isAdmin then [USERS] else [])
        + (if isAdmin || isMedecin then [REPORTS] else []))
  }
}
