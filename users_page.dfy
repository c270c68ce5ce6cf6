/** The user management page: admin gate, paginated fetch, deletion with its
    page adjustment, page-size change, and the roles column. */
module UsersPage {
  import opened Util
  import opened Dto
  import opened Text
  import opened AuthContext

  const UNAUTHORIZED_PATH := "/unauthorized"
  const ROLE_PREFIX := "ROLE_"
  const ROLE_SEPARATOR := ", "
  const FETCH_FAILED := "Impossible de charger les utilisateurs."
  const DELETE_FAILED := "Impossible de supprimer l'utilisateur."
  const DEFAULT_ROWS_PER_PAGE := 10

  /** What the page's effect does when it runs. */
  datatype Effect = Redirect(to: string) | FetchPage(page: nat, size: nat)

  /** `authContext?.user?.roles.includes('ROLE_ADMIN')`. */
  predicate IsAdmin(ctx: Option<ContextValue>)
  {
    ctx.Some? && HasRole(ctx.value.user, ROLE_ADMIN)
  }

  /** The effect: a non-administrator is sent away and nothing is fetched. */
  function MountEffect(ctx: Option<ContextValue>, page: nat, rowsPerPage: nat): (e: Effect)
    ensures e.Redirect? <==> !IsAdmin(ctx)
    ensures e.Redirect? ==> e.to == UNAUTHORIZED_PATH
    ensures e.FetchPage? ==> e.page == page && e.size == rowsPerPage
  {
    if !IsAdmin(ctx) then Redirect(UNAUTHORIZED_PATH) else FetchPage(page, rowsPerPage)
  }

  /** The page shown after a deletion: one back when the page held only the
      deleted user and is not the first. */
  function PageAfterDelete(usersOnPage: nat, page: nat): (r: nat)
    ensures r <= page && page <= r + 1
    ensures r < page <==> usersOnPage == 1 && page > 0
  {
    if usersOnPage == 1 && page > 0 then page - 1 else page
  }

  /** `role.replace('ROLE_', '')`: the first `ROLE_` removed. */
  function RoleLabel(role: string): (r: string)
    ensures (forall j :: !OccursAt(role, ROLE_PREFIX, j)) ==> r == role
    ensures forall i {:trigger OccursAt(role, ROLE_PREFIX, i)} ::
      OccursAt(role, ROLE_PREFIX, i) && (forall j :: 0 <= j < i ==> !OccursAt(role, ROLE_PREFIX, j)) ==>
        r == role[..i] + role[i + |ROLE_PREFIX|..]
  {
    ReplaceFirst(role, ROLE_PREFIX, "")
  }

  lemma PrefixedRoleLabel(name: string)
    ensures RoleLabel(ROLE_PREFIX + name) == name
  {
    var role := ROLE_PREFIX + name;
    assert OccursAt(role, ROLE_PREFIX, 0);
    assert role[|ROLE_PREFIX|..] == name;
  }

  /** The roles cell: every role's label, joined with `", "` in list order. */
  function RolesCell(roles: seq<string>): (r: string)
    ensures roles == [] ==> r == ""
    ensures |roles| == 1 ==> r == RoleLabel(roles[0])
  {
    Join(seq(|roles|, i requires 0 <= i < |roles| => RoleLabel(roles[i])), ROLE_SEPARATOR)
  }

  lemma RolesCellAppend(roles: seq<string>, role: string)
    requires roles != []
    ensures RolesCell(roles + [role]) == RolesCell(roles) + ROLE_SEPARATOR + RoleLabel(role)
  {
    var labels := seq(|roles|, i requires 0 <= i < |roles| => RoleLabel(roles[i]));
    var extended := roles + [role];
    assert seq(|extended|, i requires 0 <= i < |extended| => RoleLabel(extended[i])) == labels + [RoleLabel(role)];
    JoinAppend(labels, RoleLabel(role), ROLE_SEPARATOR);
  }

  class UsersPageState {
    var users: seq<UserResponse>
    var loading: bool
    var error: Option<string>
    var page: nat
    var rowsPerPage: nat
    var totalElements: int

    constructor ()
      ensures users == [] && !loading && error.None?
      ensures page == 0 && rowsPerPage == DEFAULT_ROWS_PER_PAGE && totalElements == 0
    {
      users := [];
      loading := false;
      error := None;
      page := 0;
      rowsPerPage := DEFAULT_ROWS_PER_PAGE;
      totalElements := 0;
    }

    /** `fetchUsers`, given the paginated endpoint's reply for each page and size. */
    method FetchUsers(currentPage: nat, pageSize: nat, getPage: (nat, nat) -> Reply<PageOf<UserResponse>>)
      modifies this
      ensures !loading && page == old(page) && rowsPerPage == old(rowsPerPage)
      ensures getPage(currentPage, pageSize).Ok? ==>
        users == getPage(currentPage, pageSize).value.content &&
        totalElements == getPage(currentPage, pageSize).value.totalElements && error.None?
      ensures getPage(currentPage, pageSize).Failed? ==>
        users == old(users) && totalElements == old(totalElements) && error == Some(FETCH_FAILED)
    {
      loading := true;
      error := None;
      var reply := getPage(currentPage, pageSize);
      if reply.Ok? {
        users := reply.value.content;
        totalElements := reply.value.totalElements;
      } else {
        error := Some(FETCH_FAILED);
      }
      loading := false;
    }

    /** `handleDeleteUser`, given the confirmation answer and the delete reply.
        On success the page index is adjusted and the reload is left to the
        page's effect, so `loading` stays set. */
    method DeleteUser(confirmed: bool, reply: Reply<()>)
      modifies this
      ensures !confirmed ==> users == old(users) && loading == old(loading) && error == old(error) && page == old(page)
      ensures confirmed && reply.Ok? ==> loading && page == PageAfterDelete(|old(users)|, old(page)) && error == old(error)
      ensures confirmed && reply.Failed? ==> !loading && error == Some(DELETE_FAILED) && page == old(page)
      ensures users == old(users) && rowsPerPage == old(rowsPerPage) && totalElements == old(totalElements)
    {
      if confirmed {
        loading := true;
        if reply.Ok? {
          page := PageAfterDelete(|users|, page);
        } else {
          error := Some(DELETE_FAILED);
          loading := false;
        }
      }
    }

    method ChangePage(newPage: nat)
      modifies this
      ensures page == newPage
      ensures users == old(users) && loading == old(loading) && error == old(error)
      ensures rowsPerPage == old(rowsPerPage) && totalElements == old(totalElements)
    {
      page := newPage;
    }

    /** `handleChangeRowsPerPage`: a new size restarts from the first page. */
    method ChangeRowsPerPage(size: nat)
      modifies this
      ensures rowsPerPage == size && page == 0
      ensures users == old(users) && loading == old(loading) && error == old(error) && totalElements == old(totalElements)
    {
      rowsPerPage := size;
      page := 0;
    }
  }
}
