/** The patient list page: search-or-page fetch, search submission, and the
    previous/next pagination controls with their clamps. */
module PatientsPage {
  import opened Util
  import opened Dto

  const PAGE_SIZE := 10
  const FETCH_FAILED := "Impossible de charger les patients."
  const DELETE_FAILED := "Impossible de supprimer le patient."

  /** "Previous": `Math.max(0, p - 1)`. */
  function PreviousPage(p: int): (r: int)
    ensures r >= 0
    ensures p > 0 ==> r == p - 1
    ensures p <= 0 ==> r == 0
  {
    if p - 1 > 0 then p - 1 else 0
  }

  /** "Next": `Math.min(totalPages - 1, p + 1)`. */
  function NextPage(p: int, totalPages: int): (r: int)
    ensures r <= totalPages - 1 && r <= p + 1
    ensures p + 1 <= totalPages - 1 ==> r == p + 1
    ensures p + 1 > totalPages - 1 ==> r == totalPages - 1
  {
    if totalPages - 1 < p + 1 then totalPages - 1 else p + 1
  }

  /** The controls are shown only under a non-empty table, for an unfiltered
      listing of several pages; then the first page can always move forward. */
  function ShowPagination(patients: seq<PatientResponse>, searchQuery: string, totalPages: int): (r: bool)
    ensures r ==> |patients| > 0 && searchQuery == ""
    ensures r ==> NextPage(0, totalPages) == 1
  {
    |patients| > 0 && searchQuery == "" && totalPages > 1
  }

  /** "Previous" is disabled exactly where pressing it would change nothing. */
  function PreviousDisabled(p: int): (r: bool)
    ensures p >= 0 ==> (r <==> PreviousPage(p) == p)
  {
    p == 0
  }

  /** "Next" is disabled on the last page, where pressing it would change nothing. */
  function NextDisabled(p: int, totalPages: int): (r: bool)
    ensures r ==> NextPage(p, totalPages) == p
    ensures p < totalPages ==> (r <==> NextPage(p, totalPages) == p)
  {
    p == totalPages - 1
  }

  /** While the controls are shown, "Next" keeps a page index in range. */
  lemma NextStaysInRange(patients: seq<PatientResponse>, searchQuery: string, p: int, totalPages: int)
    requires ShowPagination(patients, searchQuery, totalPages) && 0 <= p < totalPages
    ensures 0 <= NextPage(p, totalPages) < totalPages
    ensures NextDisabled(p, totalPages) ==> NextPage(p, totalPages) == p
  {
  }

  /** While the controls are shown, an enabled button moves by exactly one
      page, and the two undo each other. */
  lemma EnabledButtonsMoveByOne(patients: seq<PatientResponse>, searchQuery: string, p: int, totalPages: int)
    requires ShowPagination(patients, searchQuery, totalPages) && 0 <= p < totalPages
    ensures !PreviousDisabled(p) ==> PreviousPage(p) == p - 1 && NextPage(PreviousPage(p), totalPages) == p
    ensures !NextDisabled(p, totalPages) ==> NextPage(p, totalPages) == p + 1 && PreviousPage(NextPage(p, totalPages)) == p
  {
  }

  class PatientsPageState {
    var patients: seq<PatientResponse>
    var loading: bool
    var error: Option<string>
    var currentPage: int
    var totalPages: int
    var searchQuery: string

    constructor ()
      ensures patients == [] && loading && error.None?
      ensures currentPage == 0 && totalPages == 0 && searchQuery == ""
    {
      patients := [];
      loading := true;
      error := None;
      currentPage := 0;
      totalPages := 0;
      searchQuery := "";
    }

    /** `fetchPatients`: a non-empty query searches (one page of results),
        otherwise the requested page is fetched and its index adopted. */
    method FetchPatients(page: int, search: string -> Reply<seq<PatientResponse>>,
                         getPage: (int, int) -> Reply<PageOf<PatientResponse>>)
      modifies this
      ensures !loading && searchQuery == old(searchQuery)
      ensures searchQuery != "" && search(searchQuery).Ok? ==>
        patients == search(searchQuery).value && totalPages == 1 && currentPage == old(currentPage) && error.None?
      ensures searchQuery == "" && getPage(page, PAGE_SIZE).Ok? ==>
        var response := getPage(page, PAGE_SIZE).value;
        patients == response.content && totalPages == response.totalPages &&
        currentPage == response.number && error.None?
      ensures (if searchQuery != "" then search(searchQuery).Failed? else getPage(page, PAGE_SIZE).Failed?) ==>
        patients == old(patients) && totalPages == old(totalPages) && currentPage == old(currentPage) &&
        error == Some(FETCH_FAILED)
    {
      loading := true;
      error := None;
      if searchQuery != "" {
        var reply := search(searchQuery);
        if reply.Ok? {
          patients := reply.value;
          totalPages := 1;
        } else {
          error := Some(FETCH_FAILED);
        }
      } else {
        var reply := getPage(page, PAGE_SIZE);
        if reply.Ok? {
          patients := reply.value.content;
          totalPages := reply.value.totalPages;
          currentPage := reply.value.number;
        } else {
          error := Some(FETCH_FAILED);
        }
      }
      loading := false;
    }

    /** `handleDeletePatient`, given the confirmation answer and the delete
        reply: success reloads the current page, failure reports and stops loading. */
    method DeletePatient(confirmed: bool, reply: Reply<()>, search: string -> Reply<seq<PatientResponse>>,
                         getPage: (int, int) -> Reply<PageOf<PatientResponse>>)
      modifies this
      ensures searchQuery == old(searchQuery)
      ensures !confirmed ==>
        patients == old(patients) && loading == old(loading) && error == old(error) &&
        currentPage == old(currentPage) && totalPages == old(totalPages)
      ensures confirmed && reply.Ok? ==> !loading
      ensures confirmed && reply.Ok? && searchQuery != "" && search(searchQuery).Ok? ==>
        patients == search(searchQuery).value && totalPages == 1 && currentPage == old(currentPage) && error.None?
      ensures confirmed && reply.Ok? && searchQuery == "" && getPage(old(currentPage), PAGE_SIZE).Ok? ==>
        var response := getPage(old(currentPage), PAGE_SIZE).value;
        patients == response.content && totalPages == response.totalPages &&
        currentPage == response.number && error.None?
      ensures (confirmed && reply.Ok? &&
               (if searchQuery != "" then search(searchQuery).Failed? else getPage(old(currentPage), PAGE_SIZE).Failed?)) ==>
        patients == old(patients) && totalPages == old(totalPages) && currentPage == old(currentPage) &&
        error == Some(FETCH_FAILED)
      ensures confirmed && reply.Failed? ==>
        !loading && error == Some(DELETE_FAILED) && patients == old(patients) &&
        currentPage == old(currentPage) && totalPages == old(totalPages)
    {
      if confirmed {
        loading := true;
        if reply.Ok? {
          FetchPatients(currentPage, search, getPage);
        } else {
          error := Some(DELETE_FAILED);
          loading := false;
        }
      }
    }

    method SearchChange(query: string)
      modifies this
      ensures searchQuery == query
      ensures patients == old(patients) && loading == old(loading) && error == old(error)
      ensures currentPage == old(currentPage) && totalPages == old(totalPages)
    {
      searchQuery := query;
    }

    /** `handleSearchSubmit`: back to the first page, then fetch it. */
    method SearchSubmit(search: string -> Reply<seq<PatientResponse>>,
                        getPage: (int, int) -> Reply<PageOf<PatientResponse>>)
      modifies this
      ensures !loading && searchQuery == old(searchQuery)
      ensures searchQuery != "" && search(searchQuery).Ok? ==>
        patients == search(searchQuery).value && totalPages == 1 && currentPage == 0 && error.None?
      ensures searchQuery == "" && getPage(0, PAGE_SIZE).Ok? ==>
        var response := getPage(0, PAGE_SIZE).value;
        patients == response.content && totalPages == response.totalPages &&
        currentPage == response.number && error.None?
      ensures (if searchQuery != "" then search(searchQuery).Failed? else getPage(0, PAGE_SIZE).Failed?) ==>
        patients == old(patients) && totalPages == old(totalPages) && currentPage == 0 &&
        error == Some(FETCH_FAILED)
    {
      currentPage := 0;
      FetchPatients(0, search, getPage);
    }

    method Previous()
      modifies this
      ensures currentPage == PreviousPage(old(currentPage))
      ensures patients == old(patients) && loading == old(loading) && error == old(error)
      ensures totalPages == old(totalPages) && searchQuery == old(searchQuery)
    {
      currentPage := PreviousPage(currentPage);
    }

    method Next()
      modifies this
      ensures currentPage == NextPage(old(currentPage), totalPages)
      ensures patients == old(patients) && loading == old(loading) && error == old(error)
      ensures totalPages == old(totalPages) && searchQuery == old(searchQuery)
    {
      currentPage := NextPage(currentPage, totalPages);
    }
  }
}
