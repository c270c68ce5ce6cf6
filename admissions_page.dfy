/** The admissions page: paginated fetch, deletion reported through a
    snackbar, page-size change, and two table cells (department, status). */
module AdmissionsPage {
  import opened Util
  import opened Dto
  import opened Text

  const FETCH_FAILED := "Impossible de charger les admissions."
  const DELETED := "Admission supprimée avec succès !"
  const DELETE_FAILED := "Impossible de supprimer l'admission."
  const NO_DEPARTMENT := "N/A"
  const DEFAULT_ROWS_PER_PAGE := 10

  datatype Severity = SuccessSeverity | ErrorSeverity

  datatype Snackbar = Snackbar(open: bool, message: string, severity: Severity)

  /** `assignedDepartment?.name || 'N/A'`: a missing department or an empty
      name shows the placeholder. */
  function DepartmentCell(department: Option<Department>): (r: string)
    ensures department.Some? && department.value.name != "" ==> r == department.value.name
    ensures department.None? || department.value.name == "" ==> r == NO_DEPARTMENT
  {
    OrElse(if department.Some? then Some(department.value.name) else None, NO_DEPARTMENT)
  }

  /** `status.charAt(0) + status.slice(1).toLowerCase()`. */
  function StatusLabel(status: string): (r: string)
    ensures |r| == |status|
    ensures status != [] ==> r[0] == status[0]
    ensures forall i :: 1 <= i < |status| ==> r[i] == LowerChar(status[i])
  {
    if status == [] then [] else [status[0]] + Lower(status[1..])
  }

  /** Labelling a label changes nothing. */
  lemma StatusLabelIdempotent(status: string)
    ensures StatusLabel(StatusLabel(status)) == StatusLabel(status)
  {
    var once := StatusLabel(status);
    assert forall i :: 1 <= i < |once| ==> LowerChar(once[i]) == once[i];
  }

  /** The label of an upper-case status: its first letter, then lower case. */
  lemma StatusLabelOf(status: string, shown: string)
    requires |status| == |shown| > 0 && shown[0] == status[0]
    requires forall i :: 1 <= i < |status| ==> shown[i] == LowerChar(status[i])
    ensures StatusLabel(status) == shown
  {
  }

  lemma StatusLabels()
    ensures StatusLabel("ACTIVE") == "Active"
    ensures StatusLabel("DISCHARGED") == "Discharged"
    ensures StatusLabel("TRANSFERRED") == "Transferred"
  {
    StatusLabelOf("ACTIVE", "Active");
    StatusLabelOf("DISCHARGED", "Discharged");
    StatusLabelOf("TRANSFERRED", "Transferred");
  }

  class AdmissionsPageState {
    var admissions: seq<AdmissionResponse>
    var loading: bool
    var error: Option<string>
    var page: nat
    var rowsPerPage: nat
    var totalElements: int
    var snackbar: Snackbar

    constructor ()
      ensures admissions == [] && loading && error.None?
      ensures page == 0 && rowsPerPage == DEFAULT_ROWS_PER_PAGE && totalElements == 0
      ensures snackbar == Snackbar(false, "", SuccessSeverity)
    {
      admissions := [];
      loading := true;
      error := None;
      page := 0;
      rowsPerPage := DEFAULT_ROWS_PER_PAGE;
      totalElements := 0;
      snackbar := Snackbar(false, "", SuccessSeverity);
    }

    /** `fetchAdmissions`, given the paginated endpoint's reply for each page and size. */
    method FetchAdmissions(currentPage: nat, pageSize: nat, getPage: (nat, nat) -> Reply<PageOf<AdmissionResponse>>)
      modifies this
      ensures !loading && page == old(page) && rowsPerPage == old(rowsPerPage) && snackbar == old(snackbar)
      ensures getPage(currentPage, pageSize).Ok? ==>
        admissions == getPage(currentPage, pageSize).value.content &&
        totalElements == getPage(currentPage, pageSize).value.totalElements && error.None?
      ensures getPage(currentPage, pageSize).Failed? ==>
        admissions == old(admissions) && totalElements == old(totalElements) && error == Some(FETCH_FAILED)
    {
      loading := true;
      error := None;
      var reply := getPage(currentPage, pageSize);
      if reply.Ok? {
        admissions := reply.value.content;
        totalElements := reply.value.totalElements;
      } else {
        error := Some(FETCH_FAILED);
      }
      loading := false;
    }

    /** `handleDeleteAdmission`, given the confirmation answer, the delete reply
        and the listing endpoint: success reports and reloads the same page,
        failure reports and stops loading. */
    method DeleteAdmission(confirmed: bool, reply: Reply<()>, getPage: (nat, nat) -> Reply<PageOf<AdmissionResponse>>)
      modifies this
      ensures page == old(page) && rowsPerPage == old(rowsPerPage)
      ensures !confirmed ==>
        snackbar == old(snackbar) && admissions == old(admissions) && loading == old(loading) &&
        error == old(error) && totalElements == old(totalElements)
      ensures confirmed && reply.Ok? ==> snackbar == Snackbar(true, DELETED, SuccessSeverity) && !loading
      ensures confirmed && reply.Ok? && getPage(page, rowsPerPage).Ok? ==>
        admissions == getPage(page, rowsPerPage).value.content &&
        totalElements == getPage(page, rowsPerPage).value.totalElements && error.None?
      ensures confirmed && reply.Ok? && getPage(page, rowsPerPage).Failed? ==>
        admissions == old(admissions) && totalElements == old(totalElements) && error == Some(FETCH_FAILED)
      ensures confirmed && reply.Failed? ==>
        snackbar == Snackbar(true, DELETE_FAILED, ErrorSeverity) && !loading &&
        admissions == old(admissions) && error == old(error) && totalElements == old(totalElements)
    {
      if confirmed {
        loading := true;
        if reply.Ok? {
          snackbar := Snackbar(true, DELETED, SuccessSeverity);
          FetchAdmissions(page, rowsPerPage, getPage);
        } else {
          snackbar := Snackbar(true, DELETE_FAILED, ErrorSeverity);
          loading := false;
        }
      }
    }

    method ChangePage(newPage: nat)
      modifies this
      ensures page == newPage
      ensures admissions == old(admissions) && loading == old(loading) && error == old(error)
      ensures rowsPerPage == old(rowsPerPage) && snackbar == old(snackbar) && totalElements == old(totalElements)
    {
      page := newPage;
    }

    /** `handleChangeRowsPerPage`: a new size restarts from the first page. */
    method ChangeRowsPerPage(size: nat)
      modifies this
      ensures rowsPerPage == size && page == 0
      ensures admissions == old(admissions) && loading == old(loading) && error == old(error)
      ensures snackbar == old(snackbar) && totalElements == old(totalElements)
    {
      rowsPerPage := size;
      page := 0;
    }

    /** `handleSnackbarClose`: hide the message, keep its text and severity. */
    method SnackbarClose()
      modifies this
      ensures snackbar == old(snackbar).(open := false)
      ensures admissions == old(admissions) && loading == old(loading) && error == old(error)
      ensures page == old(page) && rowsPerPage == old(rowsPerPage) && totalElements == old(totalElements)
    {
      snackbar := snackbar.(open := false);
    }
  }
}
