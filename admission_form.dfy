/** The admission create/edit form: initial data, the patient search box, field
    edits, the patient picker, and the submit handler with its two checks. */
module AdmissionForm {
  import opened Util
  import opened Dto

  const DEFAULT_STATUS := "ACTIVE"
  const SELECT_PATIENT := "Veuillez sélectionner un patient."
  const SELECT_DEPARTMENT := "Veuillez sélectionner un département."
  const SAVE_FAILED := "Erreur lors de l'enregistrement de l'admission."
  const SEARCH_URL := "/patients/search?query="
  /** Length of `YYYY-MM-DDTHH:MM`, what a `datetime-local` input holds. */
  const DATETIME_LENGTH := 16

  /** A form edit: the text inputs through `handleChange`, the two selects
      through `handleSelectChange`. */
  datatype AdmissionEdit =
    | AdmissionDate(text: string)
    | ReasonForAdmission(text: string)
    | RoomNumber(text: string)
    | BedNumber(text: string)
    | DischargeDate(text: string)
    | DepartmentId(id: int)
    | Status(text: string)

  datatype AdmissionCall =
    | NoCall
    | CreateAdmission(data: AdmissionRequest)
    | UpdateAdmission(id: int, data: AdmissionRequest)

  /** `value?.slice(0, 16) || undefined`. */
  function DatetimeOrNone(value: Option<string>): (r: Option<string>)
    ensures r.Some? <==> value.Some? && value.value != ""
    ensures r.Some? ==> r.value == Prefix(value.value, DATETIME_LENGTH) && r.value != ""
  {
    if value.Some? && value.value != "" then Some(Prefix(value.value, DATETIME_LENGTH)) else None
  }

  /** The data the form holds once the admission (or its absence) is known.
      `nowIso` is the current instant in ISO form, the creation default. */
  function InitialData(admission: Option<AdmissionResponse>, nowIso: string): (d: AdmissionRequest)
    requires admission.Some? ==> admission.value.assignedDepartment.Some?
    ensures |d.admissionDate| <= DATETIME_LENGTH
    ensures admission.Some? ==>
      var a := admission.value;
      d.patientId == a.patient.id && d.departmentId == a.assignedDepartment.value.id &&
      d.admissionDate == Prefix(a.admissionDate, DATETIME_LENGTH) &&
      d.dischargeDate == DatetimeOrNone(a.dischargeDate) &&
      d.reasonForAdmission == a.reasonForAdmission && d.roomNumber == a.roomNumber &&
      d.bedNumber == a.bedNumber && d.status == a.status
    ensures admission.None? ==>
      d.patientId == 0 && d.departmentId == 0 && d.status == DEFAULT_STATUS &&
      d.admissionDate == Prefix(nowIso, DATETIME_LENGTH) && d.dischargeDate.None? &&
      d.reasonForAdmission == "" && d.roomNumber == "" && d.bedNumber == ""
  {
    match admission
    case Some(a) =>
      AdmissionRequest(a.patient.id, Prefix(a.admissionDate, DATETIME_LENGTH), a.reasonForAdmission,
        a.assignedDepartment.value.id, a.roomNumber, a.bedNumber, a.status, DatetimeOrNone(a.dischargeDate))
    case None =>
      AdmissionRequest(0, Prefix(nowIso, DATETIME_LENGTH), "", 0, "", "", DEFAULT_STATUS, None)
  }

  /** `{...prev, [name]: value}` for one edit. */
  function Apply(d: AdmissionRequest, e: AdmissionEdit): (r: AdmissionRequest)
    ensures r.patientId == d.patientId
    ensures e.AdmissionDate? ==> r == d.(admissionDate := e.text)
    ensures e.ReasonForAdmission? ==> r == d.(reasonForAdmission := e.text)
    ensures e.RoomNumber? ==> r == d.(roomNumber := e.text)
    ensures e.BedNumber? ==> r == d.(bedNumber := e.text)
    ensures e.DischargeDate? ==> r == d.(dischargeDate := Some(e.text))
    ensures e.DepartmentId? ==> r == d.(departmentId := e.id)
    ensures e.Status? ==> r == d.(status := e.text)
  {
    match e
    case AdmissionDate(t) => d.(admissionDate := t)
    case ReasonForAdmission(t) => d.(reasonForAdmission := t)
    case RoomNumber(t) => d.(roomNumber := t)
    case BedNumber(t) => d.(bedNumber := t)
    case DischargeDate(t) => d.(dischargeDate := Some(t))
    case DepartmentId(id) => d.(departmentId := id)
    case Status(t) => d.(status := t)
  }

  /** The submit checks, in source order: a patient first, then a department. */
  function Validate(selected: Option<PatientSummary>, d: AdmissionRequest): (error: Option<string>)
    ensures error.None? <==> selected.Some? && d.departmentId != 0
    ensures selected.None? ==> error == Some(SELECT_PATIENT)
    ensures selected.Some? && d.departmentId == 0 ==> error == Some(SELECT_DEPARTMENT)
  {
    if selected.None? then Some(SELECT_PATIENT)
    else if d.departmentId == 0 then Some(SELECT_DEPARTMENT)
    else None
  }

  /** `{...formData, patientId: selectedPatient.id}`: the form data with only
      the patient id replaced. */
  function DataToSubmit(d: AdmissionRequest, patient: PatientSummary): (r: AdmissionRequest)
    ensures r.patientId == patient.id
    ensures r.(patientId := d.patientId) == d
  {
    d.(patientId := patient.id)
  }

  class AdmissionFormState {
    /** The `admission` prop: the admission being edited, if any. */
    const admission: Option<AdmissionResponse>
    var formData: AdmissionRequest
    var selectedPatient: Option<PatientSummary>
    var patientsOptions: seq<PatientResponse>
    var loading: bool
    var error: Option<string>

    constructor (admission: Option<AdmissionResponse>, nowIso: string)
      requires admission.Some? ==> admission.value.assignedDepartment.Some?
      ensures this.admission == admission
      ensures formData == InitialData(admission, nowIso)
      ensures selectedPatient == (if admission.Some? then Some(admission.value.patient) else None)
      ensures patientsOptions == [] && !loading && error.None?
    {
      this.admission := admission;
      formData := InitialData(admission, nowIso);
      selectedPatient := if admission.Some? then Some(admission.value.patient) else None;
      patientsOptions := [];
      loading := false;
      error := None;
    }

    /** `handlePatientSearch`: the search URL it requests, if any, given the
        search endpoint's reply for each URL. */
    method HandlePatientSearch(value: string, search: string -> Reply<seq<PatientResponse>>) returns (request: Option<string>)
      modifies this
      ensures |value| < 2 ==> request.None? && patientsOptions == []
      ensures |value| >= 2 ==> request == Some(SEARCH_URL + value)
      ensures |value| >= 2 && search(SEARCH_URL + value).Ok? ==> patientsOptions == search(SEARCH_URL + value).value
      ensures |value| >= 2 && search(SEARCH_URL + value).Failed? ==> patientsOptions == old(patientsOptions)
      ensures formData == old(formData) && selectedPatient == old(selectedPatient)
      ensures loading == old(loading) && error == old(error)
    {
      if |value| < 2 {
        patientsOptions := [];
        request := None;
        return;
      }
      request := Some(SEARCH_URL + value);
      var reply := search(request.value);
      if reply.Ok? {
        patientsOptions := reply.value;
      }
    }

    method HandleChange(e: AdmissionEdit)
      modifies this
      ensures formData == Apply(old(formData), e)
      ensures selectedPatient == old(selectedPatient) && patientsOptions == old(patientsOptions)
      ensures loading == old(loading) && error == old(error)
    {
      formData := Apply(formData, e);
    }

    /** The patient picker's `onChange`: a cleared picker resets the id to 0. */
    method ChoosePatient(choice: Option<PatientSummary>)
      modifies this
      ensures selectedPatient == choice
      ensures formData == old(formData).(patientId := if choice.Some? then choice.value.id else 0)
      ensures patientsOptions == old(patientsOptions) && loading == old(loading) && error == old(error)
    {
      selectedPatient := choice;
      formData := formData.(patientId := if choice.Some? then choice.value.id else 0);
    }

    /** `handleSubmit`, given the reply of the service call it makes (if any);
        `submitted` tells whether the `onSubmit` callback ran. */
    method HandleSubmit(reply: Reply<AdmissionResponse>) returns (call: AdmissionCall, submitted: bool)
      modifies this
      ensures formData == old(formData) && selectedPatient == old(selectedPatient) && !loading
      ensures patientsOptions == old(patientsOptions)
      ensures Validate(selectedPatient, formData).Some? ==>
        call == NoCall && !submitted && error == Validate(selectedPatient, formData)
      ensures Validate(selectedPatient, formData).None? ==>
        call == (if admission.Some? then UpdateAdmission(admission.value.id, DataToSubmit(formData, selectedPatient.value))
                 else CreateAdmission(DataToSubmit(formData, selectedPatient.value)))
      ensures call != NoCall ==> (submitted <==> reply.Ok?)
      ensures call != NoCall && reply.Ok? ==> error.None?
      ensures call != NoCall && reply.Failed? ==> error == Some(OrElse(reply.serverMessage, SAVE_FAILED))
    {
      loading := true;
      error := None;
      submitted := false;
      var invalid := Validate(selectedPatient, formData);
      if invalid.Some? {
        error := invalid;
        loading := false;
        call := NoCall;
        return;
      }
      var data := DataToSubmit(formData, selectedPatient.value);
      if admission.Some? {
        call := UpdateAdmission(admission.value.id, data);
      } else {
        call := CreateAdmission(data);
      }
      if reply.Ok? {
        submitted := true;
      } else {
        error := Some(OrElse(reply.serverMessage, SAVE_FAILED));
      }
      loading := false;
    }
  }

  /** With neither a patient nor a department, the patient error is the one shown. */
  lemma PatientCheckComesFirst(d: AdmissionRequest)
    requires d.departmentId == 0
    ensures Validate(None, d) == Some(SELECT_PATIENT)
  {
  }
}
