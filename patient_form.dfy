/** The patient create/edit form: initial data, single-field edits and the
    submit handler choosing between creation and update. */
module PatientForm {
  import opened Util
  import opened Dto

  const DEFAULT_GENDER := "MALE"
  const SAVE_FAILED := "Erreur lors de l'enregistrement du patient. Vérifiez les données."

  /** The inputs, by their `name` attribute. */
  datatype PatientField = RecordNumber | FirstName | LastName | DateOfBirth | Gender | ContactNumber | Address

  datatype PatientCall = CreatePatient(data: PatientRequest) | UpdatePatient(id: int, data: PatientRequest)

  function Field(d: PatientRequest, f: PatientField): string
  {
    match f
    case RecordNumber => d.recordNumber
    case FirstName => d.firstName
    case LastName => d.lastName
    case DateOfBirth => d.dateOfBirth
    case Gender => d.gender
    case ContactNumber => d.contactNumber
    case Address => d.address
  }

  /** The data the form holds once the patient (or its absence) is known: an
      edit copies the seven fields, a creation starts empty with gender MALE. */
  function InitialData(patient: Option<PatientResponse>): (d: PatientRequest)
    ensures patient.Some? ==>
      d.recordNumber == patient.value.recordNumber && d.firstName == patient.value.firstName &&
      d.lastName == patient.value.lastName && d.dateOfBirth == patient.value.dateOfBirth &&
      d.gender == patient.value.gender && d.contactNumber == patient.value.contactNumber &&
      d.address == patient.value.address
    ensures patient.None? ==> forall f :: Field(d, f) == if f == Gender then DEFAULT_GENDER else ""
  {
    match patient
    case Some(p) =>
      PatientRequest(p.recordNumber, p.firstName, p.lastName, p.dateOfBirth, p.gender, p.contactNumber, p.address)
    case None => PatientRequest("", "", "", "", DEFAULT_GENDER, "", "")
  }

  /** `{...prev, [name]: value}`. */
  function WithField(d: PatientRequest, f: PatientField, value: string): (r: PatientRequest)
    ensures Field(r, f) == value
    ensures forall g :: g != f ==> Field(r, g) == Field(d, g)
  {
    match f
    case RecordNumber => d.(recordNumber := value)
    case FirstName => d.(firstName := value)
    case LastName => d.(lastName := value)
    case DateOfBirth => d.(dateOfBirth := value)
    case Gender => d.(gender := value)
    case ContactNumber => d.(contactNumber := value)
    case Address => d.(address := value)
  }

  class PatientFormState {
    /** The `patient` prop: the patient being edited, if any. */
    const patient: Option<PatientResponse>
    var formData: PatientRequest
    var loading: bool
    var error: Option<string>

    constructor (patient: Option<PatientResponse>)
      ensures this.patient == patient
      ensures formData == InitialData(patient) && !loading && error.None?
    {
      this.patient := patient;
      formData := InitialData(patient);
      loading := false;
      error := None;
    }

    method HandleChange(f: PatientField, value: string)
      modifies this
      ensures formData == WithField(old(formData), f, value)
      ensures loading == old(loading) && error == old(error)
    {
      formData := WithField(formData, f, value);
    }

    /** `handleSubmit`, given the reply of the service call; `submitted` tells
        whether the `onSubmit` callback ran. */
    method HandleSubmit(reply: Reply<PatientResponse>) returns (call: PatientCall, submitted: bool)
      modifies this
      ensures formData == old(formData) && !loading
      ensures call == if patient.Some? then UpdatePatient(patient.value.id, formData) else CreatePatient(formData)
      ensures submitted <==> reply.Ok?
      ensures error == if reply.Ok? then None else Some(SAVE_FAILED)
    {
      loading := true;
      error := None;
      if patient.Some? {
        call := UpdatePatient(patient.value.id, formData);
      } else {
        call := CreatePatient(formData);
      }
      submitted := reply.Ok?;
      if !submitted {
        error := Some(SAVE_FAILED);
      }
      loading := false;
    }
  }
}
