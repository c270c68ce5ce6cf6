/** The records exchanged with the backend, as the service layer declares them.
    Enumerated strings (gender, admission status) stay strings: the forms pass
    along whatever their select produced. */
module Dto {
  import opened Util

  datatype PatientResponse = PatientResponse(
    id: int,
    recordNumber: string,
    firstName: string,
    lastName: string,
    dateOfBirth: string,
    gender: string,
    contactNumber: string,
    address: string)

  datatype PatientRequest = PatientRequest(
    recordNumber: string,
    firstName: string,
    lastName: string,
    dateOfBirth: string,
    gender: string,
    contactNumber: string,
    address: string)

  datatype Department = Department(id: int, name: string, description: string)

  datatype PatientSummary = PatientSummary(id: int, firstName: string, lastName: string, recordNumber: string)

  /** `assignedDepartment` is optional here because the admissions table reads it
      with optional chaining. */
  datatype AdmissionResponse = AdmissionResponse(
    id: int,
    admissionDate: string,
    reasonForAdmission: string,
    assignedDepartment: Option<Department>,
    roomNumber: string,
    bedNumber: string,
    status: string,
    dischargeDate: Option<string>,
    patient: PatientSummary)

  datatype AdmissionRequest = AdmissionRequest(
    patientId: int,
    admissionDate: string,
    reasonForAdmission: string,
    departmentId: int,
    roomNumber: string,
    bedNumber: string,
    status: string,
    dischargeDate: Option<string>)

  datatype UserResponse = UserResponse(id: int, username: string, email: string, nomComplet: string, roles: seq<string>)

  /** A page of a paginated listing; `number` is the zero-based page index. */
  datatype PageOf<T> = PageOf(content: seq<T>, totalPages: int, totalElements: int, number: int)

  datatype GenderCount = GenderCount(gender: string, count: int)

  datatype DepartmentCount = DepartmentCount(departmentName: string, admissionCount: int)

  datatype MonthlyCount = MonthlyCount(month: int, count: int)
}
