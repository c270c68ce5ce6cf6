# SIAGS hospital administration frontend — a Dafny model

SIAGS is a React single-page application for administering a hospital. Staff
sign in with a JWT, then manage patients, admissions and users and consult
reports through a REST backend. This project models the decisions that sit
between the rendering code and the HTTP calls:

- **the session** (`AuthContext`): the user, the authenticated and loading
  flags, the persisted `jwtToken` slot and the HTTP client's default
  `Authorization` header. It changes through three transitions: restoring the
  session on mount, `login` and `logout`.
- **the route guard** (`PrivateRoute`): loading placeholder, redirect to
  `/login`, redirect to `/unauthorized`, or the protected content.
- **the HTTP interceptors** (`Api`): which token is sent, the bearer header,
  and when a failed response logs the session out.
- **role-based visibility**: the sidebar links, the users page and the
  reports page.
- **the three forms**: user, patient and admission. This covers initial
  data, single-field edits, role toggling, submit checks and the choice
  between create and update.
- **the three list pages**: users, patients and admissions. This covers
  fetching, deletion, page arithmetic and page-size changes.
- **the reports page**: its four sequential loads and the arrays its charts
  are drawn from.

A component that keeps state with setters becomes a class whose methods are
its handlers. Each handler is one atomic transition. Its `ensures` gives the
whole new state, usually through a pure function of the old state. The
session class `AuthContext.AuthProvider` is proved against three
specification functions: `LoggedOut`, `Bootstrapped` and `LoginStep`. Every
transition keeps the invariant `Consistent`: an authenticated session has a
user, and that user decodes from the stored token, which is also the token in
the default header.

Foreign calls become parameters or plain values:

- JWT decoding (RFC 7519) is a function `decode: string -> Option<Token>`;
  `None` means it throws.
- The clock `Date.now()` is `now` in milliseconds.
- A backend call is a `Reply<T>`: either the response or a failure, with the
  server's optional message.
- A paginated endpoint is a function from page and size to a reply.
- `window.confirm` is a boolean parameter.
- The browser's `localStorage` is the class `AuthContext.LocalStorage`, which
  has one slot.
- The HTTP client's default headers are the class `AuthContext.HttpDefaults`.

Where the code and its description differ, the model follows the code:

- A failed `login` removes the stored token, even one that was there before.
  It leaves the default `Authorization` header in place.
- A stored token whose `exp` is missing is never treated as expired, because
  a comparison with `NaN` is false.
- The expiry test is strict, so a token is still accepted at the exact
  expiry instant.
- An empty stored token string is ignored: no user is restored and no logout
  happens.
- The request interceptor reads `authContextRef?.jwtToken`. The context value
  has no such member, so the token always comes from storage.
- `login` posts with the plain HTTP client to an absolute URL, so the
  interceptors of the shared client never see the sign-in request.
- `PrivateRoute` tests `allowedRoles` only for presence. An empty list is
  therefore truthy, and it sends every user that has a user object to
  `/unauthorized`.
- `login` never looks at the token's expiry, unlike the restore on mount: an
  already expired token returned by the server signs the user in.
- The department cell uses `||`, so a department with an empty name shows
  `N/A` as well.

## Model

| member | source | states |
|---|---|---|
| AuthContext.BearerHeader | src/contexts/AuthContext.tsx:53 | the header value is the 7-character prefix `Bearer ` followed by exactly the token |
| AuthContext.Present | src/contexts/AuthContext.tsx:44 | a stored token counts only when it is there and non-empty, as JavaScript truthiness has it |
| AuthContext.Expired | src/contexts/AuthContext.tsx:47 | a token without `exp` is never expired; at the instant `exp * 1000` it is not yet expired; on whole-second clocks it is expired iff `exp` is strictly before the current second |
| AuthContext.LoggedOut | src/contexts/AuthContext.tsx:88-94 | after logout there is no user, no authentication, no stored token and no default header; the loading flag is untouched |
| AuthContext.Bootstrapped | src/contexts/AuthContext.tsx:40-64 | restoring from a freshly mounted state always ends not loading and consistent. It authenticates iff a non-empty token is stored, decodes, and is not strictly past its expiry; the stored token is then kept and the user is unexpired. Any other stored token is removed along with the header. With no token, storage and header are untouched and nobody is signed in |
| AuthContext.LoginStep | src/contexts/AuthContext.tsx:66-86 | login always ends not loading and consistent. It authenticates iff the sign-in reply arrived and its token decodes, and exactly then resolves `true` and stores the token, the decoded user and the bearer header. Otherwise user and stored token are cleared, the header is kept, and the promise rejects; a refused sign-in rejects with the server's message |
| AuthContext.AuthProvider.constructor | src/contexts/AuthContext.tsx:35-37 | a new provider has no user, is not authenticated, is loading, and satisfies the session invariant |
| AuthContext.AuthProvider.Value | src/contexts/AuthContext.tsx:97 | the context value exposes exactly the user and the two flags |
| AuthContext.AuthProvider.Logout | src/contexts/AuthContext.tsx:88-94 | the provider, its storage and the default header become `LoggedOut` of the previous state; the invariant holds |
| AuthContext.AuthProvider.Bootstrap | src/contexts/AuthContext.tsx:40-64 | the provider, its storage and the default header become `Bootstrapped` of the mounted state; the invariant holds |
| AuthContext.AuthProvider.Login | src/contexts/AuthContext.tsx:66-86 | the new state and the outcome are `LoginStep` of the previous state and the reply; the invariant holds |
| AuthContext.BootstrapWithoutToken | src/contexts/AuthContext.tsx:35-61 | with no usable stored token, restoring leaves no user, not authenticated, not loading |
| AuthContext.BootstrapExpiredLogsOut | src/contexts/AuthContext.tsx:47-93 | a token strictly past its expiry gives exactly the logged-out state, not loading |
| AuthContext.BootstrapAcceptsExpiryInstant | src/contexts/AuthContext.tsx:47 | a token whose `exp * 1000` equals the current instant is accepted |
| AuthContext.BootstrapUndecodableLogsOut | src/contexts/AuthContext.tsx:56-58 | a stored token that fails to decode gives exactly the logged-out state, not loading |
| AuthContext.BootstrapValidToken | src/contexts/AuthContext.tsx:50-54 | a decodable unexpired token becomes the user, authenticates the session and sets the bearer header for that token |
| AuthContext.LoginFailureClearsSession | src/contexts/AuthContext.tsx:77-85 | a refused sign-in or an undecodable token leaves no user, no authentication and an empty token slot, whatever it held before, and rejects |
| AuthContext.LogoutIdempotent | src/contexts/AuthContext.tsx:88-93 | logging out twice gives the same state as logging out once |
| PrivateRoute.Guard | src/components/PrivateRoute.tsx:9-32 | throws iff there is no provider. The content renders only when not loading, authenticated, and roles are not required, not checkable for lack of a user, or shared. `/unauthorized` is chosen only for an authenticated user that has no allowed role. Redirects go only to `/login` or `/unauthorized` |
| PrivateRoute.LoadingWins | src/components/PrivateRoute.tsx:18-20 | while loading the placeholder is shown, whatever the other inputs |
| PrivateRoute.UnauthenticatedGoesToLogin | src/components/PrivateRoute.tsx:22-24 | not loading and not authenticated redirects to `/login` |
| PrivateRoute.DisjointRolesAreUnauthorized | src/components/PrivateRoute.tsx:27-29 | an authenticated user with no allowed role is redirected to `/unauthorized` |
| PrivateRoute.NoRoleListRendersForAnyUser | src/components/PrivateRoute.tsx:27-31 | without a role list any authenticated session gets the content |
| PrivateRoute.SharedRoleRenders | src/components/PrivateRoute.tsx:27-31 | one allowed role held by the user is enough for the content |
| PrivateRoute.MissingUserSkipsRoleCheck | src/components/PrivateRoute.tsx:27-31 | an authenticated session without a user object gets the content even when roles are required |
| PrivateRoute.EmptyRoleListRejectsEveryUser | src/components/PrivateRoute.tsx:27-29 | an empty role list sends every authenticated user to `/unauthorized` |
| PrivateRoute.ProviderOutletIsBacked | src/components/PrivateRoute.tsx:18-31 | over the value of a consistent provider, the content is shown only with a stored token that decodes to the current user and whose bearer header is installed, and with a shared role whenever roles are required |
| Api.SelectToken | src/services/api.ts:30-32 | the token sent is non-empty; it is the context token when that is non-empty, else the stored one; there is none iff neither is non-empty |
| Api.Authorize | src/services/api.ts:32-35 | with a token, `Authorization` is the bearer value and every other header and the URL are kept; the header names grow by at most `Authorization`; with no token the config is unchanged |
| Api.TriggersLogout | src/services/api.ts:47 | only a 401 can log out, never a failure of the sign-in request, and every other 401 does |
| Api.StoredTokenIsSent | src/services/api.ts:30 | without a context token, the stored token is the one sent |
| Api.NoTokenLeavesConfigUnchanged | src/services/api.ts:30-35 | with nothing stored, the request goes out exactly as it was |
| Api.SignInFailureNeverLogsOut | src/services/api.ts:47-55 | no status on the sign-in URL triggers a logout |
| Api.OnlyUnauthorizedLogsOut | src/services/api.ts:47-55 | a failure other than 401 never triggers a logout |
| Api.ApiClient.constructor | src/services/api.ts:21 | the context reference starts null |
| Api.ApiClient.SetAuthContextRef | src/services/api.ts:23-25 | the reference becomes the given provider |
| Api.ApiClient.InterceptRequest | src/services/api.ts:27-40 | a rejected request stays rejected unchanged; a request is authorized with the token chosen from an absent context token and the stored token |
| Api.ApiClient.InterceptResponse | src/services/api.ts:42-57 | the settled response is passed on unchanged (no retry). With a registered provider, a 401 off the sign-in URL leaves it in `LoggedOut` of its previous state, and anything else leaves it untouched. With no provider nothing is changed |
| Sidebar.Links | src/components/Layout/Sidebar.tsx:6-58 | throws iff there is no provider. Otherwise Dashboard, Patients and Admissions, in that order, followed by Users iff the user is an administrator and then Reports iff administrator or physician; Users is listed before Reports; with no user, exactly the three |
| UserForm.InitialData | src/components/UserForm.tsx:38-54 | editing takes only email, full name and roles from the user, with no username or password; creating starts with every field empty, no roles, and not submittable |
| UserForm.CreateAllowed | src/components/UserForm.tsx:86 | creation is allowed iff the username and the password are both truthy, that is present and non-empty |
| UserForm.WithField | src/components/UserForm.tsx:57-60 | the named field takes the value; every other field and the roles are unchanged |
| UserForm.Without | src/components/UserForm.tsx:66 | the result holds exactly the roles other than the removed one, and is no longer than the input |
| UserForm.WithoutAppend | src/components/UserForm.tsx:66 | filtering distributes over concatenation, so the order of the remaining roles is kept |
| UserForm.WithoutAbsent | src/components/UserForm.tsx:66 | filtering out a role not in the list changes nothing |
| UserForm.ToggleRole | src/components/UserForm.tsx:62-71 | the role is in the result iff it was not in the list; other roles keep their membership; an absent role is appended at the end after the unchanged list |
| UserForm.ToggleTwiceRestores | src/components/UserForm.tsx:62-71 | checking then unchecking an absent role restores the original list |
| UserForm.ToggleKeepsOrder | src/components/UserForm.tsx:64-66 | unchecking removes every occurrence and keeps the other roles in order, part by part |
| UserForm.UserFormState.constructor | src/components/UserForm.tsx:15-54 | the form keeps the edited user (or its absence) and starts with `InitialData` of it, not loading, no error |
| UserForm.UserFormState.HandleChange | src/components/UserForm.tsx:57-60 | the form data becomes `WithField` of the previous data; nothing else changes |
| UserForm.UserFormState.HandleRoleChange | src/components/UserForm.tsx:62-71 | only the roles change, to `ToggleRole` of the previous roles |
| UserForm.UserFormState.HandleSubmit | src/components/UserForm.tsx:73-101 | editing calls update with the kept user's id. Creating without username or password sets the credentials error and makes no call; otherwise it calls create. After a call, `onSubmit` runs iff it succeeded, and a failure shows the server's message or the default. The form data is unchanged and loading ends false |
| AdmissionForm.DatetimeOrNone | src/components/AdmissionForm.tsx:55 | a present non-empty value is cut to its first 16 characters; an absent or empty one gives none |
| AdmissionForm.InitialData | src/components/AdmissionForm.tsx:46-70 | editing copies the admission with both dates cut to 16 characters and the ids of its patient and department. Creating starts with patient and department 0, status `ACTIVE`, the current instant cut to 16 characters, and no discharge date |
| AdmissionForm.Apply | src/components/AdmissionForm.tsx:86-94 | each edit replaces its own field only and never the patient id |
| AdmissionForm.Validate | src/components/AdmissionForm.tsx:101-110 | no error iff a patient is selected and a department chosen; a missing patient is reported before a missing department |
| AdmissionForm.DataToSubmit | src/components/AdmissionForm.tsx:112 | the submitted data carries the selected patient's id and equals the form data in every other field |
| AdmissionForm.PatientCheckComesFirst | src/components/AdmissionForm.tsx:101-110 | with neither patient nor department the patient error is the one shown |
| AdmissionForm.AdmissionFormState.constructor | src/components/AdmissionForm.tsx:18-70 | the form keeps the edited admission (or its absence) and starts with `InitialData` and the admission's patient as selection, no options, not loading, no error |
| AdmissionForm.AdmissionFormState.HandlePatientSearch | src/components/AdmissionForm.tsx:73-84 | under 2 characters the options are cleared and nothing is requested. Otherwise the search URL for the text is requested; a reply replaces the options and a failure keeps them. Nothing else changes |
| AdmissionForm.AdmissionFormState.HandleChange | src/components/AdmissionForm.tsx:86-94 | the form data becomes `Apply` of the edit; nothing else changes |
| AdmissionForm.AdmissionFormState.ChoosePatient | src/components/AdmissionForm.tsx:140-143 | the selection becomes the choice and the patient id its id, or 0 when cleared |
| AdmissionForm.AdmissionFormState.HandleSubmit | src/components/AdmissionForm.tsx:96-129 | a failed check sets its error and makes no call. Otherwise it calls update with the kept admission's id, or create, with `DataToSubmit`. `onSubmit` runs iff the call succeeded, and a failure shows the server's message or the default. The form data, selection and patient options are unchanged; loading ends false |
| PatientForm.InitialData | src/components/PatientForm.tsx:24-45 | editing copies exactly the seven patient fields; creating makes every field empty except gender `MALE` |
| PatientForm.WithField | src/components/PatientForm.tsx:48-51 | the named field takes the value; every other field is unchanged |
| PatientForm.PatientFormState.constructor | src/components/PatientForm.tsx:12-46 | the form keeps the edited patient (or its absence) and starts with `InitialData` of it, not loading, no error |
| PatientForm.PatientFormState.HandleChange | src/components/PatientForm.tsx:48-51 | the form data becomes `WithField` of the previous data; nothing else changes |
| PatientForm.PatientFormState.HandleSubmit | src/components/PatientForm.tsx:53-72 | editing calls update with the kept patient's id, otherwise create. `onSubmit` runs iff the call succeeded, and a failure shows the fixed message. Loading ends false |
| UsersPage.MountEffect | src/pages/UsersPage.tsx:40-63 | a non-administrator is redirected to `/unauthorized` and nothing is fetched; an administrator fetches the current page at the current size |
| UsersPage.PageAfterDelete | src/pages/UsersPage.tsx:83 | the page moves back by at most one. It moves back exactly when the deleted user was alone on a page other than the first |
| UsersPage.RoleLabel | src/pages/UsersPage.tsx:168 | the first `ROLE_` is removed and the rest of the role kept; a role without `ROLE_` is unchanged |
| UsersPage.PrefixedRoleLabel | src/pages/UsersPage.tsx:168 | `ROLE_` followed by a name is labelled as that name |
| UsersPage.RolesCell | src/pages/UsersPage.tsx:168 | no roles give an empty cell, one role its label |
| UsersPage.RolesCellAppend | src/pages/UsersPage.tsx:168 | a further role adds `, ` and its label at the end, so labels appear in list order |
| UsersPage.UsersPageState.constructor | src/pages/UsersPage.tsx:28-35 | the page starts empty, not loading, at page 0 with 10 rows per page |
| UsersPage.UsersPageState.FetchUsers | src/pages/UsersPage.tsx:42-55 | a reply replaces the users and the total and clears the error; a failure keeps them and sets the fixed error. Loading ends false and the paging is untouched |
| UsersPage.UsersPageState.DeleteUser | src/pages/UsersPage.tsx:75-91 | unconfirmed changes nothing. A success moves to `PageAfterDelete` and leaves loading set for the reload. A failure sets the fixed error, stops loading and keeps the page |
| UsersPage.UsersPageState.ChangePage | src/pages/UsersPage.tsx:104-106 | only the page changes |
| UsersPage.UsersPageState.ChangeRowsPerPage | src/pages/UsersPage.tsx:108-111 | the size changes and the page resets to 0 |
| PatientsPage.PreviousPage | src/pages/PatientsPage.tsx:169 | never below 0; one back from a positive page |
| PatientsPage.NextPage | src/pages/PatientsPage.tsx:177 | never beyond the last page nor more than one ahead; exactly one ahead when that is still a page, and the last page otherwise |
| PatientsPage.ShowPagination | src/pages/PatientsPage.tsx:135-166 | the controls are shown only under a non-empty table of an unfiltered listing, and then the first page can move forward |
| PatientsPage.PreviousDisabled | src/pages/PatientsPage.tsx:170 | on a valid page, "Previous" is disabled exactly where pressing it would leave the page in place |
| PatientsPage.NextDisabled | src/pages/PatientsPage.tsx:178 | where "Next" is disabled pressing it changes nothing, and below the page count that is the only place it changes nothing |
| PatientsPage.NextStaysInRange | src/pages/PatientsPage.tsx:135-178 | while the controls are shown (non-empty table, no query, several pages), "Next" keeps the page within range, and keeps it in place where the button is disabled |
| PatientsPage.EnabledButtonsMoveByOne | src/pages/PatientsPage.tsx:135-178 | while the controls are shown, an enabled button moves exactly one page and the other button moves back |
| PatientsPage.PatientsPageState.constructor | src/pages/PatientsPage.tsx:6-13 | the page starts empty and loading, at page 0 of 0, with no search |
| PatientsPage.PatientsPageState.FetchPatients | src/pages/PatientsPage.tsx:16-40 | with a query, its results are listed as one page and the page index is kept. Without one, the requested page is listed and its index adopted. A failure keeps the list and sets the fixed error. Loading ends false |
| PatientsPage.PatientsPageState.DeletePatient | src/pages/PatientsPage.tsx:56-69 | unconfirmed changes nothing. A success reloads the current listing: with a query its results as one page, otherwise the current page with its count and index; if the reload fails the list, page count and index are kept and the fixed load error is set. A failed delete sets the fixed delete error, stops loading and keeps the list. The query is never changed |
| PatientsPage.PatientsPageState.SearchChange | src/pages/PatientsPage.tsx:82-85 | only the query changes |
| PatientsPage.PatientsPageState.SearchSubmit | src/pages/PatientsPage.tsx:87-91 | the page resets to 0 and is fetched: with a query its results become one page and the index stays 0; otherwise page 0 is listed with its count and index; a failure keeps list and count, sets the fixed error and stays on page 0. Loading ends false |
| PatientsPage.PatientsPageState.Previous | src/pages/PatientsPage.tsx:169 | the page becomes `PreviousPage` of the old page; nothing else changes |
| PatientsPage.PatientsPageState.Next | src/pages/PatientsPage.tsx:177 | the page becomes `NextPage` of the old page; nothing else changes |
| AdmissionsPage.DepartmentCell | src/pages/AdmissionsPage.tsx:162 | the department's name when there is a non-empty one, otherwise `N/A` |
| AdmissionsPage.StatusLabel | src/pages/AdmissionsPage.tsx:164 | same length; first character kept; every later character lower-cased |
| AdmissionsPage.StatusLabelIdempotent | src/pages/AdmissionsPage.tsx:164 | labelling a label changes nothing |
| AdmissionsPage.StatusLabelOf | src/pages/AdmissionsPage.tsx:164 | a string with the same first character and the rest lower-cased is the label |
| AdmissionsPage.StatusLabels | src/pages/AdmissionsPage.tsx:164 | `ACTIVE`, `DISCHARGED` and `TRANSFERRED` show as `Active`, `Discharged` and `Transferred` |
| AdmissionsPage.AdmissionsPageState.constructor | src/pages/AdmissionsPage.tsx:28-40 | the page starts empty and loading, at page 0 with 10 rows, snackbar closed |
| AdmissionsPage.AdmissionsPageState.FetchAdmissions | src/pages/AdmissionsPage.tsx:42-55 | a reply replaces the admissions and the total; a failure keeps them and sets the fixed error. Loading ends false; paging and snackbar are untouched |
| AdmissionsPage.AdmissionsPageState.DeleteAdmission | src/pages/AdmissionsPage.tsx:71-84 | unconfirmed changes nothing. A success opens the success snackbar and refetches the same page: its admissions and total on success, the old ones and the fixed error on failure. A failed delete opens the error snackbar, stops loading and keeps list, total and error. Paging is never changed |
| AdmissionsPage.AdmissionsPageState.ChangePage | src/pages/AdmissionsPage.tsx:97-99 | only the page changes; list, total, size and snackbar are kept |
| AdmissionsPage.AdmissionsPageState.ChangeRowsPerPage | src/pages/AdmissionsPage.tsx:101-104 | the size changes and the page resets to 0; list and total are kept |
| AdmissionsPage.AdmissionsPageState.SnackbarClose | src/pages/AdmissionsPage.tsx:106-108 | the snackbar closes, keeping its message and severity; list, total and paging are unchanged |
| ReportsPage.MountEffect | src/pages/ReportsPage.tsx:30-36 | a user that is neither administrator nor physician is redirected to `/unauthorized` and nothing is fetched |
| ReportsPage.GenderChart | src/pages/ReportsPage.tsx:64-71 | labels and values have the input's length and are its genders and counts, in order |
| ReportsPage.DepartmentChart | src/pages/ReportsPage.tsx:74-83 | labels and values have the input's length and are its department names and counts, in order |
| ReportsPage.FindMonth | src/pages/ReportsPage.tsx:90 | the index found is the first record of that month; none only when no record has it |
| ReportsPage.MonthCount | src/pages/ReportsPage.tsx:90 | a month without a record counts 0; otherwise the first record for that month gives the count |
| ReportsPage.MonthlyData | src/pages/ReportsPage.tsx:90 | exactly 12 entries; entry i is the count of the first record for month i + 1, or 0 when there is none |
| ReportsPage.MonthCountSkips | src/pages/ReportsPage.tsx:90 | a record for another month, anywhere in the list, does not change a month's count |
| ReportsPage.IgnoresOutOfRangeMonth | src/pages/ReportsPage.tsx:90 | a record whose month is outside 1..12 does not change the series |
| ReportsPage.ReportsPageState.constructor | src/pages/ReportsPage.tsx:17-23 | the page starts loading, with no total and no data |
| ReportsPage.ReportsPageState.FetchReports | src/pages/ReportsPage.tsx:37-58 | the four results are stored in order, each only if every earlier request succeeded. The error is set, to the fixed message, iff some request failed. Loading ends false |
| Text.IndexFrom | src/pages/UsersPage.tsx:168 | the index found is the first occurrence at or after the start; none only when there is no such occurrence |
| Text.ReplaceFirst | src/pages/UsersPage.tsx:168 | the first occurrence is replaced by the replacement taken literally and the rest kept; without an occurrence the string is unchanged |
| Text.JoinAppend | src/pages/UsersPage.tsx:168 | joining one more part appends the separator and the part |
| Text.Lower | src/pages/AdmissionsPage.tsx:164 | same length, every character lower-cased |

## Left out

- The service modules (`src/services/patientService.ts`, `admissionService.ts`, `userService.ts`, `reportService.ts`) are not part of this model. Each call they make is a `Reply` value or a reply function supplied by the caller.
- JWT decoding, the HTTP transport, `localStorage`, `Date.now()`, `window.confirm` and `alert` are foreign calls. They become parameters, or the two small storage classes. A `localStorage` access that throws is not modelled.
- Asynchrony and React hook semantics are not modelled: effect scheduling, re-rendering, batching and stale closures. Each handler is one atomic transition. A page's effect becomes the explicit `MountEffect` decision, or an explicit call to the fetch method.
- UsersPage.UsersPageState.DeleteUser: the reload after a successful delete happens through the page's effect, which is not modelled. When the page index does not change the effect does not run again, and `loading` stays set. The method states exactly that.
- The `onSubmit`, `onCancel`, add, edit and dialog-close handlers of the pages are rendering glue: they only toggle dialog visibility and refetch. They are not modelled.
- Fetching the role catalogue (`UserForm`) and the department list (`AdmissionForm`) is not modelled: each only fills a list used for rendering and sets a fixed error on failure.
- AdmissionForm.InitialData: models the data after the form's effect runs. The initial `useState` value it replaces is not modelled. It requires an edited admission to have a department, because the effect reads `assignedDepartment.id` unguarded and throws without one.
- `handleChange` on a form can write any `name` attribute. The model restricts it to the inputs the form renders. The selects' values are taken as already typed, and `parseInt` of the rows-per-page value is not modelled.
- Api.ApiClient.InterceptResponse: a failure without a request config (`error.config` undefined) would throw inside the interceptor. The model assumes a config is always present.
- PrivateRoute.Guard: assumes every decoded token carries a `roles` array. The decoder does not check the claim, and a token without one makes `user.roles.includes` throw in the guard; that throw is not modelled.
- Sidebar.Links: assumes every decoded token carries a `roles` array, as above; without one the sidebar throws while rendering. The same holds for the role tests of `UsersPage.MountEffect` and `ReportsPage.IsAuthorized`.
- Text.ReplaceFirst: the replacement is inserted literally. The `$`-patterns that JavaScript's `replace` expands in a replacement string are not modelled; the only caller passes "".
- Text.Lower: lower-cases ASCII letters only. Unicode case mapping, and string lengths in UTF-16 code units, are not modelled.
- Locale formatting (month names, dates), Chart.js options, and all MUI/JSX rendering are left out, as are the messages shown while loading or on error.
- `src/pages/DashboardPage.tsx` (mock figures), `src/pages/LoginPage.tsx` and `src/components/Layout/Header.tsx` (calls to `login`/`logout` plus navigation) are not part of this model. Neither is the application wiring: `src/App.tsx`, `src/main.tsx`, `MainLayout.tsx` and `vite.config.ts`.
- Commented-out code is not modelled.
