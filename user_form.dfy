/** The user create/edit form: its initial data, single-field edits, the role
    checkboxes, and the submit handler with its create-mode check. */
module UserForm {
  import opened Util
  import opened Dto

  /** `UserCreateRequest | UserUpdateRequest`: an edit form starts without
      `username` and `password`. */
  datatype UserFormData = UserFormData(
    username: Option<string>,
    email: string,
    password: Option<string>,
    nomComplet: string,
    roles: seq<string>)

  /** The text inputs, by their `name` attribute. */
  datatype UserField = Username | Email | Password | NomComplet

  /** The service call a submission makes. */
  datatype UserCall = NoCall | CreateUser(data: UserFormData) | UpdateUser(id: int, data: UserFormData)

  const MISSING_CREDENTIALS := "Nom d'utilisateur et mot de passe sont obligatoires pour la création."
  const SAVE_FAILED := "Erreur lors de l'enregistrement de l'utilisateur."

  function Field(d: UserFormData, f: UserField): Option<string>
  {
    match f
    case Username => d.username
    case Email => Some(d.email)
    case Password => d.password
    case NomComplet => Some(d.nomComplet)
  }

  /** The create check: `username` present and non-empty, `password` non-empty. */
  function CreateAllowed(d: UserFormData): (r: bool)
    ensures r <==> OrElse(d.username, "") != "" && OrElse(d.password, "") != ""
    ensures r ==> d.username.Some? && d.password.Some?
  {
    d.username.Some? && d.username.value != "" && d.password.Some? && d.password.value != ""
  }

  /** The data the form holds once the user (or its absence) is known: an edit
      copies only email, full name and roles; a creation starts empty. */
  function InitialData(user: Option<UserResponse>): (d: UserFormData)
    ensures user.Some? ==>
      d.username.None? && d.password.None? &&
      d.email == user.value.email && d.nomComplet == user.value.nomComplet && d.roles == user.value.roles
    ensures user.None? ==> forall f :: Field(d, f) == Some("")
    ensures user.None? ==> d.roles == [] && !CreateAllowed(d)
  {
    match user
    case Some(u) => UserFormData(None, u.email, None, u.nomComplet, u.roles)
    case None => UserFormData(Some(""), "", Some(""), "", [])
  }

  /** `{...prev, [name]: value}`. */
  function WithField(d: UserFormData, f: UserField, value: string): (r: UserFormData)
    ensures Field(r, f) == Some(value)
    ensures forall g :: g != f ==> Field(r, g) == Field(d, g)
    ensures r.roles == d.roles
  {
    match f
    case Username => d.(username := Some(value))
    case Email => d.(email := value)
    case Password => d.(password := Some(value))
    case NomComplet => d.(nomComplet := value)
  }

  /** `roles.filter(r => r !== role)`. */
  function Without(roles: seq<string>, role: string): (r: seq<string>)
    ensures forall x :: x in r <==> x in roles && x != role
    ensures |r| <= |roles|
  {
    if roles == [] then []
    else (if roles[0] == role then [] else [roles[0]]) + Without(roles[1..], role)
  }

  lemma {:induction false} WithoutAppend(a: seq<string>, b: seq<string>, role: string)
    ensures Without(a + b, role) == Without(a, role) + Without(b, role)
  {
    if a == [] {
      assert a + b == b;
    } else {
      var head := if a[0] == role then [] else [a[0]];
      calc {
        Without(a + b, role);
        { assert (a + b)[0] == a[0] && (a + b)[1..] == a[1..] + b; }
        head + Without(a[1..] + b, role);
        { WithoutAppend(a[1..], b, role); }
        head + (Without(a[1..], role) + Without(b, role));
        (head + Without(a[1..], role)) + Without(b, role);
      }
    }
  }

  lemma {:induction false} WithoutAbsent(roles: seq<string>, role: string)
    requires role !in roles
    ensures Without(roles, role) == roles
  {
    if roles != [] {
      WithoutAbsent(roles[1..], role);
    }
  }

  /** `handleRoleChange`: a checked role is removed (every occurrence), an
      unchecked one is appended. */
  function ToggleRole(roles: seq<string>, role: string): (r: seq<string>)
    ensures role in r <==> role !in roles
    ensures forall x :: x != role ==> (x in r <==> x in roles)
    ensures role !in roles ==> |r| == |roles| + 1 && r[..|roles|] == roles && r[|roles|] == role
  {
    if role in roles then Without(roles, role) else roles + [role]
  }

  /** Checking then unchecking a role restores the list. */
  lemma ToggleTwiceRestores(roles: seq<string>, role: string)
    requires role !in roles
    ensures ToggleRole(ToggleRole(roles, role), role) == roles
  {
    WithoutAppend(roles, [role], role);
    WithoutAbsent(roles, role);
  }

  /** Removing keeps the other roles in their order. */
  lemma ToggleKeepsOrder(a: seq<string>, b: seq<string>, role: string)
    requires role in a + b
    ensures ToggleRole(a + b, role) == Without(a, role) + Without(b, role)
  {
    WithoutAppend(a, b, role);
  }

  /** The form's state: its data, the loading flag and the displayed error. */
  class UserFormState {
    /** The `user` prop: the user being edited, if any. */
    const user: Option<UserResponse>
    var formData: UserFormData
    var loading: bool
    var error: Option<string>

    constructor (user: Option<UserResponse>)
      ensures this.user == user
      ensures formData == InitialData(user) && !loading && error.None?
    {
      this.user := user;
      formData := InitialData(user);
      loading := false;
      error := None;
    }

    method HandleChange(f: UserField, value: string)
      modifies this
      ensures formData == WithField(old(formData), f, value)
      ensures loading == old(loading) && error == old(error)
    {
      formData := WithField(formData, f, value);
    }

    method HandleRoleChange(role: string)
      modifies this
      ensures formData == old(formData).(roles := ToggleRole(old(formData.roles), role))
      ensures loading == old(loading) && error == old(error)
    {
      formData := formData.(roles := ToggleRole(formData.roles, role));
    }

    /** `handleSubmit`, given the reply of the service call it makes (if any);
        `submitted` tells whether the `onSubmit` callback ran. */
    method HandleSubmit(reply: Reply<UserResponse>) returns (call: UserCall, submitted: bool)
      modifies this
      ensures formData == old(formData) && !loading
      ensures user.Some? ==> call == UpdateUser(user.value.id, formData)
      ensures user.None? && CreateAllowed(formData) ==> call == CreateUser(formData)
      ensures user.None? && !CreateAllowed(formData) ==>
        call == NoCall && !submitted && error == Some(MISSING_CREDENTIALS)
      ensures call != NoCall ==> (submitted <==> reply.Ok?)
      ensures call != NoCall && reply.Ok? ==> error.None?
      ensures call != NoCall && reply.Failed? ==> error == Some(OrElse(reply.serverMessage, SAVE_FAILED))
    {
      loading := true;
      error := None;
      submitted := false;
      if user.Some? {
        call := UpdateUser(user.value.id, formData);
      } else {
        if !CreateAllowed(formData) {
          error := Some(MISSING_CREDENTIALS);
          loading := false;
          call := NoCall;
          return;
        }
        call := CreateUser(formData);
      }
      if reply.Ok? {
        submitted := true;
      } else {
        error := Some(OrElse(reply.serverMessage, SAVE_FAILED));
      }
      loading := false;
    }
  }
}
