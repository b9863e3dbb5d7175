/**
 * The profile page: the form prefilled from the signed-in user, single-field
 * edits, the submit outcomes and the role labels.
 */
module Profile {
  import opened Wrappers
  import opened Http
  import AuthService
  import opened Api

  /** The editable fields, as the prefill copies them from the user. */
  const EditableNames: set<string> := {"first_name", "last_name", "phone_number", "bio", "job_title", "department"}

  const SavedText: string := "Profile updated successfully!"
  const FailedText: string := "Failed to update profile. Please try again."

  /** The user's value for one of the editable fields; `None` when the user lacks it. */
  function UserField(user: AuthService.UserProfile, name: string): Option<string>
    requires name in EditableNames
  {
    if name == "first_name" then user.first_name
    else if name == "last_name" then user.last_name
    else if name == "phone_number" then user.phone_number
    else if name == "bio" then user.bio
    else if name == "job_title" then user.job_title
    else user.department
  }

  /** The form after copying one field: a missing field is left unset, as an `undefined` value is. */
  function Copy(form: map<string, string>, name: string, v: Option<string>): (r: map<string, string>)
    ensures v.None? ==> r == form
    ensures v.Some? ==> r.Keys == form.Keys + {name} && r[name] == v.value
    ensures forall k :: k in form && k != name ==> k in r && r[k] == form[k]
  {
    if v.Some? then form[name := v.value] else form
  }

  /**
   * The form's contents once the user is known: the editable fields the user
   * has, each with the user's value, and nothing else.
   */
  function Prefill(user: AuthService.UserProfile): (form: map<string, string>)
    ensures form.Keys <= EditableNames
    ensures ("first_name" in form <==> user.first_name.Some?) && ("first_name" in form ==> Some(form["first_name"]) == user.first_name)
    ensures ("last_name" in form <==> user.last_name.Some?) && ("last_name" in form ==> Some(form["last_name"]) == user.last_name)
    ensures ("phone_number" in form <==> user.phone_number.Some?) && ("phone_number" in form ==> Some(form["phone_number"]) == user.phone_number)
    ensures ("bio" in form <==> user.bio.Some?) && ("bio" in form ==> Some(form["bio"]) == user.bio)
    ensures ("job_title" in form <==> user.job_title.Some?) && ("job_title" in form ==> Some(form["job_title"]) == user.job_title)
    ensures ("department" in form <==> user.department.Some?) && ("department" in form ==> Some(form["department"]) == user.department)
  {
    var f1 := Copy(map[], "first_name", user.first_name);
    var f2 := Copy(f1, "last_name", user.last_name);
    var f3 := Copy(f2, "phone_number", user.phone_number);
    var f4 := Copy(f3, "bio", user.bio);
    var f5 := Copy(f4, "job_title", user.job_title);
    var f6 := Copy(f5, "department", user.department);
    assert f6.Keys <= EditableNames;
    f6
  }

  /** The partial profile sent as the patch: every form field as a string. */
  function ProfileBody(form: map<string, string>): (body: JsonObject)
    ensures body.Keys == form.Keys
    ensures forall k :: k in body ==> body[k] == JStr(form[k])
  {
    map k | k in form :: JStr(form[k])
  }

  /**
   * Saving an untouched prefilled form patches exactly the editable fields the
   * user has, with the user's own values; email and role are never sent.
   */
  lemma UntouchedPatch(user: AuthService.UserProfile)
    ensures ProfileBody(Prefill(user)).Keys <= EditableNames
    ensures forall n :: n in EditableNames ==> (n in ProfileBody(Prefill(user)) <==> UserField(user, n).Some?)
    ensures forall n :: n in ProfileBody(Prefill(user)) ==> ProfileBody(Prefill(user))[n] == JStr(UserField(user, n).value)
    ensures "email" !in ProfileBody(Prefill(user)) && "role" !in ProfileBody(Prefill(user))
  {
    var form := Prefill(user);
    forall n | n in EditableNames
      ensures n in form <==> UserField(user, n).Some?
      ensures n in form ==> form[n] == UserField(user, n).value
    {
      if n == "first_name" {
      } else if n == "last_name" {
      } else if n == "phone_number" {
      } else if n == "bio" {
      } else if n == "job_title" {
      } else {
        assert n == "department";
      }
    }
  }

  /** The test fixture's user: no phone number, bio, job title or department. */
  const FixtureUser: AuthService.UserProfile :=
    AuthService.UserProfile(1, "testuser", "test@example.com", None, Some("Test"), Some("User"),
                            None, None, None, None, "DEV")

  /** For the fixture user an untouched form patches only the two names. */
  lemma FixturePatch()
    ensures ProfileBody(Prefill(FixtureUser)) == map["first_name" := JStr("Test"), "last_name" := JStr("User")]
  {
    var body := ProfileBody(Prefill(FixtureUser));
    assert UserField(FixtureUser, "first_name") == Some("Test");
    assert UserField(FixtureUser, "last_name") == Some("User");
    assert body.Keys == {"first_name", "last_name"} by {
      forall n | n in EditableNames && n != "first_name" && n != "last_name"
        ensures UserField(FixtureUser, n).None?
      {
      }
    }
  }

  datatype Message = SuccessMessage(text: string) | ErrorMessage(text: string)

  /** The role codes with a name of their own. */
  const KnownRoles: set<string> := {"ADMIN", "PM", "TL", "DEV", "DES", "CLIENT"}

  /** The role as the details list names it; an unknown code is shown as it is. */
  function RoleLabel(role: string): (name: string)
    ensures role !in KnownRoles ==> name == role
    ensures role in KnownRoles ==> name != role && name != ""
    ensures role == "ADMIN" ==> name == "Admin"
    ensures role == "PM" ==> name == "Project Manager"
    ensures role == "TL" ==> name == "Team Lead"
    ensures role == "DEV" ==> name == "Developer"
    ensures role == "DES" ==> name == "Designer"
    ensures role == "CLIENT" ==> name == "Client"
  {
    if role == "ADMIN" then "Admin"
    else if role == "PM" then "Project Manager"
    else if role == "TL" then "Team Lead"
    else if role == "DEV" then "Developer"
    else if role == "DES" then "Designer"
    else if role == "CLIENT" then "Client"
    else role
  }

  /** The role under the page title: only ADMIN is named. */
  function HeaderRoleLabel(role: string): (name: string)
    ensures role == "ADMIN" ==> name == "Admin"
    ensures role != "ADMIN" ==> name == role
  {
    if role == "ADMIN" then "Admin" else role
  }

  /** The two labels agree exactly for ADMIN and for the codes without a name. */
  lemma HeaderAgreesWithDetails(role: string)
    ensures HeaderRoleLabel(role) == RoleLabel(role) <==> role == "ADMIN" || role !in KnownRoles
  {
  }

  /** Distinct known roles get distinct names. */
  lemma RoleLabelsDistinct(a: string, b: string)
    requires a in KnownRoles && b in KnownRoles && a != b
    ensures RoleLabel(a) != RoleLabel(b)
  {
  }

  /** The state of the profile page. */
  class ProfileEditor {
    const client: ApiClient
    var formData: map<string, string>
    var isEditing: bool
    var loading: bool
    var message: Option<Message>

    constructor (client: ApiClient)
      ensures this.client == client
      ensures formData == map[] && !isEditing && !loading && message.None?
    {
      this.client := client;
      formData := map[];
      isEditing := false;
      loading := false;
      message := None;
    }

    /** The prefill effect, run whenever the signed-in user changes: without a user the form stays. */
    method SyncUser(user: Option<AuthService.UserProfile>)
      modifies this
      ensures user.Some? ==> formData == Prefill(user.value)
      ensures user.None? ==> formData == old(formData)
      ensures isEditing == old(isEditing) && loading == old(loading) && message == old(message)
    {
      if user.Some? {
        formData := Prefill(user.value);
      }
    }

    /** `handleChange`: only the named field changes. */
    method HandleChange(name: string, value: string)
      modifies this
      ensures formData == old(formData)[name := value]
      ensures forall k :: k in old(formData) && k != name ==> k in formData && formData[k] == old(formData)[k]
      ensures isEditing == old(isEditing) && loading == old(loading) && message == old(message)
    {
      formData := formData[name := value];
    }

    /** The Edit/Cancel button. */
    method ToggleEdit()
      modifies this
      ensures isEditing == !old(isEditing)
      ensures formData == old(formData) && loading == old(loading) && message == old(message)
    {
      isEditing := !isEditing;
    }

    /**
     * `handleSubmit`: patches the profile with the form; success shows the
     * saved message and leaves editing, failure shows the error and stays
     * in editing. `loading` ends false.
     */
    method HandleSubmit(server: (nat, Sent) -> Result<AuthService.UserProfile, Failure>,
                        refresher: Option<string> -> Result<string, Failure>)
      modifies this, client, client.store
      ensures !loading && formData == old(formData)
      ensures var o := Exchange(old(client.store.items), PATCH, AuthService.ProfilePath,
                                JsonBody(ProfileBody(old(formData))), server, refresher, |old(client.wire)|);
              client.wire == old(client.wire) + o.sent && client.refreshes == old(client.refreshes) + o.refreshes
              && client.store.items == o.items
              && (o.result.Success? ==> message == Some(SuccessMessage(SavedText)) && !isEditing)
              && (o.result.Failure? ==> message == Some(ErrorMessage(FailedText)) && isEditing == old(isEditing))
    {
      loading := true;
      message := None;
      var r := AuthService.UpdateProfile(client, ProfileBody(formData), server, refresher);
      if r.Success? {
        message := Some(SuccessMessage(SavedText));
        isEditing := false;
      } else {
        message := Some(ErrorMessage(FailedText));
      }
      loading := false;
    }
  }
}
