/**
 * The registration form: single-field updates, the two checks made before
 * any request (in their order), the payload sent and the outcome.
 */
module Register {
  import opened Wrappers
  import opened Http
  import opened Text
  import AuthService
  import AuthContext
  import opened Api

  const FieldNames: set<string> := {"username", "email", "password", "password_confirm", "first_name", "last_name"}
  /** The fields the registration request carries: all but the confirmation. */
  const PayloadNames: set<string> := {"username", "email", "password", "first_name", "last_name"}

  const MismatchError: string := "Passwords do not match"
  const TooShortError: string := "Password must be at least 8 characters"
  const RegisterFallback: string := "Registration failed. Please try again."
  const MinPasswordLength: nat := 8
  const DashboardRoute: string := "/dashboard"

  /** The form as the page opens: every field empty. */
  function InitialForm(): (form: map<string, string>)
    ensures form.Keys == FieldNames
    ensures forall k :: k in form ==> form[k] == ""
  {
    map k | k in FieldNames :: ""
  }

  /** Every field the submit handler reads is present. */
  predicate WellFormed(form: map<string, string>) {
    FieldNames <= form.Keys
  }

  /**
   * The message of the first failing check, if any: a confirmation that
   * differs is reported before a password that is too short.
   */
  function ValidationError(form: map<string, string>): (e: Option<string>)
    requires WellFormed(form)
    ensures form["password"] != form["password_confirm"] ==> e == Some(MismatchError)
    ensures form["password"] == form["password_confirm"] && Utf16Length(form["password"]) < MinPasswordLength ==>
      e == Some(TooShortError)
    ensures e.None? <==> form["password"] == form["password_confirm"] && Utf16Length(form["password"]) >= MinPasswordLength
  {
    if form["password"] != form["password_confirm"] then Some(MismatchError)
    else if Utf16Length(form["password"]) < MinPasswordLength then Some(TooShortError)
    else None
  }

  /** A confirmed password of at least eight characters passes both checks. */
  lemma EightCharactersSuffice(form: map<string, string>)
    requires WellFormed(form) && form["password"] == form["password_confirm"]
    requires |form["password"]| >= MinPasswordLength
    ensures ValidationError(form).None?
  {
  }

  /** The body of the registration request: the five fields as typed, never the confirmation. */
  function RegisterPayload(form: map<string, string>): (body: JsonObject)
    requires WellFormed(form)
    ensures body.Keys == PayloadNames && "password_confirm" !in body
    ensures forall k :: k in body ==> body[k] == JStr(form[k])
  {
    map k | k in PayloadNames :: JStr(form[k])
  }

  /** The state of the registration page. */
  class RegisterForm {
    const auth: AuthContext.AuthProvider
    var form: map<string, string>
    var error: Option<string>
    var loading: bool
    /** The routes navigated to, oldest first. */
    var navigations: seq<string>

    constructor (auth: AuthContext.AuthProvider)
      ensures this.auth == auth
      ensures form == InitialForm() && error.None? && !loading && navigations == []
    {
      this.auth := auth;
      form := InitialForm();
      error := None;
      loading := false;
      navigations := [];
    }

    /** `handleChange`: only the field named by the event changes. */
    method HandleChange(name: string, value: string)
      modifies this
      ensures form == old(form)[name := value]
      ensures forall k :: k in old(form) && k != name ==> k in form && form[k] == old(form)[k]
      ensures error == old(error) && loading == old(loading) && navigations == old(navigations)
    {
      form := form[name := value];
    }

    /**
     * `handleSubmit`: a failing check sets its message and sends nothing;
     * otherwise the payload is registered, and the outcome either navigates
     * to the dashboard or sets the failure message. `loading` ends false
     * on every path.
     */
    method HandleSubmit(server: (nat, Sent) -> Result<JsonObject, Failure>,
                        refresher: Option<string> -> Result<string, Failure>)
      requires WellFormed(form)
      modifies this, auth.client, auth.client.store
      ensures !loading && form == old(form)
      ensures ValidationError(form).Some? ==>
        error == ValidationError(form) && navigations == old(navigations)
        && auth.client.wire == old(auth.client.wire) && auth.client.refreshes == old(auth.client.refreshes)
        && auth.client.store.items == old(auth.client.store.items)
      ensures ValidationError(form).None? ==>
        var o := Exchange(old(auth.client.store.items), POST, AuthService.RegisterPath, JsonBody(RegisterPayload(form)),
                          server, refresher, |old(auth.client.wire)|);
        auth.client.wire == old(auth.client.wire) + o.sent && auth.client.refreshes == old(auth.client.refreshes) + o.refreshes
        && auth.client.store.items == o.items
        && (o.result.Success? ==> error.None? && navigations == old(navigations) + [DashboardRoute])
        && (o.result.Failure? ==> error == Some(DetailOr(o.result.error, RegisterFallback)) && navigations == old(navigations))
    {
      error := None;
      loading := true;
      if form["password"] != form["password_confirm"] {
        error := Some(MismatchError);
        loading := false;
        return;
      }
      if Utf16Length(form["password"]) < MinPasswordLength {
        error := Some(TooShortError);
        loading := false;
        return;
      }
      var r := auth.Register(RegisterPayload(form), server, refresher);
      match r {
        case Success(_) => navigations := navigations + [DashboardRoute];
        case Failure(e) => error := Some(DetailOr(e, RegisterFallback));
      }
      loading := false;
    }
  }
}
