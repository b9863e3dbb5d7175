/**
 * The new-project form: its initial values, the checkbox-aware field update
 * and the payload normalisation done before the project is created.
 */
module CreateProject {
  import opened Wrappers
  import opened Http
  import ProjectService

  /** A form value: the text of an input or select, or the state of a checkbox. */
  datatype FieldValue = TextValue(text: string) | CheckValue(checked: bool)

  const ProjectsRoute: string := "/projects"
  const CreateFallback: string := "Failed to create project"
  /** The fields whose empty value is sent as undefined. */
  const OptionalNames: set<string> := {"budget", "start_date", "due_date"}

  /** The form as the page opens. */
  function InitialForm(): (form: map<string, FieldValue>)
    ensures form.Keys == {"name", "description", "priority", "start_date", "due_date", "budget", "is_public"}
    ensures form["priority"] == TextValue("MEDIUM") && form["is_public"] == CheckValue(false)
    ensures forall k :: k in form && k != "priority" && k != "is_public" ==> form[k] == TextValue("")
  {
    map["name" := TextValue(""), "description" := TextValue(""), "priority" := TextValue("MEDIUM"),
        "start_date" := TextValue(""), "due_date" := TextValue(""), "budget" := TextValue(""),
        "is_public" := CheckValue(false)]
  }

  /** JavaScript truthiness of a form value. */
  predicate Truthy(v: FieldValue) {
    match v
    case TextValue(s) => s != ""
    case CheckValue(b) => b
  }

  /** A form value as JSON. */
  function ValueJson(v: FieldValue): Json {
    match v
    case TextValue(s) => JStr(s)
    case CheckValue(b) => JBool(b)
  }

  /**
   * `parseFloat(budget)`: the number written in the text (kept as text, since
   * floating point is not modelled); a checkbox value parses to NaN, which
   * is sent as null.
   */
  function BudgetJson(v: FieldValue): (j: Json)
    ensures v.TextValue? ==> j == JNumberText(v.text)
    ensures v.CheckValue? ==> j == JNull
  {
    match v
    case TextValue(s) => JNumberText(s)
    case CheckValue(_) => JNull
  }

  /** `{ ...form, budget: budget ? parseFloat(budget) : undefined, start_date: start_date || undefined, due_date: ... }`. */
  function ProjectPayload(form: map<string, FieldValue>): (body: JsonObject)
    ensures body.Keys <= form.Keys
    ensures forall k :: k in form && k !in OptionalNames ==> k in body && body[k] == ValueJson(form[k])
    ensures forall k :: k in OptionalNames ==> (k in body <==> k in form && Truthy(form[k]))
    ensures "budget" in body ==> body["budget"] == BudgetJson(form["budget"])
    ensures "start_date" in body ==> body["start_date"] == ValueJson(form["start_date"])
    ensures "due_date" in body ==> body["due_date"] == ValueJson(form["due_date"])
  {
    var spread := map k | k in form :: ValueJson(form[k]);
    var withBudget :=
      if "budget" in form && Truthy(form["budget"]) then spread["budget" := BudgetJson(form["budget"])]
      else spread - {"budget"};
    var withStart :=
      if "start_date" in form && Truthy(form["start_date"]) then withBudget else withBudget - {"start_date"};
    if "due_date" in form && Truthy(form["due_date"]) then withStart else withStart - {"due_date"}
  }

  /** Submitting the untouched form sends the name, description, priority and visibility only. */
  lemma InitialPayload()
    ensures ProjectPayload(InitialForm()) ==
      map["name" := JStr(""), "description" := JStr(""), "priority" := JStr("MEDIUM"), "is_public" := JBool(false)]
  {
    var body := ProjectPayload(InitialForm());
    var expected := map["name" := JStr(""), "description" := JStr(""), "priority" := JStr("MEDIUM"),
                        "is_public" := JBool(false)];
    assert body.Keys == expected.Keys;
  }

  /** The state of the new-project page. */
  class ProjectForm {
    const backend: Backend
    var form: map<string, FieldValue>
    var loading: bool
    var error: Option<string>
    /** The routes navigated to, oldest first. */
    var navigations: seq<string>

    constructor (backend: Backend)
      ensures this.backend == backend
      ensures form == InitialForm() && !loading && error.None? && navigations == []
    {
      this.backend := backend;
      form := InitialForm();
      loading := false;
      error := None;
      navigations := [];
    }

    /** `handleChange`: a checkbox stores `checked`, any other input its `value`; only that field changes. */
    method HandleChange(name: string, value: string, isCheckbox: bool, checked: bool)
      modifies this
      ensures isCheckbox ==> form == old(form)[name := CheckValue(checked)]
      ensures !isCheckbox ==> form == old(form)[name := TextValue(value)]
      ensures forall k :: k in old(form) && k != name ==> k in form && form[k] == old(form)[k]
      ensures loading == old(loading) && error == old(error) && navigations == old(navigations)
    {
      form := form[name := if isCheckbox then CheckValue(checked) else TextValue(value)];
    }

    /**
     * `handleSubmit`: creates the project from the normalised payload; on
     * success the page moves to the project list, on failure it shows the
     * message. `loading` ends false.
     */
    method HandleSubmit(reply: Result<ProjectService.Project, Failure>)
      modifies this, backend
      ensures backend.calls == old(backend.calls)
        + [Call(POST, ProjectService.CollectionPath, [], JsonBody(ProjectPayload(old(form))))]
      ensures !loading && form == old(form)
      ensures reply.Success? ==> error.None? && navigations == old(navigations) + [ProjectsRoute]
      ensures reply.Failure? ==>
        error == Some(DetailOr(reply.error, CreateFallback)) && navigations == old(navigations)
    {
      loading := true;
      error := None;
      var r := ProjectService.CreateProject(backend, ProjectPayload(form), reply);
      match r {
        case Success(_) => navigations := navigations + [ProjectsRoute];
        case Failure(e) => error := Some(DetailOr(e, CreateFallback));
      }
      loading := false;
    }
  }
}
