/**
 * The projects page: loading the list, the search filter, the status and
 * priority colours, the status label and the remaining-task count.
 */
module ProjectsList {
  import opened Wrappers
  import opened Http
  import opened Text
  import opened Lists
  import opened FormUrlEncoded
  import opened ProjectService

  const DefaultColor: string := "#6b7280"
  const LoadFallback: string := "Failed to load projects"

  /** The search keeps a project whose name or description mentions the query. */
  predicate Matches(query: string, p: Project) {
    Mentions(p.name, query) || Mentions(p.description, query)
  }

  /** `filteredProjects`: the matching projects, in their order. */
  function FilteredProjects(ps: seq<Project>, query: string): (r: seq<Project>)
    ensures |r| <= |ps|
    ensures forall i :: 0 <= i < |r| ==> Matches(query, r[i]) && r[i] in ps
    ensures forall i :: 0 <= i < |ps| && Matches(query, ps[i]) ==> ps[i] in r
  {
    Filter(ps, p => Matches(query, p))
  }

  /** An empty search shows every project. */
  lemma EmptyQueryKeepsAll(ps: seq<Project>)
    ensures FilteredProjects(ps, "") == ps
  {
    forall i | 0 <= i < |ps| ensures Matches("", ps[i]) {
      EmptyQueryMentioned(ps[i].name);
    }
    FilterKeepsAll(ps, p => Matches("", p));
  }

  /** Searching a list made of two parts searches each part, keeping their order. */
  lemma FilterSplits(a: seq<Project>, b: seq<Project>, query: string)
    ensures FilteredProjects(a + b, query) == FilteredProjects(a, query) + FilteredProjects(b, query)
  {
    FilterAppend(a, b, p => Matches(query, p));
  }

  /** `getStatusColor`: five known statuses, grey otherwise (the planning colour is that grey too). */
  function StatusColor(status: string): (c: string)
    ensures c == DefaultColor <==> status !in {"IN_PROGRESS", "ON_HOLD", "COMPLETED", "CANCELLED"}
    ensures status == "IN_PROGRESS" ==> c == "#3b82f6"
    ensures status == "ON_HOLD" ==> c == "#f59e0b"
    ensures status == "COMPLETED" ==> c == "#10b981"
    ensures status == "CANCELLED" ==> c == "#ef4444"
  {
    if status == "PLANNING" then DefaultColor
    else if status == "IN_PROGRESS" then "#3b82f6"
    else if status == "ON_HOLD" then "#f59e0b"
    else if status == "COMPLETED" then "#10b981"
    else if status == "CANCELLED" then "#ef4444"
    else DefaultColor
  }

  /** `getPriorityColor`: four known priorities, grey otherwise. */
  function PriorityColor(priority: string): (c: string)
    ensures c == DefaultColor <==> priority !in {"LOW", "MEDIUM", "HIGH", "CRITICAL"}
    ensures priority == "LOW" ==> c == "#10b981"
    ensures priority == "MEDIUM" ==> c == "#f59e0b"
    ensures priority == "HIGH" ==> c == "#f97316"
    ensures priority == "CRITICAL" ==> c == "#ef4444"
  {
    if priority == "LOW" then "#10b981"
    else if priority == "MEDIUM" then "#f59e0b"
    else if priority == "HIGH" then "#f97316"
    else if priority == "CRITICAL" then "#ef4444"
    else DefaultColor
  }

  /** `status.replace('_', ' ')`: only the first underscore becomes a space. */
  function StatusLabel(status: string): (s: string)
    ensures IndexOf(status, "_").None? ==> s == status
    ensures IndexOf(status, "_").Some? ==>
      var i := IndexOf(status, "_").value;
      |s| == |status| && s[i] == ' ' && forall j :: 0 <= j < |s| && j != i ==> s[j] == status[j]
  {
    ReplaceFirst(status, "_", " ")
  }

  /** A status with one underscore loses it; one with two keeps the second. */
  lemma StatusLabelExamples()
    ensures StatusLabel("IN_PROGRESS") == "IN PROGRESS"
    ensures StatusLabel("A_B_C") == "A B_C"
  {
    assert OccursAt("IN_PROGRESS", "_", 2);
    assert OccursAt("A_B_C", "_", 1);
    assert "A_B_C"[0..1] == "A";
    assert "IN_PROGRESS"[0..1] == "I" && "IN_PROGRESS"[1..2] == "N";
  }

  /** The remaining tasks shown: together with the completed ones they make up the total. */
  function Remaining(p: Project): (n: int)
    ensures n + p.completed_tasks == p.total_tasks
    ensures p.completed_tasks <= p.total_tasks ==> n >= 0
  {
    p.total_tasks - p.completed_tasks
  }

  /** The state of the projects page. */
  class ProjectsView {
    const backend: Backend
    var projects: seq<Project>
    var loading: bool
    var error: Option<string>
    var filter: string

    constructor (backend: Backend)
      ensures this.backend == backend
      ensures projects == [] && loading && error.None? && filter == ""
    {
      this.backend := backend;
      projects := [];
      loading := true;
      error := None;
      filter := "";
    }

    /** The projects shown. */
    function Visible(): (r: seq<Project>)
      reads this
      ensures forall i :: 0 <= i < |r| ==> Matches(filter, r[i]) && r[i] in projects
      ensures filter == "" ==> r == projects
    {
      EmptyQueryKeepsAll(projects);
      FilteredProjects(projects, filter)
    }

    /** `loadProjects()`: all projects, unfiltered; a failure keeps the list and sets the error. */
    method LoadProjects(reply: Result<seq<Project>, Failure>)
      modifies this, backend
      ensures backend.calls == old(backend.calls) + [Call(GET, CollectionPath + "?" + Serialize(ProjectParams(None)), [], NoBody)]
      ensures reply.Success? ==> projects == reply.value && error == old(error)
      ensures reply.Failure? ==> projects == old(projects) && error == Some(DetailOr(reply.error, LoadFallback))
      ensures !loading && filter == old(filter)
    {
      loading := true;
      var r := GetProjects(backend, None, reply);
      match r {
        case Success(data) => projects := data;
        case Failure(e) => error := Some(DetailOr(e, LoadFallback));
      }
      loading := false;
    }

    /** The search box. */
    method SetFilter(query: string)
      modifies this
      ensures filter == query
      ensures projects == old(projects) && loading == old(loading) && error == old(error)
    {
      filter := query;
    }
  }
}
