/** `projectService`: the project endpoints and the list query. */
module ProjectService {
  import opened Wrappers
  import opened FormUrlEncoded
  import opened Http
  import Text

  const CollectionPath: string := "/projects/projects/"

  /** The fields of a project the list view reads. */
  datatype Project = Project(id: int, name: string, description: string, status: string, priority: string,
                             progress: int, total_tasks: int, completed_tasks: int)

  datatype ProjectMember = ProjectMember(id: int, userId: int, role: string)

  /** The optional filters; `None` for a filter left undefined. */
  datatype ProjectFilters = ProjectFilters(status: Option<string>, priority: Option<string>, search: Option<string>)

  function StatusValue(filters: Option<ProjectFilters>): Option<string> {
    if filters.Some? then Text.IfTruthy(filters.value.status) else None
  }

  function PriorityValue(filters: Option<ProjectFilters>): Option<string> {
    if filters.Some? then Text.IfTruthy(filters.value.priority) else None
  }

  function SearchValue(filters: Option<ProjectFilters>): Option<string> {
    if filters.Some? then Text.IfTruthy(filters.value.search) else None
  }

  /**
   * The pairs `getProjects` appends: each non-empty filter once, in the order
   * `status`, `priority`, `search`.
   */
  function ProjectParams(filters: Option<ProjectFilters>): (ps: seq<Param>)
    ensures OnlyNames(ps, {"status", "priority", "search"})
    ensures Carries(ps, "status", StatusValue(filters))
    ensures Carries(ps, "priority", PriorityValue(filters))
    ensures Carries(ps, "search", SearchValue(filters))
    ensures Before(ps, "status", "priority") && Before(ps, "priority", "search") && Before(ps, "status", "search")
  {
    Appended3("status", StatusValue(filters), "priority", PriorityValue(filters), "search", SearchValue(filters))
  }

  /** An empty filter is the same as no filter. */
  lemma EmptyFiltersIgnored(filters: ProjectFilters)
    requires !Text.Truthy(filters.status) && !Text.Truthy(filters.priority) && !Text.Truthy(filters.search)
    ensures ProjectParams(Some(filters)) == ProjectParams(None) == []
  {
  }

  /** The filter part of `getProjects`: each present filter is appended in turn. */
  method AppendProjectFilters(filters: Option<ProjectFilters>) returns (params: SearchParams)
    ensures fresh(params) && params.list == ProjectParams(filters)
  {
    params := new SearchParams();
    if filters.Some? && Text.Truthy(filters.value.status) {
      params.Append("status", filters.value.status.value);
    }
    assert params.list == Optional("status", StatusValue(filters));
    if filters.Some? && Text.Truthy(filters.value.priority) {
      params.Append("priority", filters.value.priority.value);
    }
    assert params.list == Appended2("status", StatusValue(filters), "priority", PriorityValue(filters));
    if filters.Some? && Text.Truthy(filters.value.search) {
      params.Append("search", filters.value.search.value);
    }
  }

  /** `getProjects(filters)`: the filter params are appended, then the list is fetched. */
  method GetProjects(backend: Backend, filters: Option<ProjectFilters>, reply: Result<seq<Project>, Failure>)
    returns (r: Result<seq<Project>, Failure>)
    modifies backend
    ensures backend.calls == old(backend.calls) + [Call(GET, CollectionPath + "?" + Serialize(ProjectParams(filters)), [], NoBody)]
    ensures r == reply
  {
    var params := AppendProjectFilters(filters);
    backend.Issue(Call(GET, CollectionPath + "?" + params.ToString(), [], NoBody));
    r := reply;
  }

  /** `getProject(id)`. */
  method GetProject(backend: Backend, id: int, reply: Result<Project, Failure>)
    returns (r: Result<Project, Failure>)
    modifies backend
    ensures backend.calls == old(backend.calls) + [Call(GET, ResourcePath(CollectionPath, id), [], NoBody)]
    ensures r == reply
  {
    backend.Issue(Call(GET, ResourcePath(CollectionPath, id), [], NoBody));
    r := reply;
  }

  /** `createProject(data)`: posts the data to the collection. */
  method CreateProject(backend: Backend, data: JsonObject, reply: Result<Project, Failure>)
    returns (r: Result<Project, Failure>)
    modifies backend
    ensures backend.calls == old(backend.calls) + [Call(POST, CollectionPath, [], JsonBody(data))]
    ensures r == reply
  {
    backend.Issue(Call(POST, CollectionPath, [], JsonBody(data)));
    r := reply;
  }

  /** `updateProject(id, data)`: patches the project's own address. */
  method UpdateProject(backend: Backend, id: int, data: JsonObject, reply: Result<Project, Failure>)
    returns (r: Result<Project, Failure>)
    modifies backend
    ensures backend.calls == old(backend.calls) + [Call(PATCH, ResourcePath(CollectionPath, id), [], JsonBody(data))]
    ensures r == reply
  {
    backend.Issue(Call(PATCH, ResourcePath(CollectionPath, id), [], JsonBody(data)));
    r := reply;
  }

  /** `deleteProject(id)`. */
  method DeleteProject(backend: Backend, id: int, reply: Result<(), Failure>)
    returns (r: Result<(), Failure>)
    modifies backend
    ensures backend.calls == old(backend.calls) + [Call(DELETE, ResourcePath(CollectionPath, id), [], NoBody)]
    ensures r == reply
  {
    backend.Issue(Call(DELETE, ResourcePath(CollectionPath, id), [], NoBody));
    r := reply;
  }

  /** The project detail as `getProjectMembers` reads it: `members` may be missing. */
  datatype ProjectDetail = ProjectDetail(members: Option<seq<ProjectMember>>)

  /** `data.members || []`. */
  function MembersOf(detail: ProjectDetail): (ms: seq<ProjectMember>)
    ensures detail.members.Some? ==> ms == detail.members.value
    ensures detail.members.None? ==> ms == []
  {
    detail.members.GetOr([])
  }

  /** `getProjectMembers(id)`: fetches the project and keeps its members, or none. */
  method GetProjectMembers(backend: Backend, id: int, reply: Result<ProjectDetail, Failure>)
    returns (r: Result<seq<ProjectMember>, Failure>)
    modifies backend
    ensures backend.calls == old(backend.calls) + [Call(GET, ResourcePath(CollectionPath, id), [], NoBody)]
    ensures reply.Success? ==> r == Success(MembersOf(reply.value))
    ensures reply.Failure? ==> r == Failure(reply.error)
  {
    backend.Issue(Call(GET, ResourcePath(CollectionPath, id), [], NoBody));
    match reply {
      case Success(detail) => r := Success(MembersOf(detail));
      case Failure(e) => r := Failure(e);
    }
  }
}
