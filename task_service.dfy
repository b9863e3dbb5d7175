/** `taskService`: the task, task-list and label endpoints. */
module TaskService {
  import opened Wrappers
  import opened Decimal
  import opened FormUrlEncoded
  import opened Http
  import Text

  const TasksPath: string := "/tasks/tasks/"
  const TaskListsPath: string := "/tasks/task-lists/"
  const LabelsPath: string := "/tasks/labels/"

  /** The optional filters; `None` for a filter left undefined. */
  datatype TaskFilters = TaskFilters(status: Option<string>, priority: Option<string>, assignee: Option<int>)

  function StatusValue(filters: Option<TaskFilters>): Option<string> {
    if filters.Some? then Text.IfTruthy(filters.value.status) else None
  }

  function PriorityValue(filters: Option<TaskFilters>): Option<string> {
    if filters.Some? then Text.IfTruthy(filters.value.priority) else None
  }

  /** The assignee filter in decimal; the falsy id 0 counts as no filter. */
  function AssigneeValue(filters: Option<TaskFilters>): (v: Option<string>)
    ensures v.Some? <==> filters.Some? && filters.value.assignee.Some? && filters.value.assignee.value != 0
    ensures v.Some? ==> ParseInt(v.value) == Some(filters.value.assignee.value)
  {
    if filters.Some? && filters.value.assignee.Some? && filters.value.assignee.value != 0 then
      IntToStringRoundTrip(filters.value.assignee.value);
      Some(IntToString(filters.value.assignee.value))
    else None
  }

  /**
   * The pairs `getTasks` appends: each truthy filter once, in the order
   * `status`, `priority`, `assignee`.
   */
  function TaskParams(filters: Option<TaskFilters>): (ps: seq<Param>)
    ensures OnlyNames(ps, {"status", "priority", "assignee"})
    ensures Carries(ps, "status", StatusValue(filters))
    ensures Carries(ps, "priority", PriorityValue(filters))
    ensures Carries(ps, "assignee", AssigneeValue(filters))
    ensures Before(ps, "status", "priority") && Before(ps, "priority", "assignee") && Before(ps, "status", "assignee")
  {
    Appended3("status", StatusValue(filters), "priority", PriorityValue(filters), "assignee", AssigneeValue(filters))
  }

  /** `project=${projectId}&${params}`: the project id, unencoded, ahead of the filters. */
  function TasksQuery(projectId: int, filters: Option<TaskFilters>): string {
    "project=" + IntToString(projectId) + "&" + Serialize(TaskParams(filters))
  }

  lemma DecimalUnreserved(n: int)
    ensures forall i :: 0 <= i < |IntToString(n)| ==> IsUnreservedByte(IntToString(n)[i] as int)
  {
    var s := IntToString(n);
    forall i | 0 <= i < |s|
      ensures IsUnreservedByte(s[i] as int)
    {
      if n < 0 && i > 0 {
        assert s[i] == NatToString(-n)[i - 1];
      }
    }
  }

  /**
   * The task query reads back as the project pair followed by the filter
   * pairs; the `&` left trailing when there are no filters adds nothing.
   */
  lemma TasksQueryParses(projectId: int, filters: Option<TaskFilters>)
    ensures ParseQuery(TasksQuery(projectId, filters)) == Some([("project", IntToString(projectId))] + TaskParams(filters))
    ensures TaskParams(filters) == [] ==> TasksQuery(projectId, filters) == "project=" + IntToString(projectId) + "&"
  {
    var id := IntToString(projectId);
    var ps := TaskParams(filters);
    ProjectPairWrittenAsIs(projectId);
    assert TasksQuery(projectId, filters) == EncodePair(("project", id)) + "&" + Serialize(ps);
    ParseQueryAfterPair(("project", id), ps);
  }

  lemma ProjectPairWrittenAsIs(projectId: int)
    ensures EncodePair(("project", IntToString(projectId))) == "project=" + IntToString(projectId)
  {
    var id := IntToString(projectId);
    DecimalUnreserved(projectId);
    PairWrittenAsIs("project", id);
    assert "project" + "=" + id == "project=" + id by {
      assert "project" + "=" == "project=";
    }
  }

  /** `getTaskLists(projectId)`. */
  method GetTaskLists(backend: Backend, projectId: int, reply: Result<seq<JsonObject>, Failure>)
    returns (r: Result<seq<JsonObject>, Failure>)
    modifies backend
    ensures backend.calls == old(backend.calls) + [Call(GET, TaskListsPath + "?project=" + IntToString(projectId), [], NoBody)]
    ensures r == reply
  {
    backend.Issue(Call(GET, TaskListsPath + "?project=" + IntToString(projectId), [], NoBody));
    r := reply;
  }

  /** The filter part of `getTasks`: each present filter is appended in turn. */
  method AppendTaskFilters(filters: Option<TaskFilters>) returns (params: SearchParams)
    ensures fresh(params) && params.list == TaskParams(filters)
  {
    params := new SearchParams();
    if filters.Some? && Text.Truthy(filters.value.status) {
      params.Append("status", filters.value.status.value);
    }
    assert params.list == Optional("status", StatusValue(filters));
    if filters.Some? && Text.Truthy(filters.value.priority) {
      params.Append("priority", filters.value.priority.value);
    }
    assert params.list == Appended2("status", StatusValue(filters), "priority", PriorityValue(filters));
    ghost var front := params.list;
    if filters.Some? && filters.value.assignee.Some? && filters.value.assignee.value != 0 {
      params.Append("assignee", IntToString(filters.value.assignee.value));
    }
    AppendOptional(front, "assignee", AssigneeValue(filters));
  }

  /** `getTasks(projectId, filters)`: the project first, then the filter params, then the list is fetched. */
  method GetTasks(backend: Backend, projectId: int, filters: Option<TaskFilters>,
                  reply: Result<seq<JsonObject>, Failure>)
    returns (r: Result<seq<JsonObject>, Failure>)
    modifies backend
    ensures backend.calls == old(backend.calls) + [Call(GET, TasksPath + "?" + TasksQuery(projectId, filters), [], NoBody)]
    ensures r == reply
  {
    var params := AppendTaskFilters(filters);
    var query := params.ToString();
    var url := TasksPath + "?" + ("project=" + IntToString(projectId) + "&" + query);
    backend.Issue(Call(GET, url, [], NoBody));
    r := reply;
  }

  /** `getTask(id)`. */
  method GetTask(backend: Backend, id: int, reply: Result<JsonObject, Failure>)
    returns (r: Result<JsonObject, Failure>)
    modifies backend
    ensures backend.calls == old(backend.calls) + [Call(GET, ResourcePath(TasksPath, id), [], NoBody)]
    ensures r == reply
  {
    backend.Issue(Call(GET, ResourcePath(TasksPath, id), [], NoBody));
    r := reply;
  }

  /** `createTask(data)`. */
  method CreateTask(backend: Backend, data: JsonObject, reply: Result<JsonObject, Failure>)
    returns (r: Result<JsonObject, Failure>)
    modifies backend
    ensures backend.calls == old(backend.calls) + [Call(POST, TasksPath, [], JsonBody(data))]
    ensures r == reply
  {
    backend.Issue(Call(POST, TasksPath, [], JsonBody(data)));
    r := reply;
  }

  /** `updateTask(id, data)`. */
  method UpdateTask(backend: Backend, id: int, data: JsonObject, reply: Result<JsonObject, Failure>)
    returns (r: Result<JsonObject, Failure>)
    modifies backend
    ensures backend.calls == old(backend.calls) + [Call(PATCH, ResourcePath(TasksPath, id), [], JsonBody(data))]
    ensures r == reply
  {
    backend.Issue(Call(PATCH, ResourcePath(TasksPath, id), [], JsonBody(data)));
    r := reply;
  }

  /** `deleteTask(id)`. */
  method DeleteTask(backend: Backend, id: int, reply: Result<(), Failure>)
    returns (r: Result<(), Failure>)
    modifies backend
    ensures backend.calls == old(backend.calls) + [Call(DELETE, ResourcePath(TasksPath, id), [], NoBody)]
    ensures r == reply
  {
    backend.Issue(Call(DELETE, ResourcePath(TasksPath, id), [], NoBody));
    r := reply;
  }

  /** The body of `createTaskList`: exactly the project id and the name. */
  function TaskListBody(projectId: int, name: string): (body: JsonObject)
    ensures body.Keys == {"project", "name"}
    ensures body["project"] == JInt(projectId) && body["name"] == JStr(name)
  {
    map["project" := JInt(projectId), "name" := JStr(name)]
  }

  /** `createTaskList(projectId, name)`. */
  method CreateTaskList(backend: Backend, projectId: int, name: string, reply: Result<JsonObject, Failure>)
    returns (r: Result<JsonObject, Failure>)
    modifies backend
    ensures backend.calls == old(backend.calls) + [Call(POST, TaskListsPath, [], JsonBody(TaskListBody(projectId, name)))]
    ensures r == reply
  {
    backend.Issue(Call(POST, TaskListsPath, [], JsonBody(TaskListBody(projectId, name))));
    r := reply;
  }

  /** `getLabels(projectId)`. */
  method GetLabels(backend: Backend, projectId: int, reply: Result<seq<JsonObject>, Failure>)
    returns (r: Result<seq<JsonObject>, Failure>)
    modifies backend
    ensures backend.calls == old(backend.calls) + [Call(GET, LabelsPath + "?project=" + IntToString(projectId), [], NoBody)]
    ensures r == reply
  {
    backend.Issue(Call(GET, LabelsPath + "?project=" + IntToString(projectId), [], NoBody));
    r := reply;
  }
}
