/** `notificationService`: the notification endpoints and the list query. */
module NotificationService {
  import opened Wrappers
  import opened FormUrlEncoded
  import opened Http
  import Text

  const ListPath: string := "/notifications/"
  const UnreadCountPath: string := "/notifications/unread-count/"
  const MarkAllPath: string := "/notifications/mark_all_as_read/"

  datatype Notification = Notification(id: int, recipient: int, notification_type: string, title: string,
                                       message: string, is_read: bool, created_at: string,
                                       read_at: Option<string>)

  /** The optional filters; `None` for a filter left undefined. */
  datatype NotificationFilters = NotificationFilters(is_read: Option<bool>, notification_type: Option<string>)

  /** `b.toString()`. */
  function BoolString(b: bool): (s: string)
    ensures s == "true" <==> b
    ensures s == "false" <==> !b
  {
    if b then "true" else "false"
  }

  /** The `is_read` filter as a query value: any defined value counts, `false` included. */
  function IsReadValue(filters: Option<NotificationFilters>): (v: Option<string>)
    ensures v.Some? <==> filters.Some? && filters.value.is_read.Some?
    ensures v.Some? ==> v.value == BoolString(filters.value.is_read.value)
  {
    if filters.Some? && filters.value.is_read.Some? then Some(BoolString(filters.value.is_read.value)) else None
  }

  /** The `notification_type` filter as a query value: only a non-empty one counts. */
  function TypeValue(filters: Option<NotificationFilters>): (v: Option<string>)
    ensures v.Some? <==> filters.Some? && Text.Truthy(filters.value.notification_type)
    ensures v.Some? ==> v.value == filters.value.notification_type.value
  {
    if filters.Some? then Text.IfTruthy(filters.value.notification_type) else None
  }

  /** The pairs `getNotifications` appends. */
  function NotificationParams(filters: Option<NotificationFilters>): (ps: seq<Param>)
    ensures OnlyNames(ps, {"is_read", "notification_type"})
    ensures Carries(ps, "is_read", IsReadValue(filters))
    ensures Carries(ps, "notification_type", TypeValue(filters))
    ensures Before(ps, "is_read", "notification_type")
  {
    Appended2("is_read", IsReadValue(filters), "notification_type", TypeValue(filters))
  }

  /** The address `getNotifications` fetches: the list path, `?`, then the serialized filter pairs. */
  function ListUrl(filters: Option<NotificationFilters>): string {
    ListPath + "?" + Serialize(NotificationParams(filters))
  }

  /** The list URL starts with the list path and `?`, and its query reads back as the filter pairs. */
  lemma ListUrlParses(filters: Option<NotificationFilters>)
    ensures var url := ListUrl(filters);
      |url| > |ListPath| && url[..|ListPath| + 1] == ListPath + "?"
      && ParseQuery(url[|ListPath| + 1..]) == Some(NotificationParams(filters))
  {
    var query := Serialize(NotificationParams(filters));
    ParseQuerySerialize(NotificationParams(filters));
    assert ListUrl(filters)[|ListPath| + 1..] == query;
  }

  /** Without filters the list URL is the bare `/notifications/?`. */
  lemma UnfilteredUrl()
    ensures ListUrl(None) == "/notifications/?"
    ensures ListUrl(Some(NotificationFilters(None, None))) == "/notifications/?"
  {
  }

  /** The filter part of `getNotifications`: each present filter is appended in turn. */
  method AppendNotificationFilters(filters: Option<NotificationFilters>) returns (params: SearchParams)
    ensures fresh(params) && params.list == NotificationParams(filters)
  {
    params := new SearchParams();
    if filters.Some? && filters.value.is_read.Some? {
      params.Append("is_read", BoolString(filters.value.is_read.value));
    }
    if filters.Some? && Text.Truthy(filters.value.notification_type) {
      params.Append("notification_type", filters.value.notification_type.value);
    }
  }

  /** `getNotifications(filters)`: the filter params are appended, then the list is fetched. */
  method GetNotifications(backend: Backend, filters: Option<NotificationFilters>,
                          reply: Result<seq<Notification>, Failure>)
    returns (r: Result<seq<Notification>, Failure>)
    modifies backend
    ensures backend.calls == old(backend.calls) + [Call(GET, ListUrl(filters), [], NoBody)]
    ensures r == reply
  {
    var params := AppendNotificationFilters(filters);
    var query := params.ToString();
    backend.Issue(Call(GET, ListPath + "?" + query, [], NoBody));
    r := reply;
  }

  datatype UnreadCount = UnreadCount(count: int)

  /** `getUnreadCount()`: the `count` field of the answer. */
  method GetUnreadCount(backend: Backend, reply: Result<UnreadCount, Failure>)
    returns (r: Result<int, Failure>)
    modifies backend
    ensures backend.calls == old(backend.calls) + [Call(GET, UnreadCountPath, [], NoBody)]
    ensures reply.Success? ==> r == Success(reply.value.count)
    ensures reply.Failure? ==> r == Failure(reply.error)
  {
    backend.Issue(Call(GET, UnreadCountPath, [], NoBody));
    match reply {
      case Success(body) => r := Success(body.count);
      case Failure(e) => r := Failure(e);
    }
  }

  /** `markAsRead(id)`: a post without a body to `/notifications/{id}/mark_as_read/`. */
  method MarkAsRead(backend: Backend, id: int, reply: Result<(), Failure>)
    returns (r: Result<(), Failure>)
    modifies backend
    ensures backend.calls == old(backend.calls) + [Call(POST, ActionPath(ListPath, id, "mark_as_read"), [], NoBody)]
    ensures r == reply
  {
    backend.Issue(Call(POST, ActionPath(ListPath, id, "mark_as_read"), [], NoBody));
    r := reply;
  }

  /** `markAllAsRead()`. */
  method MarkAllAsRead(backend: Backend, reply: Result<(), Failure>)
    returns (r: Result<(), Failure>)
    modifies backend
    ensures backend.calls == old(backend.calls) + [Call(POST, MarkAllPath, [], NoBody)]
    ensures r == reply
  {
    backend.Issue(Call(POST, MarkAllPath, [], NoBody));
    r := reply;
  }

  /** `deleteNotification(id)`: a delete of `/notifications/{id}/`. */
  method DeleteNotification(backend: Backend, id: int, reply: Result<(), Failure>)
    returns (r: Result<(), Failure>)
    modifies backend
    ensures backend.calls == old(backend.calls) + [Call(DELETE, ResourcePath(ListPath, id), [], NoBody)]
    ensures r == reply
  {
    backend.Issue(Call(DELETE, ResourcePath(ListPath, id), [], NoBody));
    r := reply;
  }
}
