/**
 * The notifications page: the tab filter, the list updates after marking
 * notifications read, the "mark all" offer and the relative time labels.
 */
module NotificationsList {
  import opened Wrappers
  import opened Http
  import opened Decimal
  import opened FormUrlEncoded
  import opened NotificationService

  const LoadFallback: string := "Failed to load notifications"

  datatype Tab = All | Unread | Read

  /** The `is_read` filter a tab asks for. */
  function IsReadFilter(tab: Tab): (r: Option<bool>)
    ensures r == Some(true) <==> tab == Read
    ensures r == Some(false) <==> tab == Unread
    ensures r.None? <==> tab == All
  {
    match tab
    case Read => Some(true)
    case Unread => Some(false)
    case All => None
  }

  /** The filters a tab sends: never a notification type. */
  function TabFilters(tab: Tab): NotificationFilters {
    NotificationFilters(IsReadFilter(tab), None)
  }

  /** The list after `markAsRead(id)`: the entries with that id read, everything else as it was. */
  function MarkedRead(ns: seq<Notification>, id: int): (r: seq<Notification>)
    ensures |r| == |ns|
    ensures forall i :: 0 <= i < |ns| && ns[i].id == id ==> r[i] == ns[i].(is_read := true)
    ensures forall i :: 0 <= i < |ns| && ns[i].id != id ==> r[i] == ns[i]
  {
    if ns == [] then []
    else [if ns[0].id == id then ns[0].(is_read := true) else ns[0]] + MarkedRead(ns[1..], id)
  }

  /** The list after `markAllAsRead()`: every entry read, its other fields unchanged. */
  function MarkedAllRead(ns: seq<Notification>): (r: seq<Notification>)
    ensures |r| == |ns|
    ensures forall i :: 0 <= i < |ns| ==> r[i] == ns[i].(is_read := true)
  {
    if ns == [] then [] else [ns[0].(is_read := true)] + MarkedAllRead(ns[1..])
  }

  /** `notifications.some((n) => !n.is_read)`: whether "Mark all as read" is offered. */
  function ShowMarkAll(ns: seq<Notification>): (b: bool)
    ensures b <==> exists i :: 0 <= i < |ns| && !ns[i].is_read
  {
    if ns == [] then false
    else if !ns[0].is_read then true
    else
      var rest := ShowMarkAll(ns[1..]);
      assert forall i :: 1 <= i < |ns| ==> ns[i] == ns[1..][i - 1];
      rest
  }

  /** After marking everything read the offer disappears. */
  lemma MarkAllHidesOffer(ns: seq<Notification>)
    ensures !ShowMarkAll(MarkedAllRead(ns))
  {
  }

  /** Marking one id read twice is the same as marking it once. */
  lemma MarkedReadIdempotent(ns: seq<Notification>, id: int)
    ensures MarkedRead(MarkedRead(ns, id), id) == MarkedRead(ns, id)
  {
  }

  /** Once every id in the list has been marked, the list is the fully read one. */
  lemma {:induction false} MarkingEveryIdReadsAll(ns: seq<Notification>)
    ensures MarkedAllRead(ns) == MarkEach(ns, Ids(ns))
    decreases |ns|
  {
    var ids := Ids(ns);
    forall i | 0 <= i < |ns|
      ensures MarkEach(ns, ids)[i] == ns[i].(is_read := true)
    {
      MarkEachAt(ns, ids, i);
      assert ns[i].id == ids[i];
    }
  }

  /** The ids of a list, in order. */
  function Ids(ns: seq<Notification>): (ids: seq<int>)
    ensures |ids| == |ns|
    ensures forall i :: 0 <= i < |ns| ==> ids[i] == ns[i].id
  {
    if ns == [] then [] else [ns[0].id] + Ids(ns[1..])
  }

  /** `markAsRead` applied for each id in turn. */
  function MarkEach(ns: seq<Notification>, ids: seq<int>): (r: seq<Notification>)
    ensures |r| == |ns|
    decreases |ids|
  {
    if ids == [] then ns else MarkEach(MarkedRead(ns, ids[0]), ids[1..])
  }

  /** After marking the ids `ids`, an entry is read exactly when it was read or its id is among them. */
  lemma {:induction false} MarkEachAt(ns: seq<Notification>, ids: seq<int>, i: int)
    requires 0 <= i < |ns|
    ensures MarkEach(ns, ids)[i] == ns[i].(is_read := ns[i].is_read || ns[i].id in ids)
    decreases |ids|
  {
    if ids == [] {
    } else {
      MarkEachAt(MarkedRead(ns, ids[0]), ids[1..], i);
    }
  }

  /** A time label; the calendar date past a week is locale formatting. */
  datatype TimeLabel = JustNow | MinutesAgo(minutes: int) | HoursAgo(hours: int) | DaysAgo(days: int) | CalendarDate

  const MinuteMs: int := 60000
  const HourMs: int := 3600000
  const DayMs: int := 86400000

  /**
   * `formatTime` for a notification created `elapsedMs` milliseconds ago,
   * with the whole minutes, hours and days rounded down.
   */
  function FormatTime(elapsedMs: int): (t: TimeLabel)
    ensures t == JustNow <==> elapsedMs < MinuteMs
    ensures t.MinutesAgo? <==> MinuteMs <= elapsedMs < HourMs
    ensures t.HoursAgo? <==> HourMs <= elapsedMs < DayMs
    ensures t.DaysAgo? <==> DayMs <= elapsedMs < 7 * DayMs
    ensures t == CalendarDate <==> 7 * DayMs <= elapsedMs
    ensures t.MinutesAgo? ==>
      1 <= t.minutes < 60 && t.minutes * MinuteMs <= elapsedMs < (t.minutes + 1) * MinuteMs
    ensures t.HoursAgo? ==>
      1 <= t.hours < 24 && t.hours * HourMs <= elapsedMs < (t.hours + 1) * HourMs
    ensures t.DaysAgo? ==>
      1 <= t.days < 7 && t.days * DayMs <= elapsedMs < (t.days + 1) * DayMs
  {
    var mins := elapsedMs / MinuteMs;
    var hours := elapsedMs / HourMs;
    var days := elapsedMs / DayMs;
    if mins < 1 then JustNow
    else if mins < 60 then MinutesAgo(mins)
    else if hours < 24 then HoursAgo(hours)
    else if days < 7 then DaysAgo(days)
    else CalendarDate
  }

  /** The text shown for a label other than the calendar date. */
  function LabelText(t: TimeLabel): (s: Option<string>)
    ensures s.None? <==> t == CalendarDate
    ensures t == JustNow ==> s == Some("Just now")
    ensures t.MinutesAgo? ==> s == Some(IntToString(t.minutes) + "m ago")
    ensures t.HoursAgo? ==> s == Some(IntToString(t.hours) + "h ago")
    ensures t.DaysAgo? ==> s == Some(IntToString(t.days) + "d ago")
  {
    match t
    case JustNow => Some("Just now")
    case MinutesAgo(m) => Some(IntToString(m) + "m ago")
    case HoursAgo(h) => Some(IntToString(h) + "h ago")
    case DaysAgo(d) => Some(IntToString(d) + "d ago")
    case CalendarDate => None
  }

  /** The coarseness of a label. */
  function Unit(t: TimeLabel): nat {
    match t
    case JustNow => 0
    case MinutesAgo(_) => 1
    case HoursAgo(_) => 2
    case DaysAgo(_) => 3
    case CalendarDate => 4
  }

  /** Older notifications never get a finer label. */
  lemma FormatTimeMonotone(a: int, b: int)
    requires a <= b
    ensures Unit(FormatTime(a)) <= Unit(FormatTime(b))
    ensures FormatTime(a).MinutesAgo? && FormatTime(b).MinutesAgo? ==> FormatTime(a).minutes <= FormatTime(b).minutes
  {
    var la, lb := FormatTime(a), FormatTime(b);
    if la.MinutesAgo? && lb.MinutesAgo? {
      assert la.minutes * MinuteMs <= b < (lb.minutes + 1) * MinuteMs;
    }
  }

  /** The state of the notifications page. */
  class NotificationsView {
    const backend: Backend
    var notifications: seq<Notification>
    var loading: bool
    var error: Option<string>
    var tab: Tab

    constructor (backend: Backend)
      ensures this.backend == backend
      ensures notifications == [] && loading && error.None? && tab == All
    {
      this.backend := backend;
      notifications := [];
      loading := true;
      error := None;
      tab := All;
    }

    /**
     * `loadNotifications()`: fetch the list for the current tab. A failure
     * keeps the list and sets the error; a success does not clear an
     * earlier error.
     */
    method LoadNotifications(reply: Result<seq<Notification>, Failure>)
      modifies this, backend
      ensures backend.calls == old(backend.calls)
        + [Call(GET, ListUrl(Some(TabFilters(old(tab)))), [], NoBody)]
      ensures reply.Success? ==> notifications == reply.value && error == old(error)
      ensures reply.Failure? ==>
        notifications == old(notifications) && error == Some(DetailOr(reply.error, LoadFallback))
      ensures !loading && tab == old(tab)
    {
      loading := true;
      var filters := Some(TabFilters(tab));
      var r := GetNotifications(backend, filters, reply);
      if r.Success? {
        notifications := r.value;
      } else {
        error := Some(DetailOr(r.error, LoadFallback));
      }
      loading := false;
    }

    /**
     * Choosing a tab: a different tab reloads the list with its filter; the
     * tab already shown changes nothing, as the effect keyed on it does not
     * run again.
     */
    method SelectTab(t: Tab, reply: Result<seq<Notification>, Failure>)
      modifies this, backend
      ensures tab == t
      ensures t == old(tab) ==>
        backend.calls == old(backend.calls) && notifications == old(notifications)
        && error == old(error) && loading == old(loading)
      ensures t != old(tab) ==>
        !loading && backend.calls == old(backend.calls) + [Call(GET, ListUrl(Some(TabFilters(t))), [], NoBody)]
      ensures t != old(tab) && reply.Success? ==> notifications == reply.value && error == old(error)
      ensures t != old(tab) && reply.Failure? ==>
        notifications == old(notifications) && error == Some(DetailOr(reply.error, LoadFallback))
    {
      if t != tab {
        tab := t;
        LoadNotifications(reply);
      }
    }

    /** `handleMarkAsRead(id)`: the list changes only when the request succeeds. */
    method HandleMarkAsRead(id: int, reply: Result<(), Failure>)
      modifies this, backend
      ensures backend.calls == old(backend.calls) + [Call(POST, ActionPath(ListPath, id, "mark_as_read"), [], NoBody)]
      ensures reply.Success? ==> notifications == MarkedRead(old(notifications), id)
      ensures reply.Failure? ==> notifications == old(notifications)
      ensures loading == old(loading) && error == old(error) && tab == old(tab)
    {
      var r := MarkAsRead(backend, id, reply);
      if r.Success? {
        notifications := MarkedRead(notifications, id);
      }
    }

    /** `handleMarkAllAsRead()`: the list changes only when the request succeeds. */
    method HandleMarkAllAsRead(reply: Result<(), Failure>)
      modifies this, backend
      ensures backend.calls == old(backend.calls) + [Call(POST, MarkAllPath, [], NoBody)]
      ensures reply.Success? ==> notifications == MarkedAllRead(old(notifications))
      ensures reply.Failure? ==> notifications == old(notifications)
      ensures loading == old(loading) && error == old(error) && tab == old(tab)
    {
      var r := MarkAllAsRead(backend, reply);
      if r.Success? {
        notifications := MarkedAllRead(notifications);
      }
    }
  }
}
