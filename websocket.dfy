/**
 * `WebSocketService`: one notification socket with a bounded reconnect
 * policy. After an abnormal closure it schedules a reconnect, at most
 * `MaxReconnectAttempts` times in a row; a successful open resets the count,
 * and a normal closure (status code 1000, section 7.4.1 of RFC 6455)
 * schedules nothing.
 *
 * The socket and the timer are not real: the browser's `open` and `close`
 * events of the most recently created socket are the methods `OnOpen` and
 * `OnClose`, and a scheduled reconnect is a pending timer, fired by
 * `FireTimer`. Message payloads are strings (JSON encoding is not modelled).
 */
module WebSocket {
  import opened Wrappers
  import opened Storage

  const MaxReconnectAttempts: nat := 5
  const ReconnectDelay: nat := 3000
  const NormalClosure: int := 1000

  datatype ReadyState = Connecting | Open | Closing | Closed

  /** A socket the service created: the URL it was opened with and its state. */
  datatype Socket = Socket(url: string, readyState: ReadyState)

  /** `${url}?token=${token}`. */
  function SocketUrl(url: string, token: string): (u: string)
    ensures |u| == |url| + 7 + |token| && u[..|url|] == url && u[|url|..|url| + 7] == "?token=" && u[|url| + 7..] == token
  {
    url + "?token=" + token
  }

  /** Distinct tokens give distinct socket URLs for the same endpoint. */
  lemma SocketUrlInjective(url: string, a: string, b: string)
    requires SocketUrl(url, a) == SocketUrl(url, b)
    ensures a == b
  {
    assert a == SocketUrl(url, a)[|url| + 7..];
  }

  /** The socket events that move the reconnect counter. */
  datatype Event = Opened | ClosedWith(code: int)

  /**
   * The reconnect counter after an event, and whether the event scheduled a
   * reconnect.
   */
  function AfterEvent(attempts: nat, e: Event): (r: (nat, bool))
    ensures e.Opened? ==> r == (0, false)
    ensures e.ClosedWith? && e.code == NormalClosure ==> r == (attempts, false)
    ensures r.1 <==> e.ClosedWith? && e.code != NormalClosure && attempts < MaxReconnectAttempts
    ensures r.1 ==> r.0 == attempts + 1
    ensures e.ClosedWith? && !r.1 ==> r.0 == attempts
  {
    match e
    case Opened => (0, false)
    case ClosedWith(code) =>
      if code != NormalClosure && attempts < MaxReconnectAttempts then (attempts + 1, true) else (attempts, false)
  }

  /** The counter after a run of events. */
  function AttemptsAfter(attempts: nat, events: seq<Event>): nat
    decreases |events|
  {
    if events == [] then attempts else AttemptsAfter(AfterEvent(attempts, events[0]).0, events[1..])
  }

  /** How many reconnects a run of events schedules. */
  function ScheduledBy(attempts: nat, events: seq<Event>): nat
    decreases |events|
  {
    if events == [] then 0
    else var r := AfterEvent(attempts, events[0]);
      (if r.1 then 1 else 0) + ScheduledBy(r.0, events[1..])
  }

  /** The counter never passes the limit. */
  lemma {:induction false} AttemptsBounded(attempts: nat, events: seq<Event>)
    requires attempts <= MaxReconnectAttempts
    ensures AttemptsAfter(attempts, events) <= MaxReconnectAttempts
    decreases |events|
  {
    if events != [] {
      AttemptsBounded(AfterEvent(attempts, events[0]).0, events[1..]);
    }
  }

  /**
   * Without a successful open in between, abnormal closures schedule at most
   * as many reconnects as the attempts left; each one scheduled is counted.
   */
  lemma {:induction false} ReconnectsBounded(attempts: nat, events: seq<Event>)
    requires attempts <= MaxReconnectAttempts
    requires forall i :: 0 <= i < |events| ==> events[i].ClosedWith?
    ensures ScheduledBy(attempts, events) <= MaxReconnectAttempts - attempts
    ensures AttemptsAfter(attempts, events) == attempts + ScheduledBy(attempts, events)
    decreases |events|
  {
    if events != [] {
      ReconnectsBounded(AfterEvent(attempts, events[0]).0, events[1..]);
    }
  }

  class WebSocketService {
    const store: LocalStorage
    var socket: Option<Socket>
    var reconnectAttempts: nat
    /** The endpoint the handlers of the most recently created socket reconnect to. */
    var handlerUrl: string
    /** The endpoints of the scheduled reconnects whose timers have not fired, oldest first. */
    var timers: seq<string>
    /** The URLs of the sockets created, oldest first. */
    var created: seq<string>
    /** The messages handed to an open socket, oldest first. */
    var transmitted: seq<string>
    /** The `close(code, reason)` calls the service made, oldest first. */
    var closeRequests: seq<(int, string)>

    ghost predicate Valid()
      reads this
    {
      reconnectAttempts <= MaxReconnectAttempts
    }

    constructor (store: LocalStorage)
      ensures this.store == store && socket.None? && reconnectAttempts == 0
      ensures timers == [] && created == [] && transmitted == [] && closeRequests == []
      ensures Valid()
    {
      this.store := store;
      socket := None;
      reconnectAttempts := 0;
      handlerUrl := "";
      timers := [];
      created := [];
      transmitted := [];
      closeRequests := [];
    }

    predicate IsOpen()
      reads this
    {
      socket.Some? && socket.value.readyState == Open
    }

    /**
     * `connect(url)`: nothing while a socket is open or while no non-empty
     * access token is stored; otherwise a new socket to `SocketUrl(url, token)`.
     */
    method Connect(url: string)
      modifies this
      ensures closeRequests == old(closeRequests)
      ensures Valid() == old(Valid())
      ensures reconnectAttempts == old(reconnectAttempts) && timers == old(timers)
      ensures transmitted == old(transmitted)
      ensures old(IsOpen()) || store.GetItem(AccessTokenKey).None?
              ==> socket == old(socket) && created == old(created) && handlerUrl == old(handlerUrl)
      ensures !old(IsOpen()) && store.GetItem(AccessTokenKey).Some?
              ==> var u := SocketUrl(url, store.GetItem(AccessTokenKey).value);
                  socket == Some(Socket(u, Connecting)) && created == old(created) + [u] && handlerUrl == url
    {
      if IsOpen() {
        return;
      }
      var token := store.GetItem(AccessTokenKey);
      if token.None? {
        return;
      }
      var u := SocketUrl(url, token.value);
      socket := Some(Socket(u, Connecting));
      created := created + [u];
      handlerUrl := url;
    }

    /** The `open` event: the socket is open and the counter is reset. */
    method OnOpen()
      requires created != []
      modifies this
      ensures closeRequests == old(closeRequests)
      ensures reconnectAttempts == AfterEvent(old(reconnectAttempts), Opened).0 && Valid()
      ensures socket == (if old(socket).Some? then Some(old(socket).value.(readyState := Open)) else None)
      ensures timers == old(timers) && created == old(created) && transmitted == old(transmitted)
    {
      reconnectAttempts := 0;
      if socket.Some? {
        socket := Some(socket.value.(readyState := Open));
      }
    }

    /** The `close` event with status `code`: anything but a normal closure tries to reconnect. */
    method OnClose(code: int)
      requires created != []
      modifies this
      ensures closeRequests == old(closeRequests)
      ensures Valid() == old(Valid())
      ensures reconnectAttempts == AfterEvent(old(reconnectAttempts), ClosedWith(code)).0
      ensures timers == old(timers) + (if AfterEvent(old(reconnectAttempts), ClosedWith(code)).1
                                       then [handlerUrl] else [])
      ensures socket == (if old(socket).Some? then Some(old(socket).value.(readyState := Closed)) else None)
      ensures created == old(created) && transmitted == old(transmitted) && handlerUrl == old(handlerUrl)
    {
      if socket.Some? {
        socket := Some(socket.value.(readyState := Closed));
      }
      if code != NormalClosure {
        AttemptReconnect(handlerUrl);
      }
    }

    /** `attemptReconnect(url)`: schedule a `connect(url)` while attempts remain, else give up. */
    method AttemptReconnect(url: string)
      modifies this
      ensures closeRequests == old(closeRequests)
      ensures Valid() == old(Valid())
      ensures old(reconnectAttempts) < MaxReconnectAttempts
              ==> reconnectAttempts == old(reconnectAttempts) + 1 && timers == old(timers) + [url]
      ensures old(reconnectAttempts) >= MaxReconnectAttempts
              ==> reconnectAttempts == old(reconnectAttempts) && timers == old(timers)
      ensures socket == old(socket) && created == old(created) && transmitted == old(transmitted)
      ensures handlerUrl == old(handlerUrl)
    {
      if reconnectAttempts < MaxReconnectAttempts {
        reconnectAttempts := reconnectAttempts + 1;
        timers := timers + [url];
      }
    }

    /** The oldest pending reconnect timer fires and calls `connect`. */
    method FireTimer()
      requires timers != []
      modifies this
      ensures closeRequests == old(closeRequests)
      ensures Valid() == old(Valid())
      ensures timers == old(timers)[1..] && reconnectAttempts == old(reconnectAttempts)
      ensures transmitted == old(transmitted)
      ensures !old(IsOpen()) && store.GetItem(AccessTokenKey).Some?
              ==> var u := SocketUrl(old(timers)[0], store.GetItem(AccessTokenKey).value);
                  socket == Some(Socket(u, Connecting)) && created == old(created) + [u]
                  && handlerUrl == old(timers)[0]
      ensures old(IsOpen()) || store.GetItem(AccessTokenKey).None?
              ==> created == old(created) && socket == old(socket) && handlerUrl == old(handlerUrl)
    {
      var url := timers[0];
      timers := timers[1..];
      Connect(url);
    }

    /** `send(data)`: only an open socket transmits. */
    method Send(data: string)
      modifies this
      ensures closeRequests == old(closeRequests)
      ensures transmitted == old(transmitted) + (if old(IsOpen()) then [data] else [])
      ensures socket == old(socket) && reconnectAttempts == old(reconnectAttempts)
      ensures timers == old(timers) && created == old(created) && handlerUrl == old(handlerUrl)
    {
      if IsOpen() {
        transmitted := transmitted + [data];
      }
    }

    /**
     * `disconnect()`: close the socket normally and forget it; the closing
     * socket later reports a normal closure. No-op without a socket.
     */
    method Disconnect()
      modifies this
      ensures closeRequests == old(closeRequests)
                               + (if old(socket).Some? then [(NormalClosure, "Disconnecting manually")] else [])
      ensures socket.None?
      ensures reconnectAttempts == old(reconnectAttempts) && timers == old(timers)
      ensures created == old(created) && transmitted == old(transmitted) && handlerUrl == old(handlerUrl)
    {
      if socket.Some? {
        closeRequests := closeRequests + [(NormalClosure, "Disconnecting manually")];
        socket := None;
      }
    }
  }
}
