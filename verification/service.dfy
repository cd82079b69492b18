/**
 * The dashboard's client for the relay server (whatsappService.ts): a
 * registry of listeners per event, the socket, and the count of failed
 * connection attempts. Callbacks are identified by a number; calling one is
 * recorded in the `calls` log together with the data it received.
 */
module WhatsApp {
  import opened Common

  /** The identity of a registered callback function. */
  type Callback = nat

  /** What listeners receive. */
  datatype Payload =
    | ErrorMessage(message: string)
    | ServerStatus(nodeServer: bool, pythonServer: bool)
    | Data(value: string)
    | NoData

  /** One invocation of a callback. */
  datatype Call = Call(callback: Callback, data: Payload)

  /** The socket.io client: `connected` once the handshake has succeeded. */
  datatype Socket = Socket(connected: bool)

  /** The answer of a status request. */
  datatype Status = Status(isConnected: bool)

  /** The function returned by `on`, which unregisters what `on` registered. */
  datatype Subscription = Subscription(event: string, callback: Callback)

  const QR_CODE := "qrCode"
  const CONNECTION_STATUS := "connectionStatus"
  const AUTHENTICATED := "authenticated"
  const SERVER_STATUS := "serverStatus"
  const ERROR := "error"

  /** The events registered by the constructor. */
  const DEFAULT_EVENTS: seq<string> := [QR_CODE, CONNECTION_STATUS, AUTHENTICATED, SERVER_STATUS, ERROR]

  const MAX_CONNECTION_ATTEMPTS: nat := 3

  const PREVIEW_CONNECT_ERROR := "Cannot connect to local servers in preview mode. This app requires a WhatsApp server running locally on your machine."
  const CONNECT_ERROR := "Cannot connect to WhatsApp server. Please ensure the server is running."
  const INIT_CONNECTION_ERROR := "Failed to initialize connection to WhatsApp server."
  const PREVIEW_INITIALIZE_ERROR := "Cannot initialize WhatsApp in preview mode. This app requires a local WhatsApp server."

  /** Reported once the server is given up on. */
  const SERVERS_DOWN := ServerStatus(false, false)

  /** A JavaScript `Set` iterates in insertion order and holds each element once. */
  predicate NoDuplicates(s: seq<Callback>) {
    forall i, j :: 0 <= i < j < |s| ==> s[i] != s[j]
  }

  /** `set.add(c)`: appended unless already present. */
  function Add(s: seq<Callback>, c: Callback): (r: seq<Callback>)
    ensures forall x :: x in r <==> x in s || x == c
    ensures NoDuplicates(s) ==> NoDuplicates(r)
    ensures c in s ==> r == s
  {
    if c in s then s else s + [c]
  }

  /** `set.delete(c)`: the others stay, in order. */
  function Remove(s: seq<Callback>, c: Callback): (r: seq<Callback>)
    ensures forall x :: x in r <==> x in s && x != c
    ensures NoDuplicates(s) ==> NoDuplicates(r)
    ensures c !in s ==> r == s
  {
    if s == [] then []
    else
      var rest := Remove(s[1..], c);
      assert NoDuplicates(s) ==> s[0] !in s[1..] && NoDuplicates(s[1..]);
      (if s[0] == c then [] else [s[0]]) + rest
  }

  /** Adding a callback twice keeps one copy. */
  lemma AddTwice(s: seq<Callback>, c: Callback)
    ensures Add(Add(s, c), c) == Add(s, c)
  {
  }

  /** Removing a callback that was just added gives back the set as it was. */
  lemma {:induction false} RemoveAfterAdd(s: seq<Callback>, c: Callback)
    requires c !in s
    ensures Remove(Add(s, c), c) == s
  {
    RemoveAppend(s, c);
  }

  lemma {:induction false} RemoveAppend(s: seq<Callback>, c: Callback)
    requires c !in s
    ensures Remove(s + [c], c) == s
  {
    if s == [] {
      assert Remove([c], c) == [] + Remove([], c);
    } else {
      assert (s + [c])[1..] == s[1..] + [c];
      RemoveAppend(s[1..], c);
    }
  }

  /** The invocations of `forEach(callback => callback(data))`, in iteration order. */
  function Calls(s: seq<Callback>, data: Payload): (r: seq<Call>)
    ensures |r| == |s|
    ensures forall i :: 0 <= i < |s| ==> r[i] == Call(s[i], data)
  {
    if s == [] then [] else [Call(s[0], data)] + Calls(s[1..], data)
  }

  lemma {:induction false} CallsAppend(s: seq<Callback>, c: Callback, data: Payload)
    ensures Calls(s + [c], data) == Calls(s, data) + [Call(c, data)]
  {
    if s != [] {
      assert (s + [c])[1..] == s[1..] + [c];
      CallsAppend(s[1..], c, data);
    }
  }

  /** With no duplicates in the set, each registered callback is called exactly once. */
  lemma CalledOnce(s: seq<Callback>, data: Payload, c: Callback)
    requires NoDuplicates(s) && c in s
    ensures exists i :: 0 <= i < |s| && Calls(s, data)[i].callback == c
                        && forall j :: 0 <= j < |s| && j != i ==> Calls(s, data)[j].callback != c
  {
    var i :| 0 <= i < |s| && s[i] == c;
    assert Calls(s, data)[i].callback == c;
  }

  /** The registry the constructor builds: each default event with an empty set. */
  function DefaultListeners(): (r: map<string, seq<Callback>>)
    ensures r.Keys == {QR_CODE, CONNECTION_STATUS, AUTHENTICATED, SERVER_STATUS, ERROR}
    ensures forall e :: e in r ==> r[e] == []
  {
    map e | e in DEFAULT_EVENTS :: []
  }

  /** After `attempts` consecutive connection errors the server is given up on. */
  predicate GivesUp(attempts: nat) {
    attempts >= MAX_CONNECTION_ATTEMPTS
  }

  class WhatsAppService {
    var socket: Option<Socket>
    var listeners: map<string, seq<Callback>>
    var connectionAttempts: nat
    const isPreviewMode: bool
    /** Every callback invocation so far, in order. */
    var calls: seq<Call>
    /** Every event sent to the server so far, in order. */
    var emitted: seq<string>

    /** The default events are always registered, and no set holds a callback twice. */
    ghost predicate Valid()
      reads this
    {
      && (forall e :: e in DEFAULT_EVENTS ==> e in listeners)
      && (forall e :: e in listeners ==> NoDuplicates(listeners[e]))
    }

    constructor(preview: bool)
      ensures Valid()
      ensures listeners == DefaultListeners()
      ensures socket == None && connectionAttempts == 0 && isPreviewMode == preview
      ensures calls == [] && emitted == []
    {
      socket := None;
      listeners := DefaultListeners();
      connectionAttempts := 0;
      isPreviewMode := preview;
      calls := [];
      emitted := [];
    }

    /** `on`: create the event's set if needed, add the callback, and hand back the means to remove it. */
    method On(event: string, callback: Callback) returns (sub: Subscription)
      requires Valid()
      modifies this
      ensures Valid()
      ensures listeners == old(listeners)[event := Add(if event in old(listeners) then old(listeners)[event] else [], callback)]
      ensures sub == Subscription(event, callback)
      ensures socket == old(socket) && connectionAttempts == old(connectionAttempts)
      ensures calls == old(calls) && emitted == old(emitted)
    {
      if event !in listeners {
        listeners := listeners[event := []];
      }
      listeners := listeners[event := Add(listeners[event], callback)];
      sub := Subscription(event, callback);
    }

    /** `off`: remove the callback from the event's set; nothing for an unknown event. */
    method Off(event: string, callback: Callback)
      requires Valid()
      modifies this
      ensures Valid()
      ensures event !in old(listeners) ==> listeners == old(listeners)
      ensures event in old(listeners) ==> listeners == old(listeners)[event := Remove(old(listeners)[event], callback)]
      ensures socket == old(socket) && connectionAttempts == old(connectionAttempts)
      ensures calls == old(calls) && emitted == old(emitted)
    {
      if event in listeners {
        listeners := listeners[event := Remove(listeners[event], callback)];
      }
    }

    /** Calling the function returned by `on`. */
    method Unsubscribe(sub: Subscription)
      requires Valid()
      modifies this
      ensures Valid()
      ensures sub.event !in old(listeners) ==> listeners == old(listeners)
      ensures sub.event in old(listeners) ==> listeners == old(listeners)[sub.event := Remove(old(listeners)[sub.event], sub.callback)]
      ensures socket == old(socket) && connectionAttempts == old(connectionAttempts)
      ensures calls == old(calls) && emitted == old(emitted)
    {
      Off(sub.event, sub.callback);
    }

    /** `notifyListeners`: call every callback of the event once, in registration order; nothing for an unknown event. */
    method NotifyListeners(event: string, data: Payload)
      modifies this
      ensures calls == old(calls) + (if event in listeners then Calls(listeners[event], data) else [])
      ensures listeners == old(listeners) && socket == old(socket)
      ensures connectionAttempts == old(connectionAttempts) && emitted == old(emitted)
    {
      var registered := if event in listeners then listeners[event] else [];
      var made: seq<Call> := [];
      var i := 0;
      while i < |registered|
        invariant 0 <= i <= |registered|
        invariant made == Calls(registered[..i], data)
        modifies {}
      {
        CallsAppend(registered[..i], registered[i], data);
        assert registered[..i + 1] == registered[..i] + [registered[i]];
        made := made + [Call(registered[i], data)];
        i := i + 1;
      }
      assert registered[..i] == registered;
      calls := calls + made;
    }

    /**
     * `connect`: nothing while connected. In preview mode no socket is made
     * and, once the timer fires, an error and a down server status are
     * reported. Otherwise a new socket is created, or the error reported when
     * creating it throws.
     */
    method Connect(creationThrows: bool)
      requires Valid()
      modifies this
      ensures Valid() && listeners == old(listeners) && connectionAttempts == old(connectionAttempts)
      ensures emitted == old(emitted)
      ensures old(socket) == Some(Socket(true)) ==> socket == old(socket) && calls == old(calls)
      ensures old(socket) != Some(Socket(true)) && isPreviewMode ==>
        socket == old(socket)
        && calls == old(calls) + Calls(listeners[ERROR], ErrorMessage(PREVIEW_CONNECT_ERROR))
                               + Calls(listeners[SERVER_STATUS], SERVERS_DOWN)
      ensures old(socket) != Some(Socket(true)) && !isPreviewMode && !creationThrows ==>
        socket == Some(Socket(false)) && calls == old(calls)
      ensures old(socket) != Some(Socket(true)) && !isPreviewMode && creationThrows ==>
        socket == old(socket) && calls == old(calls) + Calls(listeners[ERROR], ErrorMessage(INIT_CONNECTION_ERROR))
    {
      if socket == Some(Socket(true)) {
        return;
      }
      if isPreviewMode {
        NotifyListeners(ERROR, ErrorMessage(PREVIEW_CONNECT_ERROR));
        NotifyListeners(SERVER_STATUS, SERVERS_DOWN);
        return;
      }
      if creationThrows {
        NotifyListeners(ERROR, ErrorMessage(INIT_CONNECTION_ERROR));
      } else {
        socket := Some(Socket(false));
      }
    }

    /** The socket's `connect` event: the handshake succeeded and the failure count starts again. */
    method OnConnect()
      requires Valid() && socket.Some?
      modifies this
      ensures Valid()
      ensures socket == Some(Socket(true)) && connectionAttempts == 0
      ensures listeners == old(listeners) && calls == old(calls) && emitted == old(emitted)
    {
      socket := Some(Socket(true));
      connectionAttempts := 0;
    }

    /**
     * The socket's `connect_error` event: count the failure, report it, and
     * report the server down once the attempts are used up. socket.io fires it
     * only while the socket is not connected, and leaves it so.
     */
    method OnConnectError()
      requires Valid() && socket.Some?
      modifies this
      ensures Valid()
      ensures socket == Some(Socket(false))
      ensures connectionAttempts == old(connectionAttempts) + 1
      ensures calls == old(calls) + Calls(listeners[ERROR], ErrorMessage(CONNECT_ERROR))
                     + (if GivesUp(connectionAttempts) then Calls(listeners[SERVER_STATUS], SERVERS_DOWN) else [])
      ensures listeners == old(listeners) && emitted == old(emitted)
    {
      socket := Some(Socket(false));
      connectionAttempts := connectionAttempts + 1;
      NotifyListeners(ERROR, ErrorMessage(CONNECT_ERROR));
      if connectionAttempts >= MAX_CONNECTION_ATTEMPTS {
        NotifyListeners(SERVER_STATUS, SERVERS_DOWN);
      }
    }

    /**
     * The socket's `disconnect` event: the connection dropped, so the socket
     * is no longer connected. The handler only logs, so nothing else changes,
     * and the next `connect` or `initialize` makes a new socket.
     */
    method OnDisconnect()
      requires Valid() && socket.Some?
      modifies this
      ensures Valid()
      ensures socket == Some(Socket(false))
      ensures listeners == old(listeners) && connectionAttempts == old(connectionAttempts)
      ensures calls == old(calls) && emitted == old(emitted)
    {
      socket := Some(Socket(false));
    }

    /** The socket's `qrCode`, `connectionStatus`, `authenticated` and `serverStatus` events are passed on under the same name. */
    method OnServerEvent(event: string, data: Payload)
      requires Valid() && socket.Some?
      requires event in [QR_CODE, CONNECTION_STATUS, AUTHENTICATED, SERVER_STATUS]
      modifies this
      ensures Valid()
      ensures calls == old(calls) + Calls(listeners[event], if event == AUTHENTICATED then NoData else data)
      ensures listeners == old(listeners) && socket == old(socket)
      ensures connectionAttempts == old(connectionAttempts) && emitted == old(emitted)
    {
      NotifyListeners(event, if event == AUTHENTICATED then NoData else data);
    }

    /** `initialize`: in preview mode only an error is reported; otherwise connect if needed and ask the server to start WhatsApp. */
    method Initialize(creationThrows: bool)
      requires Valid()
      modifies this
      ensures Valid() && listeners == old(listeners) && connectionAttempts == old(connectionAttempts)
      ensures isPreviewMode ==>
        socket == old(socket) && emitted == old(emitted)
        && calls == old(calls) + Calls(listeners[ERROR], ErrorMessage(PREVIEW_INITIALIZE_ERROR))
      ensures !isPreviewMode ==> emitted == old(emitted) + (if socket.Some? then ["initialize"] else [])
      ensures !isPreviewMode && !creationThrows ==> socket.Some?
      ensures !isPreviewMode && old(socket) == Some(Socket(true)) ==> socket == old(socket) && calls == old(calls)
      ensures !isPreviewMode && old(socket) != Some(Socket(true)) && !creationThrows ==>
        socket == Some(Socket(false)) && calls == old(calls)
      ensures !isPreviewMode && old(socket) != Some(Socket(true)) && creationThrows ==>
        socket == old(socket) && calls == old(calls) + Calls(listeners[ERROR], ErrorMessage(INIT_CONNECTION_ERROR))
    {
      if isPreviewMode {
        NotifyListeners(ERROR, ErrorMessage(PREVIEW_INITIALIZE_ERROR));
        return;
      }
      if socket != Some(Socket(true)) {
        Connect(creationThrows);
      }
      if socket.Some? {
        emitted := emitted + ["initialize"];
      }
    }

    /** `disconnect`: close and forget the socket. */
    method Disconnect()
      requires Valid()
      modifies this
      ensures Valid()
      ensures socket == None
      ensures listeners == old(listeners) && connectionAttempts == old(connectionAttempts)
      ensures calls == old(calls) && emitted == old(emitted)
    {
      if socket.Some? {
        socket := None;
      }
    }

    /** `getStatus`: never connected in preview mode; otherwise the server's answer, or not connected when the request fails. */
    function GetStatus(fetched: Option<Status>): (r: Status)
      reads this
      ensures isPreviewMode ==> r == Status(false)
      ensures !isPreviewMode && fetched.Some? ==> r == fetched.value
      ensures fetched.None? ==> r == Status(false)
    {
      if isPreviewMode then Status(false)
      else match fetched
        case None => Status(false)
        case Some(s) => s
    }

    /** `getServerStatus`: both servers down in preview mode or when the request fails. */
    function GetServerStatus(fetched: Option<Payload>): (r: Payload)
      reads this
      ensures isPreviewMode || fetched.None? ==> r == SERVERS_DOWN
      ensures !isPreviewMode && fetched.Some? ==> r == fetched.value
    {
      if isPreviewMode then SERVERS_DOWN
      else match fetched
        case None => SERVERS_DOWN
        case Some(s) => s
    }
  }
}
