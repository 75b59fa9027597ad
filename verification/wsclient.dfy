/**
 * The browser side of the WebSocket connection: the `useWebSocket` hook of
 * frontend/src/services/websocketService.js.
 *
 * The hook's refs and state live in the fields of one `Client` object; the
 * socket's callbacks (`onopen`, `onmessage`, `onclose`, `onerror`), the
 * timers and the page's `visibilitychange`/`online` events become methods
 * called when they fire. A timer is represented by the delay it was set
 * with; `showToast` by the list of messages shown; a listener callback by a
 * number (JavaScript compares callbacks by identity). The events of a socket
 * are taken to come from the hook's current socket.
 */
module WsClient {
  import opened Wrappers
  import opened Text

  const MaxReconnectAttempts: nat := 5
  const BaseDelay: nat := 1000
  const MaxDelay: nat := 30000
  /** The close code of a normal closure (a logout). */
  const NormalClosure: int := 1000
  const GiveUpToast := "Could not establish connection after multiple attempts"

  type Callback = nat

  datatype ReadyState = Connecting | Open | Closing | Closed

  /**
   * What a `connect` closure closed over in the render that made it: the
   * listener table and the socket of that render (`connect` is rebuilt
   * whenever either changes).
   */
  datatype Captured = Captured(listeners: map<string, seq<Callback>>, held: Option<nat>)

  /**
   * A socket the hook created: its URL, its ready state, and what the
   * `connect` that made it closed over; its `onmessage` dispatches to that
   * listener table and its `onclose` schedules that same `connect`.
   */
  datatype Socket = Socket(id: nat, url: string, state: ReadyState, origin: Captured)

  /** A pending reconnect: its delay and what the `connect` it will call closed over. */
  datatype Timer = Timer(delay: nat, origin: Captured)

  /** A `socket.close(...)` call; `None` is a close without a code. */
  datatype CloseCall = CloseCall(socket: nat, code: Option<int>)

  /** A parsed message: its `type` and its `payload`, as JSON text. */
  datatype Incoming = Incoming(msgType: string, payload: string)

  /** One listener invocation. */
  datatype Call = Call(callback: Callback, payload: string)

  /** The hook's state and refs together: everything its handlers change. */
  datatype ClientState = ClientState(socket: Option<Socket>, isConnected: bool, lastMessage: Option<Incoming>,
                                     attempts: nat, wasConnected: bool, inProgress: bool, pingActive: bool,
                                     reconnectTimer: Option<Timer>, startupTimer: bool,
                                     listeners: map<string, seq<Callback>>,
                                     closes: seq<CloseCall>, toasts: seq<string>, nextSocket: nat)

  /** What the `connect` of the render with state `s` closes over. */
  function CurrentCapture(s: ClientState): Captured
  {
    Captured(s.listeners, if s.socket.Some? then Some(s.socket.value.id) else None)
  }

  /** The socket `origin` holds, if any, was told to close without a code. */
  predicate HeldClosed(origin: Captured, closes: seq<CloseCall>)
  {
    origin.held.Some? ==> CloseCall(origin.held.value, None) in closes
  }

  /**
   * The attempt count never passes the maximum; the current socket is one
   * already created; and the socket a `connect` closure held was told to
   * close by that `connect`.
   */
  predicate Consistent(s: ClientState)
  {
    s.attempts <= MaxReconnectAttempts
    && (s.socket.Some? ==> s.socket.value.id < s.nextSocket && HeldClosed(s.socket.value.origin, s.closes))
    && (s.reconnectTimer.Some? ==> HeldClosed(s.reconnectTimer.value.origin, s.closes))
  }

  function Pow2(n: nat): (p: nat)
    ensures p >= 1
  {
    if n == 0 then 1 else 2 * Pow2(n - 1)
  }

  /** `Math.min(baseDelay * 2^(attempt - 1), 30000)`. */
  function ReconnectDelay(attempt: nat): (d: nat)
    requires attempt >= 1
    ensures d <= MaxDelay
    ensures d == MaxDelay || d == BaseDelay * Pow2(attempt - 1)
  {
    if BaseDelay * Pow2(attempt - 1) < MaxDelay then BaseDelay * Pow2(attempt - 1) else MaxDelay
  }

  /** The delays before the reconnects a run of failures schedules double from one second and never reach the cap. */
  lemma DelaySchedule()
    ensures forall a :: 1 <= a <= MaxReconnectAttempts ==> ReconnectDelay(a) == BaseDelay * Pow2(a - 1) < MaxDelay
    ensures [ReconnectDelay(1), ReconnectDelay(2), ReconnectDelay(3), ReconnectDelay(4), ReconnectDelay(5)]
            == [1000, 2000, 4000, 8000, 16000]
  {
    assert Pow2(0) == 1 && Pow2(1) == 2 && Pow2(2) == 4 && Pow2(3) == 8 && Pow2(4) == 16;
  }

  /** What `onclose` decides: reconnect later, give up (with a toast), or stay closed. */
  datatype CloseDecision = Reconnect(attempt: nat, delay: nat) | GiveUp | Stay

  /** `onclose`'s branch, for the attempt count before the close and the close code. */
  function DecideOnClose(attempts: nat, code: int): (r: CloseDecision)
    ensures r.Reconnect? <==> code != NormalClosure && attempts < MaxReconnectAttempts
    ensures r.Reconnect? ==> r.attempt == attempts + 1 && r.delay == ReconnectDelay(attempts + 1)
    ensures r.GiveUp? <==> attempts >= MaxReconnectAttempts
    ensures r.Stay? <==> code == NormalClosure && attempts < MaxReconnectAttempts
  {
    if code != NormalClosure && attempts < MaxReconnectAttempts then Reconnect(attempts + 1, ReconnectDelay(attempts + 1))
    else if attempts >= MaxReconnectAttempts then GiveUp
    else Stay
  }

  /** The attempt count after `onclose`. */
  function AttemptsAfterClose(attempts: nat, code: int): nat
  {
    match DecideOnClose(attempts, code)
    case Reconnect(a, _) => a
    case _ => attempts
  }

  /** The delays scheduled by `n` abnormal closes in a row, none followed by a successful open. */
  function FailureRun(attempts: nat, code: int, n: nat): (run: seq<CloseDecision>)
    ensures |run| == n
    decreases n
  {
    if n == 0 then [] else [DecideOnClose(attempts, code)] + FailureRun(AttemptsAfterClose(attempts, code), code, n - 1)
  }

  /**
   * What the `onclose` handler alone decides: from a fresh count, abnormal
   * closes schedule five reconnects, after 1, 2, 4, 8 and 16 seconds, and
   * every later close gives up. As written the start-up effect zeroes the
   * count between closes (`BackoffRestarts`), so the hook never gets past
   * the first entry.
   */
  lemma {:induction false} FailureRunFromStart(code: int, n: nat)
    requires code != NormalClosure && n >= MaxReconnectAttempts
    ensures var run := FailureRun(0, code, n);
            run[..5] == [Reconnect(1, 1000), Reconnect(2, 2000), Reconnect(3, 4000), Reconnect(4, 8000), Reconnect(5, 16000)]
            && forall i :: 5 <= i < |run| ==> run[i] == GiveUp
  {
    DelaySchedule();
    var tail := FailureRun(5, code, n - 5);
    GiveUpForever(code, n - 5);
    assert FailureRun(4, code, n - 4) == [Reconnect(5, 16000)] + tail;
    assert FailureRun(3, code, n - 3) == [Reconnect(4, 8000), Reconnect(5, 16000)] + tail;
    assert FailureRun(2, code, n - 2) == [Reconnect(3, 4000), Reconnect(4, 8000), Reconnect(5, 16000)] + tail;
    assert FailureRun(1, code, n - 1) == [Reconnect(2, 2000), Reconnect(3, 4000), Reconnect(4, 8000), Reconnect(5, 16000)] + tail;
    var run := FailureRun(0, code, n);
    assert run == [Reconnect(1, 1000), Reconnect(2, 2000), Reconnect(3, 4000), Reconnect(4, 8000), Reconnect(5, 16000)] + tail;
  }

  /** Once the attempts are used up, every close gives up and the count stays put. */
  lemma {:induction false} GiveUpForever(code: int, n: nat)
    ensures forall i :: 0 <= i < n ==> FailureRun(MaxReconnectAttempts, code, n)[i] == GiveUp
  {
    if n > 0 {
      GiveUpForever(code, n - 1);
    }
  }

  /** `BASE_URL.replace(/^https?:\/\//, "").replace(/\/$/, "")`. */
  function WsHost(baseUrl: string): (host: string)
    ensures HasPrefix(baseUrl, "http://") ==> baseUrl == "http://" + host || baseUrl == "http://" + host + "/"
    ensures HasPrefix(baseUrl, "https://") ==> baseUrl == "https://" + host || baseUrl == "https://" + host + "/"
    ensures !HasPrefix(baseUrl, "http://") && !HasPrefix(baseUrl, "https://") ==> baseUrl == host || baseUrl == host + "/"
  {
    assert HasPrefix(baseUrl, "https://") ==> baseUrl[4] == 's' && !HasPrefix(baseUrl, "http://");
    var noScheme := if HasPrefix(baseUrl, "http://") then TrimPrefix(baseUrl, "http://") else TrimPrefix(baseUrl, "https://");
    TrimSuffix(noScheme, "/")
  }

  /** The URL `connect` opens: the page's scheme as ws or wss, the host, and the token as a query. */
  function WsUrl(secure: bool, baseUrl: string, token: string): (url: string)
    ensures url == (if secure then "wss:" else "ws:") + "//" + WsHost(baseUrl) + "/ws?token=" + token
  {
    (if secure then "wss:" else "ws:") + "//" + WsHost(baseUrl) + "/ws?token=" + token
  }

  /** The listeners of an event type, none when it has no entry (`prev[eventType] || []`). */
  function ListenersOf(table: map<string, seq<Callback>>, eventType: string): seq<Callback>
  {
    if eventType in table then table[eventType] else []
  }

  /** The listener list without any occurrence of `cb`. */
  function Without(cbs: seq<Callback>, cb: Callback): (r: seq<Callback>)
    ensures forall x :: x in r <==> x in cbs && x != cb
    ensures cb !in cbs ==> r == cbs
    ensures |r| <= |cbs|
  {
    if cbs == [] then []
    else Without(cbs[..|cbs| - 1], cb) + (if cbs[|cbs| - 1] == cb then [] else [cbs[|cbs| - 1]])
  }

  /** `subscribe`'s state update: the callback goes last in its type's list. */
  function Subscribed(table: map<string, seq<Callback>>, eventType: string, cb: Callback): (t: map<string, seq<Callback>>)
    ensures eventType in t && t[eventType] == ListenersOf(table, eventType) + [cb]
    ensures forall e :: e != eventType ==> (e in t <==> e in table) && (e in t ==> t[e] == table[e])
  {
    table[eventType := ListenersOf(table, eventType) + [cb]]
  }

  /** The unsubscribe function's state update: every occurrence of the callback leaves its type's list, and only that list. */
  function Unsubscribed(table: map<string, seq<Callback>>, eventType: string, cb: Callback): (t: map<string, seq<Callback>>)
    ensures eventType in t && t[eventType] == Without(ListenersOf(table, eventType), cb)
    ensures forall e :: e != eventType ==> (e in t <==> e in table) && (e in t ==> t[e] == table[e])
  {
    table[eventType := Without(ListenersOf(table, eventType), cb)]
  }

  /** Unsubscribing a callback that was not yet listening undoes its subscription. */
  lemma {:induction false} UnsubscribeUndoesSubscribe(table: map<string, seq<Callback>>, eventType: string, cb: Callback)
    requires cb !in ListenersOf(table, eventType)
    ensures ListenersOf(Unsubscribed(Subscribed(table, eventType, cb), eventType, cb), eventType) == ListenersOf(table, eventType)
  {
    var l := ListenersOf(table, eventType);
    assert (l + [cb])[..|l|] == l;
  }

  /** What `onmessage` calls for a parsed message: each listener of its type, in order, with the payload. */
  function Dispatch(table: map<string, seq<Callback>>, m: Incoming): (calls: seq<Call>)
    ensures m.msgType == "" ==> calls == []
    ensures m.msgType != "" ==> |calls| == |ListenersOf(table, m.msgType)|
    ensures m.msgType != "" ==> forall i :: 0 <= i < |calls| ==> calls[i] == Call(ListenersOf(table, m.msgType)[i], m.payload)
  {
    if m.msgType == "" then [] else CallEach(ListenersOf(table, m.msgType), m.payload)
  }

  function CallEach(cbs: seq<Callback>, payload: string): (calls: seq<Call>)
    ensures |calls| == |cbs| && forall i :: 0 <= i < |cbs| ==> calls[i] == Call(cbs[i], payload)
  {
    if cbs == [] then [] else CallEach(cbs[..|cbs| - 1], payload) + [Call(cbs[|cbs| - 1], payload)]
  }

  /** The `forEach` over a type's listeners. */
  method CallListeners(cbs: seq<Callback>, payload: string) returns (calls: seq<Call>)
    ensures calls == CallEach(cbs, payload)
  {
    calls := [];
    var i := 0;
    while i < |cbs|
      invariant 0 <= i <= |cbs|
      invariant calls == CallEach(cbs[..i], payload)
    {
      assert cbs[..i + 1][..i] == cbs[..i];
      calls := calls + [Call(cbs[i], payload)];
      i := i + 1;
    }
    assert cbs[..i] == cbs;
  }

  /** The hook's refs and state. */
  class Client {
    const isAuthenticated: bool
    const token: string
    /** The page is served over https. */
    const secure: bool
    const baseUrl: string

    var socket: Option<Socket>
    var isConnected: bool
    var lastMessage: Option<Incoming>
    var attempts: nat
    var wasConnected: bool
    var inProgress: bool
    var pingActive: bool
    var reconnectTimer: Option<Timer>
    /** The 300 ms timer of the start-up effect's latest run is pending. */
    var startupTimer: bool
    var listeners: map<string, seq<Callback>>
    var closes: seq<CloseCall>
    var toasts: seq<string>
    var nextSocket: nat

    /**
     * The hook's fields are `Consistent`.
     */
    predicate Valid()
      reads this
    {
      Consistent(State())
    }

    /** The hook's first render: no socket, no listeners, nothing scheduled. */
    constructor (isAuthenticated: bool, token: string, secure: bool, baseUrl: string)
      ensures Valid()
      ensures this.isAuthenticated == isAuthenticated && this.token == token && this.secure == secure && this.baseUrl == baseUrl
      ensures socket.None? && !isConnected && lastMessage.None? && attempts == 0 && !wasConnected && !inProgress
      ensures !pingActive && reconnectTimer.None? && !startupTimer && listeners == map[] && closes == [] && toasts == []
      ensures nextSocket == 0
    {
      this.isAuthenticated := isAuthenticated;
      this.token := token;
      this.secure := secure;
      this.baseUrl := baseUrl;
      socket := None;
      isConnected := false;
      lastMessage := None;
      attempts := 0;
      wasConnected := false;
      inProgress := false;
      pingActive := false;
      reconnectTimer := None;
      startupTimer := false;
      listeners := map[];
      closes := [];
      toasts := [];
      nextSocket := 0;
    }

    /** The fields as one value. */
    function State(): ClientState
      reads this
    {
      ClientState(socket, isConnected, lastMessage, attempts, wasConnected, inProgress, pingActive,
                  reconnectTimer, startupTimer, listeners, closes, toasts, nextSocket)
    }

    /**
     * A `connect` closure returns at once: unauthenticated, no token, an
     * attempt in progress, or the socket it holds is open.
     */
    predicate SkipsWith(s: ClientState, heldOpen: bool)
    {
      !isAuthenticated || token == "" || s.inProgress || heldOpen
    }

    /**
     * What one call of a `connect` closure that captured `origin` leaves of `s`,
     * `heldOpen` telling whether the socket it holds is open: `s` itself
     * when it skips; a give-up toast once the attempts are used up;
     * otherwise the pending reconnect and the ping are cancelled, the held
     * socket is closed without a code, and a new connecting socket to
     * `WsUrl` is made by the same closure, with the attempt in progress.
     */
    function ConnectWith(s: ClientState, origin: Captured, heldOpen: bool): (r: ClientState)
      ensures r.attempts == s.attempts && r.listeners == s.listeners && r.lastMessage == s.lastMessage
      ensures r.isConnected == s.isConnected && r.wasConnected == s.wasConnected && r.startupTimer == s.startupTimer
      ensures SkipsWith(s, heldOpen) ==> r == s
      ensures !SkipsWith(s, heldOpen) && s.attempts >= MaxReconnectAttempts ==>
                r == s.(toasts := s.toasts + [GiveUpToast], inProgress := false)
      ensures !SkipsWith(s, heldOpen) && s.attempts < MaxReconnectAttempts ==>
                r.inProgress && r.reconnectTimer.None? && !r.pingActive && r.toasts == s.toasts
                && r.closes == s.closes + (if origin.held.Some? then [CloseCall(origin.held.value, None)] else [])
                && r.socket == Some(Socket(s.nextSocket, WsUrl(secure, baseUrl, token), Connecting, origin))
                && r.nextSocket == s.nextSocket + 1
    {
      if SkipsWith(s, heldOpen) then s
      else if s.attempts >= MaxReconnectAttempts then s.(toasts := s.toasts + [GiveUpToast], inProgress := false)
      else
        s.(inProgress := true, reconnectTimer := None, pingActive := false,
           closes := s.closes + (if origin.held.Some? then [CloseCall(origin.held.value, None)] else []),
           socket := Some(Socket(s.nextSocket, WsUrl(secure, baseUrl, token), Connecting, origin)),
           nextSocket := s.nextSocket + 1)
    }

    /** A `connect` call keeps the fields `Consistent`. */
    lemma ConnectWithConsistent(s: ClientState, origin: Captured, heldOpen: bool)
      requires Consistent(s)
      ensures Consistent(ConnectWith(s, origin, heldOpen))
    {
      var r := ConnectWith(s, origin, heldOpen);
      if !SkipsWith(s, heldOpen) && s.attempts < MaxReconnectAttempts {
        assert origin.held.Some? ==> r.closes[|s.closes|] == CloseCall(origin.held.value, None);
        assert s.reconnectTimer.Some? ==> s.reconnectTimer.value.origin.held.Some? ==> CloseCall(s.reconnectTimer.value.origin.held.value, None) in r.closes;
      }
    }

    /** The `connect` of the current render: it holds the current socket and listener table. */
    function ConnectFrom(s: ClientState): ClientState
    {
      ConnectWith(s, CurrentCapture(s), s.socket.Some? && s.socket.value.state == Open)
    }

    /** One call of a `connect` closure that captured `origin`. */
    method CallConnect(origin: Captured, heldOpen: bool)
      requires Valid()
      modifies this
      ensures Valid()
      ensures State() == ConnectWith(old(State()), origin, heldOpen)
    {
      ghost var s0 := State();
      if SkipsWith(State(), heldOpen) {
        return;
      }
      inProgress := true;
      if attempts >= MaxReconnectAttempts {
        toasts := toasts + [GiveUpToast];
        inProgress := false;
        return;
      }
      reconnectTimer := None;
      pingActive := false;
      var closed := if origin.held.Some? then [CloseCall(origin.held.value, None)] else [];
      closes := closes + closed;
      socket := Some(Socket(nextSocket, WsUrl(secure, baseUrl, token), Connecting, origin));
      nextSocket := nextSocket + 1;
      assert State() == ConnectWith(s0, origin, heldOpen);
      ConnectWithConsistent(s0, origin, heldOpen);
    }

    /**
     * `connect` called through the current render: unless it skips, gives
     * up with a toast once the attempts are used up; otherwise cancels the
     * pending reconnect and the ping, closes the current socket and opens a
     * new one to `WsUrl`, which keeps the listener table of this moment.
     */
    method Connect()
      requires Valid()
      modifies this
      ensures Valid()
      ensures State() == ConnectFrom(old(State()))
      ensures !SkipsWith(old(State()), old(socket).Some? && old(socket).value.state == Open)
              && old(attempts) < MaxReconnectAttempts ==>
                socket == Some(Socket(old(nextSocket), WsUrl(secure, baseUrl, token), Connecting, CurrentCapture(old(State()))))
                && socket.value.origin.listeners == old(listeners)
                && closes == old(closes) + (if old(socket).Some? then [CloseCall(old(socket).value.id, None)] else [])
    {
      CallConnect(CurrentCapture(State()), socket.Some? && socket.value.state == Open);
    }

    /** `onopen`: connected, the attempt count back to zero, the ping interval started. */
    method OnOpen()
      requires Valid() && socket.Some?
      modifies this
      ensures Valid()
      ensures State() == old(State()).(isConnected := true, attempts := 0, wasConnected := true, inProgress := false,
                                       pingActive := true, socket := Some(old(socket).value.(state := Open)))
    {
      isConnected := true;
      attempts := 0;
      wasConnected := true;
      inProgress := false;
      pingActive := true;
      socket := Some(socket.value.(state := Open));
    }

    /** One tick of the ping interval: a ping is sent only while the socket is open. */
    method PingTick() returns (sent: Option<string>)
      requires pingActive && socket.Some?
      ensures sent.Some? <==> socket.value.state == Open
      ensures sent.Some? ==> sent.value == "{\"type\":\"ping\"}"
    {
      if socket.value.state == Open {
        return Some("{\"type\":\"ping\"}");
      }
      return None;
    }

    /**
     * `onmessage` as written: the message is recorded as the last one and
     * handed to the listeners its socket's handler closed over; a message
     * that does not parse is dropped.
     */
    method OnMessage(data: Option<Incoming>) returns (calls: seq<Call>)
      requires socket.Some?
      modifies this
      ensures data.None? ==> calls == [] && lastMessage == old(lastMessage)
      ensures data.Some? ==> lastMessage == data && calls == Dispatch(old(socket).value.origin.listeners, data.value)
      ensures State() == old(State()).(lastMessage := if data.Some? then data else old(lastMessage))
    {
      calls := [];
      if data.None? {
        return;
      }
      lastMessage := data;
      var snapshot := socket.value.origin.listeners;
      if data.value.msgType != "" && data.value.msgType in snapshot {
        calls := CallListeners(snapshot[data.value.msgType], data.value.payload);
      }
    }

    /** `onmessage` reading the listener table of the moment the message arrives. */
    method OnMessageCurrent(data: Option<Incoming>) returns (calls: seq<Call>)
      modifies this
      ensures data.None? ==> calls == [] && lastMessage == old(lastMessage)
      ensures data.Some? ==> lastMessage == data && calls == Dispatch(listeners, data.value)
      ensures State() == old(State()).(lastMessage := if data.Some? then data else old(lastMessage))
    {
      calls := [];
      if data.None? {
        return;
      }
      lastMessage := data;
      if data.value.msgType != "" && data.value.msgType in listeners {
        calls := CallListeners(listeners[data.value.msgType], data.value.payload);
      }
    }

    /**
     * `onclose`: disconnected, the ping stopped; below the maximum an
     * abnormal close counts one more attempt and schedules, after
     * `ReconnectDelay`, the `connect` that made the socket; at the maximum a
     * toast says the hook gave up.
     */
    method OnClose(code: int)
      requires Valid() && socket.Some?
      modifies this
      ensures Valid()
      ensures var d := DecideOnClose(old(attempts), code);
              State() == old(State()).(isConnected := false, inProgress := false, pingActive := false,
                                       socket := Some(old(socket).value.(state := Closed)),
                                       attempts := AttemptsAfterClose(old(attempts), code),
                                       reconnectTimer := if d.Reconnect? then Some(Timer(d.delay, old(socket).value.origin))
                                                         else old(reconnectTimer),
                                       toasts := old(toasts) + (if d.GiveUp? then [GiveUpToast] else []))
    {
      isConnected := false;
      inProgress := false;
      pingActive := false;
      socket := Some(socket.value.(state := Closed));
      if code != NormalClosure && attempts < MaxReconnectAttempts {
        attempts := attempts + 1;
        reconnectTimer := Some(Timer(ReconnectDelay(attempts), socket.value.origin));
      } else if attempts >= MaxReconnectAttempts {
        toasts := toasts + [GiveUpToast];
      }
    }

    /** `onerror`: the attempt is over and the ping stopped; nothing is scheduled. */
    method OnError()
      modifies this
      ensures State() == old(State()).(inProgress := false, pingActive := false)
    {
      inProgress := false;
      pingActive := false;
    }

    /**
     * The reconnect timer fires and calls the `connect` that made the
     * closed socket, with that render's listener table and held socket.
     * That `connect` closed the held socket before making the closed one
     * (`Valid`), so its open-socket check never skips.
     */
    method ReconnectFires()
      requires Valid() && reconnectTimer.Some?
      modifies this
      ensures Valid()
      ensures reconnectTimer.None?
      ensures isAuthenticated && token != "" ==>
                State() == ConnectWith(old(State()).(reconnectTimer := None), old(reconnectTimer).value.origin, false)
      ensures !isAuthenticated || token == "" ==> State() == old(State()).(reconnectTimer := None)
      ensures old(reconnectTimer).value.origin.held.Some? ==> CloseCall(old(reconnectTimer).value.origin.held.value, None) in old(closes)
    {
      var origin := reconnectTimer.value.origin;
      reconnectTimer := None;
      if isAuthenticated && token != "" {
        CallConnect(origin, false);
      }
    }

    /**
     * `disconnect`: with a socket, closes it normally (code 1000), forgets
     * it, and resets the attempts, the pending reconnect and the ping;
     * without one, does nothing.
     */
    method Disconnect()
      requires Valid()
      modifies this
      ensures Valid()
      ensures old(socket).None? ==> unchanged(this)
      ensures old(socket).Some? ==>
                State() == old(State()).(closes := old(closes) + [CloseCall(old(socket).value.id, Some(NormalClosure))],
                                         socket := None, isConnected := false, attempts := 0, wasConnected := false,
                                         reconnectTimer := None, pingActive := false)
    {
      if socket.Some? {
        closes := closes + [CloseCall(socket.value.id, Some(NormalClosure))];
        socket := None;
        isConnected := false;
        attempts := 0;
        wasConnected := false;
        reconnectTimer := None;
        pingActive := false;
      }
    }

    /**
     * The start-up effect, which runs again after every render in which
     * `connect` changed, that is after every new socket and every change of
     * the listener table: with a token it zeroes the attempts and schedules
     * `connect` 300 ms later, replacing the previous run's timer; an
     * unauthenticated hook disconnects.
     */
    method StartupEffect()
      requires Valid()
      modifies this
      ensures Valid()
      ensures isAuthenticated && token != "" ==> State() == old(State()).(attempts := 0, startupTimer := true)
      ensures isAuthenticated && token == "" ==> unchanged(this)
      ensures !isAuthenticated && old(socket).None? ==> unchanged(this)
      ensures !isAuthenticated && old(socket).Some? ==>
                State() == old(State()).(closes := old(closes) + [CloseCall(old(socket).value.id, Some(NormalClosure))],
                                         socket := None, isConnected := false, attempts := 0, wasConnected := false,
                                         reconnectTimer := None, pingActive := false)
    {
      if isAuthenticated && token != "" {
        attempts := 0;
        startupTimer := true;
      } else if !isAuthenticated {
        Disconnect();
      }
    }

    /** The start-up effect's timer fires and calls the current `connect`. */
    method StartupFires()
      requires Valid() && startupTimer
      modifies this
      ensures Valid()
      ensures State() == ConnectFrom(old(State()).(startupTimer := false))
    {
      startupTimer := false;
      Connect();
    }

    /**
     * The page becomes visible or the network comes back (after the
     * one-second debounce): an authenticated hook whose socket is not open
     * starts counting attempts afresh and connects.
     */
    method Resume(visible: bool, online: bool)
      requires Valid()
      modifies this
      ensures Valid()
      ensures !((visible || online) && isAuthenticated && !(old(socket).Some? && old(socket).value.state == Open)) ==> unchanged(this)
      ensures (visible || online) && isAuthenticated && !(old(socket).Some? && old(socket).value.state == Open) ==>
                attempts == 0 && State() == ConnectFrom(old(State()).(attempts := 0))
      ensures (visible || online) && isAuthenticated && token != "" && !old(inProgress) && old(socket).None? ==>
                attempts == 0 && socket.Some? && socket.value.state == Connecting && socket.value.origin.listeners == old(listeners)
    {
      if (visible || online) && isAuthenticated && !(socket.Some? && socket.value.state == Open) {
        attempts := 0;
        Connect();
      }
    }

    /** `subscribe`: the callback is added to its type's listeners. */
    method Subscribe(eventType: string, cb: Callback)
      requires Valid()
      modifies this
      ensures Valid()
      ensures State() == old(State()).(listeners := Subscribed(old(listeners), eventType, cb))
    {
      listeners := Subscribed(listeners, eventType, cb);
    }

    /** The function `subscribe` returns: the callback leaves its type's listeners. */
    method Unsubscribe(eventType: string, cb: Callback)
      requires Valid()
      modifies this
      ensures Valid()
      ensures State() == old(State()).(listeners := Unsubscribed(old(listeners), eventType, cb))
    {
      listeners := Unsubscribed(listeners, eventType, cb);
    }
  }

  /**
   * As written, a reconnect opens its socket with the listener table of the
   * render that made the closed socket, not the current one: a callback
   * subscribed since is not in the new socket's table either.
   */
  method ReconnectKeepsStaleTable(c: Client, eventType: string, cb: Callback)
    requires c.Valid() && c.socket.Some? && c.isAuthenticated && c.token != "" && !c.inProgress
    requires c.attempts < MaxReconnectAttempts && c.reconnectTimer.None?
    requires cb !in ListenersOf(c.socket.value.origin.listeners, eventType)
    modifies c
    ensures c.socket.Some? && cb !in ListenersOf(c.socket.value.origin.listeners, eventType)
    ensures cb in ListenersOf(c.listeners, eventType)
  {
    c.Subscribe(eventType, cb);
    c.OnClose(1006);
    c.ReconnectFires();
  }

  /**
   * As written, the back-off never grows: the socket a reconnect opens
   * changes `connect`, so the start-up effect runs again and zeroes the
   * attempts, and the next abnormal close waits one second again, whatever
   * the count was.
   */
  method BackoffRestarts(c: Client, code: int)
    requires c.Valid() && c.reconnectTimer.Some? && c.isAuthenticated && c.token != "" && !c.inProgress
    requires c.attempts < MaxReconnectAttempts && code != NormalClosure
    modifies c
    ensures c.attempts == 1 && c.reconnectTimer.Some? && c.reconnectTimer.value.delay == BaseDelay
    ensures c.toasts == old(c.toasts)
  {
    c.ReconnectFires();
    c.StartupEffect();
    c.OnClose(code);
    DelaySchedule();
  }

  /**
   * With the start-up effect tied to the login alone, a reconnect followed
   * by another abnormal close counts one more attempt and doubles the
   * delay, as `FailureRunFromStart` spells out.
   */
  method BackoffGrows(c: Client, code: int)
    requires c.Valid() && c.reconnectTimer.Some? && c.isAuthenticated && c.token != "" && !c.inProgress
    requires c.attempts < MaxReconnectAttempts && code != NormalClosure
    modifies c
    ensures c.attempts == old(c.attempts) + 1
    ensures c.reconnectTimer.Some? && c.reconnectTimer.value.delay == ReconnectDelay(old(c.attempts) + 1)
  {
    c.ReconnectFires();
    c.OnClose(code);
  }

  /**
   * As written, a callback subscribed after the socket was created is not
   * called for messages of its type on that socket: the socket still
   * dispatches to the table it closed over.
   */
  lemma LateSubscriberMissesMessages(snapshot: map<string, seq<Callback>>, current: map<string, seq<Callback>>,
                                     eventType: string, cb: Callback, payload: string)
    requires eventType != "" && cb !in ListenersOf(snapshot, eventType)
    ensures Call(cb, payload) !in Dispatch(snapshot, Incoming(eventType, payload))
    ensures Call(cb, payload) in Dispatch(Subscribed(current, eventType, cb), Incoming(eventType, payload))
  {
    var t := Subscribed(current, eventType, cb);
    var after := Dispatch(t, Incoming(eventType, payload));
    assert after[|after| - 1] == Call(cb, payload);
  }

  /** Dispatching from the current table, every subscribed callback hears every message of its type. */
  lemma SubscriberHearsMessages(table: map<string, seq<Callback>>, eventType: string, cb: Callback, payload: string)
    requires eventType != "" && cb in ListenersOf(table, eventType)
    ensures Call(cb, payload) in Dispatch(table, Incoming(eventType, payload))
  {
    var l := ListenersOf(table, eventType);
    var i :| 0 <= i < |l| && l[i] == cb;
    assert Dispatch(table, Incoming(eventType, payload))[i] == Call(cb, payload);
  }
}
