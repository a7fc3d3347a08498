/**
 * A reconnecting WebSocket connection (src/services/WebSocketWrapper.ts).
 *
 * The browser transport is not modelled. Its four events (open, message,
 * error, close) are method calls on the wrapper; each returns, in order, the
 * handler invocations the event makes, so the caller can run those handlers.
 * What the wrapper asks of the outside world (open a socket, close it, arm a
 * reconnect timer) is recorded in the ghost log `Effects`; a timer firing is
 * the environment calling `Connect` again.
 */
module WebSocketWrappers {
  import opened Wrappers

  /** Close codes of section 7.4.1 of RFC 6455 after which the wrapper stays down. */
  const NormalClosure: int := 1000
  const NoStatusReceived: int := 1005

  /** Defaults of the constructor's options. */
  const DefaultReconnectInterval: nat := 5000

  /** A JavaScript number used as a bound: finite, or `Infinity` (the default). */
  datatype Limit = Finite(n: nat) | Infinity

  /**
   * `attempts >= max` as JavaScript evaluates it; nothing reaches `Infinity`.
   * Below a bound, being exhausted means sitting exactly on it, and one more
   * attempt stays within the bound exactly when the counter is not exhausted.
   */
  predicate Exhausted(attempts: nat, max: Limit)
    ensures WithinLimit(attempts, max) ==> (Exhausted(attempts, max) <==> max == Finite(attempts))
    ensures WithinLimit(attempts, max) ==> (!Exhausted(attempts, max) <==> WithinLimit(attempts + 1, max))
  {
    match max
    case Finite(n) => attempts >= n
    case Infinity => false
  }

  /** `attempts <= max`, the bound the wrapper keeps. */
  predicate WithinLimit(attempts: nat, max: Limit) {
    match max
    case Finite(n) => attempts <= n
    case Infinity => true
  }

  /** A close event triggers a reconnect unless its code is one of the two normal ones. */
  predicate ReconnectsAfter(code: int) {
    code != NormalClosure && code != NoStatusReceived
  }

  /**
   * What a handler receives. Open, error and close events carry the wrapper's
   * url. The close event is the browser's event spread into a fresh object, and
   * `code` is an accessor of the event's prototype that a spread does not copy,
   * so the close handler gets the url and not the code.
   */
  datatype Event =
    | Opened(endpoint: string)
    | Message(data: string)
    | Failed(endpoint: string)
    | Closed(endpoint: string)

  /** One call of a registered handler. */
  datatype Invocation<H> = Invocation(handler: H, event: Event)

  /** Requests the wrapper makes of the transport and of the timer. */
  datatype Effect = OpenSocket(url: string) | CloseSocket | ScheduleConnect(delay: nat)

  class WebSocketWrapper<H> {
    const url: string
    const reconnectInterval: nat
    const maxReconnectAttempts: Limit

    var reconnectAttempts: nat
    var hasSocket: bool          // `websocket !== null`
    var isConnected: bool

    var messageHandlers: seq<H>
    var errorHandlers: seq<H>
    var onOpenHandler: Option<H>
    var onCloseHandler: Option<H>

    /** Everything asked of the transport and the timer so far, oldest first. */
    ghost var Effects: seq<Effect>

    /** The attempt counter never passes a finite maximum; a socket exists from construction on. */
    ghost predicate Valid()
      reads this
    {
      WithinLimit(reconnectAttempts, maxReconnectAttempts) && hasSocket
    }

    /**
     * `new WebSocketWrapper({url, reconnectInterval, maxReconnectAttempts})`:
     * missing options take their defaults, and the constructor connects at once.
     */
    constructor (url: string, reconnectInterval: Option<nat>, maxReconnectAttempts: Option<nat>)
      ensures Valid()
      ensures this.url == url
      ensures this.reconnectInterval == reconnectInterval.GetOr(DefaultReconnectInterval)
      ensures this.maxReconnectAttempts == if maxReconnectAttempts.Some? then Finite(maxReconnectAttempts.value) else Infinity
      ensures reconnectAttempts == 0 && !isConnected
      ensures messageHandlers == [] && errorHandlers == []
      ensures onOpenHandler == None && onCloseHandler == None
      ensures Effects == [OpenSocket(url)]
    {
      this.url := url;
      this.reconnectInterval := reconnectInterval.GetOr(DefaultReconnectInterval);
      this.maxReconnectAttempts := if maxReconnectAttempts.Some? then Finite(maxReconnectAttempts.value) else Infinity;
      reconnectAttempts := 0;
      isConnected := false;
      messageHandlers := [];
      errorHandlers := [];
      onOpenHandler := None;
      onCloseHandler := None;
      // the constructor's own call of connect(): not yet connected, so a socket is opened
      hasSocket := true;
      Effects := [OpenSocket(url)];
    }

    /** Opens a new socket unless already connected. */
    method Connect()
      requires Valid()
      modifies this`hasSocket, this`Effects
      ensures Valid()
      ensures old(isConnected) ==> Effects == old(Effects)
      ensures !old(isConnected) ==> Effects == old(Effects) + [OpenSocket(url)]
    {
      if isConnected {
        return;
      }
      hasSocket := true;
      Effects := Effects + [OpenSocket(url)];
    }

    /** The socket opened: connected, counter reset, the open handler (if any) told the url. */
    method HandleOpen() returns (fired: seq<Invocation<H>>)
      requires Valid()
      modifies this`isConnected, this`reconnectAttempts
      ensures Valid()
      ensures isConnected && reconnectAttempts == 0
      ensures fired == if onOpenHandler.Some? then [Invocation(onOpenHandler.value, Opened(url))] else []
    {
      isConnected := true;
      reconnectAttempts := 0;
      fired := [];
      if onOpenHandler.Some? {
        fired := [Invocation(onOpenHandler.value, Opened(url))];
      }
    }

    /** A message arrived: every message handler gets it once, in registration order. */
    method HandleMessage(data: string) returns (fired: seq<Invocation<H>>)
      ensures |fired| == |messageHandlers|
      ensures forall i :: 0 <= i < |fired| ==> fired[i] == Invocation(messageHandlers[i], Message(data))
    {
      fired := [];
      var i := 0;
      while i < |messageHandlers|
        invariant 0 <= i <= |messageHandlers|
        invariant |fired| == i
        invariant forall k :: 0 <= k < i ==> fired[k] == Invocation(messageHandlers[k], Message(data))
      {
        fired := fired + [Invocation(messageHandlers[i], Message(data))];
        i := i + 1;
      }
    }

    /**
     * A transport error: every error handler is told the url, in registration
     * order. Nothing else changes (the method modifies nothing).
     */
    method HandleError() returns (fired: seq<Invocation<H>>)
      ensures |fired| == |errorHandlers|
      ensures forall i :: 0 <= i < |fired| ==> fired[i] == Invocation(errorHandlers[i], Failed(url))
    {
      fired := [];
      var i := 0;
      while i < |errorHandlers|
        invariant 0 <= i <= |errorHandlers|
        invariant |fired| == i
        invariant forall k :: 0 <= k < i ==> fired[k] == Invocation(errorHandlers[k], Failed(url))
      {
        fired := fired + [Invocation(errorHandlers[i], Failed(url))];
        i := i + 1;
      }
    }

    /**
     * The socket closed with `code`: disconnected, the close handler (if any)
     * told the url, then a reconnect exactly when the code is abnormal.
     */
    method HandleClose(code: int) returns (fired: seq<Invocation<H>>)
      requires Valid()
      modifies this`isConnected, this`reconnectAttempts, this`Effects
      ensures Valid()
      ensures !isConnected
      ensures fired == if onCloseHandler.Some? then [Invocation(onCloseHandler.value, Closed(url))] else []
      ensures ReconnectsAfter(code) ==> ReconnectedFrom(old(reconnectAttempts), old(Effects))
      ensures !ReconnectsAfter(code) ==> reconnectAttempts == old(reconnectAttempts) && Effects == old(Effects)
    {
      isConnected := false;
      fired := [];
      if onCloseHandler.Some? {
        fired := [Invocation(onCloseHandler.value, Closed(url))];
      }
      if ReconnectsAfter(code) {
        Reconnect();
      }
    }

    /**
     * What `reconnect()` leaves behind, from the counter and log it started
     * with: once exhausted nothing changes; otherwise one more attempt is
     * counted and exactly one connect is scheduled after the fixed interval.
     */
    ghost predicate ReconnectedFrom(attempts: nat, effects: seq<Effect>)
      reads this
    {
      if Exhausted(attempts, maxReconnectAttempts) then
        reconnectAttempts == attempts && Effects == effects
      else
        reconnectAttempts == attempts + 1 && Effects == effects + [ScheduleConnect(reconnectInterval)]
    }

    method Reconnect()
      requires Valid()
      modifies this`reconnectAttempts, this`Effects
      ensures Valid()
      ensures ReconnectedFrom(old(reconnectAttempts), old(Effects))
    {
      if Exhausted(reconnectAttempts, maxReconnectAttempts) {
        return;
      }
      reconnectAttempts := reconnectAttempts + 1;
      Effects := Effects + [ScheduleConnect(reconnectInterval)];
    }

    /** Closes the socket from this side; the wrapper is no longer connected. */
    method Close()
      requires Valid()
      modifies this`isConnected, this`Effects
      ensures Valid()
      ensures !isConnected && Effects == old(Effects) + [CloseSocket]
    {
      Effects := Effects + [CloseSocket];
      isConnected := false;
    }

    /** Adds a message handler after those already registered. */
    method OnMessage(handler: H)
      modifies this`messageHandlers
      ensures messageHandlers == old(messageHandlers) + [handler]
    {
      messageHandlers := messageHandlers + [handler];
    }

    /** Adds an error handler after those already registered. */
    method OnError(handler: H)
      modifies this`errorHandlers
      ensures errorHandlers == old(errorHandlers) + [handler]
    {
      errorHandlers := errorHandlers + [handler];
    }

    /** Replaces the open handler: the last one registered wins. */
    method OnOpen(handler: H)
      modifies this`onOpenHandler
      ensures onOpenHandler == Some(handler)
    {
      onOpenHandler := Some(handler);
    }

    /** Replaces the close handler: the last one registered wins. */
    method OnClose(handler: H)
      modifies this`onCloseHandler
      ensures onCloseHandler == Some(handler)
    {
      onCloseHandler := Some(handler);
    }
  }
}
