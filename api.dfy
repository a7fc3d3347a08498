/**
 * The subscription registry of src/services/api.ts: a dictionary from full
 * socket path to the one wrapper serving it, the handlers `subscribe` wires
 * into each wrapper, and the facade that subscribes by stream kind.
 *
 * Application callbacks are opaque identifiers; what a callback receives is
 * reported as a `Delivery`. The transport delivers an event to one wrapper
 * through `Dispatch`, which runs the handlers the wrapper fires.
 */
module Api {
  import opened Wrappers
  import opened Text
  import opened Streams
  import opened WebSocketWrappers

  const BaseUrl: string := "wss://stream.binance.com:9443/ws/"
  const CombinedBaseUrl: string := "wss://stream.binance.com:9443/stream?streams="

  /** Options `subscribe` passes to every wrapper it creates. */
  const SubscriptionReconnectInterval: nat := 3000

  /** Defaults of the `Api` constructor. */
  const DefaultTimeout: int := 5000
  const DefaultMaxAttempts: nat := 5

  type CallbackId = nat

  /** The four handlers `subscribe` installs on a wrapper. */
  datatype Handler =
    | LogConnected             // open: only logs
    | Forward(cb: CallbackId)  // message: hands the decoded payload to the callback
    | EvictOnError             // error: removeSubscription(event.endpoint)
    | EvictOnClose             // close: removeSubscription(event.endpoint)

  /** A callback called with a message payload. */
  datatype Delivery = Delivery(cb: CallbackId, data: string)

  /** A transport event arriving at one wrapper. */
  datatype TransportEvent = Open | Incoming(data: string) | Error | Close(code: int)

  type Connection = WebSocketWrapper<Handler>

  /** The socket path `subscribe` and `closeSubscription` build from an endpoint. */
  function PathFor(endpoint: string, isCombined: bool): (r: string)
    ensures |r| >= |endpoint| && r[|r| - |endpoint|..] == endpoint
    ensures isCombined <==> '?' in r[..|r| - |endpoint|]
  {
    (if isCombined then CombinedBaseUrl else BaseUrl) + endpoint
  }

  /** Distinct (endpoint, mode) pairs give distinct paths, and conversely. */
  lemma PathForInjective(e1: string, c1: bool, e2: string, c2: bool)
    ensures PathFor(e1, c1) == PathFor(e2, c2) <==> e1 == e2 && c1 == c2
  {
    if PathFor(e1, c1) == PathFor(e2, c2) {
      var b1 := if c1 then CombinedBaseUrl else BaseUrl;
      var b2 := if c2 then CombinedBaseUrl else BaseUrl;
      assert PathFor(e1, c1)[30] == b1[30];
      assert PathFor(e2, c2)[30] == b2[30];
      assert c1 == c2;
      assert PathFor(e1, c1)[|b1|..] == e1;
      assert PathFor(e2, c2)[|b2|..] == e2;
    }
  }

  /**
   * The path of a single-stream subscription identifies the stream up to the
   * letter case of its symbol, and the mode: one connection per distinct request.
   */
  lemma StreamPathIsDedupKey(a: Stream, ca: bool, b: Stream, cb: bool)
    ensures PathFor(Caller(a), ca) == PathFor(Caller(b), cb) <==> Canonical(a) == Canonical(b) && ca == cb
  {
    PathForInjective(Caller(a), ca, Caller(b), cb);
    CallerIsDedupKey(a, b);
  }

  /** What `subscribe` leaves on the wrapper it created for `path`. */
  ghost predicate Wired(w: Connection, path: string, maxAttempts: nat)
    reads w
  {
    && w.Valid()
    && w.url == path
    && w.reconnectInterval == SubscriptionReconnectInterval
    && w.maxReconnectAttempts == Finite(maxAttempts)
    && w.onOpenHandler == Some(LogConnected)
    && |w.messageHandlers| == 1 && w.messageHandlers[0].Forward?
    && w.errorHandlers == [EvictOnError]
    && w.onCloseHandler == Some(EvictOnClose)
  }

  /** The paths the handlers of `fired` remove, as they run in order. */
  function Evicted(fired: seq<Invocation<Handler>>): set<string> {
    if fired == [] then {}
    else
      var last := fired[|fired| - 1];
      Evicted(fired[..|fired| - 1])
      + (if (last.handler == EvictOnError || last.handler == EvictOnClose) && !last.event.Message?
         then {last.event.endpoint} else {})
  }

  /** The callback calls the handlers of `fired` make, in order. */
  function Delivered(fired: seq<Invocation<Handler>>): seq<Delivery> {
    if fired == [] then []
    else
      var last := fired[|fired| - 1];
      Delivered(fired[..|fired| - 1])
      + (if last.handler.Forward? && last.event.Message? then [Delivery(last.handler.cb, last.event.data)] else [])
  }

  /** A wrapper closeAll has not reached yet: valid, its log as it was. */
  ghost predicate Untouched(w: Connection, effects: seq<Effect>)
    reads w
  {
    w.Valid() && w.Effects == effects
  }

  /** A wrapper closeAll has closed: disconnected, one close appended to its log. */
  ghost predicate ClosedOnce(w: Connection, effects: seq<Effect>)
    reads w
  {
    w.Valid() && !w.isConnected && w.Effects == effects + [CloseSocket]
  }

  /**
   * A wrapper whose counter and message handlers are those it had before; the
   * other handlers are fixed by `Wired`.
   */
  ghost predicate KeptWiring(w: Connection, attempts: nat, messageHandlers: seq<Handler>)
    reads w
  {
    w.reconnectAttempts == attempts && w.messageHandlers == messageHandlers
  }

  /** The wrapper `subscribe` creates for `path`, with its four handlers installed; it has not opened yet. */
  method NewConnection(path: string, cb: CallbackId, maxAttempts: nat) returns (ws: Connection)
    ensures fresh(ws) && Wired(ws, path, maxAttempts)
    ensures ws.messageHandlers == [Forward(cb)]
    ensures !ws.isConnected && ws.reconnectAttempts == 0 && ws.Effects == [OpenSocket(path)]
  {
    ws := new WebSocketWrapper<Handler>(path, Some(SubscriptionReconnectInterval), Some(maxAttempts));
    ws.OnOpen(LogConnected);
    ws.OnMessage(Forward(cb));
    ws.OnError(EvictOnError);
    ws.OnClose(EvictOnClose);
  }

  class Api {
    const timeout: int
    const maxAttempts: nat
    var subscription: map<string, Connection>

    /** Each tracked wrapper serves its own key and carries the wiring `subscribe` gave it. */
    ghost predicate Valid()
      reads this, subscription.Values
    {
      forall p | p in subscription :: Wired(subscription[p], p, maxAttempts)
    }

    /** The outcome of `subscribe(cb, …)` for `path`, given the dictionary before the call. */
    ghost predicate SubscribedTo(before: map<string, Connection>, path: string, cb: CallbackId, existing: Option<Connection>)
      reads this, subscription.Values
    {
      if path in before then
        existing == Some(before[path]) && subscription == before
      else
        && existing == None
        && path in subscription
        && subscription == before[path := subscription[path]]
        && subscription[path].messageHandlers == [Forward(cb)]
        && !subscription[path].isConnected
        && subscription[path].reconnectAttempts == 0
        && subscription[path].Effects == [OpenSocket(path)]
    }

    constructor (timeout: Option<int>, maxAttempts: Option<nat>)
      ensures Valid()
      ensures this.timeout == timeout.GetOr(DefaultTimeout)
      ensures this.maxAttempts == maxAttempts.GetOr(DefaultMaxAttempts)
      ensures subscription == map[]
    {
      this.timeout := timeout.GetOr(DefaultTimeout);
      this.maxAttempts := maxAttempts.GetOr(DefaultMaxAttempts);
      subscription := map[];
    }

    /**
     * `subscribe(cb, endpoint, isCombined)`. A path already tracked is left as
     * it is (and `cb` is not registered); otherwise exactly one fresh wrapper
     * for the path is added and every other entry stays.
     */
    method Subscribe(cb: CallbackId, endpoint: string, isCombined: bool) returns (existing: Option<Connection>)
      requires Valid()
      modifies this`subscription
      ensures Valid()
      ensures SubscribedTo(old(subscription), PathFor(endpoint, isCombined), cb, existing)
      ensures PathFor(endpoint, isCombined) !in old(subscription) ==> fresh(subscription[PathFor(endpoint, isCombined)])
    {
      var path := PathFor(endpoint, isCombined);
      if path in subscription {
        return Some(subscription[path]);
      }
      var ws := NewConnection(path, cb, maxAttempts);
      subscription := subscription[path := ws];
      existing := None;
    }

    /** `removeSubscription(endpoint)`: drops that key, if present, and nothing else. */
    method RemoveSubscription(endpoint: string)
      requires Valid()
      modifies this`subscription
      ensures Valid()
      ensures subscription == old(subscription) - {endpoint}
    {
      if endpoint in subscription {
        subscription := subscription - {endpoint};
      }
    }

    /**
     * `closeSubscription(type, isCombined, ...args)`: closes the wrapper of the
     * rebuilt path, if tracked. The dictionary itself is not changed; the
     * entry goes when that wrapper's close event reaches its close handler.
     */
    method CloseSubscription(stream: Stream, isCombined: bool)
      requires Valid()
      modifies subscription.Values`isConnected, subscription.Values`Effects
      ensures Valid()
      ensures subscription == old(subscription)
      ensures var path := PathFor(Caller(stream), isCombined);
        path in subscription ==>
          !subscription[path].isConnected && subscription[path].Effects == old(subscription[path].Effects) + [CloseSocket]
      ensures forall p | p in subscription && p != PathFor(Caller(stream), isCombined) :: unchanged(subscription[p])
      ensures forall p | p in subscription :: Wired(subscription[p], p, maxAttempts) && KeptWiring(subscription[p], old(subscription[p].reconnectAttempts), old(subscription[p].messageHandlers))
    {
      var path := PathFor(Caller(stream), isCombined);
      if path in subscription {
        var ws := subscription[path];
        ws.Close();
      }
    }

    /** `closeAll()`: every tracked wrapper is closed once and the dictionary is emptied. */
    method CloseAll()
      requires Valid()
      modifies this`subscription, subscription.Values`isConnected, subscription.Values`Effects
      ensures Valid()
      ensures subscription == map[]
      ensures forall p | p in old(subscription) ::
        !old(subscription)[p].isConnected && old(subscription)[p].Effects == old(subscription[p].Effects) + [CloseSocket]
      ensures forall p | p in old(subscription) ::
        Wired(old(subscription)[p], p, maxAttempts)
        && KeptWiring(old(subscription)[p], old(subscription[p].reconnectAttempts), old(subscription[p].messageHandlers))
    {
      ghost var tracked := subscription;
      ghost var before := map p | p in subscription :: subscription[p].Effects;
      ghost var closed: set<string> := {};
      while subscription != map[]
        invariant ClosingAll(tracked, before, closed)
        decreases subscription.Keys
      {
        var key :| key in subscription;
        closed := CloseAndRemove(key, subscription[key], tracked, before, closed);
      }
    }

    /**
     * Progress of closeAll over the dictionary `tracked` it started from: the
     * keys still present hold their wrappers untouched, the keys in `closed`
     * are gone and their wrappers closed once.
     */
    ghost predicate ClosingAll(tracked: map<string, Connection>, before: map<string, seq<Effect>>, closed: set<string>)
      reads this, tracked.Values
    {
      && tracked.Keys == closed + subscription.Keys && closed !! subscription.Keys
      && tracked.Keys <= before.Keys
      && (forall p | p in tracked :: tracked[p].url == p)
      && (forall p | p in subscription :: subscription[p] == tracked[p] && Untouched(tracked[p], before[p]))
      && (forall p | p in closed :: ClosedOnce(tracked[p], before[p]))
    }

    /** The body of closeAll's loop: close the wrapper under `key`, then delete the key. */
    method CloseAndRemove(key: string, ws: Connection, ghost tracked: map<string, Connection>, ghost before: map<string, seq<Effect>>, ghost closed: set<string>)
      returns (ghost closed': set<string>)
      requires key in subscription && subscription[key] == ws && ClosingAll(tracked, before, closed)
      modifies this`subscription, ws`isConnected, ws`Effects
      ensures subscription == old(subscription) - {key}
      ensures closed' == closed + {key} && ClosingAll(tracked, before, closed')
    {
      ws.Close();
      subscription := subscription - {key};
      closed' := closed + {key};
    }

    /** The facade `onDepthUpdate`, `onTicker`, … `onAllTickers`: subscribes the stream's fragment on the plain base. */
    method OnStream(stream: Stream, cb: CallbackId) returns (existing: Option<Connection>)
      requires Valid()
      modifies this`subscription
      ensures Valid()
      ensures SubscribedTo(old(subscription), PathFor(Caller(stream), false), cb, existing)
      ensures PathFor(Caller(stream), false) !in old(subscription) ==> fresh(subscription[PathFor(Caller(stream), false)])
    {
      existing := Subscribe(cb, Caller(stream), false);
    }

    /** `onCombinedStream(streams, cb)`: subscribes the '/'-joined list on the combined base. */
    method OnCombinedStream(streams: seq<string>, cb: CallbackId) returns (existing: Option<Connection>)
      requires Valid()
      modifies this`subscription
      ensures Valid()
      ensures SubscribedTo(old(subscription), PathFor(Join(streams, '/'), true), cb, existing)
      ensures PathFor(Join(streams, '/'), true) !in old(subscription) ==> fresh(subscription[PathFor(Join(streams, '/'), true)])
    {
      existing := Subscribe(cb, Join(streams, '/'), true);
    }

    /** Runs fired handlers in order: forwards reach their callback, evictions remove their path. */
    method RunHandlers(fired: seq<Invocation<Handler>>) returns (delivered: seq<Delivery>)
      requires Valid()
      modifies this`subscription
      ensures Valid()
      ensures subscription == old(subscription) - Evicted(fired)
      ensures delivered == Delivered(fired)
    {
      delivered := [];
      var i := 0;
      while i < |fired|
        invariant 0 <= i <= |fired|
        invariant Valid()
        invariant subscription == old(subscription) - Evicted(fired[..i])
        invariant delivered == Delivered(fired[..i])
      {
        var inv := fired[i];
        assert fired[..i + 1][..i] == fired[..i];
        match inv.handler {
          case Forward(cb) =>
            if inv.event.Message? {
              delivered := delivered + [Delivery(cb, inv.event.data)];
            }
          case EvictOnError =>
            if !inv.event.Message? {
              RemoveSubscription(inv.event.endpoint);
            }
          case EvictOnClose =>
            if !inv.event.Message? {
              RemoveSubscription(inv.event.endpoint);
            }
          case LogConnected =>
        }
        i := i + 1;
      }
      assert fired[..i] == fired;
    }

    /**
     * A transport event reaches wrapper `ws` (tracked or already evicted): the
     * wrapper reacts, then the handlers it fired run. An error or a close
     * removes the key `ws.url`, whichever wrapper that key now holds.
     */
    method Dispatch(ws: Connection, ev: TransportEvent) returns (delivered: seq<Delivery>)
      requires Valid() && Wired(ws, ws.url, maxAttempts)
      modifies this`subscription, ws`isConnected, ws`reconnectAttempts, ws`Effects
      ensures Valid() && Wired(ws, ws.url, maxAttempts)
      ensures ev.Open? ==>
        && ws.isConnected && ws.reconnectAttempts == 0 && ws.Effects == old(ws.Effects)
        && subscription == old(subscription) && delivered == []
      ensures ev.Incoming? ==>
        && unchanged(ws) && subscription == old(subscription)
        && delivered == [Delivery(ws.messageHandlers[0].cb, ev.data)]
      ensures ev.Error? ==>
        unchanged(ws) && subscription == old(subscription) - {ws.url} && delivered == []
      ensures ev.Close? ==>
        && !ws.isConnected && subscription == old(subscription) - {ws.url} && delivered == []
        && (ReconnectsAfter(ev.code) ==> ws.ReconnectedFrom(old(ws.reconnectAttempts), old(ws.Effects)))
        && (!ReconnectsAfter(ev.code) ==> ws.reconnectAttempts == old(ws.reconnectAttempts) && ws.Effects == old(ws.Effects))
    {
      var fired: seq<Invocation<Handler>>;
      match ev {
        case Open =>
          fired := ws.HandleOpen();
        case Incoming(data) =>
          fired := ws.HandleMessage(data);
          assert fired == [Invocation(Forward(ws.messageHandlers[0].cb), Message(data))];
        case Error =>
          fired := ws.HandleError();
          assert fired == [Invocation(EvictOnError, Failed(ws.url))];
        case Close(code) =>
          fired := ws.HandleClose(code);
      }
      assert Evicted(fired[..0]) == {} && Delivered(fired[..0]) == [];
      delivered := RunHandlers(fired);
    }
  }
}
