/**
 * Client call sequences on the registry, the wrapper and the store, each
 * building its own objects, verified on concrete input to show how the
 * registry, the wrapper and the store behave.
 */
module Scenarios {
  import opened Wrappers
  import opened Text
  import opened Streams
  import opened WebSocketWrappers
  import Api
  import Stores

  /** Both spellings of the symbol give the same ticker fragment. */
  lemma BtcTickerFragment()
    ensures Caller(Ticker("BTCUSDT")) == Caller(Ticker("btcusdt"))
  {
    LowerCaseBtc("BTCUSDT");
    CallerOfCanonical(Ticker("BTCUSDT"));
  }

  /** The ticker builder writes the literal fragment the exchange expects. */
  lemma BtcTickerLiteral()
    ensures Caller(Ticker("BTCUSDT")) == "btcusdt@ticker"
  {
    LowerCaseBtc("BTCUSDT");
    var f := Caller(Ticker("BTCUSDT"));
    assert forall i :: 0 <= i < 14 ==> f[i] == "btcusdt@ticker"[i];
  }

  lemma LowerCaseBtc(s: string)
    requires s == "BTCUSDT" || s == "btcusdt"
    ensures ToLower(s) == "btcusdt"
  {
    var r := ToLower(s);
    assert forall i :: 0 <= i < 7 ==> r[i] == "btcusdt"[i];
  }

  /**
   * Subscribing to the ticker of "BTCUSDT" and then of "btcusdt": both requests
   * share the fragment "btcusdt@ticker", so the second finds the first's wrapper,
   * one wrapper is tracked, and only the first callback is registered on it.
   */
  method CaseInsensitiveDedup() returns (first: Option<Api.Connection>, second: Option<Api.Connection>, tracked: nat)
    ensures first == None && second.Some?
    ensures tracked == 1
    ensures second.value.messageHandlers == [Api.Forward(1)]
    ensures second.value.url == Api.PathFor(Caller(Ticker("btcusdt")), false)
  {
    var api := new Api.Api(None, None);
    BtcTickerFragment();
    first := api.OnStream(Ticker("BTCUSDT"), 1);
    assert api.subscription.Keys == {Api.PathFor(Caller(Ticker("btcusdt")), false)};
    second := api.OnStream(Ticker("btcusdt"), 2);
    tracked := |api.subscription.Keys|;
  }

  /**
   * A tracked connection closes with the abnormal code 1006: the registry
   * forgets the path at once, while the wrapper counts one attempt and arms a
   * reconnect after the registry's interval of 3000.
   */
  method AbnormalCloseEvicts() returns (stillTracked: bool, attempts: nat, connected: bool, ghost effects: seq<Effect>)
    ensures !stillTracked && attempts == 1 && !connected
    ensures effects == [OpenSocket(Api.PathFor(Caller(Trade("btcusdt")), false)), ScheduleConnect(Api.SubscriptionReconnectInterval)]
  {
    var api := new Api.Api(None, None);
    var _ := api.OnStream(Trade("btcusdt"), 7);
    var path := Api.PathFor(Caller(Trade("btcusdt")), false);
    var ws := api.subscription[path];
    var delivered := api.Dispatch(ws, Api.Close(1006));
    stillTracked := path in api.subscription;
    attempts := ws.reconnectAttempts;
    connected := ws.isConnected;
    effects := ws.Effects;
  }

  /**
   * `closeAll` on one tracked connection, then the socket's own close event
   * (code 1005, no status) arrives: the registry stays empty, the wrapper keeps
   * its counter and schedules nothing, so it stays down.
   */
  method CloseAllThenCloseEvent() returns (tracked: nat, attempts: nat, ghost effects: seq<Effect>)
    ensures tracked == 0 && attempts == 0
    ensures effects == [OpenSocket(Api.PathFor(Caller(Trade("btcusdt")), false)), CloseSocket]
  {
    var api := new Api.Api(None, None);
    var _ := api.OnStream(Trade("btcusdt"), 7);
    var path := Api.PathFor(Caller(Trade("btcusdt")), false);
    var ws := api.subscription[path];
    api.CloseAll();
    var delivered := api.Dispatch(ws, Api.Close(NoStatusReceived));
    tracked := |api.subscription.Keys|;
    attempts := ws.reconnectAttempts;
    effects := ws.Effects;
  }

  /**
   * With at most two reconnect attempts, a server that keeps failing gets two
   * scheduled reconnects; the third failure schedules nothing.
   */
  method ReconnectsStopAtLimit() returns (attempts: nat, ghost effects: seq<Effect>)
    ensures attempts == 2
    ensures effects == [OpenSocket("wss://example"), ScheduleConnect(100), OpenSocket("wss://example"),
                        ScheduleConnect(100), OpenSocket("wss://example")]
  {
    var ws := new WebSocketWrapper<Api.Handler>("wss://example", Some(100), Some(2));
    var fired := ws.HandleClose(1006);
    ws.Connect();
    fired := ws.HandleClose(1006);
    ws.Connect();
    fired := ws.HandleClose(1006);
    attempts := ws.reconnectAttempts;
    effects := ws.Effects;
  }

  /** A close with the normal code 1000 neither counts an attempt nor schedules anything. */
  method NormalCloseStaysDown() returns (attempts: nat, ghost effects: seq<Effect>)
    ensures attempts == 0
    ensures effects == [OpenSocket("wss://example")]
  {
    var ws := new WebSocketWrapper<Api.Handler>("wss://example", None, None);
    var fired := ws.HandleOpen();
    fired := ws.HandleClose(NormalClosure);
    attempts := ws.reconnectAttempts;
    effects := ws.Effects;
  }

  /** Three ticker updates at 10, 10 and 12: the first rises by default, equal prices fall, a higher price rises. */
  method PriceDirections() returns (flags: seq<Option<int>>)
    ensures flags == [Some(1), Some(-1), Some(1)]
  {
    var store := new Stores.Store([]);
    var t := Stores.Ticker("BTCUSDT", Some(10.0), None, None, None, None, None, None, None, None);
    store.UpdateTicker(t);
    flags := [store.tickers["BTCUSDT"].pchg];
    store.UpdateTicker(t);
    flags := flags + [store.tickers["BTCUSDT"].pchg];
    store.UpdateTicker(t.(price := Some(12.0)));
    flags := flags + [store.tickers["BTCUSDT"].pchg];
  }

  /** Removing a pair that is not listed removes the last listed pair instead. */
  method RemoveUnlistedDropsLast() returns (left: seq<Stores.Symbol>)
    ensures |left| == 1 && left[0].symbol == "BTCUSDT"
  {
    var btc := Stores.Symbol("BTCUSDT", None, None, None, "btc.png");
    var eth := Stores.Symbol("ETHUSDT", None, None, None, "eth.png");
    var store := new Stores.Store([btc, eth]);
    store.RemoveCoinPair("XRPUSDT");
    Stores.RemoveCoinPairUnlisted(Stores.StoreState([btc, eth], map[]), "XRPUSDT");
    left := store.currencies;
  }
}
