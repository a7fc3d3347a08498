# Market-data subscriptions and ticker store, modelled in Dafny

This project models the core of a cryptocurrency dashboard. It has three parts:

- **The reconnecting socket wrapper** (`src/services/WebSocketWrapper.ts`). It keeps a connection flag, a reconnect-attempt counter, lists of message and error handlers, and single open and close handlers. It reacts to the transport's open, message, error and close events. After an abnormal close it schedules a reconnect, up to an optional maximum number of attempts.
- **The subscription registry** (`src/services/api.ts`). It maps each full socket path to the one wrapper serving it. The stream-address builders turn a stream request (depth, kline, ticker, …) into a path fragment. `subscribe` creates and wires a wrapper per new path. Errors and closes evict the path. `closeSubscription` and `closeAll` close wrappers.
- **The ticker/currency store** (`src/stores/index.ts`). It holds the list of currency pairs on display and a map from symbol to latest ticker. Its operations are `setDefaultCurrencies`, `updateTicker`, `addCoinPair` and `removeCoinPair`, plus three lookups.

Layout:

| file | module | contents |
|---|---|---|
| `wrappers.dfy` | `Wrappers` | `Option` |
| `text.dfy` | `Text` | ASCII lower-casing; the decimal text of an integer and its parser; `join` and `split` on a separator; first index of a character |
| `websocket_wrapper.dfy` | `WebSocketWrappers` | class `WebSocketWrapper<H>` |
| `streams.dfy` | `Streams` | datatype `Stream` of stream requests; `Caller` (the builders); `ParseFragment` (its inverse) |
| `api.dfy` | `Api` | class `Api` (the registry); the handlers `subscribe` installs |
| `store.dfy` | `Stores` | datatype `StoreState` with the pure transitions and lookups; class `Store` whose methods mutate the two collections |
| `scenarios.dfy` | `Scenarios` | client call sequences, verified on concrete input |

How the model represents the program:

- **Transport events are method calls.** `HandleOpen`, `HandleMessage`, `HandleError` and `HandleClose` each return the handler invocations the event makes, in order.
- **Handlers are data.** The wrapper is generic in its handler type. The registry instantiates it with the four handlers `subscribe` installs: log on open, forward to the callback, evict on error, evict on close. `Api.Dispatch` delivers one event to one wrapper and then runs the handlers it fired.
- **Outside effects are logged.** Opening a socket, closing it and arming a reconnect timer are appended to a ghost log `Effects`. A timer firing is the environment calling `Connect` again.
- **Callbacks are opaque identifiers.** What a callback receives is reported as a `Delivery`.
- **Stream kinds form a closed datatype.** The source picks a builder by a string key; here `Stream` has one constructor per kind and `Caller` matches on it.

Behaviours of the code worth knowing:

- **A repeat subscription does not add its callback.** `subscribe` returns the tracked wrapper and drops the new callback (`Api.Api.Subscribe`, `Scenarios.CaseInsensitiveDedup`).
- **The wrapper has no failed state.** Once the attempts run out, `reconnect` only stops scheduling. A later successful open resets the counter.
- **Fragments are not fully lower-case.** Only the symbol is lower-cased: `@aggTrade` and `@miniTicker` keep their capitals.
- **The close handler does not get the close code.** The wrapper spreads the browser's close event into a new object together with the url. The code is an accessor of the event's prototype, and a spread does not copy it. The wrapper itself still reads the code to decide whether to reconnect.

## Model

| member | source | states |
|---|---|---|
| WebSocketWrappers.Exhausted | src/services/WebSocketWrapper.ts:67 | `attempts >= max`, never true for the `Infinity` default. A counter within the bound is exhausted exactly when it sits on the bound, and one more attempt stays within the bound exactly when it is not exhausted. |
| WebSocketWrappers.ReconnectsAfter | src/services/WebSocketWrapper.ts:62 | The close codes that trigger a reconnect: every code except 1000 (normal closure) and 1005 (no status received). `HandleClose` states the consequence. |
| WebSocketWrappers.WebSocketWrapper.constructor | src/services/WebSocketWrapper.ts:27-32 | Missing options default to interval 5000 and no attempt limit. The counter is 0, the wrapper is disconnected, no handlers are set, and exactly one socket is opened on the url. |
| WebSocketWrappers.WebSocketWrapper.Connect | src/services/WebSocketWrapper.ts:34-37 | A connected wrapper does nothing. Otherwise exactly one socket is opened on the url. |
| WebSocketWrappers.WebSocketWrapper.HandleOpen | src/services/WebSocketWrapper.ts:39-45 | The wrapper becomes connected and the counter resets to 0. The open handler, if set, is invoked exactly once with the wrapper's url as endpoint. |
| WebSocketWrappers.WebSocketWrapper.HandleMessage | src/services/WebSocketWrapper.ts:47-49 | Every message handler is invoked once with the message, in registration order. Nothing else happens. |
| WebSocketWrappers.WebSocketWrapper.HandleError | src/services/WebSocketWrapper.ts:51-55 | Every error handler is invoked once with the url as endpoint, in registration order. The state is not changed. |
| WebSocketWrappers.WebSocketWrapper.HandleClose | src/services/WebSocketWrapper.ts:57-63 | The wrapper becomes disconnected, and the close handler, if set, gets the url (and not the code). A reconnect happens exactly when the code is neither 1000 nor 1005; otherwise the counter and the effects are unchanged. |
| WebSocketWrappers.WebSocketWrapper.Reconnect | src/services/WebSocketWrapper.ts:66-75 | Once attempts >= max, nothing changes. Otherwise the counter goes up by one and exactly one connect is scheduled after the interval. The counter never passes a finite maximum. |
| WebSocketWrappers.WebSocketWrapper.Close | src/services/WebSocketWrapper.ts:77-80 | The socket is asked to close once, and the wrapper is disconnected. |
| WebSocketWrappers.WebSocketWrapper.OnMessage | src/services/WebSocketWrapper.ts:82-84 | The handler is appended after those already registered. |
| WebSocketWrappers.WebSocketWrapper.OnError | src/services/WebSocketWrapper.ts:86-88 | The handler is appended after those already registered. |
| WebSocketWrappers.WebSocketWrapper.OnOpen | src/services/WebSocketWrapper.ts:90-92 | The open handler is replaced: the last one registered wins. |
| WebSocketWrappers.WebSocketWrapper.OnClose | src/services/WebSocketWrapper.ts:94-96 | The close handler is replaced: the last one registered wins. |
| Text.ToLower | src/services/api.ts:19-25 | The result has the input's length. Each character is lowered, and no upper-case ASCII letter remains. |
| Text.ToLowerIdempotent | src/services/api.ts:19-25 | Lower-casing twice equals lower-casing once. |
| Text.ToLowerKeepsNonLetter | src/services/api.ts:19-25 | A non-letter such as '@' or '/' occurs in the lowered symbol exactly when it occurs in the symbol. |
| Text.NatToString | src/services/api.ts:20-21 | The decimal text of a natural number is a non-empty run of digits. |
| Text.IntToString | src/services/api.ts:20-21 | The text `${n}` gives an integer is a numeral: an optional '-', then at least one digit. |
| Text.ParseNatRoundTrip | src/services/api.ts:20-21 | Parsing the digits of n gives back n. |
| Text.IntToStringRoundTrip | src/services/api.ts:20-21 | Parsing the decimal text of any integer gives back the integer. |
| Text.IntToStringInjective | src/services/api.ts:20-21 | Two integers have the same decimal text if and only if they are equal. |
| Text.Join | src/services/api.ts:120 | `join('/')` of the empty list is empty. The result starts with the first part and ends with the last. Between separator-free parts, the separator occurs exactly when there are at least two parts. |
| Text.SplitJoinRoundTrip | src/services/api.ts:119-121 | Splitting a '/'-join of '/'-free pieces on '/' gives back the pieces. |
| Streams.Caller | src/services/api.ts:18-28 | The builders and `caller(type, args)` of lines 63-66. A per-symbol fragment starts with the lower-cased symbol followed by '@'. A whole-market fragment starts with '!'. |
| Streams.CallerRoundTrip | src/services/api.ts:18-28 | For every request whose symbol has no '@', decoding its fragment gives back the request with its symbol lower-cased. |
| Streams.ParsePartsDepthLevel | src/services/api.ts:20 | The text after '@' of a `depthLevel` fragment reads back to its level. |
| Streams.ParsePartsKline | src/services/api.ts:21 | The text after '@' of a `kline` fragment reads back to its interval. |
| Streams.CallerIsDedupKey | src/services/api.ts:18-28 | For any two requests and any symbols, '@' included, the fragments are equal if and only if the requests differ at most in the letter case of the symbol. The kind text after the last '@' has no '@', so it and the symbol before it are recovered uniquely. |
| Streams.CallerOfCanonical | src/services/api.ts:18-28 | Lower-casing the symbol first does not change the fragment. |
| Streams.CallerHasNoSlash | src/services/api.ts:18-28 | A fragment contains '/' only when its symbol does. |
| Streams.CombinedRoundTrip | src/services/api.ts:119-121 | For a non-empty list of requests whose symbols contain no '/', splitting the '/'-joined endpoint on '/' gives back their fragments. Both conditions are needed: `[].join('/')` is `""`, and `"".split('/')` is `[""]`. |
| Api.PathFor | src/services/api.ts:32 | The path `subscribe` builds, and that `closeSubscription` rebuilds at line 74. The endpoint is the path's suffix, and the base before it contains '?' exactly for a combined stream. |
| Api.PathForInjective | src/services/api.ts:32 | Two (endpoint, isCombined) pairs give the same socket path if and only if they are equal, because the two bases differ. |
| Api.StreamPathIsDedupKey | src/services/api.ts:30-35 | For any symbols, two single-stream subscriptions share a path, and so a wrapper, exactly when their modes match and their requests differ at most in symbol case. |
| Api.Api.constructor | src/services/api.ts:12-17 | `timeout` defaults to 5000 and `maxAttempts` to 5. The dictionary starts empty. |
| Api.NewConnection | src/services/api.ts:36-57 | A fresh wrapper on the path, with interval 3000 and the api's attempt limit. It logs on open, forwards messages to the one callback, and evicts on error and on close. It has opened one socket, has counted no attempt, and is not yet connected. |
| Api.Api.Subscribe | src/services/api.ts:30-62 | A tracked path returns its wrapper and leaves the dictionary as it was; the new callback is not registered. Otherwise exactly one fresh wrapper is added under the path and the result is empty. The new wrapper has reconnect interval 3000 and the api's attempt limit, forwards messages to the callback, evicts on error and close, has opened one socket, and is not yet connected. Every other entry stays. |
| Api.Api.RemoveSubscription | src/services/api.ts:67-71 | The dictionary loses exactly that key, if present. |
| Api.Api.CloseSubscription | src/services/api.ts:72-79 | The wrapper under the rebuilt path, if any, is closed once. The dictionary and every other wrapper are unchanged. The closed wrapper keeps its counter, its handlers and its wiring, so a later close event still evicts and reconnects as usual. |
| Api.Api.CloseAll | src/services/api.ts:80-86 | Every wrapper tracked before the call is closed exactly once and is disconnected. The dictionary ends empty. Each closed wrapper keeps its counter, its handlers and its wiring, so its own close event can still be dispatched to it. |
| Api.Api.CloseAndRemove | src/services/api.ts:81-84 | One iteration of the `closeAll` loop closes the wrapper under the key and deletes the key, and keeps the loop's progress invariant. |
| Api.Api.OnStream | src/services/api.ts:87-118 | Each single-stream facade is `subscribe` on the plain base with the request's fragment. |
| Api.Api.OnCombinedStream | src/services/api.ts:119-121 | `subscribe` on the combined base with the '/'-joined stream list. |
| Api.Api.RunHandlers | src/services/api.ts:41-57 | Running fired handlers in order delivers exactly the forwarded messages to their callbacks and removes exactly the endpoints named by error and close events. |
| Api.Api.Dispatch | src/services/api.ts:41-57 | On open, the wrapper connects and the dictionary stays. A message reaches the subscribing callback only. An error evicts the wrapper's path and leaves the wrapper unchanged. A close evicts the path, disconnects the wrapper, and reconnects exactly after an abnormal code. The registry stays consistent throughout. |
| Stores.FindIndex | src/stores/index.ts:42-45 | `findIndex`: -1 exactly when no pair has the symbol; otherwise the index of the first pair that has it. |
| Stores.Find | src/stores/index.ts:48-50 | `find`: a pair exactly when one has the symbol, and then the first such pair. |
| Stores.Splice | src/stores/index.ts:42-45 | `splice` never adds elements: the result is a sub-multiset of the input. |
| Stores.SpliceOne | src/stores/index.ts:42-45 | `splice(i, 1)` with i in range removes exactly element i and keeps the order of the rest. |
| Stores.SpliceLast | src/stores/index.ts:42-45 | `splice(-1, 1)` on a non-empty list removes its last element. |
| Stores.StoreState.SetDefaultCurrencies | src/stores/index.ts:18-21 | The list ends empty, because the `concat` result is discarded. The tickers are unchanged. |
| Stores.StoreState.PriceChange | src/stores/index.ts:24-28 | The flag is 1 or -1. It is -1 only when a ticker for the symbol is stored and both prices are truthy. |
| Stores.StoreState.UpdateTicker | src/stores/index.ts:23-31 | The symbol is added to the map if new. Its entry is the payload with only the flag changed, and the flag is set. The list and every other ticker are unchanged. |
| Stores.StoreState.AddCoinPair | src/stores/index.ts:32-39 | The list is unchanged or gains the pair at its end, and it gains it exactly when no ticker exists for the symbol. The symbol's ticker becomes the placeholder; every other ticker is unchanged. |
| Stores.StoreState.RemoveCoinPair | src/stores/index.ts:40-47 | The symbol's ticker is deleted. A non-empty list loses exactly one element, which need not be the symbol's pair. No element is added. |
| Stores.StoreState.GetSymbolById | src/stores/index.ts:48-50 | Some pair exactly when one is listed with the symbol, and then the first listed pair with that symbol. |
| Stores.StoreState.GetTickerById | src/stores/index.ts:51-53 | Some ticker exactly when the symbol is in the map, and then the stored ticker. |
| Stores.StoreState.HasTicker | src/stores/index.ts:54-57 | True if and only if a ticker exists and its price is truthy (present and non-zero). |
| Stores.SetDefaultCurrenciesEmpties | src/stores/index.ts:18-21 | After `setDefaultCurrencies`, `getSymbolById` finds no symbol and `getTickerById` finds every ticker it found before. |
| Stores.UpdateTickerDirection | src/stores/index.ts:23-31 | The payload is stored under its symbol, with the flag as its only change. The flag is -1 exactly when a previous ticker exists, both prices are truthy and the new price is not greater (equal prices give -1); otherwise it is 1. The list and the other tickers are unchanged. |
| Stores.AddCoinPairEffect | src/stores/index.ts:32-39 | The pair is appended exactly when no ticker exists for its symbol. The ticker is always reset to the symbol and a rising flag, so `hasTicker` becomes false. Other tickers are unchanged. |
| Stores.AddCoinPairMayDuplicate | src/stores/index.ts:32-39 | Because the check is on tickers, not on the list, a listed pair with no ticker yet is listed a second time. |
| Stores.RemoveCoinPairTickers | src/stores/index.ts:40-41 | The symbol's ticker is deleted and every other ticker is unchanged. |
| Stores.RemoveCoinPairListed | src/stores/index.ts:40-47 | When the symbol is listed, its first listing is removed: exactly one element goes, and the order of the rest is kept. |
| Stores.RemoveCoinPairUnlisted | src/stores/index.ts:40-47 | When the symbol is not listed, the last pair is removed instead (`splice(-1, 1)`), and an empty list stays empty. |
| Stores.AddRemoveRoundTrip | src/stores/index.ts:32-47 | Adding a pair the store has neither listed nor ticked, then removing it, restores the store exactly. |
| Stores.UpdateTickerKeepsConsistent | src/stores/index.ts:23-31 | `updateTicker` keeps the invariant: unique listed symbols, each with a ticker. It applies only to states where every listed symbol already has a ticker. The store's starting state (a loaded list, no tickers) is not such a state. |
| Stores.SetDefaultCurrenciesKeepsConsistent | src/stores/index.ts:18-21 | `setDefaultCurrencies` keeps the invariant. It applies only to states where every listed symbol already has a ticker. The store's starting state (a loaded list, no tickers) is not such a state. |
| Stores.AddCoinPairKeepsConsistent | src/stores/index.ts:32-39 | `addCoinPair` keeps the invariant, so under it the ticker test does prevent duplicates. It applies only to states where every listed symbol already has a ticker. The store's starting state (a loaded list, no tickers) is not such a state. |
| Stores.RemoveCoinPairKeepsConsistent | src/stores/index.ts:40-47 | `removeCoinPair` keeps the invariant, including when it removes the last pair. It applies only to states where every listed symbol already has a ticker. The store's starting state (a loaded list, no tickers) is not such a state. |
| Stores.RemoveOneKeepsConsistent | src/stores/index.ts:42-45 | Removing one listed pair keeps the symbols unique and each covered by a ticker. |
| Stores.Store.constructor | src/stores/index.ts:15-16 | The store starts from the stored pair list and an empty ticker map. |
| Stores.Store.SetDefaultCurrencies | src/stores/index.ts:18-21 | The new state is `setDefaultCurrencies` of the old one: the list is empty and the tickers are unchanged. |
| Stores.Store.UpdateTicker | src/stores/index.ts:23-31 | The new state is `updateTicker` of the old one. The invariant is kept whenever the old state has it. |
| Stores.Store.AddCoinPair | src/stores/index.ts:32-39 | The new state is `addCoinPair` of the old one. The invariant is kept whenever the old state has it. |
| Stores.Store.RemoveCoinPair | src/stores/index.ts:40-47 | The new state is `removeCoinPair` of the old one. The invariant is kept whenever the old state has it. |
| Scenarios.LowerCaseBtc | src/services/api.ts:24 | "BTCUSDT" and "btcusdt" both lower-case to "btcusdt". |
| Scenarios.BtcTickerLiteral | src/services/api.ts:24 | The ticker builder turns "BTCUSDT" into exactly "btcusdt@ticker". |
| Scenarios.BtcTickerFragment | src/services/api.ts:24 | The ticker fragments of "BTCUSDT" and "btcusdt" are equal. |
| Scenarios.CaseInsensitiveDedup | src/services/api.ts:30-35 | Subscribing to the ticker of "BTCUSDT" and then of "btcusdt" tracks one wrapper, and the second call gets it back. Only the first callback is registered. |
| Scenarios.AbnormalCloseEvicts | src/services/WebSocketWrapper.ts:57-75 | A close with code 1006 evicts the path at once. The wrapper counts one attempt and schedules a reconnect after 3000. |
| Scenarios.CloseAllThenCloseEvent | src/services/api.ts:80-86 | After `closeAll` empties the registry, the wrapper's own close event with code 1005 still reaches it: the registry stays empty, no attempt is counted and nothing is scheduled. |
| Scenarios.ReconnectsStopAtLimit | src/services/WebSocketWrapper.ts:66-75 | With a maximum of 2 attempts, repeated abnormal closes schedule exactly two reconnects; the third close schedules nothing. |
| Scenarios.NormalCloseStaysDown | src/services/WebSocketWrapper.ts:62 | A close with code 1000 counts no attempt and schedules nothing. |
| Scenarios.PriceDirections | src/stores/index.ts:23-31 | Updates at prices 10, 10 and 12 get the flags 1, -1 and 1. |
| Scenarios.RemoveUnlistedDropsLast | src/stores/index.ts:40-47 | Removing an unlisted symbol from [BTCUSDT, ETHUSDT] leaves [BTCUSDT]. |

## Left out

- The browser `WebSocket` transport, `setTimeout` and the `console.*` calls. Transport events are method calls, and sockets and timers are a ghost log of requested effects.
- JSON decoding of messages and the `try/catch` around `subscribe`. Payloads are opaque strings, and a `subscribe` that throws is not modelled.
- `localStorage` reads and writes and the bundled default pair list. The store's constructor takes the loaded list as a parameter. Vue `reactive`/`computed` and Pinia `defineStore` are framework wrappers and are left out too.
- `src/services/binance.ts`, `src/util/Utility.ts`, `src/router/index.ts` and `src/main.ts` are not part of this model: glue code, time formatting and UI bootstrapping.
- Text.ToLower: covers ASCII letters only. JavaScript's `toLowerCase` also maps non-ASCII letters; exchange symbols are ASCII.
- Stores.Truthy: prices are `Option<real>`. NaN, which JavaScript also treats as false, is not modelled, and neither is floating-point rounding in the price comparison.
- Levels and intervals of stream requests are integers below 2^53 in magnitude, which `${n}` writes as plain digits. `Text.IntToString` and `Text.IntToStringInjective` hold for every integer, but the source writes 1e21 or more in exponent form, and numbers beyond 2^53 are not distinct there. Fractional and non-finite numbers are not modelled.
- Reconnect intervals, reconnect limits and the api's `maxAttempts` are non-negative integers, with `Infinity` as the default limit. The source treats a negative limit as already used up (`0 >= -1`), so it never reconnects. That case is not modelled.
- Api.Api.CloseAll: visits the keys in an unspecified order rather than JavaScript's key order. The final state does not depend on the order.
- Api.Api.CloseSubscription: the `(1000, '')` arguments it passes are ignored by the wrapper's `close()`, so the model calls `Close` without them.
- `timeout` of `Api` is stored but never used by the source; the model only records its value.
- Api.Api.Dispatch: runs the handlers a single event fires to completion. Events interleaving with a pending reconnect timer are modelled only as separate calls.
- Stores.StoreState.UpdateTicker: payloads and pairs are values. The source stores the caller's own payload object and writes `pchg` into it, and `addCoinPair` stores the caller's pair object. Later changes the caller makes to those objects are not modelled, and neither is the write into the caller's payload.
- Api.Api.Subscribe: callers never register handlers on the wrapper it returns. The source hands back the tracked wrapper, and each `on*` facade passes it on. Its `onMessage`, `onError`, `onOpen` and `onClose` are public, so a caller could add a second message handler or replace the eviction on close. The registry invariant `Wired` requires exactly the four handlers `subscribe` installs, so the model does not follow a program that does this.
- Events are not tied to a particular socket. The handlers of every socket act on the wrapper and read its current handler fields, so an event from a socket that `connect` has replaced is the same `Handle*` call on the wrapper.
