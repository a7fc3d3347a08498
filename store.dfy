/**
 * The ticker and currency store of src/stores/index.ts: the list of currency
 * pairs the dashboard shows and the latest ticker per symbol.
 *
 * The transitions are pure functions on `StoreState`; the `Store` class holds
 * the two collections the source mutates in place and its methods are proved
 * against those functions. Prices are JavaScript numbers that may be absent;
 * they are modelled as `Option<real>` (NaN is not modelled).
 */
module Stores {
  import opened Wrappers

  /** A currency pair (the `Symbol` type of src/types.d.ts). */
  datatype Symbol = Symbol(symbol: string, base: Option<string>, quote: Option<string>, name: Option<string>, img: string)

  /** A ticker update; every field but the symbol may be absent. */
  datatype Ticker = Ticker(
    symbol: string,
    price: Option<real>,
    vol: Option<string>,
    percent: Option<string>,
    chg: Option<string>,
    high: Option<string>,
    low: Option<string>,
    open: Option<string>,
    time: Option<int>,
    pchg: Option<int>)

  /** A price as a JavaScript condition sees it: absent and 0 are false. */
  predicate Truthy(price: Option<real>) {
    price.Some? && price.value != 0.0
  }

  /** The ticker `addCoinPair` stores: the symbol and a rising flag, nothing else. */
  function Placeholder(symbol: string): Ticker {
    Ticker(symbol, None, None, None, None, None, None, None, None, Some(1))
  }

  /** Some currency in `cs` has this symbol. */
  predicate Listed(cs: seq<Symbol>, symbol: string) {
    exists j :: 0 <= j < |cs| && cs[j].symbol == symbol
  }

  /** `cs.findIndex(s => s.symbol === symbol)`: the first match, or -1. */
  function FindIndex(cs: seq<Symbol>, symbol: string): (i: int)
    ensures -1 <= i < |cs|
    ensures i == -1 <==> !Listed(cs, symbol)
    ensures i >= 0 ==> cs[i].symbol == symbol && forall j :: 0 <= j < i ==> cs[j].symbol != symbol
  {
    if cs == [] then -1
    else if cs[0].symbol == symbol then 0
    else
      var k := FindIndex(cs[1..], symbol);
      assert forall j :: 1 <= j < |cs| ==> cs[j] == cs[1..][j - 1];
      if k == -1 then -1 else k + 1
  }

  /** `cs.find(s => s.symbol === symbol)`: the first match, if any. */
  function Find(cs: seq<Symbol>, symbol: string): (r: Option<Symbol>)
    ensures r.Some? <==> Listed(cs, symbol)
    ensures r.Some? ==> r.value.symbol == symbol && r.value == cs[FindIndex(cs, symbol)]
  {
    if cs == [] then None
    else if cs[0].symbol == symbol then Some(cs[0])
    else
      assert forall j :: 1 <= j < |cs| ==> cs[j] == cs[1..][j - 1];
      Find(cs[1..], symbol)
  }

  /**
   * `s.splice(start, deleteCount)` as it leaves `s`: a negative start counts
   * from the end (and stops at 0), a start past the end is the end, and at
   * most the elements up to the end are removed.
   */
  function Splice<T>(s: seq<T>, start: int, deleteCount: int): (r: seq<T>)
    ensures |r| <= |s|
    ensures multiset(r) <= multiset(s)
  {
    var from := if start < 0 then (if |s| + start < 0 then 0 else |s| + start)
                else if start > |s| then |s| else start;
    var count := if deleteCount < 0 then 0
                 else if deleteCount > |s| - from then |s| - from else deleteCount;
    DropRange(s, from, from + count);
    s[..from] + s[from + count..]
  }

  /** Cutting `s[from..to]` out of `s` only removes elements. */
  lemma DropRange<T>(s: seq<T>, from: nat, to: nat)
    requires from <= to <= |s|
    ensures multiset(s[..from] + s[to..]) <= multiset(s)
  {
    assert s == s[..from] + s[from..to] + s[to..];
  }

  /** Removing one element in range: the elements before it, then those after it. */
  lemma SpliceOne<T>(s: seq<T>, i: int)
    requires 0 <= i < |s|
    ensures Splice(s, i, 1) == s[..i] + s[i + 1..]
    ensures multiset(Splice(s, i, 1)) + multiset{s[i]} == multiset(s)
  {
    assert s == s[..i] + [s[i]] + s[i + 1..];
  }

  /** `splice(-1, 1)`: the last element goes. */
  lemma SpliceLast<T>(s: seq<T>)
    requires |s| > 0
    ensures Splice(s, -1, 1) == s[..|s| - 1]
  {
  }

  /** Symbols are listed at most once. */
  predicate UniqueSymbols(cs: seq<Symbol>) {
    forall i, j :: 0 <= i < j < |cs| ==> cs[i].symbol != cs[j].symbol
  }

  datatype StoreState = StoreState(currencies: seq<Symbol>, tickers: map<string, Ticker>)
  {
    /**
     * The state the operations keep: each pair listed once, and a ticker for
     * every listed pair (so `addCoinPair`'s ticker test also finds listed pairs).
     */
    ghost predicate Consistent() {
      && UniqueSymbols(currencies)
      && forall j :: 0 <= j < |currencies| ==> currencies[j].symbol in tickers
    }

    /** `setDefaultCurrencies()`: the list is emptied; the `concat` result is thrown away. */
    function SetDefaultCurrencies(): (r: StoreState)
      ensures r.currencies == [] && r.tickers == tickers
    {
      assert currencies[..0] == [];
      this.(currencies := Splice(currencies, 0, |currencies|))
    }

    /**
     * The direction flag `updateTicker` gives a payload with price `price`:
     * 1 or -1, and -1 only against a stored ticker when both prices are truthy.
     */
    function PriceChange(symbol: string, price: Option<real>): (p: int)
      ensures p == 1 || p == -1
      ensures p == -1 ==> symbol in tickers && Truthy(price) && Truthy(tickers[symbol].price)
    {
      if symbol in tickers && Truthy(price) && Truthy(tickers[symbol].price) then
        (if price.value > tickers[symbol].price.value then 1 else -1)
      else 1
    }

    /**
     * `updateTicker(payload)`: the payload, with its direction flag, replaces
     * the symbol's ticker; the list and every other ticker stay.
     */
    function UpdateTicker(payload: Ticker): (r: StoreState)
      ensures r.currencies == currencies
      ensures r.tickers.Keys == tickers.Keys + {payload.symbol}
      ensures r.tickers[payload.symbol].(pchg := payload.pchg) == payload
      ensures r.tickers[payload.symbol].pchg.Some?
      ensures forall s | s in tickers && s != payload.symbol :: r.tickers[s] == tickers[s]
    {
      this.(tickers := tickers[payload.symbol := payload.(pchg := Some(PriceChange(payload.symbol, payload.price)))])
    }

    /**
     * `addCoinPair(pair)`: appended to the list exactly when no ticker exists
     * for it; its ticker is reset to the placeholder either way.
     */
    function AddCoinPair(pair: Symbol): (r: StoreState)
      ensures r.currencies == currencies || r.currencies == currencies + [pair]
      ensures r.currencies == currencies + [pair] <==> pair.symbol !in tickers
      ensures r.tickers.Keys == tickers.Keys + {pair.symbol}
      ensures r.tickers[pair.symbol] == Placeholder(pair.symbol)
      ensures forall s | s in tickers && s != pair.symbol :: r.tickers[s] == tickers[s]
    {
      StoreState(
        if pair.symbol !in tickers then currencies + [pair] else currencies,
        tickers[pair.symbol := Placeholder(pair.symbol)])
    }

    /**
     * `removeCoinPair(symbol)`: the ticker is deleted and `splice(findIndex(...), 1)`
     * applied, so one pair leaves a non-empty list (not always the symbol's).
     */
    function RemoveCoinPair(symbol: string): (r: StoreState)
      ensures r.tickers == tickers - {symbol}
      ensures |r.currencies| == if currencies == [] then 0 else |currencies| - 1
      ensures multiset(r.currencies) <= multiset(currencies)
    {
      StoreState(Splice(currencies, FindIndex(currencies, symbol), 1), tickers - {symbol})
    }

    /** `getSymbolById(symbol)`. */
    function GetSymbolById(symbol: string): (r: Option<Symbol>)
      ensures r.Some? <==> Listed(currencies, symbol)
      ensures r.Some? ==> r.value.symbol == symbol
      ensures r.Some? ==> r.value == currencies[FindIndex(currencies, symbol)]
    {
      Find(currencies, symbol)
    }

    /** `getTickerById(symbol)`. */
    function GetTickerById(symbol: string): (r: Option<Ticker>)
      ensures r.Some? <==> symbol in tickers
      ensures r.Some? ==> r.value == tickers[symbol]
    {
      if symbol in tickers then Some(tickers[symbol]) else None
    }

    /** `hasTicker(symbol)`: a ticker exists and its price is truthy. */
    function HasTicker(symbol: string): (r: bool)
      ensures r <==> GetTickerById(symbol).Some? && Truthy(GetTickerById(symbol).value.price)
    {
      symbol in tickers && Truthy(tickers[symbol].price)
    }
  }

  // ---------------------------------------------------------------------
  // Properties of the transitions

  /** After `setDefaultCurrencies` no symbol is found by `getSymbolById`, and every ticker still is. */
  lemma SetDefaultCurrenciesEmpties(st: StoreState)
    ensures forall s :: st.SetDefaultCurrencies().GetSymbolById(s) == None
    ensures forall s :: st.SetDefaultCurrencies().GetTickerById(s) == st.GetTickerById(s)
  {
  }

  /**
   * `updateTicker` stores the payload under its symbol with the flag set, and
   * nothing else changes: the flag is -1 exactly when a previous ticker exists,
   * both prices are truthy and the new one is not greater; otherwise 1.
   */
  lemma UpdateTickerDirection(st: StoreState, payload: Ticker)
    ensures var r := st.UpdateTicker(payload);
      && r.currencies == st.currencies
      && r.GetTickerById(payload.symbol).Some?
      && r.tickers[payload.symbol].(pchg := payload.pchg) == payload
      && (r.tickers[payload.symbol].pchg == Some(-1) <==>
           && st.GetTickerById(payload.symbol).Some?
           && Truthy(payload.price) && Truthy(st.tickers[payload.symbol].price)
           && payload.price.value <= st.tickers[payload.symbol].price.value)
      && (r.tickers[payload.symbol].pchg == Some(1) <==> r.tickers[payload.symbol].pchg != Some(-1))
      && forall s :: s != payload.symbol ==> r.GetTickerById(s) == st.GetTickerById(s)
  {
  }

  /**
   * `addCoinPair` lists the pair exactly when the store has no ticker for it,
   * and always leaves a ticker without a price: `hasTicker` is then false.
   */
  lemma AddCoinPairEffect(st: StoreState, pair: Symbol)
    ensures var r := st.AddCoinPair(pair);
      && (pair.symbol !in st.tickers ==> r.currencies == st.currencies + [pair])
      && (pair.symbol in st.tickers ==> r.currencies == st.currencies)
      && r.GetTickerById(pair.symbol) == Some(Placeholder(pair.symbol))
      && !r.HasTicker(pair.symbol)
      && r.GetSymbolById(pair.symbol).Some?
         == (st.GetSymbolById(pair.symbol).Some? || pair.symbol !in st.tickers)
      && forall s :: s != pair.symbol ==> r.GetTickerById(s) == st.GetTickerById(s)
  {
    var r := st.AddCoinPair(pair);
    if pair.symbol !in st.tickers {
      assert r.currencies[|st.currencies|] == pair;
    }
    if Listed(r.currencies, pair.symbol) && !Listed(st.currencies, pair.symbol) {
      var j :| 0 <= j < |r.currencies| && r.currencies[j].symbol == pair.symbol;
      assert j == |st.currencies|;
    }
    if Listed(st.currencies, pair.symbol) {
      var j :| 0 <= j < |st.currencies| && st.currencies[j].symbol == pair.symbol;
      assert r.currencies[j].symbol == pair.symbol;
    }
  }

  /** The ticker test of `addCoinPair` is not a list test: with no tickers loaded yet, a listed pair is listed twice. */
  lemma AddCoinPairMayDuplicate(pair: Symbol)
    ensures StoreState([pair], map[]).AddCoinPair(pair).currencies == [pair, pair]
    ensures !UniqueSymbols(StoreState([pair], map[]).AddCoinPair(pair).currencies)
  {
    var cs := StoreState([pair], map[]).AddCoinPair(pair).currencies;
    assert cs[0].symbol == cs[1].symbol;
  }

  /** `removeCoinPair` deletes the symbol's ticker and no other. */
  lemma RemoveCoinPairTickers(st: StoreState, symbol: string)
    ensures st.RemoveCoinPair(symbol).GetTickerById(symbol) == None
    ensures forall s :: s != symbol ==> st.RemoveCoinPair(symbol).GetTickerById(s) == st.GetTickerById(s)
  {
  }

  /** With the symbol listed, `removeCoinPair` removes its first listing and keeps the order of the rest. */
  lemma RemoveCoinPairListed(st: StoreState, symbol: string)
    requires Listed(st.currencies, symbol)
    ensures var i := FindIndex(st.currencies, symbol);
      && st.RemoveCoinPair(symbol).currencies == st.currencies[..i] + st.currencies[i + 1..]
      && multiset(st.RemoveCoinPair(symbol).currencies) + multiset{st.currencies[i]} == multiset(st.currencies)
  {
    SpliceOne(st.currencies, FindIndex(st.currencies, symbol));
  }

  /**
   * With the symbol not listed, `findIndex` gives -1 and `splice(-1, 1)`
   * removes the LAST pair; an empty list stays empty.
   */
  lemma RemoveCoinPairUnlisted(st: StoreState, symbol: string)
    requires !Listed(st.currencies, symbol)
    ensures |st.currencies| > 0 ==>
      st.RemoveCoinPair(symbol).currencies == st.currencies[..|st.currencies| - 1]
    ensures st.currencies == [] ==> st.RemoveCoinPair(symbol).currencies == []
  {
    if |st.currencies| > 0 {
      SpliceLast(st.currencies);
    }
  }

  /** Adding a pair the store has never seen and removing it again restores the store. */
  lemma AddRemoveRoundTrip(st: StoreState, pair: Symbol)
    requires pair.symbol !in st.tickers && !Listed(st.currencies, pair.symbol)
    ensures st.AddCoinPair(pair).RemoveCoinPair(pair.symbol) == st
  {
    var added := st.AddCoinPair(pair);
    var cs := added.currencies;
    assert cs == st.currencies + [pair];
    var n := |st.currencies|;
    assert forall j :: 0 <= j < n ==> cs[j] == st.currencies[j];
    assert cs[n].symbol == pair.symbol;
    assert FindIndex(cs, pair.symbol) == n;
    SpliceOne(cs, n);
    assert cs[..n] == st.currencies;
    assert added.tickers - {pair.symbol} == st.tickers;
  }

  // ---------------------------------------------------------------------
  // The invariant the operations keep

  lemma UpdateTickerKeepsConsistent(st: StoreState, payload: Ticker)
    requires st.Consistent()
    ensures st.UpdateTicker(payload).Consistent()
  {
  }

  lemma SetDefaultCurrenciesKeepsConsistent(st: StoreState)
    requires st.Consistent()
    ensures st.SetDefaultCurrencies().Consistent()
  {
    SetDefaultCurrenciesEmpties(st);
  }

  lemma AddCoinPairKeepsConsistent(st: StoreState, pair: Symbol)
    requires st.Consistent()
    ensures st.AddCoinPair(pair).Consistent()
  {
    var cs := st.AddCoinPair(pair).currencies;
    if pair.symbol !in st.tickers {
      assert cs == st.currencies + [pair];
      forall i, j | 0 <= i < j < |cs|
        ensures cs[i].symbol != cs[j].symbol
      {
        if j == |st.currencies| {
          assert cs[i] == st.currencies[i];
        }
      }
    }
  }

  lemma RemoveCoinPairKeepsConsistent(st: StoreState, symbol: string)
    requires st.Consistent()
    ensures st.RemoveCoinPair(symbol).Consistent()
  {
    var cs := st.currencies;
    var tickers := st.tickers - {symbol};
    var i := FindIndex(cs, symbol);
    if i >= 0 {
      SpliceOne(cs, i);
      RemoveOneKeepsConsistent(cs, i, tickers);
    } else if |cs| > 0 {
      SpliceLast(cs);
      RemoveOneKeepsConsistent(cs, |cs| - 1, tickers);
      assert cs[|cs| - 1 + 1..] == [];
    }
  }

  /** Taking the element at `i` out of a list keeps its symbols unique and covered by `tickers`. */
  lemma RemoveOneKeepsConsistent(cs: seq<Symbol>, i: int, tickers: map<string, Ticker>)
    requires 0 <= i < |cs| && UniqueSymbols(cs)
    requires forall j :: 0 <= j < |cs| && j != i ==> cs[j].symbol in tickers
    ensures StoreState(cs[..i] + cs[i + 1..], tickers).Consistent()
  {
    var r := cs[..i] + cs[i + 1..];
    assert forall j :: 0 <= j < |r| ==> r[j] == (if j < i then cs[j] else cs[j + 1]);
  }

  // ---------------------------------------------------------------------
  // The store object

  /** The store `useStore` sets up: the two collections the operations mutate in place. */
  class Store {
    var currencies: seq<Symbol>
    var tickers: map<string, Ticker>

    function State(): StoreState
      reads this
    {
      StoreState(currencies, tickers)
    }

    /** The store starts from the stored (or default) pair list and no tickers. */
    constructor (stored: seq<Symbol>)
      ensures State() == StoreState(stored, map[])
    {
      currencies := stored;
      tickers := map[];
    }

    method SetDefaultCurrencies()
      modifies this
      ensures State() == old(State()).SetDefaultCurrencies()
      ensures currencies == [] && tickers == old(tickers)
    {
      currencies := Splice(currencies, 0, |currencies|);
      SetDefaultCurrenciesEmpties(old(State()));
    }

    method UpdateTicker(payload: Ticker)
      modifies this
      ensures State() == old(State()).UpdateTicker(payload)
      ensures old(State().Consistent()) ==> State().Consistent()
    {
      var pchg := 1;
      if payload.symbol in tickers {
        var tick := tickers[payload.symbol];
        if Truthy(payload.price) && Truthy(tick.price) {
          pchg := if payload.price.value > tick.price.value then 1 else -1;
        }
      }
      tickers := tickers[payload.symbol := payload.(pchg := Some(pchg))];
      if old(State().Consistent()) {
        UpdateTickerKeepsConsistent(old(State()), payload);
      }
    }

    method AddCoinPair(pair: Symbol)
      modifies this
      ensures State() == old(State()).AddCoinPair(pair)
      ensures old(State().Consistent()) ==> State().Consistent()
    {
      if pair.symbol !in tickers {
        currencies := currencies + [pair];
      }
      tickers := tickers[pair.symbol := Placeholder(pair.symbol)];
      if old(State().Consistent()) {
        AddCoinPairKeepsConsistent(old(State()), pair);
      }
    }

    method RemoveCoinPair(symbol: string)
      modifies this
      ensures State() == old(State()).RemoveCoinPair(symbol)
      ensures old(State().Consistent()) ==> State().Consistent()
    {
      tickers := tickers - {symbol};
      currencies := Splice(currencies, FindIndex(currencies, symbol), 1);
      if old(State().Consistent()) {
        RemoveCoinPairKeepsConsistent(old(State()), symbol);
      }
    }
  }
}
