/**
 * The stream-address builders of `Api.streams` and `Api.caller`
 * (src/services/api.ts). The source picks a builder by a string key; here the
 * stream kinds form a closed datatype, each constructor carrying the builder's
 * arguments, and `Caller` is the dispatch.
 */
module Streams {
  import opened Wrappers
  import opened Text

  datatype Stream =
    | Depth(symbol: string)
    | DepthLevel(symbol: string, level: int)
    | Kline(symbol: string, interval: int)
    | AggTrade(symbol: string)
    | Trade(symbol: string)
    | Ticker(symbol: string)
    | MiniTicker(symbol: string)
    | AllMiniTicker
    | AllTickers
  {
    predicate HasSymbol() {
      !AllMiniTicker? && !AllTickers?
    }
  }

  /**
   * The path fragment the builder of `s` returns: a per-symbol stream starts
   * with the lower-cased symbol and an '@', a whole-market stream with '!'.
   */
  function Caller(s: Stream): (r: string)
    ensures s.HasSymbol() ==> |r| > |s.symbol| && r[..|s.symbol|] == ToLower(s.symbol) && r[|s.symbol|] == '@'
    ensures !s.HasSymbol() ==> |r| > 0 && r[0] == '!'
  {
    match s
    case Depth(sym) => ToLower(sym) + "@depth"
    case DepthLevel(sym, level) => ToLower(sym) + "@depth" + IntToString(level)
    case Kline(sym, interval) => ToLower(sym) + "@kline_" + IntToString(interval)
    case AggTrade(sym) => ToLower(sym) + "@aggTrade"
    case Trade(sym) => ToLower(sym) + "@trade"
    case Ticker(sym) => ToLower(sym) + "@ticker"
    case MiniTicker(sym) => ToLower(sym) + "@miniTicker"
    case AllMiniTicker => "!miniTicker@arr"
    case AllTickers => "!ticker@arr"
  }

  /** The request with its symbol lower-cased: what the fragment keeps of it. */
  function Canonical(s: Stream): Stream {
    if s.HasSymbol() then s.(symbol := ToLower(s.symbol)) else s
  }

  /** Symbols without '@', as the exchange's symbols are (letters and digits). */
  predicate PlainSymbol(s: Stream) {
    s.HasSymbol() ==> '@' !in s.symbol
  }

  /**
   * Reads a fragment back: the text before the first '@' is the (lower-case)
   * symbol or the "all" marker, the text after it names the kind and its number.
   */
  function ParseFragment(f: string): Option<Stream> {
    var i := IndexOf(f, '@');
    if i == |f| then None else ParseParts(f[..i], f[i + 1..])
  }

  function ParseParts(head: string, tail: string): Option<Stream> {
    if tail == "arr" then
      if head == "!miniTicker" then Some(AllMiniTicker)
      else if head == "!ticker" then Some(AllTickers)
      else None
    else if tail == "depth" then Some(Depth(head))
    else if tail == "aggTrade" then Some(AggTrade(head))
    else if tail == "trade" then Some(Trade(head))
    else if tail == "ticker" then Some(Ticker(head))
    else if tail == "miniTicker" then Some(MiniTicker(head))
    else if |tail| > 5 && tail[..5] == "depth" && IsNumeral(tail[5..]) then
      Some(DepthLevel(head, ParseInt(tail[5..])))
    else if |tail| > 6 && tail[..6] == "kline_" && IsNumeral(tail[6..]) then
      Some(Kline(head, ParseInt(tail[6..])))
    else None
  }

  lemma ParseFragmentSplits(head: string, tail: string)
    requires '@' !in head
    ensures ParseFragment(head + ['@'] + tail) == ParseParts(head, tail)
  {
    var f := head + ['@'] + tail;
    IndexOfAfterPrefix(head, '@', tail);
    assert f[..|head|] == head;
    assert f[|head| + 1..] == tail;
  }

  /** The text of a fragment before the '@' that starts its kind: the lower-cased symbol or the "all" marker. */
  function Head(s: Stream): string {
    match s
    case AllMiniTicker => "!miniTicker"
    case AllTickers => "!ticker"
    case _ => ToLower(s.symbol)
  }

  /** The text of a fragment after the '@' that starts its kind; it has no '@' of its own. */
  function Tail(s: Stream): string {
    match s
    case Depth(_) => "depth"
    case DepthLevel(_, level) => "depth" + IntToString(level)
    case Kline(_, interval) => "kline_" + IntToString(interval)
    case AggTrade(_) => "aggTrade"
    case Trade(_) => "trade"
    case Ticker(_) => "ticker"
    case MiniTicker(_) => "miniTicker"
    case AllMiniTicker => "arr"
    case AllTickers => "arr"
  }

  lemma CallerSplits(s: Stream)
    requires PlainSymbol(s)
    ensures Caller(s) == Head(s) + ['@'] + Tail(s)
    ensures '@' !in Head(s)
  {
    CallerIsHeadAtTail(s);
    if s.HasSymbol() {
      ToLowerKeepsNonLetter(s.symbol, '@');
    }
  }

  lemma CallerIsHeadAtTail(s: Stream)
    ensures Caller(s) == Head(s) + ['@'] + Tail(s)
  {
    match s
    case Depth(sym) =>
      assert "@depth" == ['@'] + "depth";
      Regroup(ToLower(sym), '@', "depth");
    case DepthLevel(sym, level) =>
      assert "@depth" == ['@'] + "depth";
      RegroupAt(ToLower(sym), '@', "depth", IntToString(level));
    case Kline(sym, interval) =>
      assert "@kline_" == ['@'] + "kline_";
      RegroupAt(ToLower(sym), '@', "kline_", IntToString(interval));
    case AggTrade(sym) =>
      assert "@aggTrade" == ['@'] + "aggTrade";
      Regroup(ToLower(sym), '@', "aggTrade");
    case Trade(sym) =>
      assert "@trade" == ['@'] + "trade";
      Regroup(ToLower(sym), '@', "trade");
    case Ticker(sym) =>
      assert "@ticker" == ['@'] + "ticker";
      Regroup(ToLower(sym), '@', "ticker");
    case MiniTicker(sym) =>
      assert "@miniTicker" == ['@'] + "miniTicker";
      Regroup(ToLower(sym), '@', "miniTicker");
    case AllMiniTicker =>
    case AllTickers =>
  }

  /** Decoding the fragment of a request gives the request with its symbol lower-cased. */
  lemma CallerRoundTrip(s: Stream)
    requires PlainSymbol(s)
    ensures ParseFragment(Caller(s)) == Some(Canonical(s))
  {
    CallerSplits(s);
    ParseFragmentSplits(Head(s), Tail(s));
    ParsePartsHeadTail(s);
  }

  /** The kind text after the '@' reads back, with the head, to the request with its symbol lower-cased. */
  lemma ParsePartsHeadTail(s: Stream)
    ensures ParseParts(Head(s), Tail(s)) == Some(Canonical(s))
  {
    match s
    case DepthLevel(sym, level) =>
      ParsePartsDepthLevel(Head(s), level);
    case Kline(sym, interval) =>
      ParsePartsKline(Head(s), interval);
    case _ =>
  }

  lemma ParsePartsDepthLevel(head: string, n: int)
    ensures ParseParts(head, "depth" + IntToString(n)) == Some(DepthLevel(head, n))
  {
    var d := IntToString(n);
    var t := "depth" + d;
    assert t[0] == 'd' && |t| > 5;
    assert t[..5] == "depth" && t[5..] == d;
    IntToStringRoundTrip(n);
  }

  lemma ParsePartsKline(head: string, n: int)
    ensures ParseParts(head, "kline_" + IntToString(n)) == Some(Kline(head, n))
  {
    var d := IntToString(n);
    var t := "kline_" + d;
    assert t[0] == 'k' && |t| > 6;
    assert t[..6] == "kline_" && t[6..] == d;
    IntToStringRoundTrip(n);
  }

  /**
   * The fragment is an exact deduplication key: two requests get the same
   * fragment if and only if they differ at most in the letter case of their
   * symbol. This holds for every symbol, '@' included: the kind text has no
   * '@', so the last '@' of a fragment separates the head from the kind.
   */
  lemma CallerIsDedupKey(a: Stream, b: Stream)
    ensures Caller(a) == Caller(b) <==> Canonical(a) == Canonical(b)
  {
    if Caller(a) == Caller(b) {
      CallerIsHeadAtTail(a);
      CallerIsHeadAtTail(b);
      TailHasNoAt(a);
      TailHasNoAt(b);
      SplitAtLast(Head(a), '@', Tail(a), Head(b), Tail(b));
      ParsePartsHeadTail(a);
      ParsePartsHeadTail(b);
    }
    if Canonical(a) == Canonical(b) {
      CallerOfCanonical(a);
      CallerOfCanonical(b);
    }
  }

  lemma TailHasNoAt(s: Stream)
    ensures '@' !in Tail(s)
  {
    match s
    case DepthLevel(_, level) =>
      assert '@' !in IntToString(level);
    case Kline(_, interval) =>
      assert '@' !in IntToString(interval);
    case _ =>
  }

  lemma CallerOfCanonical(s: Stream)
    ensures Caller(Canonical(s)) == Caller(s)
  {
    if s.HasSymbol() {
      ToLowerIdempotent(s.symbol);
    }
  }

  /** A fragment has a '/' only where its symbol does, so '/' can separate fragments. */
  lemma CallerHasNoSlash(s: Stream)
    requires s.HasSymbol() ==> '/' !in s.symbol
    ensures '/' !in Caller(s)
  {
    CallerIsHeadAtTail(s);
    if s.HasSymbol() {
      ToLowerKeepsNonLetter(s.symbol, '/');
    }
    assert '/' !in Head(s);
    TailHasNoSlash(s);
  }

  lemma TailHasNoSlash(s: Stream)
    ensures '/' !in Tail(s)
  {
    match s
    case DepthLevel(_, level) =>
      assert '/' !in IntToString(level);
    case Kline(_, interval) =>
      assert '/' !in IntToString(interval);
    case _ =>
  }

  /** The stream list of a combined fragment can be read back by splitting on '/'. */
  lemma CombinedRoundTrip(ss: seq<Stream>)
    requires |ss| >= 1
    requires forall i :: 0 <= i < |ss| ==> ss[i].HasSymbol() ==> '/' !in ss[i].symbol
    ensures Split(Join(seq(|ss|, i requires 0 <= i < |ss| => Caller(ss[i])), '/'), '/')
            == seq(|ss|, i requires 0 <= i < |ss| => Caller(ss[i]))
  {
    var parts := seq(|ss|, i requires 0 <= i < |ss| => Caller(ss[i]));
    forall i | 0 <= i < |parts|
      ensures '/' !in parts[i]
    {
      CallerHasNoSlash(ss[i]);
    }
    SplitJoinRoundTrip(parts, '/');
  }
}
