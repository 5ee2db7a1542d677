/** Market-data requests, the targets they address and the registry keys of those targets. */
module Requests {
  import opened Basics
  import opened Digits

  datatype SubscriptionAction = ActionUnspecified | ActionSubscribe | ActionUnsubscribe

  datatype CandleInstrument = CandleInstrument(candleFigi: string, interval: int, candleId: string)
  datatype BookInstrument = BookInstrument(bookFigi: string, depth: int, bookId: string, bookType: int)
  datatype PlainInstrument = PlainInstrument(figi: string, instrumentId: string)

  datatype OtherPayload = NotSet | GetMySubscriptions | Ping | PingSettings

  /** The payload of one request: five subscription kinds, and everything else. */
  datatype Request =
    | Candles(action: SubscriptionAction, candles: seq<CandleInstrument>, waitingClose: bool, source: Option<int>)
    | OrderBook(action: SubscriptionAction, books: seq<BookInstrument>)
    | Trades(action: SubscriptionAction, plain: seq<PlainInstrument>, tradeSource: int, withOpenInterest: bool)
    | Info(action: SubscriptionAction, plain: seq<PlainInstrument>)
    | LastPrice(action: SubscriptionAction, plain: seq<PlainInstrument>)
    | Other(payload: OtherPayload)

  /** What a subscription is about: its kind, its resolved instrument and the parameters that separate feeds. */
  datatype Target =
    | CandleTarget(id: string, interval: int)
    | BookTarget(id: string, depth: int, bookType: int)
    | TradeTarget(id: string)
    | InfoTarget(id: string)
    | PriceTarget(id: string)

  /** What a subscription asks of its target; a repeated subscribe replaces it. */
  datatype Options =
    | CandleOptions(waitingClose: bool, source: Option<int>)
    | TradeOptions(tradeSource: int, withOpenInterest: bool)
    | NoOptions

  function Resolve(instrumentId: string, figi: string): string {
    if instrumentId == "" then figi else instrumentId
  }

  function ActionOf(r: Request): SubscriptionAction {
    if r.Other? then ActionUnspecified else r.action
  }

  function Count(r: Request): nat {
    match r
    case Candles(_, xs, _, _) => |xs|
    case OrderBook(_, xs) => |xs|
    case Trades(_, xs, _, _) => |xs|
    case Info(_, xs) => |xs|
    case LastPrice(_, xs) => |xs|
    case Other(_) => 0
  }

  function TargetAt(r: Request, i: nat): Target
    requires i < Count(r)
  {
    match r
    case Candles(_, xs, _, _) => CandleTarget(Resolve(xs[i].candleId, xs[i].candleFigi), xs[i].interval)
    case OrderBook(_, xs) => BookTarget(Resolve(xs[i].bookId, xs[i].bookFigi), xs[i].depth, xs[i].bookType)
    case Trades(_, xs, _, _) => TradeTarget(Resolve(xs[i].instrumentId, xs[i].figi))
    case Info(_, xs) => InfoTarget(Resolve(xs[i].instrumentId, xs[i].figi))
    case LastPrice(_, xs) => PriceTarget(Resolve(xs[i].instrumentId, xs[i].figi))
  }

  function OptionsOf(r: Request): Options {
    match r
    case Candles(_, _, w, s) => CandleOptions(w, s)
    case Trades(_, _, s, o) => TradeOptions(s, o)
    case _ => NoOptions
  }

  /** The registry key of a target, as `keys_of` builds it. */
  function Key(t: Target): string {
    match t
    case CandleTarget(id, interval) => "candles|" + id + "|" + PrintInt(interval)
    case BookTarget(id, depth, bookType) => "orderbook|" + id + "|" + PrintInt(depth) + "|" + PrintInt(bookType)
    case TradeTarget(id) => "trades|" + id
    case InfoTarget(id) => "info|" + id
    case PriceTarget(id) => "last_price|" + id
  }

  function KeysOf(r: Request): seq<string> {
    seq(Count(r), i requires 0 <= i < Count(r) => Key(TargetAt(r, i)))
  }

  /** The request cut down to its i-th instrument, keeping its action and options. */
  function Single(r: Request, i: nat): Request
    requires r.Other? || i < Count(r)
  {
    match r
    case Candles(a, xs, w, s) => Candles(a, [xs[i]], w, s)
    case OrderBook(a, xs) => OrderBook(a, [xs[i]])
    case Trades(a, xs, s, o) => Trades(a, [xs[i]], s, o)
    case Info(a, xs) => Info(a, [xs[i]])
    case LastPrice(a, xs) => LastPrice(a, [xs[i]])
    case Other(_) => Other(NotSet)
  }

  /** Cutting a request down to one instrument keeps its action, its options and exactly that instrument's target. */
  lemma SingleKeepsTarget(r: Request, i: nat)
    requires i < Count(r)
    ensures Count(Single(r, i)) == 1
    ensures TargetAt(Single(r, i), 0) == TargetAt(r, i)
    ensures KeysOf(Single(r, i)) == [KeysOf(r)[i]]
    ensures ActionOf(Single(r, i)) == ActionOf(r)
    ensures OptionsOf(Single(r, i)) == OptionsOf(r)
  {
  }

  // ---- keys determine targets -------------------------------------------------

  /** A separator that the tails do not contain is found at the same place in equal texts. */
  lemma SplitAtLast(a: string, b: string, c: string, d: string)
    requires '|' !in b && '|' !in d
    requires a + "|" + b == c + "|" + d
    ensures a == c && b == d
  {
    var s, t := a + "|" + b, c + "|" + d;
    assert s[|a|] == '|' && forall i :: |a| < i < |s| ==> s[i] == b[i - |a| - 1];
    assert t[|c|] == '|' && forall i :: |c| < i < |t| ==> t[i] == d[i - |c| - 1];
    assert |a| == |c|;
    assert a == s[..|a|] && c == t[..|c|];
    assert b == s[|a| + 1..] && d == t[|c| + 1..];
  }

  lemma DropPrefix(p: string, a: string, b: string)
    requires p + a == p + b
    ensures a == b
  {
    assert a == (p + a)[|p|..] && b == (p + b)[|p|..];
  }

  lemma FirstLetter(t: Target)
    ensures Key(t) != []
    ensures Key(t)[0] == match t
                         case CandleTarget(_, _) => 'c'
                         case BookTarget(_, _, _) => 'o'
                         case TradeTarget(_) => 't'
                         case InfoTarget(_) => 'i'
                         case PriceTarget(_) => 'l'
  {
  }

  /** Two targets share a registry key only when they are the same target, whatever their ids contain. */
  lemma KeyInjective(t: Target, u: Target)
    requires Key(t) == Key(u)
    ensures t == u
  {
    FirstLetter(t);
    FirstLetter(u);
    match t {
      case CandleTarget(id, interval) =>
        PrintIntInjective(interval, u.interval);
        PrintIntInjective(u.interval, interval);
        SplitAtLast("candles|" + id, PrintInt(interval), "candles|" + u.id, PrintInt(u.interval));
        DropPrefix("candles|", id, u.id);
      case BookTarget(id, depth, bookType) =>
        PrintIntInjective(depth, u.depth);
        PrintIntInjective(u.depth, depth);
        PrintIntInjective(bookType, u.bookType);
        PrintIntInjective(u.bookType, bookType);
        var head, head' := "orderbook|" + id, "orderbook|" + u.id;
        SplitAtLast(head + "|" + PrintInt(depth), PrintInt(bookType),
                    head' + "|" + PrintInt(u.depth), PrintInt(u.bookType));
        SplitAtLast(head, PrintInt(depth), head', PrintInt(u.depth));
        DropPrefix("orderbook|", id, u.id);
      case TradeTarget(id) => DropPrefix("trades|", id, u.id);
      case InfoTarget(id) => DropPrefix("info|", id, u.id);
      case PriceTarget(id) => DropPrefix("last_price|", id, u.id);
    }
  }

  // ---- what the keys say about the messages --------------------------------------

  /** Two instruments named alike: by instrument id, or by figi where that is empty. */
  predicate SameName(id: string, figi: string, id': string, figi': string) {
    (if id != "" then id else figi) == (if id' != "" then id' else figi')
  }

  /** Two places in two messages that mean the same feed. */
  predicate SameFeed(r: Request, i: nat, q: Request, j: nat) {
    match (r, q)
    case (Candles(_, xs, _, _), Candles(_, ys, _, _)) =>
      && i < |xs| && j < |ys| && xs[i].interval == ys[j].interval
      && SameName(xs[i].candleId, xs[i].candleFigi, ys[j].candleId, ys[j].candleFigi)
    case (OrderBook(_, xs), OrderBook(_, ys)) =>
      && i < |xs| && j < |ys| && xs[i].depth == ys[j].depth && xs[i].bookType == ys[j].bookType
      && SameName(xs[i].bookId, xs[i].bookFigi, ys[j].bookId, ys[j].bookFigi)
    case (Trades(_, xs, _, _), Trades(_, ys, _, _)) => SamePlain(xs, i, ys, j)
    case (Info(_, xs), Info(_, ys)) => SamePlain(xs, i, ys, j)
    case (LastPrice(_, xs), LastPrice(_, ys)) => SamePlain(xs, i, ys, j)
    case _ => false
  }

  predicate SamePlain(xs: seq<PlainInstrument>, i: nat, ys: seq<PlainInstrument>, j: nat) {
    i < |xs| && j < |ys| && SameName(xs[i].instrumentId, xs[i].figi, ys[j].instrumentId, ys[j].figi)
  }

  /** Keys tell feeds apart, and nothing else: equal exactly when two places in two messages mean the same feed. */
  lemma SameKeyIffSameFeed(r: Request, i: nat, q: Request, j: nat)
    requires i < |KeysOf(r)| && j < |KeysOf(q)|
    ensures KeysOf(r)[i] == KeysOf(q)[j] <==> SameFeed(r, i, q, j)
  {
    hide Key;
    if KeysOf(r)[i] == KeysOf(q)[j] { KeyInjective(TargetAt(r, i), TargetAt(q, j)); }
  }

  /** The instrument id wins over the figi: different ids mean different keys, and an equal id an equal key. */
  lemma InstrumentIdWins(x: PlainInstrument, y: PlainInstrument, action: SubscriptionAction)
    requires x.instrumentId != "" && y.instrumentId != ""
    ensures KeysOf(LastPrice(action, [x])) == KeysOf(LastPrice(action, [y])) <==> x.instrumentId == y.instrumentId
    ensures KeysOf(Info(action, [x])) == KeysOf(Info(action, [y])) <==> x.instrumentId == y.instrumentId
  {
    SameKeyIffSameFeed(LastPrice(action, [x]), 0, LastPrice(action, [y]), 0);
    SameKeyIffSameFeed(Info(action, [x]), 0, Info(action, [y]), 0);
    hide Key;
    assert KeysOf(LastPrice(action, [x])) == [KeysOf(LastPrice(action, [x]))[0]];
    assert KeysOf(LastPrice(action, [y])) == [KeysOf(LastPrice(action, [y]))[0]];
    assert KeysOf(Info(action, [x])) == [KeysOf(Info(action, [x]))[0]];
    assert KeysOf(Info(action, [y])) == [KeysOf(Info(action, [y]))[0]];
  }

  /** The options of two subscribes agree exactly when the messages' own option fields do. */
  lemma OptionsTellApart(r: Request, q: Request)
    ensures r.Candles? && q.Candles? ==>
      (OptionsOf(r) == OptionsOf(q) <==> r.waitingClose == q.waitingClose && r.source == q.source)
    ensures r.Trades? && q.Trades? ==>
      (OptionsOf(r) == OptionsOf(q) <==> r.tradeSource == q.tradeSource && r.withOpenInterest == q.withOpenInterest)
  {
  }

  /** How many instruments a message lists is how many keys it has. */
  lemma OneKeyPerInstrument(r: Request)
    ensures |KeysOf(r)| == match r
                           case Candles(_, xs, _, _) => |xs|
                           case OrderBook(_, xs) => |xs|
                           case Trades(_, xs, _, _) => |xs|
                           case Info(_, xs) => |xs|
                           case LastPrice(_, xs) => |xs|
                           case Other(_) => 0
  {
  }

  // ---- keys_of as the loops it is -----------------------------------------------

  method CandleKeys(xs: seq<CandleInstrument>) returns (keys: seq<string>)
    ensures |keys| == |xs|
    ensures forall i :: 0 <= i < |xs| ==>
      keys[i] == Key(CandleTarget(Resolve(xs[i].candleId, xs[i].candleFigi), xs[i].interval))
  {
    hide PrintInt;
    keys := [];
    for n := 0 to |xs|
      invariant |keys| == n
      invariant forall i :: 0 <= i < n ==>
        keys[i] == Key(CandleTarget(Resolve(xs[i].candleId, xs[i].candleFigi), xs[i].interval))
    {
      var id := if xs[n].candleId == "" then xs[n].candleFigi else xs[n].candleId;
      keys := keys + ["candles|" + id + "|" + PrintInt(xs[n].interval)];
    }
  }

  method BookKeys(xs: seq<BookInstrument>) returns (keys: seq<string>)
    ensures |keys| == |xs|
    ensures forall i :: 0 <= i < |xs| ==>
      keys[i] == Key(BookTarget(Resolve(xs[i].bookId, xs[i].bookFigi), xs[i].depth, xs[i].bookType))
  {
    hide PrintInt;
    keys := [];
    for n := 0 to |xs|
      invariant |keys| == n
      invariant forall i :: 0 <= i < n ==>
        keys[i] == Key(BookTarget(Resolve(xs[i].bookId, xs[i].bookFigi), xs[i].depth, xs[i].bookType))
    {
      var id := if xs[n].bookId == "" then xs[n].bookFigi else xs[n].bookId;
      keys := keys + ["orderbook|" + id + "|" + PrintInt(xs[n].depth) + "|" + PrintInt(xs[n].bookType)];
    }
  }

  method PlainKeys(prefix: string, xs: seq<PlainInstrument>) returns (keys: seq<string>)
    ensures |keys| == |xs|
    ensures forall i :: 0 <= i < |xs| ==> keys[i] == prefix + Resolve(xs[i].instrumentId, xs[i].figi)
  {
    keys := [];
    for n := 0 to |xs|
      invariant |keys| == n
      invariant forall i :: 0 <= i < n ==> keys[i] == prefix + Resolve(xs[i].instrumentId, xs[i].figi)
    {
      var id := if xs[n].instrumentId == "" then xs[n].figi else xs[n].instrumentId;
      keys := keys + [prefix + id];
    }
  }

  /** One key per instrument, in order; none for a request that subscribes to nothing. */
  method BuildKeys(r: Request) returns (keys: seq<string>)
    ensures |keys| == Count(r)
    ensures forall i :: 0 <= i < Count(r) ==> keys[i] == Key(TargetAt(r, i))
    ensures keys == KeysOf(r)
  {
    match r {
      case Candles(_, xs, _, _) => keys := CandleKeys(xs);
      case OrderBook(_, xs) => keys := BookKeys(xs);
      case Trades(_, xs, _, _) => keys := PlainKeys("trades|", xs);
      case Info(_, xs) => keys := PlainKeys("info|", xs);
      case LastPrice(_, xs) => keys := PlainKeys("last_price|", xs);
      case Other(_) => keys := [];
    }
  }
}
