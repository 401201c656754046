/**
 * The live straddle chart's message handler: it remembers the last call
 * and put prices, and folds their sum into 1-minute OHLC candles,
 * appending each finished minute to a list.
 */
module Straddle {
  import opened Wrappers
  import opened Clock

  /** A message field's value as decoded from the feed; `Null` is also the value of a price not yet seen. */
  datatype Field = Text(text: string) | Num(num: real) | Null

  datatype Message = NotADict | Dict(fields: map<string, Field>)

  const SYMBOL_KEYS: seq<string> := ["symbol", "fyToken", "fycode"]
  const PRICE_KEYS: seq<string> := ["ltp", "last_traded_price", "last_price", "price"]

  /** The running minute's prices. */
  datatype Ohlc = Ohlc(open: real, high: real, low: real, close: real)

  datatype Candle = Candle(time: DateTime, open: real, high: real, low: real, close: real)

  predicate WellFormed(o: Ohlc)
  {
    o.low <= o.open <= o.high && o.low <= o.close <= o.high
  }

  datatype Feed = Feed(
    ceSymbol: Option<string>, peSymbol: Option<string>,
    lastCeLtp: Field, lastPeLtp: Field,
    currentMinute: Option<DateTime>, currentStraddle: Ohlc, candles: seq<Candle>)

  function InitialFeed(ceSymbol: Option<string>, peSymbol: Option<string>): Feed
  {
    Feed(ceSymbol, peSymbol, Null, Null, None, Ohlc(0.0, 0.0, 0.0, 0.0), [])
  }

  /** The first of `keys` present in the message. */
  function FirstKey(keys: seq<string>, fields: map<string, Field>): (r: Option<string>)
    ensures r.None? <==> forall i :: 0 <= i < |keys| ==> keys[i] !in fields
    ensures r.Some? ==> exists i :: 0 <= i < |keys| && keys[i] == r.value && r.value in fields
                                    && forall j :: 0 <= j < i ==> keys[j] !in fields
  {
    if keys == [] then None
    else if keys[0] in fields then Some(keys[0])
    else
      var rest := FirstKey(keys[1..], fields);
      assert forall j :: 1 <= j < |keys| ==> keys[j] == keys[1..][j - 1];
      rest
  }

  /** Python equality between a field value and a tracked symbol that may be unset. */
  predicate Matches(f: Field, symbol: Option<string>)
  {
    match f
    case Text(s) => symbol == Some(s)
    case Null => symbol.None?
    case Num(_) => false
  }

  /** What a message carries once its keys are resolved: the symbol field and the price field, whatever their values. */
  datatype Quote = Quote(symbol: Field, ltp: Field)

  /** The quote in a message, if it is a dictionary with a symbol key and a price key. */
  function QuoteOf(msg: Message): Option<Quote>
  {
    match msg
    case NotADict => None
    case Dict(fields) =>
      match (FirstKey(SYMBOL_KEYS, fields), FirstKey(PRICE_KEYS, fields))
      case (Some(sk), Some(pk)) => Some(Quote(fields[sk], fields[pk]))
      case _ => None
  }

  /** Folds a straddle price observed at `now` into the running minute. */
  function Fold(f: Feed, price: real, now: DateTime): Feed
  {
    var thisMinute := MinuteOf(now);
    if f.currentMinute.None? || Before(f.currentMinute.value, thisMinute) then
      var done := if f.currentMinute.Some? then
        var c := f.currentStraddle;
        [Candle(f.currentMinute.value, c.open, c.high, c.low, c.close)]
      else [];
      f.(candles := f.candles + done, currentMinute := Some(thisMinute),
         currentStraddle := Ohlc(price, price, price, price))
    else
      var c := f.currentStraddle;
      f.(currentStraddle := Ohlc(c.open, MaxR(c.high, price), MinR(c.low, price), price))
  }

  /**
   * A resolved quote: store its price, whatever its value, in the call or
   * put slot, then fold the straddle once both slots hold numbers. A slot
   * still unset ends the handler; a text in either slot makes the sum
   * raise, which the handler catches, so nothing is folded either.
   */
  function OnQuote(f: Feed, q: Quote, now: DateTime): Feed
  {
    var g := Route(f, q);
    if g.lastCeLtp.Num? && g.lastPeLtp.Num? then Fold(g, g.lastCeLtp.num + g.lastPeLtp.num, now)
    else g
  }

  /** The quote's price stored in the slot its symbol matches, the call's first; no slot for another symbol. */
  function Route(f: Feed, q: Quote): Feed
  {
    if Matches(q.symbol, f.ceSymbol) then f.(lastCeLtp := q.ltp)
    else if Matches(q.symbol, f.peSymbol) then f.(lastPeLtp := q.ltp)
    else f
  }

  /** One message at clock reading `now`. */
  function OnMessage(f: Feed, msg: Message, now: DateTime): Feed
  {
    match QuoteOf(msg)
    case None => f
    case Some(q) => OnQuote(f, q, now)
  }

  /**
   * The last call price changes only on a message for the call symbol,
   * the last put price only on one for the put symbol, and either takes
   * the message's value even when it is text or null; a message for
   * another symbol updates neither but still folds the current straddle,
   * whatever its own price field holds. Nothing besides the prices and
   * the candle state ever changes.
   */
  lemma PriceRouting(f: Feed, msg: Message, now: DateTime)
    ensures var r := OnMessage(f, msg, now);
      && r.ceSymbol == f.ceSymbol && r.peSymbol == f.peSymbol
      && (QuoteOf(msg).None? ==> r == f)
      && (QuoteOf(msg).Some? && Matches(QuoteOf(msg).value.symbol, f.ceSymbol) ==>
            r.lastCeLtp == QuoteOf(msg).value.ltp && r.lastPeLtp == f.lastPeLtp)
      && (QuoteOf(msg).Some? && !Matches(QuoteOf(msg).value.symbol, f.ceSymbol)
          && Matches(QuoteOf(msg).value.symbol, f.peSymbol) ==>
            r.lastPeLtp == QuoteOf(msg).value.ltp && r.lastCeLtp == f.lastCeLtp)
      && (QuoteOf(msg).Some? && !Matches(QuoteOf(msg).value.symbol, f.ceSymbol)
          && !Matches(QuoteOf(msg).value.symbol, f.peSymbol) ==>
            r.lastCeLtp == f.lastCeLtp && r.lastPeLtp == f.lastPeLtp
            && (f.lastCeLtp.Num? && f.lastPeLtp.Num? ==> r == Fold(f, f.lastCeLtp.num + f.lastPeLtp.num, now)))
  {
  }

  /**
   * Unless both stored prices are numbers no candle state changes; when
   * they are, every message with a quote folds in their sum, which
   * becomes the running candle's close.
   */
  lemma StraddleIsSum(f: Feed, msg: Message, now: DateTime)
    ensures var r := OnMessage(f, msg, now);
      && (!(r.lastCeLtp.Num? && r.lastPeLtp.Num?) ==>
            r.currentMinute == f.currentMinute && r.currentStraddle == f.currentStraddle && r.candles == f.candles)
      && (QuoteOf(msg).Some? && r.lastCeLtp.Num? && r.lastPeLtp.Num? ==>
            r.currentStraddle.close == r.lastCeLtp.num + r.lastPeLtp.num)
  {
  }

  /**
   * A strictly later minute seals the running candle (unless none was
   * running) and starts one at the price; any other minute, an earlier one
   * included, widens the running candle and moves its close. So the list
   * grows by at most one candle per message, keeps its earlier entries,
   * and the sealed candle is the running one stamped with its minute.
   */
  lemma FoldShape(f: Feed, price: real, now: DateTime)
    ensures var r := Fold(f, price, now);
      && |f.candles| <= |r.candles| <= |f.candles| + 1
      && r.candles[..|f.candles|] == f.candles
      && (|r.candles| == |f.candles| + 1 <==> f.currentMinute.Some? && Before(f.currentMinute.value, MinuteOf(now)))
      && (|r.candles| == |f.candles| + 1 ==>
            r.candles[|f.candles|] == Candle(f.currentMinute.value, f.currentStraddle.open, f.currentStraddle.high,
                                             f.currentStraddle.low, f.currentStraddle.close))
      && (f.currentMinute.None? || Before(f.currentMinute.value, MinuteOf(now)) ==>
            r.currentMinute == Some(MinuteOf(now)) && r.currentStraddle == Ohlc(price, price, price, price))
      && (f.currentMinute.Some? && !Before(f.currentMinute.value, MinuteOf(now)) ==>
            && r.currentMinute == f.currentMinute
            && r.currentStraddle.open == f.currentStraddle.open && r.currentStraddle.close == price
            && r.currentStraddle.high >= f.currentStraddle.high && r.currentStraddle.high >= price
            && r.currentStraddle.low <= f.currentStraddle.low && r.currentStraddle.low <= price
            && (r.currentStraddle.high == f.currentStraddle.high || r.currentStraddle.high == price)
            && (r.currentStraddle.low == f.currentStraddle.low || r.currentStraddle.low == price))
  {
  }

  /** The completed candles are in strictly increasing minute order, all before the running minute, and every candle is well formed. */
  ghost predicate Inv(f: Feed)
  {
    && (forall i, j :: 0 <= i < j < |f.candles| ==> Before(f.candles[i].time, f.candles[j].time))
    && (f.candles != [] ==> f.currentMinute.Some?)
    && (f.currentMinute.Some? ==> forall i :: 0 <= i < |f.candles| ==> Before(f.candles[i].time, f.currentMinute.value))
    && (f.currentMinute.Some? ==> WellFormed(f.currentStraddle))
    && (forall i :: 0 <= i < |f.candles| ==>
          WellFormed(Ohlc(f.candles[i].open, f.candles[i].high, f.candles[i].low, f.candles[i].close)))
  }

  lemma InvInitial(ce: Option<string>, pe: Option<string>)
    ensures Inv(InitialFeed(ce, pe))
  {
  }

  lemma InvOnMessage(f: Feed, msg: Message, now: DateTime)
    requires Inv(f)
    ensures Inv(OnMessage(f, msg, now))
  {
    var q := QuoteOf(msg);
    if q.Some? {
      InvOnQuote(f, q.value, now);
    }
  }

  /** A resolved quote keeps the candle invariant: routing a price leaves the candles alone. */
  lemma InvOnQuote(f: Feed, q: Quote, now: DateTime)
    requires Inv(f)
    ensures Inv(OnQuote(f, q, now))
  {
    var g := Route(f, q);
    assert g.candles == f.candles && g.currentMinute == f.currentMinute && g.currentStraddle == f.currentStraddle;
    if g.lastCeLtp.Num? && g.lastPeLtp.Num? {
      InvFold(g, g.lastCeLtp.num + g.lastPeLtp.num, now);
    }
  }

  /** Folding a price in keeps the candle invariant. */
  lemma InvFold(f: Feed, price: real, now: DateTime)
    requires Inv(f)
    ensures Inv(Fold(f, price, now))
  {
    var r := Fold(f, price, now);
    FoldShape(f, price, now);
    if r.currentMinute != f.currentMinute || |r.candles| != |f.candles| {
      assert forall i :: 0 <= i < |f.candles| ==> r.candles[i] == f.candles[i];
    }
  }

  /** The handler as it runs: the tracked symbols and the state it updates in place. */
  class StraddleFeed {
    var ceSymbol: Option<string>
    var peSymbol: Option<string>
    var lastCeLtp: Field
    var lastPeLtp: Field
    var currentMinute: Option<DateTime>
    var currentStraddle: Ohlc
    var straddleCandles: seq<Candle>

    function State(): Feed
      reads this
    {
      Feed(ceSymbol, peSymbol, lastCeLtp, lastPeLtp, currentMinute, currentStraddle, straddleCandles)
    }

    constructor(ce: Option<string>, pe: Option<string>)
      ensures State() == InitialFeed(ce, pe)
    {
      ceSymbol := ce;
      peSymbol := pe;
      lastCeLtp := Null;
      lastPeLtp := Null;
      currentMinute := None;
      currentStraddle := Ohlc(0.0, 0.0, 0.0, 0.0);
      straddleCandles := [];
    }

    /** The key search: the first of `keys` the message has. */
    static method FindKey(keys: seq<string>, fields: map<string, Field>) returns (key: Option<string>)
      ensures key == FirstKey(keys, fields)
    {
      var i := 0;
      while i < |keys|
        invariant 0 <= i <= |keys|
        invariant forall j :: 0 <= j < i ==> keys[j] !in fields
        invariant FirstKey(keys, fields) == FirstKey(keys[i..], fields)
      {
        if keys[i] in fields {
          return Some(keys[i]);
        }
        assert keys[i..][1..] == keys[i + 1..];
        i := i + 1;
      }
      return None;
    }

    /** Handles one feed message received at clock reading `now`. */
    method ProcessWebsocketMessage(msg: Message, now: DateTime)
      modifies this
      ensures State() == OnMessage(old(State()), msg, now)
    {
      if msg.NotADict? {
        return;
      }
      var symbolKey := FindKey(SYMBOL_KEYS, msg.fields);
      var ltpKey := FindKey(PRICE_KEYS, msg.fields);
      if symbolKey.None? || ltpKey.None? {
        return;
      }
      RecordQuote(Quote(msg.fields[symbolKey.value], msg.fields[ltpKey.value]), now);
    }

    /** Routes the quote's price to the call or put slot and folds the straddle. */
    method RecordQuote(q: Quote, now: DateTime)
      modifies this
      ensures State() == OnQuote(old(State()), q, now)
    {
      if Matches(q.symbol, ceSymbol) {
        lastCeLtp := q.ltp;
      } else if Matches(q.symbol, peSymbol) {
        lastPeLtp := q.ltp;
      }
      if lastCeLtp.Null? || lastPeLtp.Null? {
        return;
      }
      if !(lastCeLtp.Num? && lastPeLtp.Num?) {
        return;  // adding a text price raises; the handler catches it
      }
      FoldStraddle(lastCeLtp.num + lastPeLtp.num, now);
    }

    /** Seals the running minute when `now` lies in a later one, otherwise widens it. */
    method FoldStraddle(straddlePrice: real, now: DateTime)
      modifies this
      ensures State() == Fold(old(State()), straddlePrice, now)
    {
      var thisMinute := MinuteOf(now);
      if currentMinute.None? || Before(currentMinute.value, thisMinute) {
        if currentMinute.Some? {
          straddleCandles := straddleCandles + [Candle(currentMinute.value, currentStraddle.open, currentStraddle.high,
                                                      currentStraddle.low, currentStraddle.close)];
        }
        currentMinute := Some(thisMinute);
        currentStraddle := Ohlc(straddlePrice, straddlePrice, straddlePrice, straddlePrice);
      } else {
        currentStraddle := currentStraddle.(high := MaxR(currentStraddle.high, straddlePrice),
                                            low := MinR(currentStraddle.low, straddlePrice),
                                            close := straddlePrice);
      }
    }
  }
}
