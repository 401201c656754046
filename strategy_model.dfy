/**
 * The spot/option divergence strategy as a state machine over values.
 * `Snapshot` holds everything the paper-trading strategy keeps; each
 * function below is one of its transitions. The class in
 * divergence_strategy.dfy performs the same transitions in place and is
 * proved equal to these functions; the lemmas here state what they promise.
 */
module StrategyModel {
  import opened Wrappers
  import opened Clock

  const SPOT_SYMBOL: string := "NSE:NIFTY50-INDEX"
  /** Distance of the stop below the signal candle's low. */
  const SL_BUFFER: real := 0.25
  /** Nominal capital per trade, also the starting running capital. */
  const CAPITAL: real := 10000.0
  /** Completed candles kept per symbol. */
  const HISTORY_LIMIT: nat := 10
  /** Seconds between two at-the-money queries. */
  const ROTATION_COOLDOWN: real := 30.0

  /** A completed 5-minute candle. */
  datatype Bar = Bar(time: DateTime, open: real, high: real, low: real, close: real)

  predicate Green(b: Bar) { b.close > b.open }
  predicate Red(b: Bar) { b.close < b.open }

  /** Why a signal fired: the spot candle and the option candle whose colours matched. */
  datatype Reason = PeDivergence(spot: Bar, option: Bar) | CeDivergence(spot: Bar, option: Bar)

  /** A pending BUY: trigger above `high`, invalidated below `low`. */
  datatype Signal = Signal(high: real, low: real, candle: Bar, time: DateTime, reason: Reason)

  datatype Status = Open | Closed
  /** The two risk:reward journals, "1:1" and "1:3". */
  datatype Variant = OneToOne | OneToThree
  datatype ExitReason = StopLoss | Target

  datatype Trade = Trade(
    symbol: string, entryTime: DateTime, entryPrice: real, sl: real, target: real,
    quantity: int, status: Status, pnl: real, variant: Variant, reason: Reason,
    exitPrice: Option<real>, exitTime: Option<DateTime>, exitReason: Option<ExitReason>)

  datatype Snapshot = Snapshot(
    ceSymbol: Option<string>, peSymbol: Option<string>, atmStrike: Option<real>,
    activeTrades: seq<Trade>, pendingSignals: map<string, Signal>, tradeHistory: seq<Trade>,
    signalsDetected: nat, runningCapital: real, dailyPnl: real,
    candles: map<string, seq<Bar>>, lastRotationCheck: Option<real>)

  function Initial(): Snapshot
  {
    Snapshot(None, None, None, [], map[], [], 0, CAPITAL, 0.0, map[], None)
  }

  /** Python truthiness of an optional symbol: present and non-empty. */
  predicate Truthy(symbol: Option<string>)
  {
    symbol.Some? && symbol.value != ""
  }

  // ---------------------------------------------------------------- candle history

  function History(candles: map<string, seq<Bar>>, symbol: string): seq<Bar>
  {
    if symbol in candles then candles[symbol] else []
  }

  /** Appends a candle and drops the oldest one when more than ten are held. */
  function PushBounded(h: seq<Bar>, c: Bar): seq<Bar>
  {
    var grown := h + [c];
    if |grown| > HISTORY_LIMIT then grown[1..] else grown
  }

  /**
   * A history of at most ten stays within ten; the new candle is last; below
   * the bound nothing is dropped, at the bound exactly the oldest is.
   */
  lemma PushBoundedKeepsNewest(h: seq<Bar>, c: Bar)
    requires |h| <= HISTORY_LIMIT
    ensures var r := PushBounded(h, c);
      && |r| <= HISTORY_LIMIT && r[|r| - 1] == c
      && (|h| < HISTORY_LIMIT ==> r == h + [c])
      && (|h| == HISTORY_LIMIT ==> r == h[1..] + [c])
  {
  }

  function PushAll(h: seq<Bar>, cs: seq<Bar>): seq<Bar>
  {
    if cs == [] then h else PushBounded(PushAll(h, cs[..|cs| - 1]), cs[|cs| - 1])
  }

  /** After any run of candles from an empty history, the history is the latest ten of them. */
  lemma {:induction false} HistoryIsLatestTen(cs: seq<Bar>)
    ensures |cs| <= HISTORY_LIMIT ==> PushAll([], cs) == cs
    ensures |cs| > HISTORY_LIMIT ==> PushAll([], cs) == cs[|cs| - HISTORY_LIMIT..]
  {
    if cs != [] {
      var init := cs[..|cs| - 1];
      HistoryIsLatestTen(init);
      if |cs| > HISTORY_LIMIT + 1 {
        assert init[|init| - HISTORY_LIMIT..][1..] + [cs[|cs| - 1]] == cs[|cs| - HISTORY_LIMIT..];
      } else if |cs| == HISTORY_LIMIT + 1 {
        assert init[1..] + [cs[|cs| - 1]] == cs[|cs| - HISTORY_LIMIT..];
      } else {
        assert init + [cs[|cs| - 1]] == cs;
      }
    }
  }

  /** The most recent candle of the history stamped `t`, searching from the newest. */
  function FindCandle(h: seq<Bar>, t: DateTime): (r: Option<Bar>)
    ensures r.None? <==> forall i :: 0 <= i < |h| ==> h[i].time != t
    ensures r.Some? ==> r.value.time == t && exists i :: 0 <= i < |h| && h[i] == r.value && (forall j :: i < j < |h| ==> h[j].time != t)
  {
    if h == [] then None
    else if h[|h| - 1].time == t then Some(h[|h| - 1])
    else FindCandle(h[..|h| - 1], t)
  }

  // ---------------------------------------------------------------- signal detection

  function SpotCandle(s: Snapshot, t: DateTime): Option<Bar>
  {
    FindCandle(History(s.candles, SPOT_SYMBOL), t)
  }

  function OptionCandle(s: Snapshot, symbol: Option<string>, t: DateTime): Option<Bar>
  {
    if Truthy(symbol) then FindCandle(History(s.candles, symbol.value), t) else None
  }

  function SignalFrom(c: Bar, t: DateTime, reason: Reason): Signal
  {
    Signal(c.high, c.low, c, t, reason)
  }

  function Detected(s: Snapshot, symbol: string, signal: Signal): Snapshot
  {
    s.(signalsDetected := s.signalsDetected + 1, pendingSignals := s.pendingSignals[symbol := signal])
  }

  /** Spot green and the put green at `t`. */
  predicate PeFires(s: Snapshot, t: DateTime)
  {
    SpotCandle(s, t).Some? && OptionCandle(s, s.peSymbol, t).Some?
    && Green(SpotCandle(s, t).value) && Green(OptionCandle(s, s.peSymbol, t).value)
  }

  /** Spot red and the call green at `t`. */
  predicate CeFires(s: Snapshot, t: DateTime)
  {
    SpotCandle(s, t).Some? && OptionCandle(s, s.ceSymbol, t).Some?
    && Red(SpotCandle(s, t).value) && Green(OptionCandle(s, s.ceSymbol, t).value)
  }

  /** Looks for the divergence pattern among the candles stamped `t`; put side first. */
  function CheckSignalsAt(s: Snapshot, t: DateTime): Snapshot
  {
    match SpotCandle(s, t)
    case None => s
    case Some(spot) =>
      var afterPe :=
        match OptionCandle(s, s.peSymbol, t)
        case Some(pe) =>
          if Green(spot) && Green(pe) then Detected(s, s.peSymbol.value, SignalFrom(pe, t, PeDivergence(spot, pe))) else s
        case None => s;
      match OptionCandle(afterPe, afterPe.ceSymbol, t)
      case Some(ce) =>
        if Red(spot) && Green(ce) then Detected(afterPe, afterPe.ceSymbol.value, SignalFrom(ce, t, CeDivergence(spot, ce))) else afterPe
      case None => afterPe
  }

  /** A signal copies its candle's high and low. */
  predicate SignalMatchesCandle(signal: Signal)
  {
    signal.high == signal.candle.high && signal.low == signal.candle.low
  }

  /** `signal` is one that detection at `t` may write for `symbol`. */
  predicate Justified(s: Snapshot, t: DateTime, symbol: string, signal: Signal)
  {
    && SpotCandle(s, t).Some?
    && FindCandle(History(s.candles, symbol), t) == Some(signal.candle)
    && signal.time == t && signal.candle.time == t
    && SignalMatchesCandle(signal) && Green(signal.candle)
    && ((Truthy(s.peSymbol) && symbol == s.peSymbol.value && Green(SpotCandle(s, t).value))
        || (Truthy(s.ceSymbol) && symbol == s.ceSymbol.value && Red(SpotCandle(s, t).value)))
  }

  /**
   * Detection at `t`: without a spot candle nothing happens. Otherwise the
   * put signal is written exactly when spot and put are both green, the call
   * signal exactly when spot is red and the call green; each write counts
   * one detection and overwrites whatever was pending for that symbol; every
   * written signal is justified by the candles; nothing else changes.
   */
  lemma SignalDetection(s: Snapshot, t: DateTime)
    ensures var r := CheckSignalsAt(s, t);
      && (SpotCandle(s, t).None? ==> r == s)
      && r == s.(pendingSignals := r.pendingSignals, signalsDetected := r.signalsDetected)
      && r.signalsDetected == s.signalsDetected + (if PeFires(s, t) then 1 else 0) + (if CeFires(s, t) then 1 else 0)
      && r.pendingSignals.Keys == s.pendingSignals.Keys
           + (if PeFires(s, t) then {s.peSymbol.value} else {})
           + (if CeFires(s, t) then {s.ceSymbol.value} else {})
      && (forall sym :: sym in r.pendingSignals ==>
            (sym in s.pendingSignals && r.pendingSignals[sym] == s.pendingSignals[sym]) || Justified(s, t, sym, r.pendingSignals[sym]))
      && (CeFires(s, t) ==>
            r.pendingSignals[s.ceSymbol.value] == SignalFrom(OptionCandle(s, s.ceSymbol, t).value, t,
              CeDivergence(SpotCandle(s, t).value, OptionCandle(s, s.ceSymbol, t).value)))
      && (PeFires(s, t) && !(CeFires(s, t) && s.ceSymbol == s.peSymbol) ==>
            r.pendingSignals[s.peSymbol.value] == SignalFrom(OptionCandle(s, s.peSymbol, t).value, t,
              PeDivergence(SpotCandle(s, t).value, OptionCandle(s, s.peSymbol, t).value)))
  {
    if SpotCandle(s, t).Some? {
      var spot := SpotCandle(s, t).value;
      var afterPe :=
        match OptionCandle(s, s.peSymbol, t)
        case Some(pe) =>
          if Green(spot) && Green(pe) then Detected(s, s.peSymbol.value, SignalFrom(pe, t, PeDivergence(spot, pe))) else s
        case None => s;
      assert afterPe.candles == s.candles && afterPe.ceSymbol == s.ceSymbol && afterPe.peSymbol == s.peSymbol;
      assert OptionCandle(afterPe, afterPe.ceSymbol, t) == OptionCandle(s, s.ceSymbol, t);
    }
  }

  /** A new candle is stored (at most ten kept), then detection runs at its time. */
  function AfterCandle(s: Snapshot, symbol: string, candle: Bar): Snapshot
  {
    CheckSignalsAt(s.(candles := s.candles[symbol := PushBounded(History(s.candles, symbol), candle)]), candle.time)
  }

  // ---------------------------------------------------------------- opening trades

  /** Python's `int(x)`: truncation toward zero. */
  function Trunc(x: real): int
  {
    if x >= 0.0 then x.Floor else -((-x).Floor)
  }

  /** Shares bought for the nominal capital at the entry price. */
  function Quantity(entry: real): int
    requires entry != 0.0
  {
    Trunc(CAPITAL / entry)
  }

  /** OPEN trades on `symbol`. */
  function OpenCount(trades: seq<Trade>, symbol: string): nat
  {
    if trades == [] then 0
    else
      var last := trades[|trades| - 1];
      OpenCount(trades[..|trades| - 1], symbol) + (if last.symbol == symbol && last.status == Open then 1 else 0)
  }

  predicate HasOpenTrade(trades: seq<Trade>, symbol: string)
  {
    exists i :: 0 <= i < |trades| && trades[i].symbol == symbol && trades[i].status == Open
  }

  function EntryPrice(candle: Bar, entry: Option<real>): real
  {
    entry.GetOr(candle.high)
  }

  function StopFor(candle: Bar): real
  {
    candle.low - SL_BUFFER
  }

  /** An order is refused while the symbol has an OPEN trade, or when its risk is not positive. */
  predicate OrderRefused(trades: seq<Trade>, symbol: string, candle: Bar, entry: Option<real>)
  {
    HasOpenTrade(trades, symbol) || EntryPrice(candle, entry) - StopFor(candle) <= 0.0
  }

  function NewTrade(symbol: string, t: DateTime, entry: real, sl: real, target: real, quantity: int,
                    variant: Variant, reason: Reason): Trade
  {
    Trade(symbol, t, entry, sl, target, quantity, Open, 0.0, variant, reason, None, None, None)
  }

  /**
   * The paper order: unless refused, a "1:1" and a "1:3" trade with the same
   * entry, stop and quantity, targets one and three risks above the entry.
   * Without an explicit entry price the candle's high is used.
   */
  function PlaceOrder(s: Snapshot, symbol: string, candle: Bar, t: DateTime, entry: Option<real>, reason: Reason): Snapshot
    requires !OrderRefused(s.activeTrades, symbol, candle, entry) ==> EntryPrice(candle, entry) != 0.0
  {
    if OrderRefused(s.activeTrades, symbol, candle, entry) then s
    else
      var price := EntryPrice(candle, entry);
      var sl := StopFor(candle);
      var risk := price - sl;
      var quantity := Quantity(price);
      s.(activeTrades := s.activeTrades + [
        NewTrade(symbol, t, price, sl, price + risk * 1.0, quantity, OneToOne, reason),
        NewTrade(symbol, t, price, sl, price + risk * 3.0, quantity, OneToThree, reason)])
  }

  /**
   * A refused order changes nothing. Otherwise exactly two OPEN trades are
   * appended, sharing symbol, entry, stop (candle low - 0.25) and quantity,
   * with stop < entry < 1:1 target < 1:3 target, the 1:3 target lying three
   * times as far above the entry as the 1:1 target.
   */
  lemma PlaceOrderOpensPair(s: Snapshot, symbol: string, candle: Bar, t: DateTime, entry: Option<real>, reason: Reason)
    requires !OrderRefused(s.activeTrades, symbol, candle, entry) ==> EntryPrice(candle, entry) != 0.0
    ensures var r := PlaceOrder(s, symbol, candle, t, entry, reason);
      && (OrderRefused(s.activeTrades, symbol, candle, entry) ==> r == s)
      && (!OrderRefused(s.activeTrades, symbol, candle, entry) ==>
            && r == s.(activeTrades := r.activeTrades)
            && |r.activeTrades| == |s.activeTrades| + 2
            && r.activeTrades[..|s.activeTrades|] == s.activeTrades
            && var a, b := r.activeTrades[|s.activeTrades|], r.activeTrades[|s.activeTrades| + 1];
               && a.symbol == b.symbol == symbol && a.status == b.status == Open
               && a.entryPrice == b.entryPrice == EntryPrice(candle, entry)
               && a.sl == b.sl == candle.low - 0.25
               && a.quantity == b.quantity == Quantity(a.entryPrice)
               && a.variant == OneToOne && b.variant == OneToThree
               && a.sl < a.entryPrice < a.target < b.target
               && a.target - a.entryPrice == a.entryPrice - a.sl
               && b.target - b.entryPrice == 3.0 * (a.target - a.entryPrice))
  {
    if !OrderRefused(s.activeTrades, symbol, candle, entry) {
      var r := PlaceOrder(s, symbol, candle, t, entry, reason);
      assert r.activeTrades[..|s.activeTrades|] == s.activeTrades;
    }
  }

  // ---------------------------------------------------------------- ticks on open trades

  /** Long only: pnl = (exit - entry) * quantity. */
  function CloseTrade(trade: Trade, exitPrice: real, t: DateTime, reason: ExitReason): Trade
  {
    trade.(status := Closed, exitPrice := Some(exitPrice), exitTime := Some(t), exitReason := Some(reason),
           pnl := (exitPrice - trade.entryPrice) * trade.quantity as real)
  }

  /** Stop first, then target; only OPEN trades on the ticked symbol react. */
  function ExitOn(trade: Trade, symbol: string, ltp: real): Option<ExitReason>
  {
    if trade.symbol == symbol && trade.status == Open then
      if ltp <= trade.sl then Some(StopLoss)
      else if ltp >= trade.target then Some(Target)
      else None
    else None
  }

  function TickTrade(trade: Trade, symbol: string, ltp: real, t: DateTime): Trade
  {
    match ExitOn(trade, symbol, ltp)
    case None => trade
    case Some(reason) => CloseTrade(trade, ltp, t, reason)
  }

  function TickTrades(trades: seq<Trade>, symbol: string, ltp: real, t: DateTime): seq<Trade>
  {
    seq(|trades|, i requires 0 <= i < |trades| => TickTrade(trades[i], symbol, ltp, t))
  }

  /** The trades the tick closes, in list order, as they are after closing. */
  function Exits(trades: seq<Trade>, symbol: string, ltp: real, t: DateTime): seq<Trade>
  {
    if trades == [] then []
    else
      var last := trades[|trades| - 1];
      Exits(trades[..|trades| - 1], symbol, ltp, t)
        + (if ExitOn(last, symbol, ltp).Some? then [TickTrade(last, symbol, ltp, t)] else [])
  }

  function SumPnl(trades: seq<Trade>): real
  {
    if trades == [] then 0.0 else SumPnl(trades[..|trades| - 1]) + trades[|trades| - 1].pnl
  }

  /** Stage one of a tick: close what the tick stops out or takes profit on, and book the pnl. */
  function Settle(s: Snapshot, symbol: string, ltp: real, t: DateTime): Snapshot
  {
    var exits := Exits(s.activeTrades, symbol, ltp, t);
    s.(activeTrades := TickTrades(s.activeTrades, symbol, ltp, t),
       tradeHistory := s.tradeHistory + exits,
       dailyPnl := s.dailyPnl + SumPnl(exits),
       runningCapital := s.runningCapital + SumPnl(exits))
  }

  /** One trade of the list examined in place: closed on stop or target, its pnl booked. */
  function CheckOne(s: Snapshot, i: nat, symbol: string, ltp: real, t: DateTime): Snapshot
    requires i < |s.activeTrades|
  {
    var trade := s.activeTrades[i];
    var next := TickTrade(trade, symbol, ltp, t);
    if ExitOn(trade, symbol, ltp).Some? then
      s.(activeTrades := s.activeTrades[i := next], tradeHistory := s.tradeHistory + [next],
         dailyPnl := s.dailyPnl + next.pnl, runningCapital := s.runningCapital + next.pnl)
    else s
  }

  /** Where the walk over `trades` stands after its first `i` trades, starting from `s0`. */
  function Walked(s0: Snapshot, trades: seq<Trade>, i: nat, symbol: string, ltp: real, t: DateTime): Snapshot
    requires i <= |trades|
  {
    var exits := Exits(trades[..i], symbol, ltp, t);
    s0.(activeTrades := TickTrades(trades[..i], symbol, ltp, t) + trades[i..],
        tradeHistory := s0.tradeHistory + exits,
        dailyPnl := s0.dailyPnl + SumPnl(exits),
        runningCapital := s0.runningCapital + SumPnl(exits))
  }

  /** Checking trade `i` in place moves the walk on by exactly one trade. */
  lemma WalkStep(s0: Snapshot, trades: seq<Trade>, i: nat, symbol: string, ltp: real, t: DateTime)
    requires i < |trades|
    ensures |Walked(s0, trades, i, symbol, ltp, t).activeTrades| == |trades|
    ensures CheckOne(Walked(s0, trades, i, symbol, ltp, t), i, symbol, ltp, t) == Walked(s0, trades, i + 1, symbol, ltp, t)
  {
    TickTradesStep(trades, i, symbol, ltp, t);
    if ExitOn(trades[i], symbol, ltp).Some? {
      WalkStepCloses(s0, trades, i, symbol, ltp, t);
    } else {
      WalkStepKeeps(s0, trades, i, symbol, ltp, t);
    }
  }

  lemma WalkStepCloses(s0: Snapshot, trades: seq<Trade>, i: nat, symbol: string, ltp: real, t: DateTime)
    requires i < |trades| && ExitOn(trades[i], symbol, ltp).Some?
    ensures var w := Walked(s0, trades, i, symbol, ltp, t);
      var w1 := Walked(s0, trades, i + 1, symbol, ltp, t);
      var next := TickTrade(trades[i], symbol, ltp, t);
      && w1.tradeHistory == w.tradeHistory + [next]
      && w1.dailyPnl == w.dailyPnl + next.pnl && w1.runningCapital == w.runningCapital + next.pnl
  {
    var e := Exits(trades[..i], symbol, ltp, t);
    var e1 := Exits(trades[..i + 1], symbol, ltp, t);
    var next := TickTrade(trades[i], symbol, ltp, t);
    assert e1 == e + [next] && SumPnl(e1) == SumPnl(e) + next.pnl by {
      ExitsStep(trades, i, symbol, ltp, t);
    }
    assert s0.tradeHistory + e1 == s0.tradeHistory + e + [next];
  }

  lemma WalkStepKeeps(s0: Snapshot, trades: seq<Trade>, i: nat, symbol: string, ltp: real, t: DateTime)
    requires i < |trades| && ExitOn(trades[i], symbol, ltp).None?
    ensures var w := Walked(s0, trades, i, symbol, ltp, t);
      var w1 := Walked(s0, trades, i + 1, symbol, ltp, t);
      && w1.tradeHistory == w.tradeHistory
      && w1.dailyPnl == w.dailyPnl && w1.runningCapital == w.runningCapital
  {
    ExitsStep(trades, i, symbol, ltp, t);
    var e := Exits(trades[..i], symbol, ltp, t);
    assert e + [] == e;
  }

  /** The walk starts at the snapshot itself and, over its own trades, ends where `Settle` does. */
  lemma WalkDone(s0: Snapshot, symbol: string, ltp: real, t: DateTime)
    ensures Walked(s0, s0.activeTrades, 0, symbol, ltp, t) == s0
    ensures Walked(s0, s0.activeTrades, |s0.activeTrades|, symbol, ltp, t) == Settle(s0, symbol, ltp, t)
  {
    var trades := s0.activeTrades;
    assert trades[..0] == [] && trades[0..] == trades;
    assert TickTrades([], symbol, ltp, t) + trades == trades;
    assert s0.tradeHistory + [] == s0.tradeHistory;
    assert trades[..|trades|] == trades && trades[|trades|..] == [];
    assert TickTrades(trades, symbol, ltp, t) + [] == TickTrades(trades, symbol, ltp, t);
  }

  /** Stage two: invalidation below the low, trigger above the high (the signal is consumed either way). */
  function ResolvePending(s: Snapshot, symbol: string, ltp: real, t: DateTime): Snapshot
    requires ltp != 0.0
  {
    if symbol !in s.pendingSignals then s
    else
      var signal := s.pendingSignals[symbol];
      if ltp < signal.low then s.(pendingSignals := s.pendingSignals - {symbol})
      else if ltp > signal.high then
        var placed := PlaceOrder(s, symbol, signal.candle, t, Some(ltp), signal.reason);
        placed.(pendingSignals := placed.pendingSignals - {symbol})
      else s
  }

  /** A tick: open trades on the symbol first, then its pending signal. */
  function AfterTick(s: Snapshot, symbol: string, ltp: real, t: DateTime): Snapshot
    requires ltp != 0.0
  {
    ResolvePending(Settle(s, symbol, ltp, t), symbol, ltp, t)
  }

  lemma {:induction false} SumPnlAppend(a: seq<Trade>, b: seq<Trade>)
    ensures SumPnl(a + b) == SumPnl(a) + SumPnl(b)
  {
    if b != [] {
      assert (a + b)[..|a + b| - 1] == a + b[..|b| - 1];
      assert (a + b)[|a + b| - 1] == b[|b| - 1];
      SumPnlAppend(a, b[..|b| - 1]);
    } else {
      assert a + b == a;
    }
  }

  lemma {:induction false} OpenCountAppend(a: seq<Trade>, b: seq<Trade>, symbol: string)
    ensures OpenCount(a + b, symbol) == OpenCount(a, symbol) + OpenCount(b, symbol)
  {
    if b != [] {
      assert (a + b)[..|a + b| - 1] == a + b[..|b| - 1];
      assert (a + b)[|a + b| - 1] == b[|b| - 1];
      OpenCountAppend(a, b[..|b| - 1], symbol);
    } else {
      assert a + b == a;
    }
  }

  /** The count is positive exactly when some trade on the symbol is OPEN. */
  lemma {:induction false} OpenCountPositive(trades: seq<Trade>, symbol: string)
    ensures OpenCount(trades, symbol) > 0 <==> HasOpenTrade(trades, symbol)
  {
    if trades != [] {
      var init := trades[..|trades| - 1];
      OpenCountPositive(init, symbol);
      if HasOpenTrade(init, symbol) {
        var i :| 0 <= i < |init| && init[i].symbol == symbol && init[i].status == Open;
        assert trades[i] == init[i];
      }
      if HasOpenTrade(trades, symbol) && trades[|trades| - 1].symbol == symbol && trades[|trades| - 1].status != Open {
        var i :| 0 <= i < |trades| && trades[i].symbol == symbol && trades[i].status == Open;
        assert init[i] == trades[i];
      }
      if HasOpenTrade(trades, symbol) && trades[|trades| - 1].symbol != symbol {
        var i :| 0 <= i < |trades| && trades[i].symbol == symbol && trades[i].status == Open;
        assert init[i] == trades[i];
      }
    }
  }

  /** A tick never opens a trade: OPEN counts only fall. */
  lemma {:induction false} TickTradesOpenCount(trades: seq<Trade>, symbol: string, ltp: real, t: DateTime, other: string)
    ensures OpenCount(TickTrades(trades, symbol, ltp, t), other) <= OpenCount(trades, other)
  {
    if trades != [] {
      var init := trades[..|trades| - 1];
      assert TickTrades(trades, symbol, ltp, t)[..|trades| - 1] == TickTrades(init, symbol, ltp, t);
      TickTradesOpenCount(init, symbol, ltp, t, other);
    }
  }

  lemma {:induction false} ExitsAreClosed(trades: seq<Trade>, symbol: string, ltp: real, t: DateTime)
    ensures forall i :: 0 <= i < |Exits(trades, symbol, ltp, t)| ==> Exits(trades, symbol, ltp, t)[i].status == Closed
  {
    if trades != [] {
      ExitsAreClosed(trades[..|trades| - 1], symbol, ltp, t);
    }
  }

  /**
   * What a tick does to the trade list: a CLOSED trade is never touched
   * again; an OPEN trade on the symbol is closed at the tick price when the
   * price is at or below its stop (stop wins) or else at or above its
   * target, with pnl (price - entry) * quantity; every other trade stays.
   */
  lemma TickTradeOutcome(trade: Trade, symbol: string, ltp: real, t: DateTime)
    ensures trade.status == Closed || trade.symbol != symbol ==> TickTrade(trade, symbol, ltp, t) == trade
    ensures trade.status == Open && trade.symbol == symbol && ltp <= trade.sl ==>
      TickTrade(trade, symbol, ltp, t).exitReason == Some(StopLoss)
    ensures trade.status == Open && trade.symbol == symbol && trade.sl < ltp && trade.target <= ltp ==>
      TickTrade(trade, symbol, ltp, t).exitReason == Some(Target)
    ensures trade.status == Open && trade.symbol == symbol && (ltp <= trade.sl || trade.target <= ltp) ==>
      var closed := TickTrade(trade, symbol, ltp, t);
      closed.status == Closed && closed.exitPrice == Some(ltp) && closed.exitTime == Some(t)
      && closed.pnl == (ltp - trade.entryPrice) * trade.quantity as real
      && closed == trade.(status := Closed, pnl := closed.pnl, exitPrice := closed.exitPrice,
                          exitTime := closed.exitTime, exitReason := closed.exitReason)
    ensures trade.sl < ltp < trade.target ==> TickTrade(trade, symbol, ltp, t) == trade
  {
  }

  /** One more trade of the list examined: what it adds to the exits and to their pnl. */
  lemma ExitsStep(trades: seq<Trade>, i: nat, symbol: string, ltp: real, t: DateTime)
    requires i < |trades|
    ensures var closes := ExitOn(trades[i], symbol, ltp).Some?;
      && Exits(trades[..i + 1], symbol, ltp, t)
         == Exits(trades[..i], symbol, ltp, t) + (if closes then [TickTrade(trades[i], symbol, ltp, t)] else [])
      && SumPnl(Exits(trades[..i + 1], symbol, ltp, t))
         == SumPnl(Exits(trades[..i], symbol, ltp, t)) + (if closes then TickTrade(trades[i], symbol, ltp, t).pnl else 0.0)
  {
    assert trades[..i + 1][..i] == trades[..i];
    var e := Exits(trades[..i], symbol, ltp, t);
    var x := [TickTrade(trades[i], symbol, ltp, t)];
    if ExitOn(trades[i], symbol, ltp).Some? {
      SumPnlAppend(e, x);
      assert x[..0] == [];
      assert SumPnl(x) == x[0].pnl;
    } else {
      assert e + [] == e;
    }
  }

  /** One more trade of the list ticked: the walked prefix grows by it and the rest shrinks by it. */
  lemma TickTradesStep(trades: seq<Trade>, i: nat, symbol: string, ltp: real, t: DateTime)
    requires i < |trades|
    ensures var walked := TickTrades(trades[..i], symbol, ltp, t) + trades[i..];
      && |walked| == |trades| && walked[i] == trades[i]
      && walked[i := TickTrade(trades[i], symbol, ltp, t)] == TickTrades(trades[..i + 1], symbol, ltp, t) + trades[i + 1..]
  {
    var walked := TickTrades(trades[..i], symbol, ltp, t) + trades[i..];
    var next := TickTrades(trades[..i + 1], symbol, ltp, t) + trades[i + 1..];
    assert walked[i] == trades[i..][0];
    forall j | 0 <= j < |trades|
      ensures walked[i := TickTrade(trades[i], symbol, ltp, t)][j] == next[j]
    {
      if j < i {
        assert trades[..i][j] == trades[..i + 1][j];
      } else if j > i {
        assert trades[i..][j - i] == trades[i + 1..][j - i - 1];
      }
    }
  }

  /**
   * Every trade the tick closes was OPEN on the symbol before it and is
   * CLOSED after it, so the number of exits is exactly the drop in the
   * symbol's OPEN count: no trade is closed twice.
   */
  lemma {:induction false} ExitsAreTheClosedOpenTrades(trades: seq<Trade>, symbol: string, ltp: real, t: DateTime)
    ensures |Exits(trades, symbol, ltp, t)| + OpenCount(TickTrades(trades, symbol, ltp, t), symbol) == OpenCount(trades, symbol)
  {
    if trades != [] {
      var init := trades[..|trades| - 1];
      assert TickTrades(trades, symbol, ltp, t)[..|trades| - 1] == TickTrades(init, symbol, ltp, t);
      ExitsAreTheClosedOpenTrades(init, symbol, ltp, t);
    }
  }

  /**
   * Resolution of the symbol's pending signal: below the low it is deleted
   * and nothing is opened; otherwise above the high it is deleted and an
   * order is attempted at the tick price, refused only while the symbol has
   * an OPEN trade (the risk is always positive, since the price is above
   * the signal's low); inside [low, high] nothing changes.
   */
  lemma PendingResolution(s: Snapshot, symbol: string, ltp: real, t: DateTime)
    requires ltp != 0.0
    ensures var r := ResolvePending(s, symbol, ltp, t);
      && (symbol !in s.pendingSignals ==> r == s)
      && (symbol in s.pendingSignals && ltp < s.pendingSignals[symbol].low ==>
            r == s.(pendingSignals := s.pendingSignals - {symbol}))
      && (symbol in s.pendingSignals && s.pendingSignals[symbol].low <= ltp <= s.pendingSignals[symbol].high ==>
            r == s)
      && (symbol in s.pendingSignals && s.pendingSignals[symbol].low <= ltp && s.pendingSignals[symbol].high < ltp ==>
            && r.pendingSignals == s.pendingSignals - {symbol}
            && r == s.(pendingSignals := r.pendingSignals, activeTrades := r.activeTrades)
            && (HasOpenTrade(s.activeTrades, symbol) ==> r.activeTrades == s.activeTrades))
      && (symbol in s.pendingSignals && SignalMatchesCandle(s.pendingSignals[symbol])
          && s.pendingSignals[symbol].low <= ltp && s.pendingSignals[symbol].high < ltp
          && !HasOpenTrade(s.activeTrades, symbol) ==>
            && |r.activeTrades| == |s.activeTrades| + 2
            && r.activeTrades[..|s.activeTrades|] == s.activeTrades
            && r.activeTrades[|s.activeTrades|].entryPrice == ltp
            && r.activeTrades[|s.activeTrades|].sl == s.pendingSignals[symbol].low - SL_BUFFER
            && r.activeTrades[|s.activeTrades|].status == Open)
  {
    if symbol in s.pendingSignals {
      var signal := s.pendingSignals[symbol];
      if signal.low <= ltp && signal.high < ltp {
        if !HasOpenTrade(s.activeTrades, symbol) && SignalMatchesCandle(signal) {
          assert !OrderRefused(s.activeTrades, symbol, signal.candle, Some(ltp));
          PlaceOrderOpensPair(s, symbol, signal.candle, t, Some(ltp), signal.reason);
        }
      }
    }
  }

  /**
   * A tick settles open trades before it resolves the pending signal: the
   * trades existing before the tick end up exactly as the settle stage left
   * them, so a trade opened by this tick is still OPEN afterwards and was
   * not checked against the tick that opened it. The closed trades are
   * appended to the history, and the running capital and the day's pnl move
   * by the same amount.
   */
  lemma TickOrder(s: Snapshot, symbol: string, ltp: real, t: DateTime)
    requires ltp != 0.0
    ensures var r := AfterTick(s, symbol, ltp, t);
      && |r.activeTrades| >= |s.activeTrades|
      && r.activeTrades[..|s.activeTrades|] == TickTrades(s.activeTrades, symbol, ltp, t)
      && (forall i :: |s.activeTrades| <= i < |r.activeTrades| ==>
            r.activeTrades[i].status == Open && r.activeTrades[i].entryPrice == ltp && r.activeTrades[i].entryTime == t)
      && r.tradeHistory == s.tradeHistory + Exits(s.activeTrades, symbol, ltp, t)
      && r.runningCapital - r.dailyPnl == s.runningCapital - s.dailyPnl
      && r.dailyPnl == s.dailyPnl + SumPnl(Exits(s.activeTrades, symbol, ltp, t))
  {
    var settled := Settle(s, symbol, ltp, t);
    if symbol in settled.pendingSignals {
      var signal := settled.pendingSignals[symbol];
      if !(ltp < signal.low) && ltp > signal.high {
        PlaceOrderOpensPair(settled, symbol, signal.candle, t, Some(ltp), signal.reason);
      }
    }
  }

  /**
   * One trade worked through: a signal candle with low 19 triggered at 23.5
   * buys 425 shares (10000 / 23.5 truncated) in each journal with the stop at
   * 18.75 and targets 28.25 and 37.75; a tick at 28.25 takes the 1:1 profit
   * of 2018.75 and leaves the 1:3 trade open.
   */
  lemma WorkedTrade(t: DateTime, reason: Reason)
    ensures var s := PlaceOrder(Initial(), "OPT", Bar(t, 20.0, 22.0, 19.0, 21.5), t, Some(23.5), reason);
      && |s.activeTrades| == 2
      && s.activeTrades[0].sl == s.activeTrades[1].sl == 18.75
      && s.activeTrades[0].target == 28.25 && s.activeTrades[1].target == 37.75
      && s.activeTrades[0].quantity == s.activeTrades[1].quantity == 425
      && var r := AfterTick(s, "OPT", 28.25, t);
         && r.tradeHistory == [CloseTrade(s.activeTrades[0], 28.25, t, Target)]
         && r.dailyPnl == 2018.75 && r.runningCapital == 12018.75
         && r.activeTrades == [r.tradeHistory[0], s.activeTrades[1]]
  {
    var s := PlaceOrder(Initial(), "OPT", Bar(t, 20.0, 22.0, 19.0, 21.5), t, Some(23.5), reason);
    WorkedQuantity();
    var a := NewTrade("OPT", t, 23.5, 18.75, 28.25, 425, OneToOne, reason);
    var b := NewTrade("OPT", t, 23.5, 18.75, 37.75, 425, OneToThree, reason);
    assert s.activeTrades == [a, b];
    WorkedTick(a, b, t);
  }

  lemma WorkedQuantity()
    ensures Quantity(23.5) == 425
  {
    assert 425.0 <= 10000.0 / 23.5 < 426.0;
  }

  lemma WorkedTick(a: Trade, b: Trade, t: DateTime)
    requires a.symbol == b.symbol == "OPT" && a.status == b.status == Open
    requires a.entryPrice == b.entryPrice == 23.5 && a.sl == b.sl == 18.75 && a.quantity == b.quantity == 425
    requires a.target == 28.25 && b.target == 37.75
    ensures var r := Settle(Initial().(activeTrades := [a, b]), "OPT", 28.25, t);
      && r.tradeHistory == [CloseTrade(a, 28.25, t, Target)]
      && r.dailyPnl == 2018.75 && r.runningCapital == 12018.75
      && r.activeTrades == [CloseTrade(a, 28.25, t, Target), b]
      && r.pendingSignals == map[]
  {
    var closed := CloseTrade(a, 28.25, t, Target);
    WorkedExits(a, b, t);
    assert [closed][..0] == [];
    assert SumPnl([closed]) == closed.pnl == 2018.75;
  }

  lemma WorkedExits(a: Trade, b: Trade, t: DateTime)
    requires a.symbol == b.symbol == "OPT" && a.status == b.status == Open
    requires a.sl == b.sl == 18.75 && a.target == 28.25 && b.target == 37.75
    ensures Exits([a, b], "OPT", 28.25, t) == [CloseTrade(a, 28.25, t, Target)]
    ensures TickTrades([a, b], "OPT", 28.25, t) == [CloseTrade(a, 28.25, t, Target), b]
  {
    var trades := [a, b];
    assert TickTrade(a, "OPT", 28.25, t) == CloseTrade(a, 28.25, t, Target);
    assert TickTrade(b, "OPT", 28.25, t) == b;
    assert trades[..1] == [a] && [a][..0] == [];
    assert Exits([a], "OPT", 28.25, t) == [CloseTrade(a, 28.25, t, Target)];
    assert Exits(trades, "OPT", 28.25, t) == Exits([a], "OPT", 28.25, t) + [];
  }

  // ---------------------------------------------------------------- rotation, reset, capital

  /** What the at-the-money query returned: the call and put symbols and the strike. */
  datatype AtmQuote = AtmQuote(ce: string, pe: string, strike: real)

  /** Less than thirty seconds since the previous check. */
  predicate Throttled(s: Snapshot, now: real)
  {
    s.lastRotationCheck.Some? && now - s.lastRotationCheck.value < ROTATION_COOLDOWN
  }

  /**
   * The throttled rotation check at clock `now` (seconds). `query` is the
   * query's outcome, `None` for a failed call or a chain missing a side.
   * Returns the new state and the new (call, put) pair if it changed.
   */
  function Rotate(s: Snapshot, now: real, query: Option<AtmQuote>): (Snapshot, Option<(string, string)>)
  {
    if Throttled(s, now) then (s, None)
    else
      var checked := s.(lastRotationCheck := Some(now));
      match query
      case None => (checked, None)
      case Some(q) =>
        if Some(q.ce) != s.ceSymbol || Some(q.pe) != s.peSymbol then
          (checked.(atmStrike := Some(q.strike), ceSymbol := Some(q.ce), peSymbol := Some(q.pe)), Some((q.ce, q.pe)))
        else (checked, None)
  }

  /**
   * Within thirty seconds of the previous check nothing happens. Otherwise
   * the check time is recorded whatever the query returns, and a pair is
   * returned, and stored, exactly when the query succeeded with a pair
   * that differs from the tracked one in either symbol. Only the tracked
   * symbols, the strike and the check time ever change.
   */
  lemma RotationCooldown(s: Snapshot, now: real, query: Option<AtmQuote>)
    ensures var (r, pair) := Rotate(s, now, query);
      && (Throttled(s, now) ==> r == s && pair.None?)
      && (!Throttled(s, now) ==> r.lastRotationCheck == Some(now))
      && (pair.Some? <==> !Throttled(s, now) && query.Some?
                          && (Some(query.value.ce) != s.ceSymbol || Some(query.value.pe) != s.peSymbol))
      && (pair.Some? ==> r.ceSymbol == Some(pair.value.0) && r.peSymbol == Some(pair.value.1)
                         && pair.value == (query.value.ce, query.value.pe) && r.atmStrike == Some(query.value.strike))
      && (pair.None? ==> r.ceSymbol == s.ceSymbol && r.peSymbol == s.peSymbol && r.atmStrike == s.atmStrike)
      && r == s.(ceSymbol := r.ceSymbol, peSymbol := r.peSymbol, atmStrike := r.atmStrike, lastRotationCheck := r.lastRotationCheck)
  {
  }

  /** A check that went through blocks every further check for thirty seconds, even when its query failed. */
  lemma {:induction false} NoSecondQueryWithinCooldown(s: Snapshot, t1: real, q1: Option<AtmQuote>, t2: real, q2: Option<AtmQuote>)
    requires !Throttled(s, t1) && t2 - t1 < ROTATION_COOLDOWN
    ensures Rotate(Rotate(s, t1, q1).0, t2, q2) == (Rotate(s, t1, q1).0, None)
  {
    assert Rotate(s, t1, q1).0.lastRotationCheck == Some(t1);
  }

  /** Start of a trading day: day-scoped state is cleared, capital and tracked symbols are kept. */
  function ResetDay(s: Snapshot): Snapshot
  {
    s.(tradeHistory := [], signalsDetected := 0, dailyPnl := 0.0, pendingSignals := map[], candles := map[],
       activeTrades := [])
  }

  /** What reading the saved capital state found. */
  datatype CapitalFile =
    | NoFile
    | Unreadable
      /** A parsed object; `None` when its running capital is missing or not a number. */
    | Stored(runningCapital: Option<real>)

  /** A missing file keeps the current capital; any failure falls back to 10000. */
  function LoadCapital(s: Snapshot, file: CapitalFile): (r: Snapshot)
    ensures r == s.(runningCapital := r.runningCapital)
    ensures file.NoFile? ==> r.runningCapital == s.runningCapital
    ensures file.Unreadable? || file == Stored(None) ==> r.runningCapital == CAPITAL
    ensures forall v :: file == Stored(Some(v)) ==> r.runningCapital == v
  {
    match file
    case NoFile => s
    case Unreadable => s.(runningCapital := CAPITAL)
    case Stored(v) => s.(runningCapital := v.GetOr(CAPITAL))
  }

  // ---------------------------------------------------------------- daily report

  datatype Outcome = Win | Loss | Breakeven

  function OutcomeOf(trade: Trade): Outcome
  {
    if trade.pnl > 0.0 then Win else if trade.pnl < 0.0 then Loss else Breakeven
  }

  function CountOutcome(h: seq<Trade>, o: Outcome): nat
  {
    if h == [] then 0 else CountOutcome(h[..|h| - 1], o) + (if OutcomeOf(h[|h| - 1]) == o then 1 else 0)
  }

  function CountVariant(h: seq<Trade>, v: Variant): nat
  {
    if h == [] then 0 else CountVariant(h[..|h| - 1], v) + (if h[|h| - 1].variant == v then 1 else 0)
  }

  function VariantPnl(h: seq<Trade>, v: Variant): real
  {
    if h == [] then 0.0 else VariantPnl(h[..|h| - 1], v) + (if h[|h| - 1].variant == v then h[|h| - 1].pnl else 0.0)
  }

  /** The explanation written when no trade was taken. */
  datatype NoTradeMessage = SignalsNotTriggered(signals: nat) | NoSignals

  datatype DailyReport = DailyReport(
    signalsDetected: nat, tradesTaken: nat, winning: nat, losing: nat, breakeven: nat,
    winRate: Option<real>, dailyPnl: real, runningCapital: real, initialCapital: real,
    oneToOneTrades: nat, oneToOnePnl: real, oneToThreeTrades: nat, oneToThreePnl: real,
    ceSymbol: Option<string>, peSymbol: Option<string>, message: Option<NoTradeMessage>)

  /** The end-of-day summary; the win rate is a percentage, absent without trades. */
  function Report(s: Snapshot): DailyReport
  {
    var h := s.tradeHistory;
    DailyReport(
      s.signalsDetected, |h|, CountOutcome(h, Win), CountOutcome(h, Loss), CountOutcome(h, Breakeven),
      if h == [] then None else Some(CountOutcome(h, Win) as real / |h| as real * 100.0),
      s.dailyPnl, s.runningCapital, CAPITAL,
      CountVariant(h, OneToOne), VariantPnl(h, OneToOne), CountVariant(h, OneToThree), VariantPnl(h, OneToThree),
      s.ceSymbol, s.peSymbol,
      if h != [] then None else if s.signalsDetected > 0 then Some(SignalsNotTriggered(s.signalsDetected)) else Some(NoSignals))
  }

  lemma {:induction false} OutcomesPartition(h: seq<Trade>)
    ensures CountOutcome(h, Win) + CountOutcome(h, Loss) + CountOutcome(h, Breakeven) == |h|
  {
    if h != [] {
      OutcomesPartition(h[..|h| - 1]);
    }
  }

  lemma {:induction false} VariantsPartition(h: seq<Trade>)
    ensures CountVariant(h, OneToOne) + CountVariant(h, OneToThree) == |h|
    ensures VariantPnl(h, OneToOne) + VariantPnl(h, OneToThree) == SumPnl(h)
  {
    if h != [] {
      VariantsPartition(h[..|h| - 1]);
    }
  }

  /**
   * Wins, losses and breakevens partition the day's trades, as do the two
   * journals, whose pnl adds up to the history's; the win rate is a
   * percentage present exactly when a trade was taken, and the no-trade
   * message appears exactly when none was, naming the signal count if any.
   */
  lemma ReportPartition(s: Snapshot)
    ensures var r := Report(s);
      && r.winning + r.losing + r.breakeven == r.tradesTaken == |s.tradeHistory|
      && r.oneToOneTrades + r.oneToThreeTrades == r.tradesTaken
      && r.oneToOnePnl + r.oneToThreePnl == SumPnl(s.tradeHistory)
      && (r.winRate.Some? <==> r.tradesTaken > 0)
      && (r.winRate.Some? ==> 0.0 <= r.winRate.value <= 100.0)
      && (r.message.Some? <==> r.tradesTaken == 0)
      && (r.message == Some(NoSignals) <==> r.tradesTaken == 0 && s.signalsDetected == 0)
  {
    OutcomesPartition(s.tradeHistory);
    VariantsPartition(s.tradeHistory);
    if s.tradeHistory != [] {
      PercentageBounds(CountOutcome(s.tradeHistory, Win), |s.tradeHistory|);
    }
  }

  lemma PercentageBounds(part: nat, whole: nat)
    requires part <= whole && whole > 0
    ensures 0.0 <= part as real / whole as real * 100.0 <= 100.0
  {
    assert part as real / whole as real <= 1.0;
  }

  // ---------------------------------------------------------------- the invariant

  /** At most one pair of OPEN trades per symbol. */
  ghost predicate PairBound(trades: seq<Trade>)
  {
    forall symbol :: OpenCount(trades, symbol) <= 2
  }

  /** An OPEN trade has its stop below its entry and its target above. */
  predicate OpenTradesSane(trades: seq<Trade>)
  {
    forall i :: 0 <= i < |trades| && trades[i].status == Open ==> trades[i].sl < trades[i].entryPrice < trades[i].target
  }

  predicate AllClosed(h: seq<Trade>)
  {
    forall i :: 0 <= i < |h| ==> h[i].status == Closed
  }

  ghost predicate Inv(s: Snapshot)
  {
    && PairBound(s.activeTrades)
    && OpenTradesSane(s.activeTrades)
    && AllClosed(s.tradeHistory)
    && s.dailyPnl == SumPnl(s.tradeHistory)
    && (forall symbol :: symbol in s.candles ==> |s.candles[symbol]| <= HISTORY_LIMIT)
    && (forall symbol :: symbol in s.pendingSignals ==> SignalMatchesCandle(s.pendingSignals[symbol]))
  }

  lemma InvInitial()
    ensures Inv(Initial()) && Initial().runningCapital == CAPITAL
  {
  }

  lemma InvPlaceOrder(s: Snapshot, symbol: string, candle: Bar, t: DateTime, entry: Option<real>, reason: Reason)
    requires Inv(s)
    requires !OrderRefused(s.activeTrades, symbol, candle, entry) ==> EntryPrice(candle, entry) != 0.0
    ensures var r := PlaceOrder(s, symbol, candle, t, entry, reason);
      Inv(r) && r.runningCapital == s.runningCapital && r.dailyPnl == s.dailyPnl
  {
    if !OrderRefused(s.activeTrades, symbol, candle, entry) {
      var r := PlaceOrder(s, symbol, candle, t, entry, reason);
      var pair := r.activeTrades[|s.activeTrades|..];
      assert r.activeTrades == s.activeTrades + pair;
      OpenCountPositive(s.activeTrades, symbol);
      forall other
        ensures OpenCount(r.activeTrades, other) <= 2
      {
        OpenCountAppend(s.activeTrades, pair, other);
        assert |pair| == 2 && pair[0].symbol == pair[1].symbol == symbol;
        assert pair[0].status == pair[1].status == Open;
        assert pair[..1][..0] == [];
        assert pair[..|pair| - 1] == pair[..1];
        assert OpenCount(pair[..1], other) == if other == symbol then 1 else 0;
        assert OpenCount(pair, other) == if other == symbol then 2 else 0;
      }
    }
  }

  lemma InvSettle(s: Snapshot, symbol: string, ltp: real, t: DateTime)
    requires Inv(s)
    ensures var r := Settle(s, symbol, ltp, t);
      Inv(r) && r.runningCapital - r.dailyPnl == s.runningCapital - s.dailyPnl
  {
    var exits := Exits(s.activeTrades, symbol, ltp, t);
    forall other
      ensures OpenCount(TickTrades(s.activeTrades, symbol, ltp, t), other) <= 2
    {
      TickTradesOpenCount(s.activeTrades, symbol, ltp, t, other);
    }
    ExitsAreClosed(s.activeTrades, symbol, ltp, t);
    SumPnlAppend(s.tradeHistory, exits);
  }

  lemma InvResolvePending(s: Snapshot, symbol: string, ltp: real, t: DateTime)
    requires Inv(s) && ltp != 0.0
    ensures var r := ResolvePending(s, symbol, ltp, t);
      Inv(r) && r.runningCapital == s.runningCapital && r.dailyPnl == s.dailyPnl
  {
    if symbol in s.pendingSignals {
      var signal := s.pendingSignals[symbol];
      if !(ltp < signal.low) && ltp > signal.high {
        InvPlaceOrder(s, symbol, signal.candle, t, Some(ltp), signal.reason);
      }
    }
  }

  /** A tick keeps the invariant, and capital and the day's pnl move together. */
  lemma InvAfterTick(s: Snapshot, symbol: string, ltp: real, t: DateTime)
    requires Inv(s) && ltp != 0.0
    ensures var r := AfterTick(s, symbol, ltp, t);
      Inv(r) && r.runningCapital - r.dailyPnl == s.runningCapital - s.dailyPnl
  {
    InvSettle(s, symbol, ltp, t);
    InvResolvePending(Settle(s, symbol, ltp, t), symbol, ltp, t);
  }

  /** A completed candle keeps the invariant and touches neither trades nor money. */
  lemma InvAfterCandle(s: Snapshot, symbol: string, candle: Bar)
    requires Inv(s)
    ensures var r := AfterCandle(s, symbol, candle);
      && Inv(r) && r.activeTrades == s.activeTrades && r.tradeHistory == s.tradeHistory
      && r.runningCapital == s.runningCapital && r.dailyPnl == s.dailyPnl
      && r.candles[symbol] == PushBounded(History(s.candles, symbol), candle)
  {
    var stored := s.(candles := s.candles[symbol := PushBounded(History(s.candles, symbol), candle)]);
    PushBoundedKeepsNewest(History(s.candles, symbol), candle);
    SignalDetection(stored, candle.time);
  }

  lemma InvRotate(s: Snapshot, now: real, query: Option<AtmQuote>)
    requires Inv(s)
    ensures Inv(Rotate(s, now, query).0)
  {
  }

  /** After the reset the invariant holds with an empty day, whatever state the day ended in. */
  lemma InvResetDay(s: Snapshot)
    ensures var r := ResetDay(s);
      && Inv(r) && r.runningCapital == s.runningCapital && r.dailyPnl == 0.0
      && r.tradeHistory == [] && r.activeTrades == [] && r.pendingSignals == map[] && r.candles == map[]
      && r.signalsDetected == 0
      && r.ceSymbol == s.ceSymbol && r.peSymbol == s.peSymbol
  {
  }

  // ---------------------------------------------------------------- a day as a stream of events

  datatype Event =
    | CandleClosed(symbol: string, candle: Bar)
    | Tick(symbol: string, ltp: real, time: DateTime)
    | RotationCheck(now: real, query: Option<AtmQuote>)

  predicate Admissible(e: Event)
  {
    e.Tick? ==> e.ltp != 0.0
  }

  function Step(s: Snapshot, e: Event): Snapshot
    requires Admissible(e)
  {
    match e
    case CandleClosed(symbol, candle) => AfterCandle(s, symbol, candle)
    case Tick(symbol, ltp, t) => AfterTick(s, symbol, ltp, t)
    case RotationCheck(now, query) => Rotate(s, now, query).0
  }

  function Run(s: Snapshot, es: seq<Event>): Snapshot
    requires forall i :: 0 <= i < |es| ==> Admissible(es[i])
  {
    if es == [] then s else Step(Run(s, es[..|es| - 1]), es[|es| - 1])
  }

  /**
   * Any stream of events keeps the invariant; closed trades are only ever
   * appended to the history; and capital minus the day's pnl never moves.
   */
  lemma {:induction false} RunKeepsInv(s: Snapshot, es: seq<Event>)
    requires forall i :: 0 <= i < |es| ==> Admissible(es[i])
    requires Inv(s)
    ensures var r := Run(s, es);
      && Inv(r)
      && |s.tradeHistory| <= |r.tradeHistory| && r.tradeHistory[..|s.tradeHistory|] == s.tradeHistory
      && r.runningCapital - r.dailyPnl == s.runningCapital - s.dailyPnl
  {
    if es != [] {
      var init := es[..|es| - 1];
      RunKeepsInv(s, init);
      var mid := Run(s, init);
      match es[|es| - 1]
      case CandleClosed(symbol, candle) =>
        InvAfterCandle(mid, symbol, candle);
      case Tick(symbol, ltp, t) =>
        InvAfterTick(mid, symbol, ltp, t);
        TickOrder(mid, symbol, ltp, t);
        assert Run(s, es).tradeHistory[..|mid.tradeHistory|] == mid.tradeHistory;
      case RotationCheck(now, query) =>
        InvRotate(mid, now, query);
    }
  }

  /**
   * The day's ledger: from the reset on, the running capital is the
   * capital it started the day with plus the pnl of every trade closed
   * since, and the reported daily pnl is that same sum.
   */
  lemma DayLedger(s: Snapshot, es: seq<Event>)
    requires forall i :: 0 <= i < |es| ==> Admissible(es[i])
    ensures var r := Run(ResetDay(s), es);
      && Inv(r)
      && r.runningCapital == s.runningCapital + SumPnl(r.tradeHistory)
      && r.dailyPnl == SumPnl(r.tradeHistory)
      && Report(r).oneToOnePnl + Report(r).oneToThreePnl == r.dailyPnl
  {
    InvResetDay(s);
    RunKeepsInv(ResetDay(s), es);
    ReportPartition(Run(ResetDay(s), es));
  }
}
