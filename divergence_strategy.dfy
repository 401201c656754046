/**
 * The paper-trading strategy object. Its fields are the strategy's state;
 * every method changes them in place and is proved to perform exactly the
 * transition of the same name in StrategyModel, where the properties of
 * those transitions are proved.
 */
module DivergenceStrategy {
  import opened Wrappers
  import opened Clock
  import opened StrategyModel

  class DivergenceStrategy {
    var currentCeSymbol: Option<string>
    var currentPeSymbol: Option<string>
    var currentAtmStrike: Option<real>
    var activeTrades: seq<Trade>
    var pendingSignals: map<string, Signal>
    var tradeHistory: seq<Trade>
    var dailySignalsDetected: nat
    var runningCapital: real
    var dailyPnl: real
    var candles: map<string, seq<Bar>>
    var lastRotationCheck: Option<real>

    /** The fields as one value. */
    function State(): Snapshot
      reads this
    {
      Snapshot(currentCeSymbol, currentPeSymbol, currentAtmStrike, activeTrades, pendingSignals, tradeHistory,
               dailySignalsDetected, runningCapital, dailyPnl, candles, lastRotationCheck)
    }

    constructor()
      ensures State() == Initial()
    {
      currentCeSymbol := None;
      currentPeSymbol := None;
      currentAtmStrike := None;
      activeTrades := [];
      pendingSignals := map[];
      tradeHistory := [];
      dailySignalsDetected := 0;
      runningCapital := CAPITAL;
      dailyPnl := 0.0;
      candles := map[];
      lastRotationCheck := None;
    }

    /** Stores a completed candle (keeping the last ten) and looks for signals at its time. */
    method ProcessCandle(symbol: string, candle: Bar)
      modifies this
      ensures State() == AfterCandle(old(State()), symbol, candle)
    {
      if symbol !in candles {
        candles := candles[symbol := []];
      }
      var h := candles[symbol] + [candle];
      if |h| > HISTORY_LIMIT {
        h := h[1..];
      }
      candles := candles[symbol := h];
      assert State() == old(State()).(candles := old(candles)[symbol := PushBounded(History(old(candles), symbol), candle)]);
      CheckSignals(candle.time);
    }

    /** Writes the put signal, then the call signal, for the divergence found at `t`. */
    method CheckSignals(t: DateTime)
      modifies this
      ensures State() == CheckSignalsAt(old(State()), t)
    {
      var spot := SpotCandle(State(), t);
      if spot.None? {
        return;
      }
      if Truthy(currentPeSymbol) {
        var pe := FindCandle(History(candles, currentPeSymbol.value), t);
        if pe.Some? && Green(spot.value) && Green(pe.value) {
          dailySignalsDetected := dailySignalsDetected + 1;
          pendingSignals := pendingSignals[currentPeSymbol.value := SignalFrom(pe.value, t, PeDivergence(spot.value, pe.value))];
        }
      }
      if Truthy(currentCeSymbol) {
        var ce := FindCandle(History(candles, currentCeSymbol.value), t);
        if ce.Some? && Red(spot.value) && Green(ce.value) {
          dailySignalsDetected := dailySignalsDetected + 1;
          pendingSignals := pendingSignals[currentCeSymbol.value := SignalFrom(ce.value, t, CeDivergence(spot.value, ce.value))];
        }
      }
    }

    /** Opens the 1:1 and 1:3 pair unless the symbol has an OPEN trade or the risk is not positive. */
    method PlaceDummyOrder(symbol: string, signalCandle: Bar, t: DateTime, entry: Option<real>, reason: Reason)
      requires !OrderRefused(activeTrades, symbol, signalCandle, entry) ==> EntryPrice(signalCandle, entry) != 0.0
      modifies this
      ensures State() == PlaceOrder(old(State()), symbol, signalCandle, t, entry, reason)
    {
      if HasOpenTrade(activeTrades, symbol) {
        return;
      }
      var entryPrice := if entry.None? then signalCandle.high else entry.value;
      var slPrice := signalCandle.low - SL_BUFFER;
      var risk := entryPrice - slPrice;
      if risk <= 0.0 {
        return;
      }
      var quantity := Trunc(CAPITAL / entryPrice);
      var trade11 := NewTrade(symbol, t, entryPrice, slPrice, entryPrice + risk * 1.0, quantity, OneToOne, reason);
      var trade13 := NewTrade(symbol, t, entryPrice, slPrice, entryPrice + risk * 3.0, quantity, OneToThree, reason);
      activeTrades := activeTrades + [trade11];
      activeTrades := activeTrades + [trade13];
    }

    /** Closes the active trade at index `i`, books its pnl and appends a copy to the history. */
    method CloseTrade(i: nat, exitPrice: real, t: DateTime, exitReason: ExitReason)
      requires i < |activeTrades|
      modifies this
      ensures var closed := StrategyModel.CloseTrade(old(activeTrades[i]), exitPrice, t, exitReason);
        && activeTrades == old(activeTrades)[i := closed]
        && tradeHistory == old(tradeHistory) + [closed]
        && dailyPnl == old(dailyPnl) + closed.pnl
        && runningCapital == old(runningCapital) + closed.pnl
        && State() == old(State()).(activeTrades := activeTrades, tradeHistory := tradeHistory,
                                    dailyPnl := dailyPnl, runningCapital := runningCapital)
    {
      var trade := activeTrades[i].(status := Closed, exitPrice := Some(exitPrice), exitTime := Some(t),
                                    exitReason := Some(exitReason));
      trade := trade.(pnl := (exitPrice - trade.entryPrice) * trade.quantity as real);
      assert trade == StrategyModel.CloseTrade(activeTrades[i], exitPrice, t, exitReason);
      dailyPnl := dailyPnl + trade.pnl;
      runningCapital := runningCapital + trade.pnl;
      activeTrades := activeTrades[i := trade];
      tradeHistory := tradeHistory + [trade];
    }

    /**
     * A tick: every OPEN trade on the symbol is checked for its stop, then
     * its target; then the symbol's pending signal is invalidated or
     * triggered.
     */
    method UpdateLtp(symbol: string, ltp: real, t: DateTime)
      requires ltp != 0.0
      modifies this
      ensures State() == AfterTick(old(State()), symbol, ltp, t)
    {
      SettleTrades(symbol, ltp, t);
      ResolveSignal(symbol, ltp, t);
    }

    /** The first stage of a tick: walks a copy of the active trades, closing on stop or target. */
    method SettleTrades(symbol: string, ltp: real, t: DateTime)
      modifies this
      ensures State() == Settle(old(State()), symbol, ltp, t)
    {
      ghost var s0 := State();
      var trades := activeTrades;
      WalkDone(s0, symbol, ltp, t);
      var i := 0;
      while i < |trades|
        invariant 0 <= i <= |trades|
        invariant State() == Walked(s0, trades, i, symbol, ltp, t)
      {
        WalkStep(s0, trades, i, symbol, ltp, t);
        CheckTrade(i, symbol, ltp, t);
        i := i + 1;
      }
    }

    /** One trade checked in place: closed on stop or target, history and money updated by it alone. */
    method CheckTrade(i: nat, symbol: string, ltp: real, t: DateTime)
      requires i < |activeTrades|
      modifies this
      ensures State() == CheckOne(old(State()), i, symbol, ltp, t)
    {
      var trade := activeTrades[i];
      if trade.symbol == symbol && trade.status == Open {
        if ltp <= trade.sl {
          CloseTrade(i, ltp, t, StopLoss);
        } else if ltp >= trade.target {
          CloseTrade(i, ltp, t, Target);
        }
      }
    }

    /** The second stage of a tick: below the low the signal is dropped, above the high it triggers an order. */
    method ResolveSignal(symbol: string, ltp: real, t: DateTime)
      requires ltp != 0.0
      modifies this
      ensures State() == ResolvePending(old(State()), symbol, ltp, t)
    {
      if symbol in pendingSignals {
        var signal := pendingSignals[symbol];
        if ltp < signal.low {
          pendingSignals := pendingSignals - {symbol};
          return;
        }
        if ltp > signal.high {
          PlaceDummyOrder(symbol, signal.candle, t, Some(ltp), signal.reason);
          pendingSignals := pendingSignals - {symbol};
          return;
        }
      }
    }

    /** The throttled at-the-money check; `query` is what the option-chain query returned. */
    method CheckStrikeRotation(now: real, query: Option<AtmQuote>) returns (pair: Option<(string, string)>)
      modifies this
      ensures (State(), pair) == Rotate(old(State()), now, query)
    {
      if lastRotationCheck.Some? && now - lastRotationCheck.value < ROTATION_COOLDOWN {
        return None;
      }
      lastRotationCheck := Some(now);
      if query.None? {
        return None;
      }
      var q := query.value;
      if Some(q.ce) != currentCeSymbol || Some(q.pe) != currentPeSymbol {
        currentAtmStrike := Some(q.strike);
        currentCeSymbol := Some(q.ce);
        currentPeSymbol := Some(q.pe);
        return Some((q.ce, q.pe));
      }
      return None;
    }

    /** The end-of-day counts; outcomes and journals partition the day's trades. */
    method GenerateDailyReport() returns (report: DailyReport)
      ensures report == Report(State())
      ensures report.winning + report.losing + report.breakeven == report.tradesTaken == |tradeHistory|
      ensures report.oneToOneTrades + report.oneToThreeTrades == report.tradesTaken
      ensures report.winRate.Some? <==> tradeHistory != []
    {
      report := Report(State());
      ReportPartition(State());
    }

    /**
     * Clears the day-scoped state and keeps capital and the tracked symbols.
     * Stale OPEN trades are dropped with the list, so their carry-over
     * close changes neither pnl nor capital.
     */
    method ResetForNewDay()
      modifies this
      ensures State() == ResetDay(old(State()))
    {
      tradeHistory := [];
      dailySignalsDetected := 0;
      dailyPnl := 0.0;
      pendingSignals := map[];
      candles := map[];
      activeTrades := [];
    }

    /** Restores the running capital from what the saved state held. */
    method LoadCapitalState(file: CapitalFile)
      modifies this
      ensures State() == LoadCapital(old(State()), file)
    {
      match file
      case NoFile =>
      case Unreadable =>
        runningCapital := CAPITAL;
      case Stored(v) =>
        runningCapital := if v.Some? then v.value else CAPITAL;
    }
  }
}
