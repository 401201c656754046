/**
 * The one-day backtest replay: 1-minute option bars are resampled to
 * 5-minute candles, and the merged 1-minute rows are replayed through the
 * strategy, handing it each completed 5-minute candle when the clock moves
 * into a later bucket and turning each 1-minute bar into a fixed sequence
 * of ticks.
 */
module Backtest {
  import opened Wrappers
  import opened Clock
  import opened StrategyModel
  import opened DivergenceStrategy

  /** Amount added to the signal's high for the injected breakout tick. */
  const BREAKOUT_STEP: real := 0.05

  datatype Ohlc = Ohlc(open: real, high: real, low: real, close: real)

  /** One 1-minute bar of one leg. */
  datatype Minute = Minute(time: DateTime, bar: Ohlc)

  /** One row of the outer join of the call and put minute bars; a side is absent where it had no bar. */
  datatype MinuteRow = MinuteRow(time: DateTime, ce: Option<Ohlc>, pe: Option<Ohlc>)

  /** The 5-minute candles the replay hands over: spot as fetched, call and put resampled. */
  datatype Tables = Tables(spot: map<DateTime, Ohlc>, ce: map<DateTime, Ohlc>, pe: map<DateTime, Ohlc>)

  predicate Positive(b: Ohlc)
  {
    b.open > 0.0 && b.high > 0.0 && b.low > 0.0 && b.close > 0.0
  }

  predicate SoundBar(b: Ohlc)
  {
    b.low <= b.open <= b.high && b.low <= b.close <= b.high
  }

  // ---------------------------------------------------------------- resampling

  /** A later minute folded into its bucket's candle: open kept, extremes widened, close replaced. */
  function Merge(acc: Ohlc, b: Ohlc): Ohlc
  {
    Ohlc(acc.open, MaxR(acc.high, b.high), MinR(acc.low, b.low), b.close)
  }

  /** The aggregate of a non-empty run of bars, in order. */
  function Agg(bars: seq<Ohlc>): Ohlc
    requires |bars| > 0
  {
    if |bars| == 1 then bars[0] else Merge(Agg(bars[..|bars| - 1]), bars[|bars| - 1])
  }

  /** The bars of the minutes falling in bucket `b`, in order. */
  function InBucket(minutes: seq<Minute>, b: DateTime): seq<Ohlc>
  {
    if minutes == [] then []
    else
      var last := minutes[|minutes| - 1];
      InBucket(minutes[..|minutes| - 1], b) + (if Bucket(last.time) == b then [last.bar] else [])
  }

  /** 5-minute resampling: first open, highest high, lowest low, last close; buckets without a minute do not appear. */
  function Resample(minutes: seq<Minute>): map<DateTime, Ohlc>
  {
    if minutes == [] then map[]
    else
      var m := Resample(minutes[..|minutes| - 1]);
      var last := minutes[|minutes| - 1];
      var b := Bucket(last.time);
      m[b := if b in m then Merge(m[b], last.bar) else last.bar]
  }

  /** The aggregate opens with the first bar, closes with the last, and spans exactly the bars' extremes. */
  lemma {:induction false} AggIsOhlc(bars: seq<Ohlc>)
    requires |bars| > 0
    ensures var a := Agg(bars);
      && a.open == bars[0].open && a.close == bars[|bars| - 1].close
      && (forall i :: 0 <= i < |bars| ==> bars[i].low >= a.low && bars[i].high <= a.high)
      && (exists i :: 0 <= i < |bars| && bars[i].high == a.high)
      && (exists i :: 0 <= i < |bars| && bars[i].low == a.low)
  {
    if |bars| > 1 {
      var init := bars[..|bars| - 1];
      AggIsOhlc(init);
      var a0 := Agg(init);
      var hi :| 0 <= hi < |init| && init[hi].high == a0.high;
      var lo :| 0 <= lo < |init| && init[lo].low == a0.low;
      var a := Agg(bars);
      assert forall i :: 0 <= i < |init| ==> bars[i] == init[i];
      if a.high != bars[|bars| - 1].high {
        assert bars[hi].high == a.high;
      }
      if a.low != bars[|bars| - 1].low {
        assert bars[lo].low == a.low;
      }
    }
  }

  /** Resampling treats every bucket on its own: a bucket is present exactly when a minute falls in it, and holds the aggregate of its minutes. */
  lemma {:induction false} ResampleIsPerBucket(minutes: seq<Minute>, b: DateTime)
    ensures b in Resample(minutes) <==> InBucket(minutes, b) != []
    ensures b in Resample(minutes) ==> Resample(minutes)[b] == Agg(InBucket(minutes, b))
  {
    if minutes != [] {
      var init := minutes[..|minutes| - 1];
      ResampleIsPerBucket(init, b);
      var last := minutes[|minutes| - 1];
      if Bucket(last.time) != b {
        assert InBucket(minutes, b) == InBucket(init, b) + [] == InBucket(init, b);
      } else if InBucket(init, b) != [] {
        var xs := InBucket(init, b) + [last.bar];
        assert xs[..|xs| - 1] == InBucket(init, b);
      } else {
        assert InBucket(minutes, b) == [last.bar];
      }
    }
  }

  // ---------------------------------------------------------------- the replay

  function BarAt(t: DateTime, o: Ohlc): Bar
  {
    Bar(t, o.open, o.high, o.low, o.close)
  }

  /** The completed bucket `prev` handed over: spot, then call, then put, each only where the table has it. */
  function HandOff(s: Snapshot, prev: DateTime, tables: Tables, ce: string, pe: string): Snapshot
  {
    var s1 := if prev in tables.spot then AfterCandle(s, SPOT_SYMBOL, BarAt(prev, tables.spot[prev])) else s;
    var s2 := if prev in tables.ce then AfterCandle(s1, ce, BarAt(prev, tables.ce[prev])) else s1;
    if prev in tables.pe then AfterCandle(s2, pe, BarAt(prev, tables.pe[prev])) else s2
  }

  /** Ticks fed one after another at time `t`. */
  function Ticks(s: Snapshot, symbol: string, prices: seq<real>, t: DateTime): Snapshot
    requires forall i :: 0 <= i < |prices| ==> prices[i] != 0.0
  {
    if prices == [] then s else AfterTick(Ticks(s, symbol, prices[..|prices| - 1], t), symbol, prices[|prices| - 1], t)
  }

  /** The breakout tick, present when a signal is still pending and the bar crosses its high from at or below it. */
  function Injection(s: Snapshot, symbol: string, bar: Ohlc): seq<real>
  {
    if symbol in s.pendingSignals && bar.low <= s.pendingSignals[symbol].high < bar.high
    then [s.pendingSignals[symbol].high + BREAKOUT_STEP]
    else []
  }

  /** One leg's bar as ticks: open, low, the injected breakout if any, high, close. */
  function FeedLeg(s: Snapshot, symbol: string, bar: Ohlc, t: DateTime): Snapshot
    requires Positive(bar)
  {
    var s1 := Ticks(s, symbol, [bar.open, bar.low], t);
    var inj := Injection(s1, symbol, bar);
    Ticks(s1, symbol, inj + [bar.high, bar.close], t)
  }

  datatype Replay = Replay(s: Snapshot, bucket: Option<DateTime>)

  predicate RowPositive(row: MinuteRow)
  {
    (row.ce.Some? ==> Positive(row.ce.value)) && (row.pe.Some? ==> Positive(row.pe.value))
  }

  /** One row: hand over the previous bucket if this row lies in a later one, then feed the call, then the put. */
  function StepRow(r: Replay, row: MinuteRow, tables: Tables, ce: string, pe: string): Replay
    requires RowPositive(row)
  {
    var b := Bucket(row.time);
    var s1 := if r.bucket.Some? && Before(r.bucket.value, b) then HandOff(r.s, r.bucket.value, tables, ce, pe) else r.s;
    var s2 := if row.ce.Some? then FeedLeg(s1, ce, row.ce.value, row.time) else s1;
    var s3 := if row.pe.Some? then FeedLeg(s2, pe, row.pe.value, row.time) else s2;
    Replay(s3, Some(b))
  }

  function ReplayRows(r: Replay, rows: seq<MinuteRow>, tables: Tables, ce: string, pe: string): Replay
    requires forall i :: 0 <= i < |rows| ==> RowPositive(rows[i])
  {
    if rows == [] then r else StepRow(ReplayRows(r, rows[..|rows| - 1], tables, ce, pe), rows[|rows| - 1], tables, ce, pe)
  }

  /** The strategy as the backtest sets it up: fresh, with the two option symbols chosen by hand. */
  function Start(ce: string, pe: string): Snapshot
  {
    Initial().(ceSymbol := Some(ce), peSymbol := Some(pe))
  }

  // ---------------------------------------------------------------- what the replay promises

  lemma {:induction false} TicksAppend(s: Snapshot, symbol: string, a: seq<real>, b: seq<real>, t: DateTime)
    requires forall i :: 0 <= i < |a| ==> a[i] != 0.0
    requires forall i :: 0 <= i < |b| ==> b[i] != 0.0
    ensures forall i :: 0 <= i < |a + b| ==> (a + b)[i] != 0.0
    ensures Ticks(s, symbol, a + b, t) == Ticks(Ticks(s, symbol, a, t), symbol, b, t)
  {
    if b == [] {
      assert a + b == a;
    } else {
      assert (a + b)[..|a + b| - 1] == a + b[..|b| - 1];
      TicksAppend(s, symbol, a, b[..|b| - 1], t);
    }
  }

  /** Ticks change neither the stored candles nor the detection count. */
  lemma {:induction false} TicksKeepCandles(s: Snapshot, symbol: string, prices: seq<real>, t: DateTime)
    requires forall i :: 0 <= i < |prices| ==> prices[i] != 0.0
    ensures Ticks(s, symbol, prices, t).candles == s.candles
    ensures Ticks(s, symbol, prices, t).signalsDetected == s.signalsDetected
  {
    if prices != [] {
      TicksKeepCandles(s, symbol, prices[..|prices| - 1], t);
    }
  }

  /**
   * A bar is fed as exactly the ticks open, low, then the injected breakout
   * (present only when the signal still pending after open and low has its
   * high in [low, high) of the bar, and then one step above that high),
   * then high, then close.
   */
  lemma FeedLegOrder(s: Snapshot, symbol: string, bar: Ohlc, t: DateTime)
    requires Positive(bar)
    ensures var afterLow := Ticks(s, symbol, [bar.open, bar.low], t);
      var inj := Injection(afterLow, symbol, bar);
      && (inj != [] <==> symbol in afterLow.pendingSignals
                         && bar.low <= afterLow.pendingSignals[symbol].high < bar.high)
      && (inj != [] ==> inj == [afterLow.pendingSignals[symbol].high + BREAKOUT_STEP])
      && (forall i :: 0 <= i < |inj| ==> inj[i] > 0.0)
      && FeedLeg(s, symbol, bar, t) == Ticks(s, symbol, [bar.open, bar.low] + inj + [bar.high, bar.close], t)
  {
    var afterLow := Ticks(s, symbol, [bar.open, bar.low], t);
    InjectionShape(afterLow, symbol, bar);
    FeedLegIsTicks(s, symbol, bar, t);
  }

  lemma FeedLegIsTicks(s: Snapshot, symbol: string, bar: Ohlc, t: DateTime)
    requires Positive(bar)
    requires forall i :: 0 <= i < |Injection(Ticks(s, symbol, [bar.open, bar.low], t), symbol, bar)| ==>
      Injection(Ticks(s, symbol, [bar.open, bar.low], t), symbol, bar)[i] > 0.0
    ensures var inj := Injection(Ticks(s, symbol, [bar.open, bar.low], t), symbol, bar);
      FeedLeg(s, symbol, bar, t) == Ticks(s, symbol, [bar.open, bar.low] + inj + [bar.high, bar.close], t)
  {
    var afterLow := Ticks(s, symbol, [bar.open, bar.low], t);
    var inj := Injection(afterLow, symbol, bar);
    TicksAppend(s, symbol, [bar.open, bar.low], inj + [bar.high, bar.close], t);
    assert [bar.open, bar.low] + (inj + [bar.high, bar.close]) == [bar.open, bar.low] + inj + [bar.high, bar.close];
  }

  /** The breakout tick exists exactly when the pending signal's high lies in [low, high) of a positive bar, and is then positive. */
  lemma InjectionShape(s: Snapshot, symbol: string, bar: Ohlc)
    requires Positive(bar)
    ensures var inj := Injection(s, symbol, bar);
      && (inj != [] <==> symbol in s.pendingSignals && bar.low <= s.pendingSignals[symbol].high < bar.high)
      && (inj != [] ==> inj == [s.pendingSignals[symbol].high + BREAKOUT_STEP])
      && (forall i :: 0 <= i < |inj| ==> inj[i] > 0.0)
  {
  }

  /**
   * The injected tick lies above the signal's high, and not below its low
   * when that low is at most the high. The signal is consumed either way;
   * when the tick is not below the low and the symbol has no OPEN trade
   * left, a pair is opened at it.
   */
  lemma InjectedTickTriggers(s: Snapshot, symbol: string, bar: Ohlc, t: DateTime)
    requires Positive(bar) && Injection(s, symbol, bar) != []
    ensures var signal := s.pendingSignals[symbol];
      var p := Injection(s, symbol, bar)[0];
      && p != 0.0 && signal.high < p
      && (signal.low <= signal.high ==> signal.low <= p)
      && var r := AfterTick(s, symbol, p, t);
         && r.pendingSignals == s.pendingSignals - {symbol}
         && (signal.low <= p && SignalMatchesCandle(signal)
             && !HasOpenTrade(Settle(s, symbol, p, t).activeTrades, symbol) ==>
               |r.activeTrades| == |s.activeTrades| + 2 && r.activeTrades[|s.activeTrades|].entryPrice == p)
  {
    var p := Injection(s, symbol, bar)[0];
    PendingResolution(Settle(s, symbol, p, t), symbol, p, t);
  }

  /** Feeding a bar stores no candle and detects no signal: only the ticks' trades and signals change. */
  lemma FeedLegKeepsCandles(s: Snapshot, symbol: string, bar: Ohlc, t: DateTime)
    requires Positive(bar)
    ensures FeedLeg(s, symbol, bar, t).candles == s.candles
    ensures FeedLeg(s, symbol, bar, t).signalsDetected == s.signalsDetected
  {
    var afterLow := Ticks(s, symbol, [bar.open, bar.low], t);
    TicksKeepCandles(s, symbol, [bar.open, bar.low], t);
    TicksKeepCandles(afterLow, symbol, Injection(afterLow, symbol, bar) + [bar.high, bar.close], t);
  }

  /** The first row only feeds ticks: nothing is handed over before a bucket is known. */
  lemma FirstRowNeverHandsOff(s: Snapshot, row: MinuteRow, tables: Tables, ce: string, pe: string)
    requires RowPositive(row)
    ensures var r := StepRow(Replay(s, None), row, tables, ce, pe);
      r.s.candles == s.candles && r.s.signalsDetected == s.signalsDetected && r.bucket == Some(Bucket(row.time))
  {
    NoHandOffUnlessLater(Replay(s, None), row, tables, ce, pe);
  }

  /**
   * A row in the current bucket or an earlier one only feeds ticks: the
   * hand-over needs a strictly later bucket, so no candle is stored and no
   * signal counted, and the row's own bucket becomes the current one.
   */
  lemma NoHandOffUnlessLater(r: Replay, row: MinuteRow, tables: Tables, ce: string, pe: string)
    requires RowPositive(row)
    requires r.bucket.None? || !Before(r.bucket.value, Bucket(row.time))
    ensures var r' := StepRow(r, row, tables, ce, pe);
      r'.s.candles == r.s.candles && r'.s.signalsDetected == r.s.signalsDetected && r'.bucket == Some(Bucket(row.time))
  {
    var s2 := if row.ce.Some? then FeedLeg(r.s, ce, row.ce.value, row.time) else r.s;
    if row.ce.Some? {
      FeedLegKeepsCandles(r.s, ce, row.ce.value, row.time);
    }
    if row.pe.Some? {
      FeedLegKeepsCandles(s2, pe, row.pe.value, row.time);
    }
  }

  /** Later readings never fall in an earlier bucket. */
  lemma BucketMonotone(a: DateTime, b: DateTime)
    requires a.Valid() && b.Valid() && NotAfter(a, b)
    ensures NotAfter(Bucket(a), Bucket(b))
  {
    AlignedBelow(Bucket(a).Ordinal(), Bucket(b).Ordinal());
  }

  /** Two multiples of the bucket length less than one bucket apart upwards are in order. */
  lemma AlignedBelow(x: int, y: int)
    requires x % MICROS_PER_BUCKET == 0 && y % MICROS_PER_BUCKET == 0 && x < y + MICROS_PER_BUCKET
    ensures x <= y
  {
    var i, j := x / MICROS_PER_BUCKET, y / MICROS_PER_BUCKET;
    assert x == MICROS_PER_BUCKET * i && y == MICROS_PER_BUCKET * j;
    assert i < j + 1;
  }

  /** Every candle stored is one the start already had for that symbol, or is stamped before `b`. */
  ghost predicate StoredBefore(s0: Snapshot, s: Snapshot, b: DateTime)
  {
    forall symbol, c :: symbol in s.candles && c in s.candles[symbol] ==> c in History(s0.candles, symbol) || Before(c.time, b)
  }

  lemma AfterCandleStores(s: Snapshot, symbol: string, candle: Bar)
    ensures var r := AfterCandle(s, symbol, candle);
      forall sym, c :: sym in r.candles && c in r.candles[sym] ==> c in History(s.candles, sym) || c == candle
  {
    SignalDetection(s.(candles := s.candles[symbol := PushBounded(History(s.candles, symbol), candle)]), candle.time);
  }

  lemma HandOffStores(s0: Snapshot, s: Snapshot, prev: DateTime, b: DateTime, tables: Tables, ce: string, pe: string)
    requires StoredBefore(s0, s, prev) && Before(prev, b)
    ensures StoredBefore(s0, HandOff(s, prev, tables, ce, pe), b)
  {
    var s1 := if prev in tables.spot then AfterCandle(s, SPOT_SYMBOL, BarAt(prev, tables.spot[prev])) else s;
    var s2 := if prev in tables.ce then AfterCandle(s1, ce, BarAt(prev, tables.ce[prev])) else s1;
    assert StoredBefore(s0, s, b);
    if prev in tables.spot { CandleStoredBefore(s0, s, SPOT_SYMBOL, BarAt(prev, tables.spot[prev]), b); }
    if prev in tables.ce { CandleStoredBefore(s0, s1, ce, BarAt(prev, tables.ce[prev]), b); }
    if prev in tables.pe { CandleStoredBefore(s0, s2, pe, BarAt(prev, tables.pe[prev]), b); }
  }

  /** A candle stamped before `b` keeps every stored candle before `b` or from the start. */
  lemma CandleStoredBefore(s0: Snapshot, s: Snapshot, symbol: string, candle: Bar, b: DateTime)
    requires StoredBefore(s0, s, b) && Before(candle.time, b)
    ensures StoredBefore(s0, AfterCandle(s, symbol, candle), b)
  {
    AfterCandleStores(s, symbol, candle);
  }

  predicate RowsSorted(rows: seq<MinuteRow>)
  {
    forall i, j :: 0 <= i < j < |rows| ==> NotAfter(rows[i].time, rows[j].time)
  }

  /**
   * With rows in time order, the replay ends in the last row's bucket and
   * has stored no candle stamped at or after it: the day's last bucket is
   * never handed to the strategy, since the loop ends without a flush.
   */
  lemma {:induction false} LastBucketNeverHanded(s: Snapshot, rows: seq<MinuteRow>, tables: Tables, ce: string, pe: string)
    requires forall i :: 0 <= i < |rows| ==> RowPositive(rows[i]) && rows[i].time.Valid()
    requires RowsSorted(rows) && rows != []
    ensures var r := ReplayRows(Replay(s, None), rows, tables, ce, pe);
      && r.bucket == Some(Bucket(rows[|rows| - 1].time))
      && StoredBefore(s, r.s, r.bucket.value)
  {
    var init := rows[..|rows| - 1];
    var row := rows[|rows| - 1];
    var b := Bucket(row.time);
    if init == [] {
      FirstRowNeverHandsOff(s, row, tables, ce, pe);
    } else {
      LastBucketNeverHanded(s, init, tables, ce, pe);
      var r := ReplayRows(Replay(s, None), init, tables, ce, pe);
      var prev := r.bucket.value;
      BucketMonotone(init[|init| - 1].time, row.time);
      var s1 := if Before(prev, b) then HandOff(r.s, prev, tables, ce, pe) else r.s;
      if Before(prev, b) {
        HandOffStores(s, r.s, prev, b, tables, ce, pe);
      }
      assert StoredBefore(s, s1, b);
      var s2 := if row.ce.Some? then FeedLeg(s1, ce, row.ce.value, row.time) else s1;
      if row.ce.Some? { FeedLegKeepsCandles(s1, ce, row.ce.value, row.time); }
      if row.pe.Some? { FeedLegKeepsCandles(s2, pe, row.pe.value, row.time); }
    }
  }

  // ---------------------------------------------------------------- the driver

  /** The strategy's state after replaying the day. */
  function BacktestResult(spot: map<DateTime, Ohlc>, ceMinutes: seq<Minute>, peMinutes: seq<Minute>,
                          rows: seq<MinuteRow>, ce: string, pe: string): Snapshot
    requires forall i :: 0 <= i < |rows| ==> RowPositive(rows[i])
  {
    ReplayRows(Replay(Start(ce, pe), None), rows, Tables(spot, Resample(ceMinutes), Resample(peMinutes)), ce, pe).s
  }

  lemma TicksOne(s: Snapshot, symbol: string, p: real, t: DateTime)
    requires p != 0.0
    ensures Ticks(s, symbol, [p], t) == AfterTick(s, symbol, p, t)
  {
    assert [p][..0] == [];
  }

  lemma TicksTwo(s: Snapshot, symbol: string, p: real, q: real, t: DateTime)
    requires p != 0.0 && q != 0.0
    ensures Ticks(s, symbol, [p, q], t) == AfterTick(AfterTick(s, symbol, p, t), symbol, q, t)
  {
    assert [p, q][..1] == [p];
    TicksOne(s, symbol, p, t);
  }

  /** Feeds one leg's bar to the strategy as its ticks. */
  method FeedLegInto(strategy: DivergenceStrategy, symbol: string, bar: Ohlc, t: DateTime)
    requires Positive(bar)
    modifies strategy
    ensures strategy.State() == FeedLeg(old(strategy.State()), symbol, bar, t)
  {
    ghost var s0 := strategy.State();
    strategy.UpdateLtp(symbol, bar.open, t);
    strategy.UpdateLtp(symbol, bar.low, t);
    TicksTwo(s0, symbol, bar.open, bar.low, t);
    ghost var s1 := strategy.State();
    ghost var inj := Injection(s1, symbol, bar);
    InjectBreakout(strategy, symbol, bar, t);
    strategy.UpdateLtp(symbol, bar.high, t);
    strategy.UpdateLtp(symbol, bar.close, t);
    TicksTwo(Ticks(s1, symbol, inj, t), symbol, bar.high, bar.close, t);
    TicksAppend(s1, symbol, inj, [bar.high, bar.close], t);
  }

  /** The breakout tick, sent only when a signal is pending and the bar crosses its high from at or below it. */
  method InjectBreakout(strategy: DivergenceStrategy, symbol: string, bar: Ohlc, t: DateTime)
    requires Positive(bar)
    modifies strategy
    ensures var inj := Injection(old(strategy.State()), symbol, bar);
      && (forall i :: 0 <= i < |inj| ==> inj[i] != 0.0)
      && strategy.State() == Ticks(old(strategy.State()), symbol, inj, t)
  {
    ghost var s1 := strategy.State();
    if symbol in strategy.pendingSignals {
      var sigHigh := strategy.pendingSignals[symbol].high;
      if bar.low <= sigHigh < bar.high {
        strategy.UpdateLtp(symbol, sigHigh + BREAKOUT_STEP, t);
        TicksOne(s1, symbol, sigHigh + BREAKOUT_STEP, t);
      }
    }
  }

  /** Hands the completed bucket's candles to the strategy: spot, call, put. */
  method HandOffInto(strategy: DivergenceStrategy, prev: DateTime, tables: Tables, ce: string, pe: string)
    modifies strategy
    ensures strategy.State() == HandOff(old(strategy.State()), prev, tables, ce, pe)
  {
    if prev in tables.spot {
      strategy.ProcessCandle(SPOT_SYMBOL, BarAt(prev, tables.spot[prev]));
    }
    if prev in tables.ce {
      strategy.ProcessCandle(ce, BarAt(prev, tables.ce[prev]));
    }
    if prev in tables.pe {
      strategy.ProcessCandle(pe, BarAt(prev, tables.pe[prev]));
    }
  }

  /** One merged row: the bucket rollover hand-off, then the call's ticks, then the put's. */
  method ReplayRow(strategy: DivergenceStrategy, currentBucket: Option<DateTime>, row: MinuteRow, tables: Tables,
                   ce: string, pe: string) returns (bucket: Option<DateTime>)
    requires RowPositive(row)
    modifies strategy
    ensures Replay(strategy.State(), bucket) == StepRow(Replay(old(strategy.State()), currentBucket), row, tables, ce, pe)
  {
    var bucketTime := Bucket(row.time);
    if currentBucket.Some? && Before(currentBucket.value, bucketTime) {
      HandOffInto(strategy, currentBucket.value, tables, ce, pe);
    }
    bucket := Some(bucketTime);
    if row.ce.Some? {
      FeedLegInto(strategy, ce, row.ce.value, row.time);
    }
    if row.pe.Some? {
      FeedLegInto(strategy, pe, row.pe.value, row.time);
    }
  }

  /**
   * The backtest: nothing happens without spot candles or without either
   * leg's minute bars; otherwise a fresh strategy tracking the two given
   * options replays the merged rows in order.
   */
  method RunBacktest(spot: map<DateTime, Ohlc>, ceMinutes: seq<Minute>, peMinutes: seq<Minute>,
                     rows: seq<MinuteRow>, ce: string, pe: string) returns (result: Option<DivergenceStrategy>)
    requires forall i :: 0 <= i < |rows| ==> RowPositive(rows[i])
    ensures result.None? <==> spot == map[] || ceMinutes == [] || peMinutes == []
    ensures result.Some? ==> fresh(result.value)
    ensures result.Some? ==> result.value.State() == BacktestResult(spot, ceMinutes, peMinutes, rows, ce, pe)
  {
    if spot == map[] || ceMinutes == [] || peMinutes == [] {
      return None;
    }
    var strategy := new DivergenceStrategy();
    strategy.currentCeSymbol := Some(ce);
    strategy.currentPeSymbol := Some(pe);
    var tables := Tables(spot, Resample(ceMinutes), Resample(peMinutes));
    var currentBucket: Option<DateTime> := None;
    var i := 0;
    while i < |rows|
      invariant 0 <= i <= |rows|
      invariant ReplayRows(Replay(Start(ce, pe), None), rows[..i], tables, ce, pe) == Replay(strategy.State(), currentBucket)
    {
      assert rows[..i + 1][..i] == rows[..i];
      currentBucket := ReplayRow(strategy, currentBucket, rows[i], tables, ce, pe);
      i := i + 1;
    }
    assert rows[..i] == rows;
    return Some(strategy);
  }
}
