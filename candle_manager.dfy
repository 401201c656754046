/**
 * Tick-to-candle aggregation of the EMA monitor: ticks are folded into
 * 5-minute OHLC candles per symbol; a candle is handed out once, when the
 * first tick of a later bucket arrives. Until the configured
 * EMA_CALCULATED_UNTIL time of day has passed, a symbol is "warming up":
 * its candles are tracked but never handed out.
 */
module CandleManager {
  import opened Wrappers
  import opened Clock

  /** The candle being formed for one symbol; `skip` marks a warm-up candle. */
  datatype LiveCandle = LiveCandle(bucketTime: DateTime, open: real, high: real, low: real, close: real, skip: bool)

  predicate WellFormed(c: LiveCandle)
  {
    c.low <= c.open <= c.high && c.low <= c.close <= c.high
  }

  /** EMA_CALCULATED_UNTIL split into its two integer fields. */
  datatype CutoffSetting = CutoffSetting(hour: int, minute: int)

  /**
   * The warm-up cutoff on the day of `now`, or None when the setting did
   * not parse as "HH:MM" (None) or names no valid time of day.
   */
  function Cutoff(setting: Option<CutoffSetting>, now: DateTime): (r: Option<DateTime>)
    ensures r.Some? <==> setting.Some? && 0 <= setting.value.hour < 24 && 0 <= setting.value.minute < 60
    ensures r.Some? ==> && r.value.Valid() && r.value.day == now.day
                        && r.value.hour == setting.value.hour && r.value.minute == setting.value.minute
                        && r.value.second == 0 && r.value.micro == 0
  {
    match setting
    case None => None
    case Some(c) =>
      if 0 <= c.hour < 24 && 0 <= c.minute < 60 then Some(DateTime(now.day, c.hour, c.minute, 0, 0))
      else None
  }

  /** While warming up, a bucket at or before the cutoff is suppressed. */
  predicate Suppressed(inWarmup: bool, cutoff: Option<DateTime>, bucket: DateTime)
  {
    inWarmup && cutoff.Some? && NotAfter(bucket, cutoff.value)
  }

  function Fresh(bucket: DateTime, ltp: real, skip: bool): LiveCandle
  {
    LiveCandle(bucket, ltp, ltp, ltp, ltp, skip)
  }

  function Extend(c: LiveCandle, ltp: real): LiveCandle
  {
    c.(high := MaxR(c.high, ltp), low := MinR(c.low, ltp), close := ltp)
  }

  /**
   * One tick on one symbol's slot: the completed candle to hand out, if any,
   * and the candle now being formed.
   */
  function Advance(current: Option<LiveCandle>, bucket: DateTime, ltp: real, skipping: bool): (Option<LiveCandle>, LiveCandle)
  {
    var newBucket := current.None? || current.value.bucketTime != bucket;
    if skipping then
      (None, if newBucket then Fresh(bucket, ltp, true) else Extend(current.value, ltp))
    else if newBucket then
      (if current.Some? && !current.value.skip then current else None, Fresh(bucket, ltp, false))
    else
      (None, Extend(current.value, ltp))
  }

  /** A suppressed tick never hands out a candle. */
  lemma AdvanceSilentWhileSkipping(current: Option<LiveCandle>, bucket: DateTime, ltp: real)
    ensures Advance(current, bucket, ltp, true).0 == None
    ensures Advance(current, bucket, ltp, true).1.bucketTime == bucket
  {
  }

  /**
   * Outside warm-up a candle is handed out exactly when the tick opens a
   * different bucket and the previous candle was not a warm-up candle; what
   * is handed out is that previous candle, and the new one starts at the
   * tick price.
   */
  lemma AdvanceEmitsOnBucketChange(current: Option<LiveCandle>, bucket: DateTime, ltp: real)
    ensures var (done, next) := Advance(current, bucket, ltp, false);
      && (done.Some? <==> current.Some? && current.value.bucketTime != bucket && !current.value.skip)
      && (done.Some? ==> done == current)
      && (current.None? || current.value.bucketTime != bucket ==> next == Fresh(bucket, ltp, false))
  {
  }

  /**
   * A tick in the candle's own bucket keeps the open, raises the high,
   * lowers the low and sets the close, and keeps the candle well formed.
   */
  lemma AdvanceWithinBucket(c: LiveCandle, ltp: real, skipping: bool)
    requires WellFormed(c)
    ensures var (done, next) := Advance(Some(c), c.bucketTime, ltp, skipping);
      && done == None
      && next.bucketTime == c.bucketTime && next.skip == c.skip
      && next.open == c.open && next.close == ltp
      && next.high == MaxR(c.high, ltp) && next.low == MinR(c.low, ltp)
      && WellFormed(next)
  {
  }

  /** The slot always holds a well-formed candle. */
  lemma AdvanceKeepsWellFormed(current: Option<LiveCandle>, bucket: DateTime, ltp: real, skipping: bool)
    requires current.Some? ==> WellFormed(current.value)
    ensures WellFormed(Advance(current, bucket, ltp, skipping).1)
    ensures Advance(current, bucket, ltp, skipping).0.Some? ==> WellFormed(Advance(current, bucket, ltp, skipping).0.value)
  {
  }

  function SeqMax(xs: seq<real>): real
    requires |xs| > 0
  {
    if |xs| == 1 then xs[0] else MaxR(SeqMax(xs[..|xs| - 1]), xs[|xs| - 1])
  }

  function SeqMin(xs: seq<real>): real
    requires |xs| > 0
  {
    if |xs| == 1 then xs[0] else MinR(SeqMin(xs[..|xs| - 1]), xs[|xs| - 1])
  }

  /** Feeds the prices, in order, to a slot whose bucket they all share. */
  function FeedBucket(c: LiveCandle, prices: seq<real>, skipping: bool): LiveCandle
  {
    if prices == [] then c
    else Advance(Some(FeedBucket(c, prices[..|prices| - 1], skipping)), c.bucketTime, prices[|prices| - 1], skipping).1
  }

  /**
   * For ticks that all fall in one bucket, the candle opened by the first
   * tick ends with open = first price, close = last price, high = maximum
   * and low = minimum of the prices.
   */
  lemma {:induction false} FeedBucketIsOhlc(bucket: DateTime, prices: seq<real>, skipping: bool)
    requires |prices| > 0
    ensures var c := FeedBucket(Fresh(bucket, prices[0], skipping), prices[1..], skipping);
      && c.bucketTime == bucket
      && c.open == prices[0] && c.close == prices[|prices| - 1]
      && c.high == SeqMax(prices) && c.low == SeqMin(prices)
  {
    if |prices| > 1 {
      var init := prices[..|prices| - 1];
      FeedBucketIsOhlc(bucket, init, skipping);
      assert init[1..] == prices[1..][..|prices[1..]| - 1];
      assert init[0] == prices[0];
    }
  }

  class CandleManager {
    /** Per configured symbol, its parsed EMA_CALCULATED_UNTIL setting. */
    const symbolsConfig: map<string, Option<CutoffSetting>>
    var currentCandles: map<string, LiveCandle>
    var skipFirstIncomplete: map<string, bool>
    var firstCompleteCandleTimes: map<string, Option<DateTime>>

    ghost predicate Valid()
      reads this
    {
      forall s :: s in currentCandles ==> WellFormed(currentCandles[s])
    }

    /** A symbol warms up until its first complete candle is seen; missing entries read as warming up. */
    predicate InWarmup(symbol: string)
      reads this
    {
      (symbol !in skipFirstIncomplete || skipFirstIncomplete[symbol])
      && (symbol !in firstCompleteCandleTimes || firstCompleteCandleTimes[symbol].None?)
    }

    function Slot(symbol: string): Option<LiveCandle>
      reads this
    {
      if symbol in currentCandles then Some(currentCandles[symbol]) else None
    }

    constructor(config: map<string, Option<CutoffSetting>>)
      ensures symbolsConfig == config && currentCandles == map[] && Valid()
      ensures skipFirstIncomplete == map s | s in config :: true
      ensures firstCompleteCandleTimes == map s | s in config :: None
    {
      symbolsConfig := config;
      currentCandles := map[];
      skipFirstIncomplete := map s | s in config :: true;
      firstCompleteCandleTimes := map s | s in config :: None;
    }

    /**
     * Whether the bucket is suppressed. Out of warm-up: never, and nothing
     * changes. In warm-up: a bucket at or before the cutoff is suppressed; a
     * later bucket ends warm-up and is recorded as the first complete one;
     * an unusable cutoff setting ends warm-up without recording a time.
     */
    method ShouldSkipCandle(symbol: string, bucketTime: DateTime, now: DateTime) returns (skip: bool)
      requires symbol in symbolsConfig
      modifies this
      ensures currentCandles == old(currentCandles)
      ensures skip == Suppressed(old(InWarmup(symbol)), Cutoff(symbolsConfig[symbol], now), bucketTime)
      ensures !old(InWarmup(symbol)) || skip ==>
        skipFirstIncomplete == old(skipFirstIncomplete) && firstCompleteCandleTimes == old(firstCompleteCandleTimes)
      ensures old(InWarmup(symbol)) && !skip ==>
        && skipFirstIncomplete == old(skipFirstIncomplete)[symbol := false]
        && firstCompleteCandleTimes ==
             if Cutoff(symbolsConfig[symbol], now).Some? then old(firstCompleteCandleTimes)[symbol := Some(bucketTime)]
             else old(firstCompleteCandleTimes)
    {
      if symbol in skipFirstIncomplete && !skipFirstIncomplete[symbol] {
        return false;
      }
      if symbol in firstCompleteCandleTimes && firstCompleteCandleTimes[symbol].Some? {
        return false;
      }
      var cutoff := Cutoff(symbolsConfig[symbol], now);
      if cutoff.None? {
        skipFirstIncomplete := skipFirstIncomplete[symbol := false];
        return false;
      }
      if NotAfter(bucketTime, cutoff.value) {
        return true;
      }
      skipFirstIncomplete := skipFirstIncomplete[symbol := false];
      firstCompleteCandleTimes := firstCompleteCandleTimes[symbol := Some(bucketTime)];
      return false;
    }

    /**
     * Folds one tick at time `now` into the symbol's candle and returns the
     * candle it completes, if any. Warm-up only ever ends, and ends for this
     * symbol alone.
     */
    method UpdateCandle(symbol: string, ltp: real, now: DateTime) returns (completed: Option<LiveCandle>)
      requires symbol in symbolsConfig
      requires Valid()
      modifies this
      ensures Valid()
      ensures var skipping := Suppressed(old(InWarmup(symbol)), Cutoff(symbolsConfig[symbol], now), Bucket(now));
        var (done, next) := Advance(old(Slot(symbol)), Bucket(now), ltp, skipping);
        completed == done && currentCandles == old(currentCandles)[symbol := next]
      ensures var skipping := Suppressed(old(InWarmup(symbol)), Cutoff(symbolsConfig[symbol], now), Bucket(now));
        !old(InWarmup(symbol)) || skipping ==>
          skipFirstIncomplete == old(skipFirstIncomplete) && firstCompleteCandleTimes == old(firstCompleteCandleTimes)
      ensures var skipping := Suppressed(old(InWarmup(symbol)), Cutoff(symbolsConfig[symbol], now), Bucket(now));
        old(InWarmup(symbol)) && !skipping ==>
          && skipFirstIncomplete == old(skipFirstIncomplete)[symbol := false]
          && firstCompleteCandleTimes ==
               if Cutoff(symbolsConfig[symbol], now).Some? then old(firstCompleteCandleTimes)[symbol := Some(Bucket(now))]
               else old(firstCompleteCandleTimes)
      ensures InWarmup(symbol) ==> old(InWarmup(symbol))
      ensures forall s :: s != symbol ==> InWarmup(s) == old(InWarmup(s))
    {
      var bucketTime := Bucket(now);
      var currentCandle := Slot(symbol);
      AdvanceKeepsWellFormed(currentCandle, bucketTime, ltp, true);
      AdvanceKeepsWellFormed(currentCandle, bucketTime, ltp, false);
      var skip := ShouldSkipCandle(symbol, bucketTime, now);
      if skip {
        if currentCandle.None? || currentCandle.value.bucketTime != bucketTime {
          currentCandles := currentCandles[symbol := Fresh(bucketTime, ltp, true)];
        } else {
          currentCandles := currentCandles[symbol := Extend(currentCandle.value, ltp)];
        }
        return None;
      }
      if currentCandle.None? || currentCandle.value.bucketTime != bucketTime {
        completed := None;
        if currentCandle.Some? && !currentCandle.value.skip {
          completed := currentCandle;
        }
        currentCandles := currentCandles[symbol := Fresh(bucketTime, ltp, false)];
      } else {
        currentCandles := currentCandles[symbol := Extend(currentCandle.value, ltp)];
        completed := None;
      }
    }

    /** Drops every candle and puts every configured symbol back into warm-up. */
    method ResetForNewDay()
      modifies this
      ensures currentCandles == map[] && Valid()
      ensures forall s :: s in symbolsConfig ==> InWarmup(s)
      ensures forall s :: s !in symbolsConfig ==> InWarmup(s) == old(InWarmup(s))
    {
      currentCandles := map[];
      skipFirstIncomplete := map s | s in skipFirstIncomplete.Keys + symbolsConfig.Keys ::
        if s in symbolsConfig then true else skipFirstIncomplete[s];
      firstCompleteCandleTimes := map s | s in firstCompleteCandleTimes.Keys + symbolsConfig.Keys ::
        if s in symbolsConfig then None else firstCompleteCandleTimes[s];
    }
  }
}
