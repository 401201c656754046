/**
 * Market calendar of the National Stock Exchange as the monitor sees it:
 * weekends and a fixed 2025 holiday list are closed, and trading runs from
 * 09:15 to 15:30 inclusive. "Now" is a parameter instead of a clock read.
 */
module MarketScheduler {
  import opened Clock

  /** 09:15 and 15:30 as microseconds after local midnight. */
  const MARKET_OPEN_TIME: int := 33_300_000_000
  const MARKET_CLOSE_TIME: int := 55_800_000_000

  /** Fallback answer of the search, in seconds, when no opening is found. */
  const NO_OPENING_FALLBACK: real := 86400.0

  /** Day number (days since 1970-01-01) of a proleptic Gregorian date. */
  function DaysFromCivil(year: int, month: int, dayOfMonth: int): int
    requires 1 <= month <= 12
  {
    var y := if month <= 2 then year - 1 else year;
    var era := y / 400;
    var yearOfEra := y - era * 400;
    var shiftedMonth := if month > 2 then month - 3 else month + 9;
    var dayOfYear := (153 * shiftedMonth + 2) / 5 + dayOfMonth - 1;
    var dayOfEra := yearOfEra * 365 + yearOfEra / 4 - yearOfEra / 100 + dayOfYear;
    era * 146097 + dayOfEra - 719468
  }

  /**
   * The exchange holidays of 2025 as day numbers, in calendar order:
   * Republic Day, Holi, Id-Ul-Fitr, Mahavir Jayanti, Ambedkar Jayanti, Good
   * Friday, Maharashtra Day, Independence Day, Ganesh Chaturthi, Gandhi
   * Jayanti, Dussehra, Diwali, Gurunanak Jayanti and Christmas.
   */
  const HOLIDAYS: seq<int> := [
    20114, 20161, 20178, 20188, 20192, 20196, 20209,
    20315, 20327, 20363, 20382, 20397, 20416, 20447
  ]

  /** The day numbers above are the listed calendar dates. */
  lemma HolidaysAreTheListedDates()
    ensures HOLIDAYS == [
      DaysFromCivil(2025, 1, 26), DaysFromCivil(2025, 3, 14), DaysFromCivil(2025, 3, 31),
      DaysFromCivil(2025, 4, 10), DaysFromCivil(2025, 4, 14), DaysFromCivil(2025, 4, 18),
      DaysFromCivil(2025, 5, 1), DaysFromCivil(2025, 8, 15), DaysFromCivil(2025, 8, 27),
      DaysFromCivil(2025, 10, 2), DaysFromCivil(2025, 10, 21), DaysFromCivil(2025, 11, 5),
      DaysFromCivil(2025, 11, 24), DaysFromCivil(2025, 12, 25)]
  {
    HolidaysThroughMay();
    HolidaysFromAugust();
  }

  lemma HolidaysThroughMay()
    ensures DaysFromCivil(2025, 1, 26) == 20114 && DaysFromCivil(2025, 3, 14) == 20161
    ensures DaysFromCivil(2025, 3, 31) == 20178 && DaysFromCivil(2025, 4, 10) == 20188
    ensures DaysFromCivil(2025, 4, 14) == 20192 && DaysFromCivil(2025, 4, 18) == 20196
    ensures DaysFromCivil(2025, 5, 1) == 20209
  {
    assert 2024 / 400 == 5 && 24 / 4 == 6 && 24 / 100 == 0;
    DaysIn2025(3, 14); DaysIn2025(3, 31); DaysIn2025(4, 10); DaysIn2025(4, 14); DaysIn2025(4, 18);
    DaysIn2025(5, 1);
  }

  lemma HolidaysFromAugust()
    ensures DaysFromCivil(2025, 8, 15) == 20315 && DaysFromCivil(2025, 8, 27) == 20327
    ensures DaysFromCivil(2025, 10, 2) == 20363 && DaysFromCivil(2025, 10, 21) == 20382
    ensures DaysFromCivil(2025, 11, 5) == 20397 && DaysFromCivil(2025, 11, 24) == 20416
    ensures DaysFromCivil(2025, 12, 25) == 20447
  {
    DaysIn2025(8, 15); DaysIn2025(8, 27); DaysIn2025(10, 2); DaysIn2025(10, 21);
    DaysIn2025(11, 5); DaysIn2025(11, 24); DaysIn2025(12, 25);
  }

  /** From March on, a 2025 date is its offset into the shifted year past day 20148 (2025-03-01). */
  lemma DaysIn2025(month: int, dayOfMonth: int)
    requires 3 <= month <= 12
    ensures DaysFromCivil(2025, month, dayOfMonth) == 20148 + (153 * (month - 3) + 2) / 5 + dayOfMonth - 1
  {
    assert 2025 / 400 == 5 && 25 / 4 == 6 && 25 / 100 == 0;
  }

  /** Python's `date.weekday()`: Monday is 0, Sunday is 6. */
  function Weekday(day: int): (w: int)
    ensures 0 <= w < 7
  {
    (day + 3) % 7
  }

  predicate IsMarketHoliday(day: int)
  {
    Weekday(day) >= 5 || day in HOLIDAYS
  }

  /** Open on a trading day, from 09:15:00 through 15:30:00 exactly. */
  predicate IsMarketOpen(now: DateTime)
  {
    !IsMarketHoliday(now.day) && MARKET_OPEN_TIME <= now.TimeOfDay() <= MARKET_CLOSE_TIME
  }

  /**
   * The session by the clock: a trading day from 09:15:00 through 15:30:00,
   * both ends included, so that 09:14:59.999999 and 15:30:00.000001 are
   * closed; Saturdays and Sundays never trade.
   */
  lemma MarketHours(now: DateTime)
    requires now.Valid()
    ensures IsMarketOpen(now) <==>
      (!IsMarketHoliday(now.day) &&
       ((now.hour == 9 && now.minute >= 15) || (10 <= now.hour <= 14)
        || (now.hour == 15 && (now.minute < 30 || (now.minute == 30 && now.second == 0 && now.micro == 0)))))
    ensures Weekday(now.day) >= 5 ==> !IsMarketOpen(now)
  {
  }

  /** 09:15 on the given day. */
  function OpeningOn(day: int): DateTime
  {
    DateTime(day, 9, 15, 0, 0)
  }

  /** The day `k` days after `now` is a trading day whose opening is still ahead. */
  predicate OpensAfter(now: DateTime, k: int)
  {
    !IsMarketHoliday(now.day + k) && Before(now, OpeningOn(now.day + k))
  }

  function SecondsBetween(from: DateTime, to: DateTime): real
  {
    (to.Ordinal() - from.Ordinal()) as real / 1_000_000.0
  }

  /**
   * Zero while the market is open; otherwise the time to the opening of the
   * first of the next seven days (today included) that trades and opens
   * after now; one day if there is none.
   */
  method SecondsUntilMarketOpen(now: DateTime) returns (seconds: real)
    ensures IsMarketOpen(now) ==> seconds == 0.0
    ensures !IsMarketOpen(now) ==> seconds > 0.0
    ensures !IsMarketOpen(now) && (exists k :: 0 <= k < 7 && OpensAfter(now, k)) ==>
      exists k :: 0 <= k < 7 && OpensAfter(now, k) && (forall j :: 0 <= j < k ==> !OpensAfter(now, j))
        && seconds == SecondsBetween(now, OpeningOn(now.day + k))
    ensures !IsMarketOpen(now) && (forall k :: 0 <= k < 7 ==> !OpensAfter(now, k)) ==>
      seconds == NO_OPENING_FALLBACK
  {
    if IsMarketOpen(now) {
      return 0.0;
    }
    var daysAhead := 0;
    while daysAhead < 7
      invariant 0 <= daysAhead <= 7
      invariant forall j :: 0 <= j < daysAhead ==> !OpensAfter(now, j)
    {
      var checkDate := now.day + daysAhead;
      if !IsMarketHoliday(checkDate) {
        var marketOpen := OpeningOn(checkDate);
        if Before(now, marketOpen) {
          assert OpensAfter(now, daysAhead);
          return SecondsBetween(now, marketOpen);
        }
      }
      daysAhead := daysAhead + 1;
    }
    return NO_OPENING_FALLBACK;
  }

  /** No two holidays of the list are fewer than four days apart. */
  lemma HolidaysAreSpread(i: int, j: int)
    requires 0 <= i < j < |HOLIDAYS|
    ensures HOLIDAYS[j] - HOLIDAYS[i] >= 4
  {
  }

  /**
   * For every valid reading the seven-day search succeeds: among the next
   * six days there are two consecutive weekdays, and the holiday list never
   * holds two days in a row, so the one-day fallback is never returned.
   */
  lemma SearchNeverExhausted(now: DateTime)
    requires now.Valid()
    ensures exists k :: 1 <= k < 7 && OpensAfter(now, k)
  {
    var w := Weekday(now.day);
    var k := if w == 3 then 4 else if w == 4 then 3 else if w == 5 then 2 else 1;
    WeekdaysAhead(now.day, k);
    OpeningsAhead(now, k);
    NoHolidayPair(now.day + k);
    if now.day + k in HOLIDAYS {
      assert OpensAfter(now, k + 1);
    } else {
      assert OpensAfter(now, k);
    }
  }

  /** The chosen offset lands on a Monday-to-Thursday, so it and the next day are weekdays. */
  lemma WeekdaysAhead(day: int, k: int)
    requires var w := Weekday(day); k == if w == 3 then 4 else if w == 4 then 3 else if w == 5 then 2 else 1
    ensures Weekday(day + k) < 5 && Weekday(day + k + 1) < 5
  {
  }

  /** Any later day's opening lies after a valid reading. */
  lemma OpeningsAhead(now: DateTime, k: int)
    requires now.Valid() && k >= 1
    ensures Before(now, OpeningOn(now.day + k)) && Before(now, OpeningOn(now.day + k + 1))
  {
  }

  /** Two days in a row are never both listed holidays. */
  lemma NoHolidayPair(day: int)
    ensures !(day in HOLIDAYS && day + 1 in HOLIDAYS)
  {
    if day in HOLIDAYS && day + 1 in HOLIDAYS {
      var i :| 0 <= i < |HOLIDAYS| && HOLIDAYS[i] == day;
      var j :| 0 <= j < |HOLIDAYS| && HOLIDAYS[j] == day + 1;
      if i < j {
        HolidaysAreSpread(i, j);
      } else {
        HolidaysAreSpread(j, i);
      }
    }
  }

  // ---------------------------------------------------------------- the opening as the code builds it

  /**
   * Attaching the Asia/Kolkata zone object of pytz directly to a naive
   * date and time gives that zone's first offset, local mean time
   * (+05:53), not India Standard Time (+05:30). The 09:15 the search
   * builds is therefore the instant 08:52 IST.
   */
  function LmtOpeningOn(day: int): DateTime
  {
    DateTime(day, 8, 52, 0, 0)
  }

  /** The seven-day search with the opening built as the code builds it. */
  function SearchAsWritten(now: DateTime, daysAhead: nat): real
    decreases 7 - daysAhead
  {
    if daysAhead >= 7 then NO_OPENING_FALLBACK
    else if !IsMarketHoliday(now.day + daysAhead) && Before(now, LmtOpeningOn(now.day + daysAhead))
    then SecondsBetween(now, LmtOpeningOn(now.day + daysAhead))
    else SearchAsWritten(now, daysAhead + 1)
  }

  function SecondsUntilMarketOpenAsWritten(now: DateTime): real
  {
    if IsMarketOpen(now) then 0.0 else SearchAsWritten(now, 0)
  }

  /**
   * On Tuesday 2025-11-18 at 09:00 IST the market opens in fifteen minutes,
   * and the corrected search (SecondsUntilMarketOpen) answers 900 seconds;
   * the search as written has already passed today's 08:52 and answers
   * 85920 seconds, the next day's 08:52, sleeping through the session.
   */
  lemma LmtOpeningSleepsThroughSession()
    ensures var now := DateTime(DaysFromCivil(2025, 11, 18), 9, 0, 0, 0);
      && now.Valid() && Weekday(now.day) == 1 && !IsMarketOpen(now)
      && OpensAfter(now, 0) && SecondsBetween(now, OpeningOn(now.day)) == 900.0
      && SecondsUntilMarketOpenAsWritten(now) == 85920.0
  {
    var now := DateTime(DaysFromCivil(2025, 11, 18), 9, 0, 0, 0);
    assert now.day == 20410;
    assert !IsMarketHoliday(20411);
    assert SearchAsWritten(now, 1) == SecondsBetween(now, LmtOpeningOn(20411));
  }
}
