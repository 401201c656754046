/**
 * Local (Asia/Kolkata) wall-clock readings, standing in for Python's
 * timezone-aware `datetime`. India has no daylight saving, so a reading is
 * its date and time of day; readings are compared through `Ordinal`.
 */
module Clock {

  /** `day` counts days from 1970-01-01 (day 0, a Thursday). */
  datatype DateTime = DateTime(day: int, hour: int, minute: int, second: int, micro: int)
  {
    predicate Valid()
    {
      0 <= hour < 24 && 0 <= minute < 60 && 0 <= second < 60 && 0 <= micro < 1_000_000
    }

    /** Microseconds since 1970-01-01 00:00 local time. */
    function Ordinal(): int
    {
      day * 86_400_000_000 + hour * 3_600_000_000 + minute * 60_000_000 + second * 1_000_000 + micro
    }

    /** Microseconds since local midnight: what `now.time()` compares. */
    function TimeOfDay(): int
    {
      hour * 3_600_000_000 + minute * 60_000_000 + second * 1_000_000 + micro
    }
  }

  const MICROS_PER_BUCKET: int := 300_000_000

  predicate Before(a: DateTime, b: DateTime)
  {
    a.Ordinal() < b.Ordinal()
  }

  predicate NotAfter(a: DateTime, b: DateTime)
  {
    a.Ordinal() <= b.Ordinal()
  }

  /**
   * The start of the 5-minute bucket holding `t`: the minute floored to a
   * multiple of five, seconds and microseconds zeroed.
   */
  function Bucket(t: DateTime): (b: DateTime)
    ensures t.Valid() ==> b.Valid()
    ensures t.Valid() ==> b.Ordinal() <= t.Ordinal() < b.Ordinal() + MICROS_PER_BUCKET
    ensures b.Ordinal() % MICROS_PER_BUCKET == 0
  {
    var q := t.minute / 5;
    var b := DateTime(t.day, t.hour, q * 5, 0, 0);
    assert t.minute == q * 5 + t.minute % 5;
    var k := t.day * 288 + t.hour * 12 + q;
    assert b.Ordinal() == 300_000_000 * k;
    MultipleIsAligned(k);
    b
  }

  /** Flooring an already floored reading changes nothing. */
  lemma BucketIdempotent(t: DateTime)
    ensures Bucket(Bucket(t)) == Bucket(t)
  {
  }

  lemma MultipleIsAligned(k: int)
    ensures (300_000_000 * k) % MICROS_PER_BUCKET == 0
  {
  }

  /** The minute containing `t`: seconds and microseconds zeroed. */
  function MinuteOf(t: DateTime): (m: DateTime)
    ensures t.Valid() ==> m.Valid()
    ensures t.Valid() ==> m.Ordinal() <= t.Ordinal() < m.Ordinal() + 60_000_000
    ensures m.Ordinal() % 60_000_000 == 0
  {
    var m := DateTime(t.day, t.hour, t.minute, 0, 0);
    assert m.Ordinal() == 60_000_000 * (t.day * 1440 + t.hour * 60 + t.minute);
    MinuteMultipleIsAligned(t.day * 1440 + t.hour * 60 + t.minute);
    m
  }

  lemma MinuteMultipleIsAligned(k: int)
    ensures (60_000_000 * k) % 60_000_000 == 0
  {
  }

  /**
   * Two readings fall in the same bucket exactly when they lie in the same
   * aligned 5-minute window of the time line.
   */
  lemma SameBucketIffSameWindow(a: DateTime, b: DateTime)
    requires a.Valid() && b.Valid()
    ensures Bucket(a) == Bucket(b) <==> a.Ordinal() / MICROS_PER_BUCKET == b.Ordinal() / MICROS_PER_BUCKET
  {
    WindowIndex(a);
    WindowIndex(b);
    if a.Ordinal() / MICROS_PER_BUCKET == b.Ordinal() / MICROS_PER_BUCKET {
      DigitsOfDay(a.day, a.hour * 12 + a.minute / 5, b.day, b.hour * 12 + b.minute / 5);
      DigitsOfHour(a.hour, a.minute / 5, b.hour, b.minute / 5);
    }
  }

  lemma WindowIndex(t: DateTime)
    requires t.Valid()
    ensures t.Ordinal() / MICROS_PER_BUCKET == t.day * 288 + t.hour * 12 + t.minute / 5
  {
    var k := t.day * 288 + t.hour * 12 + t.minute / 5;
    assert Bucket(t).Ordinal() == MICROS_PER_BUCKET * k;
    DivInWindow(t.Ordinal(), k);
  }

  lemma DivInWindow(x: int, k: int)
    requires MICROS_PER_BUCKET * k <= x < MICROS_PER_BUCKET * k + MICROS_PER_BUCKET
    ensures x / MICROS_PER_BUCKET == k
  {
  }

  lemma DigitsOfDay(d1: int, s1: int, d2: int, s2: int)
    requires 0 <= s1 < 288 && 0 <= s2 < 288
    requires d1 * 288 + s1 == d2 * 288 + s2
    ensures d1 == d2 && s1 == s2
  {
  }

  lemma DigitsOfHour(h1: int, s1: int, h2: int, s2: int)
    requires 0 <= s1 < 12 && 0 <= s2 < 12
    requires h1 * 12 + s1 == h2 * 12 + s2
    ensures h1 == h2 && s1 == s2
  {
  }
}
