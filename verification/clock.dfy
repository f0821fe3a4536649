/**
 * Time as the model sees it: an instant is an integer count of nanoseconds
 * since the Unix epoch, as Go's time.Time.UnixNano reports it. Time zones
 * are fixed offsets; Asia/Seoul has had no daylight saving time since 1988.
 */
module Clock {

  const Millisecond: int := 1_000_000
  const Second: int := 1_000_000_000
  const Hour: int := 3600 * Second
  const Day: int := 24 * Hour

  /** Asia/Seoul (KST) is UTC+9. */
  const KstOffset: int := 9 * Hour

  /** Go's zero time.Time, January 1 of year 1 UTC, as nanoseconds since the epoch. */
  const ZeroTime: int := -62135596800 * Second

  /**
   * gorm's Create stamps a CreatedAt or UpdatedAt the code left unset (Go's
   * zero time) with the statement's own clock read `at`, and keeps one the
   * code set.
   */
  function FillUnset(t: int, at: int): int {
    if t == ZeroTime then at else t
  }

  /** True when `d` is a local midnight in the zone `offset` nanoseconds east of UTC. */
  predicate IsLocalMidnight(d: int, offset: int) {
    (d + offset) % Day == 0
  }

  /**
   * `time.Date(y, m, d, 0, 0, 0, 0, loc)` for the calendar day of `t` in a zone
   * with fixed offset `offset`: the local midnight that starts `t`'s day.
   */
  function LocalDayStart(t: int, offset: int): (d: int)
    ensures IsLocalMidnight(d, offset)
    ensures d <= t < d + Day
  {
    t - (t + offset) % Day
  }

  lemma ModOfShift(q: int, r: int)
    requires 0 <= r < Day
    ensures (q * Day + r) % Day == r
  {
  }

  /** A local midnight `d` starts `t`'s day exactly when `t` lies in [d, d + 24h). */
  lemma DayStartUnique(t: int, d: int, offset: int)
    requires IsLocalMidnight(d, offset)
    ensures LocalDayStart(t, offset) == d <==> d <= t < d + Day
  {
    if d <= t < d + Day {
      var q := (d + offset) / Day;
      assert d + offset == q * Day;
      assert t + offset == q * Day + (t - d);
      ModOfShift(q, t - d);
    }
  }
}
