/**
 * Local calendar arithmetic. The programs convert epoch seconds to the
 * viewer's local time through the system time zone; here the zone is a
 * fixed offset in seconds east of UTC, and a local date is a day number
 * (days since 1970-01-01 in local time).
 */
module Calendar {

  const SecondsPerMinute: int := 60
  const SecondsPerHour: int := 3600
  const SecondsPerDay: int := 86400
  const MinutesPerDay: int := 1440

  /** The local calendar date of instant `t`: the local day that contains it. */
  function LocalDate(t: int, offset: int): (d: int)
    ensures d * SecondsPerDay <= t + offset < d * SecondsPerDay + SecondsPerDay
  {
    (t + offset) / SecondsPerDay
  }

  /** The local wall-clock time of `t` as minutes since local midnight (what `%H:%M` shows). */
  function LocalMinuteOfDay(t: int, offset: int): (m: int)
    ensures 0 <= m < MinutesPerDay
    ensures LocalDate(t, offset) * SecondsPerDay + m * SecondsPerMinute <= t + offset
    ensures t + offset < LocalDate(t, offset) * SecondsPerDay + m * SecondsPerMinute + SecondsPerMinute
  {
    ((t + offset) % SecondsPerDay) / SecondsPerMinute
  }

  /** A local date is determined by the day that contains the instant. */
  lemma LocalDateUnique(t: int, offset: int, d: int)
    requires d * SecondsPerDay <= t + offset < d * SecondsPerDay + SecondsPerDay
    ensures LocalDate(t, offset) == d
  {
  }
}
