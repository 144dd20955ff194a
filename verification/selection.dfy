/**
 * The forecast selection rule shared by `WeatherService::get_weather`
 * (src/weather_service.rs) and the terminal program (src/bin/cli.rs):
 * which day buckets are shown, which hours of a bucket are shown, and when
 * the last hours of today are shown as past data instead.
 */
module Selection {
  import opened Primitives
  import opened Seqs
  import opened Calendar
  import opened Models

  /** Rain chances at or above this percentage are flagged (highlighted in red). */
  const HighRainThreshold: real := 40.0

  /** How many of today's last hours the fallback shows. */
  const FallbackHourCount: nat := 3

  /** The local date of a day bucket, taken from its `date_epoch`. */
  function DayDate(day: ForecastDay, offset: int): int {
    LocalDate(day.dateEpoch, offset)
  }

  /** The day filter: a bucket whose local date is today or later. */
  function Qualifies(today: int, offset: int): ForecastDay -> bool {
    day => DayDate(day, offset) >= today
  }

  /** Every bucket that is not before today, in response order. */
  function QualifyingDays(days: seq<ForecastDay>, today: int, offset: int): (r: seq<ForecastDay>)
    ensures |r| <= |days|
    ensures forall i :: 0 <= i < |r| ==> DayDate(r[i], offset) >= today && r[i] in days
    ensures forall j :: 0 <= j < |days| && DayDate(days[j], offset) >= today ==> days[j] in r
  {
    Filter(Qualifies(today, offset), days)
  }

  /** The `filter(..).take(days)` chain: the first `n` buckets that are not before today. */
  function FutureDays(days: seq<ForecastDay>, today: int, offset: int, n: nat): (r: seq<ForecastDay>)
    ensures |r| <= n
    ensures |r| == Min(n, |QualifyingDays(days, today, offset)|)
    ensures forall i :: 0 <= i < |r| ==> DayDate(r[i], offset) >= today
    ensures r <= QualifyingDays(days, today, offset)
  {
    Take(QualifyingDays(days, today, offset), n)
  }

  /** An hour more than one hour before `now` (`hour_time < now - 1h`). */
  predicate IsStale(h: HourData, now: int) {
    h.timeEpoch < now - SecondsPerHour
  }

  function Fresh(now: int): HourData -> bool {
    h => !IsStale(h, now)
  }

  /**
   * The hours the normal path shows: for today, the hours not more than one
   * hour old; for any other day, every hour.
   */
  function ShownHours(hours: seq<HourData>, isToday: bool, now: int): (r: seq<HourData>)
    ensures |r| <= |hours|
    ensures isToday ==> forall i :: 0 <= i < |r| ==> r[i].timeEpoch >= now - SecondsPerHour
    ensures isToday ==> forall j :: 0 <= j < |hours| && !IsStale(hours[j], now) ==> hours[j] in r
    ensures !isToday ==> r == hours
  {
    if isToday then Filter(Fresh(now), hours) else hours
  }

  /** The fallback triggers when today shows no hour at all. */
  predicate NeedsFallback(hours: seq<HourData>, isToday: bool, now: int) {
    isToday && |ShownHours(hours, isToday, now)| == 0
  }

  /** `hour.iter().rev().take(3).rev()`: the last three hours in chronological order. */
  function FallbackHours(hours: seq<HourData>): (r: seq<HourData>)
    ensures |r| == Min(FallbackHourCount, |hours|)
    ensures forall i :: 0 <= i < |r| ==> r[i] == hours[|hours| - |r| + i]
  {
    RevTakeRev(hours, FallbackHourCount);
    Reverse(Take(Reverse(hours), FallbackHourCount))
  }

  /** `chance_of_rain.unwrap_or(0.0)`. */
  function RainChance(h: HourData): (c: real)
    ensures h.chanceOfRain.None? ==> c == 0.0
    ensures h.chanceOfRain.Some? ==> c == h.chanceOfRain.value
  {
    h.chanceOfRain.GetOr(0.0)
  }

  predicate IsHighRain(chance: real) {
    chance >= HighRainThreshold
  }

  /** The fallback triggers exactly when today has hours and all of them are stale, or has none. */
  lemma NeedsFallbackIffAllStale(hours: seq<HourData>, isToday: bool, now: int)
    ensures NeedsFallback(hours, isToday, now)
        <==> isToday && forall j :: 0 <= j < |hours| ==> IsStale(hours[j], now)
  {
    if isToday && forall j :: 0 <= j < |hours| ==> IsStale(hours[j], now) {
      forall j | 0 <= j < |hours|
        ensures !Fresh(now)(hours[j])
      {
        assert IsStale(hours[j], now);
      }
      FilterOfNoneSatisfying(Fresh(now), hours);
    }
  }

  /**
   * The day selection takes the first `min(n, |qualifying|)` qualifying
   * buckets in response order: `idx` are their positions in `days`, every
   * one qualifies, and a qualifying bucket is left out only when `n` buckets
   * were already taken, all of them earlier in the response.
   */
  lemma {:induction false} FutureDaysAreFirstQualifying(days: seq<ForecastDay>, today: int, offset: int, n: nat)
    returns (idx: seq<int>)
    ensures Embeds(FutureDays(days, today, offset, n), days, idx)
    ensures forall i :: 0 <= i < |idx| ==> DayDate(days[idx[i]], offset) >= today
    ensures forall j :: 0 <= j < |days| && DayDate(days[j], offset) >= today && j !in idx ==>
      |idx| == n && forall i :: 0 <= i < |idx| ==> idx[i] < j
  {
    var q := QualifyingDays(days, today, offset);
    var all := FilterSelects(Qualifies(today, offset), days);
    var k := Min(n, |q|);
    idx := all[..k];
    EmbedsPrefix(q, days, all, k);
    assert FutureDays(days, today, offset, n) == q[..k];
    forall j | 0 <= j < |days| && DayDate(days[j], offset) >= today && j !in idx
      ensures |idx| == n && forall i :: 0 <= i < |idx| ==> idx[i] < j
    {
      assert Qualifies(today, offset)(days[j]);
      assert j in all;
      var m :| 0 <= m < |all| && all[m] == j;
      assert forall i :: 0 <= i < k ==> idx[i] == all[i];
      assert k <= m;
    }
  }
}
