/**
 * Concrete selections worked through on the model, with UTC as the local
 * zone and day 0 (1970-01-01) as today.
 */
module Scenarios {
  import opened Primitives
  import opened Seqs
  import opened Calendar
  import opened Models
  import opened Selection
  import opened WeatherService

  function Hour(t: int): HourData {
    HourData(t, 20.0, None, Condition("Clear"))
  }

  /** At 08:30 the cutoff is 07:30: of 06:00, 07:00, 09:00 and 10:00 only 09:00 and 10:00 stay. */
  lemma MorningKeepsHoursFromLastHour()
    ensures var hours := [Hour(21600), Hour(25200), Hour(32400), Hour(36000)];
      var r := BuildHours(hours, true, 30600, 0);
      && |r| == 2
      && r[0].time == 540 && r[1].time == 600
      && !r[0].isPast && !r[1].isPast
  {
    var hours := [Hour(21600), Hour(25200), Hour(32400), Hour(36000)];
    assert ShownHours(hours, true, 30600) == [Hour(32400), Hour(36000)] by {
      assert hours[..3][..2] == hours[..2];
      assert hours[..2][..1] == hours[..1];
      assert hours[..1][..0] == [];
    }
  }

  /** At 23:00 with hours only at 01:00, 02:00 and 03:00, all three come back marked past. */
  lemma LateEveningFallsBack()
    ensures var hours := [Hour(3600), Hour(7200), Hour(10800)];
      var r := BuildHours(hours, true, 82800, 0);
      && |r| == 3
      && r[0].time == 60 && r[1].time == 120 && r[2].time == 180
      && r[0].isPast && r[1].isPast && r[2].isPast
      && r[0].condition == "Clear (past)"
  {
    var hours := [Hour(3600), Hour(7200), Hour(10800)];
    TodayFallsBackToLastHours(hours, 82800, 0);
  }

  function Day(d: int): ForecastDay {
    ForecastDay(d * SecondsPerDay, [])
  }

  /** Three requested days out of five available future days are the three earliest. */
  lemma ThreeOfFiveDays()
    ensures FutureDays([Day(0), Day(1), Day(2), Day(3), Day(4)], 0, 0, 3) == [Day(0), Day(1), Day(2)]
  {
    var days := [Day(0), Day(1), Day(2), Day(3), Day(4)];
    forall i | 0 <= i < |days|
      ensures Qualifies(0, 0)(days[i])
    {
      assert days[i] == Day(i);
      LocalDateUnique(i * SecondsPerDay, 0, i);
    }
    FilterOfAllSatisfying(Qualifies(0, 0), days);
  }

  /** A response holding only days before today selects nothing. */
  lemma OnlyPastDays()
    ensures FutureDays([Day(-3), Day(-2), Day(-1)], 0, 0, 3) == []
  {
    var days := [Day(-3), Day(-2), Day(-1)];
    assert forall i :: 0 <= i < |days| ==> !Qualifies(0, 0)(days[i]);
    FilterOfNoneSatisfying(Qualifies(0, 0), days);
  }
}
