/**
 * The record-building half of `WeatherService::get_weather`
 * (src/weather_service.rs): after the response is fetched and parsed, the
 * selected buckets become `ForecastDayData` records holding `HourInfo` rows.
 */
module WeatherService {
  import opened Primitives
  import opened Seqs
  import opened Calendar
  import opened Models
  import opened Selection

  datatype LocationInfo = LocationInfo(name: string, country: string)

  datatype CurrentWeather = CurrentWeather(tempC: real, condition: string)

  /** One shown hour; `time` is the local minute of the day that `%H:%M` prints. */
  datatype HourInfo = HourInfo(
    time: int,
    tempC: real,
    chanceOfRain: real,
    condition: string,
    isPast: bool,
    isHighRain: bool)

  /** One shown day; `date` is the local day number that `%Y-%m-%d` prints. */
  datatype ForecastDayData = ForecastDayData(date: int, isToday: bool, hours: seq<HourInfo>)

  datatype WeatherData = WeatherData(
    location: LocationInfo,
    current: CurrentWeather,
    forecastDays: seq<ForecastDayData>,
    totalDays: nat,
    requestedDays: u8)

  /** Appended to the condition text of every fallback hour. */
  const PastMarker: string := " (past)"

  /** The `HourInfo` built for hour `h`; `past` hours carry the past marker. */
  function ToHourInfo(h: HourData, past: bool, offset: int): (r: HourInfo)
    ensures r.chanceOfRain == RainChance(h) && r.tempC == h.tempC
    ensures r.time == LocalMinuteOfDay(h.timeEpoch, offset)
    ensures r.isPast == past
    ensures r.condition == if past then h.condition.text + PastMarker else h.condition.text
    ensures r.isHighRain <==> r.chanceOfRain >= HighRainThreshold
  {
    var rain := RainChance(h);
    HourInfo(
      LocalMinuteOfDay(h.timeEpoch, offset),
      h.tempC,
      rain,
      if past then h.condition.text + PastMarker else h.condition.text,
      past,
      IsHighRain(rain))
  }

  function HourInfos(hours: seq<HourData>, past: bool, offset: int): (r: seq<HourInfo>)
    ensures |r| == |hours|
    ensures forall i :: 0 <= i < |hours| ==> r[i] == ToHourInfo(hours[i], past, offset)
  {
    seq(|hours|, i requires 0 <= i < |hours| => ToHourInfo(hours[i], past, offset))
  }

  /**
   * The hour rows of one bucket: the shown hours, or, when today shows none,
   * the last three hours marked past.
   */
  function BuildHours(hours: seq<HourData>, isToday: bool, now: int, offset: int): (r: seq<HourInfo>)
    ensures |r| <= |hours|
    ensures forall i :: 0 <= i < |r| ==> (r[i].isHighRain <==> r[i].chanceOfRain >= HighRainThreshold)
    ensures isToday && |hours| > 0 ==> |r| > 0
    ensures |hours| == 0 ==> r == []
  {
    var kept := HourInfos(ShownHours(hours, isToday, now), false, offset);
    if isToday && |kept| == 0 then HourInfos(FallbackHours(hours), true, offset) else kept
  }

  function BuildDay(day: ForecastDay, today: int, now: int, offset: int): (r: ForecastDayData)
    ensures r.date == DayDate(day, offset)
    ensures r.isToday <==> r.date == today
    ensures r.hours == BuildHours(day.hour, r.isToday, now, offset)
  {
    var date := DayDate(day, offset);
    ForecastDayData(date, date == today, BuildHours(day.hour, date == today, now, offset))
  }

  /** The `WeatherData` that `get_weather` returns for a parsed response `w`. */
  function GetWeather(w: Weather, days: u8, now: int, offset: int): (r: WeatherData)
    ensures |r.forecastDays| <= days as int
    ensures |r.forecastDays|
         == Min(days as int, |QualifyingDays(w.forecast.forecastday, LocalDate(now, offset), offset)|)
    ensures forall i :: 0 <= i < |r.forecastDays| ==> r.forecastDays[i].date >= LocalDate(now, offset)
    ensures forall i :: 0 <= i < |r.forecastDays| ==>
      (r.forecastDays[i].isToday <==> r.forecastDays[i].date == LocalDate(now, offset))
    ensures r.totalDays == |w.forecast.forecastday|
    ensures r.requestedDays == days
  {
    var today := LocalDate(now, offset);
    var future := FutureDays(w.forecast.forecastday, today, offset, days as int);
    WeatherData(
      LocationInfo(w.location.name, w.location.country),
      CurrentWeather(w.current.tempC, w.current.condition.text),
      seq(|future|, i requires 0 <= i < |future| => BuildDay(future[i], today, now, offset)),
      |w.forecast.forecastday|,
      days)
  }

  /** A day other than today keeps every hour, in order, none of them past. */
  lemma OtherDayKeepsEveryHour(hours: seq<HourData>, now: int, offset: int)
    ensures var r := BuildHours(hours, false, now, offset);
      && |r| == |hours|
      && forall i :: 0 <= i < |r| ==> r[i] == ToHourInfo(hours[i], false, offset) && !r[i].isPast
  {
  }

  /**
   * Outside the fallback, today's rows are built from exactly the hours that
   * are not more than one hour before `now`, in their original order, and
   * none is marked past.
   */
  lemma {:induction false} TodayKeepsRecentHours(hours: seq<HourData>, now: int, offset: int)
    returns (idx: seq<int>)
    requires exists j :: 0 <= j < |hours| && hours[j].timeEpoch >= now - SecondsPerHour
    ensures var r := BuildHours(hours, true, now, offset);
      && |r| == |idx|
      && (forall i, k :: 0 <= i < k < |idx| ==> idx[i] < idx[k])
      && (forall i :: 0 <= i < |idx| ==>
            0 <= idx[i] < |hours| && r[i] == ToHourInfo(hours[idx[i]], false, offset) && !r[i].isPast)
      && (forall j :: 0 <= j < |hours| ==> (hours[j].timeEpoch >= now - SecondsPerHour <==> j in idx))
  {
    var shown := ShownHours(hours, true, now);
    idx := FilterSelects(Fresh(now), hours);
    var j :| 0 <= j < |hours| && hours[j].timeEpoch >= now - SecondsPerHour;
    assert Fresh(now)(hours[j]);
    assert |shown| > 0;
    forall j | 0 <= j < |hours|
      ensures hours[j].timeEpoch >= now - SecondsPerHour <==> j in idx
    {
      assert Fresh(now)(hours[j]) <==> hours[j].timeEpoch >= now - SecondsPerHour;
    }
  }

  /**
   * When every hour of today is more than one hour old, the rows are the
   * last `min(3, n)` hours in original order, each marked past and with the
   * past marker after its condition text; the rain flag is unchanged.
   */
  lemma TodayFallsBackToLastHours(hours: seq<HourData>, now: int, offset: int)
    requires forall j :: 0 <= j < |hours| ==> hours[j].timeEpoch < now - SecondsPerHour
    ensures var r := BuildHours(hours, true, now, offset);
      && |r| == Min(FallbackHourCount, |hours|)
      && forall i :: 0 <= i < |r| ==>
           var h := hours[|hours| - |r| + i];
           && r[i] == ToHourInfo(h, true, offset)
           && r[i].isPast
           && r[i].condition == h.condition.text + PastMarker
           && (r[i].isHighRain <==> RainChance(h) >= HighRainThreshold)
  {
    NeedsFallbackIffAllStale(hours, true, now);
  }

  /**
   * The days of `GetWeather` are the first `min(days, |qualifying|)`
   * qualifying buckets of the response, in response order, each turned into
   * its record; a qualifying bucket is left out only once `days` were taken.
   */
  lemma {:induction false} GetWeatherTakesFirstQualifyingDays(w: Weather, days: u8, now: int, offset: int)
    returns (idx: seq<int>)
    ensures var input := w.forecast.forecastday;
      var today := LocalDate(now, offset);
      var r := GetWeather(w, days, now, offset).forecastDays;
      && |r| == |idx|
      && (forall i, k :: 0 <= i < k < |idx| ==> idx[i] < idx[k])
      && (forall i :: 0 <= i < |idx| ==>
            0 <= idx[i] < |input|
            && DayDate(input[idx[i]], offset) >= today
            && r[i] == BuildDay(input[idx[i]], today, now, offset))
      && (forall j :: 0 <= j < |input| && DayDate(input[j], offset) >= today && j !in idx ==>
            |idx| == days as int && forall i :: 0 <= i < |idx| ==> idx[i] < j)
  {
    var today := LocalDate(now, offset);
    idx := FutureDaysAreFirstQualifying(w.forecast.forecastday, today, offset, days as int);
  }
}
