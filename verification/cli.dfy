/**
 * The terminal program (src/bin/cli.rs): argument defaults, the day-count
 * parse and clamp, and which lines `main` prints for a parsed response.
 * Printing is modelled as the sequence of lines produced; colours are the
 * two booleans `red` (high rain) and `dimmed` (past fallback hour).
 */
module Cli {
  import opened Primitives
  import opened Seqs
  import opened Calendar
  import opened Models
  import opened Selection
  import opened WeatherService

  const DefaultLocation: string := "India"
  const MinDays: int := 1
  const MaxDays: int := 14

  // ---------------------------------------------------------------------
  // `str::parse::<u8>`

  predicate IsDigit(c: char) {
    '0' <= c <= '9'
  }

  predicate AllDigits(s: string) {
    forall i :: 0 <= i < |s| ==> IsDigit(s[i])
  }

  function DigitChar(d: int): (c: char)
    requires 0 <= d < 10
    ensures IsDigit(c)
  {
    (d + '0' as int) as char
  }

  /** The value of a string of decimal digits, most significant first. */
  function DigitsValue(s: string): nat
    requires AllDigits(s)
    decreases |s|
  {
    if |s| == 0 then 0
    else DigitsValue(s[..|s| - 1]) * 10 + (s[|s| - 1] as int - '0' as int)
  }

  /** The shortest decimal spelling of `n`. */
  function Decimal(n: nat): (s: string)
    ensures |s| > 0 && AllDigits(s)
    decreases n
  {
    if n < 10 then [DigitChar(n)] else Decimal(n / 10) + [DigitChar(n % 10)]
  }

  /**
   * Rust's `u8` parser: an optional leading `+`, then one or more decimal
   * digits whose value is at most 255. Anything else (empty, a lone sign,
   * `-`, white space, overflow) is an error.
   */
  function ParseU8(s: string): (r: Option<u8>)
    ensures |s| == 0 ==> r.None?
    ensures r.Some? ==> IsDigit(s[0]) || (s[0] == '+' && |s| > 1)
    ensures (exists i :: 1 <= i < |s| && !IsDigit(s[i])) ==> r.None?
  {
    var digits := if |s| > 0 && s[0] == '+' then s[1..] else s;
    if |digits| == 0 || !AllDigits(digits) then None
    else if DigitsValue(digits) > 255 then None
    else Some(DigitsValue(digits) as u8)
  }

  /** `z` zero digits. */
  function Zeros(z: nat): (s: string)
    ensures |s| == z && AllDigits(s)
    ensures forall i :: 0 <= i < z ==> s[i] == '0'
  {
    seq(z, _ => '0')
  }

  lemma {:induction false} DecimalValue(n: nat)
    ensures DigitsValue(Decimal(n)) == n
    decreases n
  {
    if n >= 10 {
      var s := Decimal(n);
      assert s[..|s| - 1] == Decimal(n / 10);
      DecimalValue(n / 10);
    }
  }

  /** Leading zeros do not change the value of a digit string. */
  lemma {:induction false} LeadingZerosValue(z: nat, s: string)
    requires AllDigits(s)
    ensures AllDigits(Zeros(z) + s) && DigitsValue(Zeros(z) + s) == DigitsValue(s)
    decreases |s| + z
  {
    var t := Zeros(z) + s;
    if |s| > 0 {
      assert t[..|t| - 1] == Zeros(z) + s[..|s| - 1];
      LeadingZerosValue(z, s[..|s| - 1]);
    } else if z > 0 {
      assert t[..|t| - 1] == Zeros(z - 1) + s;
      LeadingZerosValue(z - 1, s);
    }
  }

  /**
   * Every non-empty digit string is some number of leading zeros followed by
   * the shortest spelling of its value.
   */
  lemma {:induction false} DigitsSpelling(d: string) returns (z: nat, n: nat)
    requires |d| > 0 && AllDigits(d)
    ensures d == Zeros(z) + Decimal(n)
    ensures n == 0 ==> z == |d| - 1
    decreases |d|
  {
    var c := d[|d| - 1];
    var digit := c as int - '0' as int;
    assert DigitChar(digit) == c;
    if |d| == 1 {
      z, n := 0, digit;
      assert d == Zeros(0) + Decimal(n);
    } else {
      var init := d[..|d| - 1];
      assert d == init + [c];
      var z0, n0 := DigitsSpelling(init);
      if n0 == 0 {
        assert init == Zeros(z0 + 1);
        z, n := z0 + 1, digit;
        assert Decimal(n) == [c];
        assert Zeros(z0 + 1) + [c] == Zeros(z) + Decimal(n);
      } else {
        z, n := z0, n0 * 10 + digit;
        assert n / 10 == n0 && n % 10 == digit;
        assert Decimal(n) == Decimal(n0) + [c];
        assert d == Zeros(z0) + Decimal(n0) + [c];
      }
    }
  }

  /**
   * Parsing a decimal spelling of `n`, with `z` leading zeros and with or
   * without `+`, gives `n` back exactly when it fits a `u8`.
   */
  lemma ParseU8Decimal(n: nat, z: nat)
    ensures ParseU8(Zeros(z) + Decimal(n)) == if n < 256 then Some(n as u8) else None
    ensures ParseU8("+" + Zeros(z) + Decimal(n)) == if n < 256 then Some(n as u8) else None
  {
    DecimalValue(n);
    LeadingZerosValue(z, Decimal(n));
    var s := Zeros(z) + Decimal(n);
    assert |s| > 0 && s[0] != '+';
    assert ("+" + s)[1..] == s;
    assert "+" + Zeros(z) + Decimal(n) == "+" + s;
  }

  // ---------------------------------------------------------------------
  // Arguments

  datatype Request = Request(location: string, days: u8)

  /** `args[1]` or "India"; `args[2]` parsed as `u8` (1 on error) and clamped to 1..14, or 1. */
  function ParseArgs(args: seq<string>): (r: Request)
    ensures MinDays <= r.days as int <= MaxDays
    ensures |args| <= 1 ==> r.location == DefaultLocation
    ensures |args| > 1 ==> r.location == args[1]
    ensures |args| <= 2 || ParseU8(args[2]).None? ==> r.days == 1
    ensures |args| > 2 && ParseU8(args[2]).Some? ==>
      r.days as int == Clamp(ParseU8(args[2]).value as int, MinDays, MaxDays)
  {
    var location := if |args| > 1 then args[1] else DefaultLocation;
    var days := if |args| > 2 then Clamp(ParseU8(args[2]).GetOr(1) as int, MinDays, MaxDays) else 1;
    Request(location, days as u8)
  }

  /**
   * A day argument spelled in decimal, leading zeros allowed, is clamped into 1..14 when it fits a
   * `u8`; a larger one fails to parse and falls back to a single day.
   */
  lemma ParseArgsDecimalDays(program: string, location: string, n: nat, z: nat)
    ensures ParseArgs([program, location, Zeros(z) + Decimal(n)])
         == Request(location, (if n < 256 then Clamp(n, MinDays, MaxDays) else 1) as u8)
  {
    ParseU8Decimal(n, z);
  }

  // ---------------------------------------------------------------------
  // Printed lines

  datatype Line =
    | Counts(requested: nat, available: nat)
    | NoForecast
    | DayHeader(date: int)
    | HourLine(time: int, tempC: real, rainChance: real, text: string, red: bool, dimmed: bool)
    | FallbackNotice
    | Summary(requested: nat, available: nat, total: nat)
    | Warning(requested: nat, available: nat)

  /** The printed form of a row the service would build for the same hour. */
  function AsLine(h: HourInfo): Line {
    HourLine(h.time, h.tempC, h.chanceOfRain, h.condition, h.isHighRain, h.isPast)
  }

  function HourLines(hs: seq<HourInfo>): (r: seq<Line>)
    ensures |r| == |hs|
    ensures forall i :: 0 <= i < |hs| ==> r[i] == AsLine(hs[i])
  {
    seq(|hs|, i requires 0 <= i < |hs| => AsLine(hs[i]))
  }

  /** The lines printed for one bucket: its header, the fallback notice if any, its rows. */
  function DayLines(day: ForecastDay, today: int, now: int, offset: int): seq<Line> {
    var d := BuildDay(day, today, now, offset);
    [DayHeader(d.date)]
      + (if NeedsFallback(day.hour, d.isToday, now) then [FallbackNotice] else [])
      + HourLines(d.hours)
  }

  function DaysLines(days: seq<ForecastDay>, today: int, now: int, offset: int): (r: seq<Line>)
    ensures forall l :: l in r ==> l.DayHeader? || l.FallbackNotice? || l.HourLine?
    decreases |days|
  {
    if |days| == 0 then []
    else DaysLines(days[..|days| - 1], today, now, offset) + DayLines(days[|days| - 1], today, now, offset)
  }

  /**
   * Everything `main` prints after the current conditions, for a parsed
   * response `w`, stated through the rows the service builds.
   */
  function Report(w: Weather, days: u8, now: int, offset: int): seq<Line> {
    var today := LocalDate(now, offset);
    var future := FutureDays(w.forecast.forecastday, today, offset, days as int);
    var warning := if days as int > |future| then [Warning(days as int, |future|)] else [];
    var body :=
      if |future| == 0 then [NoForecast]
      else DaysLines(future, today, now, offset) + [Summary(days as int, |future|, |w.forecast.forecastday|)] + warning;
    [Counts(days as int, |future|)] + body
  }

  /** One printed row for hour `h`, built the way the loop body builds it. */
  function PrintedLine(h: HourData, past: bool, offset: int): (l: Line)
    ensures l == AsLine(ToHourInfo(h, past, offset))
  {
    var rain := RainChance(h);
    var text := if past then h.condition.text + PastMarker else h.condition.text;
    HourLine(LocalMinuteOfDay(h.timeEpoch, offset), h.tempC, rain, text, rain >= HighRainThreshold, past)
  }

  /** The `for hour in &day.hour` loop of one bucket: prints the shown hours and counts them. */
  method PrintHours(hours: seq<HourData>, isToday: bool, now: int, offset: int)
    returns (out: seq<Line>, hoursShown: nat)
    ensures out == HourLines(HourInfos(ShownHours(hours, isToday, now), false, offset))
    ensures hoursShown == |ShownHours(hours, isToday, now)|
  {
    out := [];
    hoursShown := 0;
    var j := 0;
    while j < |hours|
      invariant 0 <= j <= |hours|
      invariant hoursShown == |ShownHours(hours[..j], isToday, now)|
      invariant out == HourLines(HourInfos(ShownHours(hours[..j], isToday, now), false, offset))
    {
      var hour := hours[j];
      ShownHoursStep(hours, j, isToday, now);
      if !(isToday && hour.timeEpoch < now - SecondsPerHour) {
        out := out + [PrintedLine(hour, false, offset)];
        hoursShown := hoursShown + 1;
      }
      j := j + 1;
    }
    assert hours[..j] == hours;
  }

  /** The `for hour in day.hour.iter().rev().take(3).rev()` loop: the last three hours, dimmed and marked past. */
  method PrintFallback(hours: seq<HourData>, offset: int) returns (out: seq<Line>)
    ensures out == HourLines(HourInfos(FallbackHours(hours), true, offset))
  {
    var last := FallbackHours(hours);
    out := [];
    var k := 0;
    while k < |last|
      invariant 0 <= k <= |last|
      invariant out == HourLines(HourInfos(last[..k], true, offset))
    {
      assert last[..k + 1] == last[..k] + [last[k]];
      out := out + [PrintedLine(last[k], true, offset)];
      k := k + 1;
    }
    assert last[..k] == last;
  }

  /** The body of the `for day in future_days.iter()` loop. */
  method PrintDay(day: ForecastDay, today: int, now: int, offset: int) returns (out: seq<Line>)
    ensures out == DayLines(day, today, now, offset)
  {
    var dayDate := DayDate(day, offset);
    var isToday := dayDate == today;
    var shownLines, hoursShown := PrintHours(day.hour, isToday, now, offset);
    out := [DayHeader(dayDate)] + shownLines;
    if isToday && hoursShown == 0 {
      var pastLines := PrintFallback(day.hour, offset);
      out := out + [FallbackNotice] + pastLines;
    }
  }

  /** The `for day in future_days.iter()` loop. */
  method PrintDays(future: seq<ForecastDay>, today: int, now: int, offset: int) returns (out: seq<Line>)
    ensures out == DaysLines(future, today, now, offset)
  {
    out := [];
    var i := 0;
    while i < |future|
      invariant 0 <= i <= |future|
      invariant out == DaysLines(future[..i], today, now, offset)
    {
      var dayLines := PrintDay(future[i], today, now, offset);
      DaysLinesStep(future, i, today, now, offset);
      out := out + dayLines;
      i := i + 1;
    }
    assert future[..i] == future;
  }

  /**
   * The body of `main` from the day filter on: what it prints
   * equals the service's rows for the same selection.
   */
  method Run(w: Weather, days: u8, now: int, offset: int) returns (lines: seq<Line>)
    ensures lines == Report(w, days, now, offset)
  {
    var today := LocalDate(now, offset);
    var future := FutureDays(w.forecast.forecastday, today, offset, days as int);
    lines := [Counts(days as int, |future|)];
    if |future| == 0 {
      lines := lines + [NoForecast];
      return;
    }
    var dayLines := PrintDays(future, today, now, offset);
    var warning := if days as int > |future| then [Warning(days as int, |future|)] else [];
    var body := dayLines + [Summary(days as int, |future|, |w.forecast.forecastday|)] + warning;
    assert Report(w, days, now, offset) == [Counts(days as int, |future|)] + body;
    lines := lines + body;
  }

  lemma DaysLinesStep(days: seq<ForecastDay>, i: int, today: int, now: int, offset: int)
    requires 0 <= i < |days|
    ensures DaysLines(days[..i + 1], today, now, offset)
         == DaysLines(days[..i], today, now, offset) + DayLines(days[i], today, now, offset)
  {
    assert days[..i + 1][..i] == days[..i];
  }

  /** One more hour extends the shown hours by that hour exactly when it is shown. */
  lemma ShownHoursStep(hours: seq<HourData>, j: int, isToday: bool, now: int)
    requires 0 <= j < |hours|
    ensures ShownHours(hours[..j + 1], isToday, now)
         == ShownHours(hours[..j], isToday, now)
          + (if isToday && hours[j].timeEpoch < now - SecondsPerHour then [] else [hours[j]])
  {
    assert hours[..j + 1] == hours[..j] + [hours[j]];
    FilterAppend(Fresh(now), hours[..j], hours[j]);
  }

  /**
   * `main` returns right after "No future forecast data available!" exactly
   * when no bucket is selected: none is today or later, or zero days were
   * requested.
   */
  lemma ReportEarlyExit(w: Weather, days: u8, now: int, offset: int)
    ensures var q := QualifyingDays(w.forecast.forecastday, LocalDate(now, offset), offset);
      (Report(w, days, now, offset) == [Counts(days as int, 0), NoForecast]) <==> (days == 0 || |q| == 0)
  {
  }

  /**
   * The warning is printed exactly when at least one bucket is shown and the
   * response has fewer buckets from today on than were requested.
   */
  lemma ReportWarning(w: Weather, days: u8, now: int, offset: int)
    ensures var q := QualifyingDays(w.forecast.forecastday, LocalDate(now, offset), offset);
      (exists l :: l in Report(w, days, now, offset) && l.Warning?) <==> (0 < |q| < days as int)
  {
    var today := LocalDate(now, offset);
    var future := FutureDays(w.forecast.forecastday, today, offset, days as int);
    var lines := Report(w, days, now, offset);
    if 0 < |QualifyingDays(w.forecast.forecastday, today, offset)| < days as int {
      assert lines[|lines| - 1] == Warning(days as int, |future|);
    }
  }

  /** An hour line is red exactly when its rain chance is at least 40; other lines trivially. */
  predicate RedIffHighRain(l: Line) {
    l.HourLine? ==> (l.red <==> l.rainChance >= HighRainThreshold)
  }

  /** A printed hour line is red exactly when its rain chance is at least 40. */
  lemma ReportHighlight(w: Weather, days: u8, now: int, offset: int)
    ensures forall l :: l in Report(w, days, now, offset) && l.HourLine? ==>
      (l.red <==> l.rainChance >= HighRainThreshold)
  {
    var today := LocalDate(now, offset);
    var future := FutureDays(w.forecast.forecastday, today, offset, days as int);
    DaysLinesHighlight(future, today, now, offset);
    forall l | l in Report(w, days, now, offset)
      ensures RedIffHighRain(l)
    {
    }
  }

  lemma DayLinesHighlight(day: ForecastDay, today: int, now: int, offset: int)
    ensures forall l :: l in DayLines(day, today, now, offset) ==> RedIffHighRain(l)
  {
    var d := BuildDay(day, today, now, offset);
    var hl := HourLines(d.hours);
    forall l | l in hl
      ensures RedIffHighRain(l)
    {
      var i :| 0 <= i < |hl| && hl[i] == l;
      assert d.hours[i].isHighRain <==> d.hours[i].chanceOfRain >= HighRainThreshold;
    }
  }

  /** The red rule holds for every day's lines, fallback lines included. */
  lemma {:induction false} DaysLinesHighlight(days: seq<ForecastDay>, today: int, now: int, offset: int)
    ensures forall l :: l in DaysLines(days, today, now, offset) ==> RedIffHighRain(l)
    decreases |days|
  {
    if |days| > 0 {
      DaysLinesHighlight(days[..|days| - 1], today, now, offset);
      DayLinesHighlight(days[|days| - 1], today, now, offset);
    }
  }
}
