# Forecast selection in weatherapi-rustc, modelled in Dafny

The repository contains three near-duplicate weather programs. Each one fetches a
forecast over HTTP and then decides which forecast days and hours to show
relative to "now". This project models that decision in all three variants.

- **`WeatherService::get_weather`** (`src/weather_service.rs`) works on WeatherAPI day
  buckets. It drops buckets whose local date is before today and keeps the first
  `days` of the rest. For today's bucket it drops hours more than one hour before
  now. If that leaves today empty, it shows the last three hours instead, marked
  past. Rain chances of 40 or more are flagged.
- **The terminal program** (`src/bin/cli.rs`) runs the same algorithm, but prints
  lines instead of building records. It also parses its arguments: the location
  defaults to "India", and the day count is parsed as a `u8` and clamped to 1..14.
  It exits early when no day is selected, and it warns when fewer days are
  available than were requested.
- **The web handler** (`src/main.rs`) works on a flat OpenWeatherMap list of
  timestamped items. The day count defaults to 1 and is clamped to 1..5; the query
  route's location defaults to "Delhi". It keeps the items whose local date lies in
  `[today, today + days)` and groups them by date in a `BTreeMap`. From the groups
  it builds the `dates` list and the `chart_data` rows.

The model is pure. The clock is one parameter `now` (epoch seconds). The local
time zone is a fixed `offset` in seconds east of UTC. The parsed response is a
value. A local date is the day number `(t + offset) / 86400`, which is floor
division (`Calendar.LocalDate`). A local time `%H:%M` is the minute of the day
(`Calendar.LocalMinuteOfDay`).

Modules:
- `Primitives`: `u8`, `Option`, `Clamp`.
- `Seqs`: `filter`, `take`, `rev` and the facts about them.
- `Calendar`: local dates and times.
- `Models`: the WeatherAPI response types of `src/models.rs`.
- `Selection`: the day and hour rule that the service and the CLI share.
- `WeatherService`: the `ForecastDayData`/`HourInfo` records.
- `Cli`: argument parsing, plus the print loops as methods. They are proved to
  print exactly the rows the service builds.
- `OrderedGroups`: the `BTreeMap<date, Vec<_>>`, as a list of groups with strictly
  ascending keys.
- `Web`: the handler's requests, window, grouping, `dates` and `chart_data`.
- `Scenarios`: worked examples.

Behaviour of the code worth knowing:
- `get_weather` never sorts the day buckets. "The first `days`" are the first in
  the order of the response.
- A bucket's date is its `date_epoch` converted to the local zone.
- The terminal program prints the "No future hours available for today" notice
  whenever today shows no hour. That includes a today bucket that has no hours at
  all; in that case nothing follows the notice. The service builds an empty row
  list for such a bucket.
- `get_weather` accepts `days == 0` and then selects no day.
- A CLI day argument that does not fit a `u8` is a parse error, so the program
  uses 1 day: "300" gives 1 day, while "200" gives 14 (`Cli.ParseArgsDecimalDays`).
  Leading zeros and a leading `+` are accepted: "007" gives 7.

## Model

| member | source | states |
|---|---|---|
| `Primitives.Clamp` | src/bin/cli.rs:19 | `Ord::clamp`: the result lies in `[lo, hi]`; it is `x` inside the range and the nearer bound outside it |
| `Calendar.LocalDate` | src/weather_service.rs:81-84 | the local date is the day whose 86400-second span (shifted by the offset) contains the instant |
| `Calendar.LocalMinuteOfDay` | src/weather_service.rs:122 | the `%H:%M` time is a minute in 0..1439, and the instant falls inside that minute of its local date |
| `Calendar.LocalDateUnique` | src/weather_service.rs:81-84 | any day whose span contains the instant is its local date |
| `Seqs.FilterSelects` | src/weather_service.rs:80-86 | a `filter` keeps exactly the positions whose element satisfies the predicate, in input order |
| `Seqs.RevTakeRev` | src/weather_service.rs:133 | `rev().take(n).rev()` yields the last `min(n, len)` elements in their original order |
| `Selection.QualifyingDays` | src/weather_service.rs:76-86 | every kept bucket has a local date of today or later, and every such bucket of the response is kept |
| `Selection.FutureDays` | src/weather_service.rs:76-88 | at most `days` buckets, exactly `min(days, qualifying)` of them, all dated today or later, a prefix of the qualifying buckets |
| `Selection.FutureDaysAreFirstQualifying` | src/weather_service.rs:80-88 | the selected buckets sit at increasing response positions and all qualify; a qualifying bucket is left out only when `days` were already taken, all earlier in the response |
| `Selection.ShownHours` | src/weather_service.rs:107-117 | for today, every shown hour is at most one hour old and every such hour is shown; for other days every hour is shown unchanged |
| `Selection.FallbackHours` | src/weather_service.rs:133 | the fallback hours are the last `min(3, n)` hours of the bucket, in original order |
| `Selection.RainChance` | src/weather_service.rs:119 | an absent rain chance counts as 0 |
| `Selection.NeedsFallbackIffAllStale` | src/weather_service.rs:132 | the fallback runs exactly for today when every hour is more than one hour before now |
| `WeatherService.ToHourInfo` | src/weather_service.rs:119-128 | a row carries the hour's rain chance, temperature and local time; past rows get " (past)" after the condition; the high-rain flag holds iff the chance is at least 40 |
| `WeatherService.BuildHours` | src/weather_service.rs:102-148 | no more rows than hours; every row's high-rain flag matches its chance; today with any hour never ends up empty; a bucket without hours gives no rows |
| `WeatherService.BuildDay` | src/weather_service.rs:92-98 | the record's date is the bucket's local date, `is_today` holds exactly when that date is today, and its rows are the bucket's hour rows for that flag |
| `WeatherService.GetWeather` | src/weather_service.rs:73-170 | at most `days` records, exactly `min(days, qualifying)`, none dated before today; `is_today` iff the date is today; `total_days` is the raw bucket count and `requested_days` is `days` |
| `WeatherService.OtherDayKeepsEveryHour` | src/weather_service.rs:108-129 | a day other than today keeps every hour in order, none marked past |
| `WeatherService.TodayKeepsRecentHours` | src/weather_service.rs:108-128 | outside the fallback, today's rows come from exactly the hours with `time_epoch >= now - 3600`, in original order, none marked past |
| `WeatherService.TodayFallsBackToLastHours` | src/weather_service.rs:131-148 | when all of today's hours are stale, the rows are the last `min(3, n)` hours in original order, all past, condition suffixed, rain flag unchanged |
| `WeatherService.GetWeatherTakesFirstQualifyingDays` | src/weather_service.rs:76-98 | each record is built from the bucket at an increasing response position; these are the first qualifying buckets, cut off only at `days` |
| `Cli.ParseU8` | src/bin/cli.rs:19 | `parse::<u8>` rejects the empty string and any non-digit after an optional leading `+` |
| `Cli.DecimalValue` | src/bin/cli.rs:19 | the digits of a decimal spelling evaluate back to the number |
| `Cli.LeadingZerosValue` | src/bin/cli.rs:19 | leading zeros do not change the value of a digit string |
| `Cli.DigitsSpelling` | src/bin/cli.rs:19 | every non-empty digit string is some leading zeros followed by the shortest spelling of a number |
| `Cli.ParseU8Decimal` | src/bin/cli.rs:19 | parsing any decimal spelling, with leading zeros and with or without `+`, returns the number exactly when it is at most 255 and fails otherwise |
| `Cli.ParseArgs` | src/bin/cli.rs:15-22 | the location is `args[1]` or "India"; the day count is in 1..14: 1 without the argument or on a parse error, otherwise the clamped value |
| `Cli.ParseArgsDecimalDays` | src/bin/cli.rs:18-22 | a decimal day argument `n`, leading zeros allowed, gives `clamp(n, 1, 14)` when `n < 256` and 1 otherwise |
| `Cli.PrintedLine` | src/bin/cli.rs:97-115 | a printed hour line carries the same time, temperature, rain chance, text, red flag and past flag as the service's row for that hour |
| `Cli.PrintHours` | src/bin/cli.rs:82-117 | the hour loop prints one line for each shown hour, in order, and counts them |
| `Cli.PrintFallback` | src/bin/cli.rs:122-142 | the fallback loop prints the last three hours, dimmed and marked past |
| `Cli.PrintDay` | src/bin/cli.rs:70-143 | one day prints its header, then the notice and the fallback lines when today shows nothing, then the service's rows |
| `Cli.PrintDays` | src/bin/cli.rs:70-144 | the day loop prints the lines of every selected day in order |
| `Cli.Run` | src/bin/cli.rs:46-160 | what `main` prints from the day filter on equals the report built from the service's selection |
| `Cli.ReportEarlyExit` | src/bin/cli.rs:63-68 | the program prints only the counts and "No future forecast data available!" exactly when no bucket is selected |
| `Cli.ReportWarning` | src/bin/cli.rs:156-160 | the warning is printed exactly when at least one but fewer than `days` buckets are dated today or later |
| `Cli.ReportHighlight` | src/bin/cli.rs:101-115 | every printed hour line is red exactly when its rain chance is at least 40 |
| `Cli.DayLinesHighlight` | src/bin/cli.rs:101-115 | within one day's lines, every hour line is red exactly when its rain chance is at least 40 |
| `Cli.DaysLinesHighlight` | src/bin/cli.rs:137-141 | the red rule also holds for every day's lines, fallback lines included |
| `OrderedGroups.PushWellFormed` | src/main.rs:164 | `entry(key).or_insert_with(Vec::new).push(item)` keeps the keys strictly ascending, every item under its own key, and no list empty |
| `OrderedGroups.PushLookup` | src/main.rs:164 | a push appends the item to the list of its own key and leaves every other key's list unchanged |
| `OrderedGroups.PushFlatten` | src/main.rs:164 | a push adds exactly that item to the map's contents |
| `OrderedGroups.GroupAll` | src/main.rs:148-166 | pushing a sequence of items yields a well-formed ordered map |
| `OrderedGroups.GroupAllLookup` | src/main.rs:150-165 | the list under every key holds exactly the items of that key, in input order |
| `OrderedGroups.GroupAllFlatten` | src/main.rs:150-165 | grouping neither loses nor duplicates an item |
| `OrderedGroups.GroupIsLookup` | src/main.rs:172 | iterating the map yields, for each key, exactly the list stored under it |
| `OrderedGroups.AscendingKeysBounded` | src/main.rs:147-148 | strictly ascending keys inside a window of width `w` number at most `w` |
| `Web.RequestedDays` | src/main.rs:102 | the day count is 1 when absent and is clamped into 1..5 |
| `Web.FromQuery` | src/main.rs:101-102 | the query route's location defaults to "Delhi" and its day count is in 1..5 |
| `Web.FromForm` | src/main.rs:111 | the form route keeps its location and its day count is in 1..5 |
| `Web.QueryAndFormAgree` | src/main.rs:97-113 | both routes derive the same request; they differ only in the location default |
| `Web.ToTemplate` | src/main.rs:155-163 | a template item keeps the response fields, is dated by its local date, and has `pop` times 100 as its percentage, with an absent `pop` as 0 |
| `Web.KeptItems` | src/main.rs:150-153 | no more items than the response, each dated inside `[today, today + days)` |
| `Web.KeptItemsAreWindow` | src/main.rs:146-153 | an item is kept iff its local date `d` satisfies `today <= d < today + days`, and kept items keep response order |
| `Web.GroupedByLocalDate` | src/main.rs:146-172 | the groups ascend by date, lie in the window and number at most `days`; each holds exactly the kept items of its date in input order; nothing is lost or duplicated |
| `Web.ChartRows` | src/main.rs:177-185 | one row per item, with its date, first weather description and percentage |
| `Web.GroupWindow` | src/main.rs:146-166 | the grouping loop builds the ordered map of the kept items |
| `Web.GroupChartRows` | src/main.rs:177-185 | the inner loop emits one chart row per item of a group, in order |
| `Web.DatesAndChart` | src/main.rs:169-186 | `dates` is the key list in iteration order (no key is ever repeated), and `chart_data` is the rows of the groups' items, group after group |
| `Web.FetchAndRender` | src/main.rs:146-196 | `dates` ascends strictly with at most `days` entries inside the window; `chart_data` has one row per kept item in group-then-input order; the grouping is the map of the kept items |
| `Scenarios.MorningKeepsHoursFromLastHour` | src/weather_service.rs:107-117 | at 08:30, hours at 06:00, 07:00, 09:00 and 10:00 leave exactly 09:00 and 10:00 |
| `Scenarios.LateEveningFallsBack` | src/weather_service.rs:131-148 | at 23:00, hours at 01:00-03:00 come back as three past rows in order |
| `Scenarios.ThreeOfFiveDays` | src/weather_service.rs:76-88 | three requested days out of five future days are the three earliest |
| `Scenarios.OnlyPastDays` | src/weather_service.rs:76-88 | a response holding only past days selects nothing |

## Left out

- Fetching: the HTTP requests, URL building, status checks and JSON deserialization (src/weather_service.rs:59-71, src/bin/cli.rs:24-37, src/main.rs:120-144). These are network I/O and serde; the model starts from the parsed response.
- Web plumbing: axum routing, the tokio runtime, `home_page`, Tera rendering, static files and `render_error` (src/main.rs:51-95, 188-220). These are framework code; the model stops at the template context (`Web.View`).
- Environment: `.env` loading and the API key, `WeatherService::new`, and the client objects. These are configuration.
- Informational CLI prints: the argument echo, the current conditions, and the location, temperature and fetch-time summary lines (src/bin/cli.rs:13, 16, 39-44, 150-153). They print the response's own values, so they are not modelled. The colour styling itself is modelled only as the `red` and `dimmed` flags.
- Time zones: the model uses one fixed offset, so there is no DST. A zone whose offset changes during the forecast range is not modelled.
- The clock: the programs read `Local::now()` several times (src/weather_service.rs:73, 100; src/bin/cli.rs:46, 89; src/main.rs:146). The model reads it once, as whole seconds. Sub-second precision can move the one-hour cutoff by at most one second.
- Panics: `from_timestamp(..).unwrap()` and `timestamp_opt(..).unwrap()` panic for instants outside the date library's range. That range is not part of this model, so every `int` is treated as a valid instant. The `weather[0]` panic is modelled as the precondition `Web.Renderable`.
- Web.ToTemplate: `pop_percentage` is the exact real `pop * 100`. The source's `round()` and saturating `as u8` cast are floating-point details and are not modelled; neither is the rounding of `temp` in the chart rows.
- Printed numbers: the terminal program prints temperatures and rain chances with `{:.0}` (src/bin/cli.rs:104, 129), so 39.6 prints as "40%" and still is not red. `Cli.Line` keeps the exact values; the red flag is decided on the exact chance, as in the source.
- Date strings: dates are local day numbers and times are minutes of the day. The `BTreeMap` orders `%Y-%m-%d` strings, which matches day order only for four-digit years; the model orders by day number.
- Cli.ParseU8: integer parsing covers ASCII digits with an optional `+`. This matches Rust's `u8` parser; non-ASCII digits are rejected, as in Rust.
