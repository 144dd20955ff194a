/**
 * The web handler (src/main.rs) over an OpenWeatherMap-style response: the
 * day-count defaults and clamp of both routes, and `fetch_and_render_weather`'s
 * date window, its `BTreeMap` grouping by local date, and the `dates` and
 * `chart_data` lists it hands to the template.
 */
module Web {
  import opened Primitives
  import opened Seqs
  import opened Calendar
  import opened OrderedGroups

  const DefaultLocation: string := "Delhi"
  const MinDays: int := 1
  const MaxDays: int := 5

  // ---------------------------------------------------------------------
  // Response shape (fields the handler reads)

  datatype MainInfo = MainInfo(temp: real)

  datatype Description = Description(description: string)

  /** One 3-hourly forecast item; `pop` is a probability in 0..1. */
  datatype ListItem = ListItem(dt: int, main: MainInfo, weather: seq<Description>, pop: Option<real>)

  datatype City = City(name: string, country: string)

  datatype Weather = Weather(city: City, list: seq<ListItem>)

  // ---------------------------------------------------------------------
  // Requests

  datatype WeatherQuery = WeatherQuery(location: Option<string>, days: Option<u8>)

  datatype WeatherForm = WeatherForm(location: string, days: Option<u8>)

  datatype Request = Request(location: string, days: u8)

  /** `days.unwrap_or(1).clamp(1, 5)`. */
  function RequestedDays(days: Option<u8>): (d: u8)
    ensures MinDays <= d as int <= MaxDays
    ensures days.None? ==> d == 1
    ensures days.Some? && MinDays <= days.value as int <= MaxDays ==> d == days.value
    ensures days.Some? && days.value as int < MinDays ==> d as int == MinDays
    ensures days.Some? && days.value as int > MaxDays ==> d as int == MaxDays
  {
    Clamp(days.GetOr(1) as int, MinDays, MaxDays) as u8
  }

  /** `get_weather_query`: the location defaults to "Delhi". */
  function FromQuery(q: WeatherQuery): (r: Request)
    ensures q.location.None? ==> r.location == DefaultLocation
    ensures q.location.Some? ==> r.location == q.location.value
    ensures MinDays <= r.days as int <= MaxDays
  {
    Request(q.location.GetOr(DefaultLocation), RequestedDays(q.days))
  }

  /** `get_weather`: the form always carries a location. */
  function FromForm(f: WeatherForm): (r: Request)
    ensures r.location == f.location
    ensures MinDays <= r.days as int <= MaxDays
  {
    Request(f.location, RequestedDays(f.days))
  }

  /** Both routes treat the day count alike; they differ only in the location default. */
  lemma QueryAndFormAgree(location: string, days: Option<u8>)
    ensures FromQuery(WeatherQuery(Some(location), days)) == FromForm(WeatherForm(location, days))
    ensures FromQuery(WeatherQuery(None, days)) == FromForm(WeatherForm(DefaultLocation, days))
  {
  }

  // ---------------------------------------------------------------------
  // Date window

  /** An item whose local date `d` satisfies `today <= d < today + days`. */
  predicate InWindowAt(item: ListItem, today: int, days: int, offset: int) {
    today <= LocalDate(item.dt, offset) < today + days
  }

  function InWindow(today: int, days: int, offset: int): ListItem -> bool {
    item => InWindowAt(item, today, days, offset)
  }

  /** `TemplateForcastItem`: `time` and `date` are what `%H:%M` and `%Y-%m-%d` print. */
  datatype TemplateItem = TemplateItem(
    dt: int,
    main: MainInfo,
    weather: seq<Description>,
    pop: Option<real>,
    popPercentage: real,
    time: int,
    date: int)

  function ToTemplate(item: ListItem, offset: int): (t: TemplateItem)
    ensures t.dt == item.dt && t.weather == item.weather && t.main == item.main && t.pop == item.pop
    ensures t.date == LocalDate(item.dt, offset)
    ensures item.pop.None? ==> t.popPercentage == 0.0
    ensures item.pop.Some? ==> t.popPercentage == item.pop.value * 100.0
  {
    TemplateItem(
      item.dt,
      item.main,
      item.weather,
      item.pop,
      item.pop.GetOr(0.0) * 100.0,
      LocalMinuteOfDay(item.dt, offset),
      LocalDate(item.dt, offset))
  }

  /** The grouping key: the item's local date. */
  function DateKey(t: TemplateItem): int {
    t.date
  }

  /** The template items built for the items inside the window, in response order. */
  function KeptItems(list: seq<ListItem>, today: int, days: int, offset: int): (r: seq<TemplateItem>)
    ensures |r| <= |list|
    ensures forall i :: 0 <= i < |r| ==> today <= r[i].date < today + days
  {
    var kept := Filter(InWindow(today, days, offset), list);
    seq(|kept|, i requires 0 <= i < |kept| => ToTemplate(kept[i], offset))
  }

  lemma KeptItemsStep(list: seq<ListItem>, i: int, today: int, days: int, offset: int)
    requires 0 <= i < |list|
    ensures KeptItems(list[..i + 1], today, days, offset)
         == KeptItems(list[..i], today, days, offset)
          + (if InWindowAt(list[i], today, days, offset) then [ToTemplate(list[i], offset)] else [])
  {
    assert list[..i + 1] == list[..i] + [list[i]];
    FilterAppend(InWindow(today, days, offset), list[..i], list[i]);
  }

  /**
   * The kept items are exactly the items inside the window, in response
   * order: position `j` of the response is kept iff its local date lies in
   * `[today, today + days)`.
   */
  lemma {:induction false} KeptItemsAreWindow(list: seq<ListItem>, today: int, days: int, offset: int)
    returns (idx: seq<int>)
    ensures var r := KeptItems(list, today, days, offset);
      && |r| == |idx|
      && (forall i, k :: 0 <= i < k < |idx| ==> idx[i] < idx[k])
      && (forall i :: 0 <= i < |idx| ==> 0 <= idx[i] < |list| && r[i] == ToTemplate(list[idx[i]], offset))
      && (forall j :: 0 <= j < |list| ==>
            (today <= LocalDate(list[j].dt, offset) < today + days <==> j in idx))
  {
    idx := FilterSelects(InWindow(today, days, offset), list);
    forall j | 0 <= j < |list|
      ensures today <= LocalDate(list[j].dt, offset) < today + days <==> j in idx
    {
      assert InWindow(today, days, offset)(list[j]) <==> InWindowAt(list[j], today, days, offset);
    }
  }

  // ---------------------------------------------------------------------
  // Grouping, dates and chart rows

  function Grouped(list: seq<ListItem>, today: int, days: int, offset: int): seq<Group<TemplateItem>> {
    GroupAll(DateKey, KeptItems(list, today, days, offset))
  }

  /**
   * The groups come out in ascending date order, at most `days` of them,
   * every one inside the window; each kept item lands in the group of its
   * own date, in response order, and no item is lost or duplicated.
   */
  lemma GroupedByLocalDate(list: seq<ListItem>, today: int, days: int, offset: int)
    ensures var g := Grouped(list, today, days, offset);
      var kept := KeptItems(list, today, days, offset);
      && (forall i, j :: 0 <= i < j < |g| ==> g[i].key < g[j].key)
      && (forall i :: 0 <= i < |g| ==> today <= g[i].key < today + days)
      && |g| <= (if days >= 0 then days else 0)
      && (forall i, j :: 0 <= i < |g| && 0 <= j < |g[i].items| ==> g[i].items[j].date == g[i].key)
      && (forall i :: 0 <= i < |g| ==> g[i].items == Filter(KeyIs(DateKey, g[i].key), kept))
      && multiset(Flatten(g)) == multiset(kept)
  {
    var g := Grouped(list, today, days, offset);
    var kept := KeptItems(list, today, days, offset);
    GroupAllFlatten(DateKey, kept);
    forall i | 0 <= i < |g|
      ensures today <= g[i].key < today + days
      ensures g[i].items == Filter(KeyIs(DateKey, g[i].key), kept)
    {
      GroupIsLookup(g, DateKey, i);
      GroupAllLookup(DateKey, kept, g[i].key);
      assert DateKey(g[i].items[0]) == g[i].key;
      assert g[i].items[0] in kept;
    }
    AscendingKeysBounded(g, today, today + days);
  }

  datatype ChartRow = ChartRow(date: int, time: int, temp: real, description: string, pop: real)

  /** Every item has a first weather entry (`weather[0]` panics otherwise). */
  predicate Describable(items: seq<TemplateItem>) {
    forall i :: 0 <= i < |items| ==> |items[i].weather| > 0
  }

  function ToChartRow(t: TemplateItem): ChartRow
    requires |t.weather| > 0
  {
    ChartRow(t.date, t.time, t.main.temp, t.weather[0].description, t.popPercentage)
  }

  function ChartRows(items: seq<TemplateItem>): (r: seq<ChartRow>)
    requires Describable(items)
    ensures |r| == |items|
    ensures forall i :: 0 <= i < |items| ==>
      r[i].date == items[i].date && r[i].pop == items[i].popPercentage
      && r[i].description == items[i].weather[0].description
  {
    seq(|items|, i requires 0 <= i < |items| => ToChartRow(items[i]))
  }

  /** Every group's items have a first weather entry. */
  predicate GroupsDescribable(g: seq<Group<TemplateItem>>) {
    forall i :: 0 <= i < |g| ==> Describable(g[i].items)
  }

  lemma {:induction false} FlattenDescribable(g: seq<Group<TemplateItem>>)
    requires GroupsDescribable(g)
    ensures Describable(Flatten(g))
    decreases |g|
  {
    if |g| > 0 {
      FlattenDescribable(g[1..]);
    }
  }

  lemma {:induction false} FlattenSnoc<T>(g: seq<Group<T>>, h: Group<T>)
    ensures Flatten(g + [h]) == Flatten(g) + h.items
    decreases |g|
  {
    if |g| > 0 {
      assert (g + [h])[1..] == g[1..] + [h];
      FlattenSnoc(g[1..], h);
    }
  }

  /** The items inside the window are the ones the handler reads `weather[0]` of. */
  predicate Renderable(f: Weather, days: u8, now: int, offset: int) {
    forall i :: 0 <= i < |f.list| && InWindowAt(f.list[i], LocalDate(now, offset), days as int, offset) ==>
      |f.list[i].weather| > 0
  }

  /** The context values the handler passes to the `weather.html` template. */
  datatype View = View(
    location: string,
    country: string,
    days: u8,
    grouped: seq<Group<TemplateItem>>,
    chartData: seq<ChartRow>,
    dates: seq<int>)

  /** The `for item in &weather.list` loop that fills the `BTreeMap`. */
  method GroupWindow(list: seq<ListItem>, today: int, days: u8, offset: int)
    returns (grouped: seq<Group<TemplateItem>>)
    ensures grouped == Grouped(list, today, days as int, offset)
  {
    var cutoff := today + days as int;
    grouped := [];
    var i := 0;
    while i < |list|
      invariant 0 <= i <= |list|
      invariant grouped == GroupAll(DateKey, KeptItems(list[..i], today, days as int, offset))
    {
      var item := list[i];
      var date := LocalDate(item.dt, offset);
      GroupedStep(list, i, today, days as int, offset);
      if date >= today && date < cutoff {
        grouped := Push(grouped, DateKey, ToTemplate(item, offset));
      }
      i := i + 1;
    }
    assert list[..i] == list;
  }

  lemma GroupedStep(list: seq<ListItem>, i: int, today: int, days: int, offset: int)
    requires 0 <= i < |list|
    ensures var before := GroupAll(DateKey, KeptItems(list[..i], today, days, offset));
      GroupAll(DateKey, KeptItems(list[..i + 1], today, days, offset))
      == if InWindowAt(list[i], today, days, offset) then Push(before, DateKey, ToTemplate(list[i], offset)) else before
  {
    var a := KeptItems(list[..i], today, days, offset);
    var b := KeptItems(list[..i + 1], today, days, offset);
    KeptItemsStep(list, i, today, days, offset);
    if InWindowAt(list[i], today, days, offset) {
      var x := ToTemplate(list[i], offset);
      assert b == a + [x];
      GroupAllSnoc(DateKey, a, x);
    } else {
      assert b == a;
    }
  }

  /** The inner `chart_data` loop over one group's items. */
  method GroupChartRows(items: seq<TemplateItem>) returns (rows: seq<ChartRow>)
    requires Describable(items)
    ensures rows == ChartRows(items)
  {
    rows := [];
    var j := 0;
    while j < |items|
      invariant 0 <= j <= |items|
      invariant rows == ChartRows(items[..j])
    {
      var forecast := items[j];
      rows := rows + [ChartRow(forecast.date, forecast.time, forecast.main.temp,
                               forecast.weather[0].description, forecast.popPercentage)];
      j := j + 1;
    }
    assert items[..j] == items;
  }

  /** One more group adds its key to the key list, and that key is new. */
  lemma KeysStep<T>(grouped: seq<Group<T>>, g: int)
    requires Ascending(grouped)
    requires 0 <= g < |grouped|
    ensures grouped[g].key !in Keys(grouped[..g])
    ensures Keys(grouped[..g + 1]) == Keys(grouped[..g]) + [grouped[g].key]
  {
    var ks := Keys(grouped[..g]);
    forall i | 0 <= i < |ks|
      ensures ks[i] != grouped[g].key
    {
      assert ks[i] == grouped[i].key;
    }
  }

  /** One more group appends the chart rows of its items. */
  lemma ChartStep(grouped: seq<Group<TemplateItem>>, g: int)
    requires GroupsDescribable(grouped)
    requires 0 <= g < |grouped|
    ensures Describable(Flatten(grouped[..g])) && Describable(Flatten(grouped[..g + 1]))
    ensures ChartRows(Flatten(grouped[..g + 1]))
         == ChartRows(Flatten(grouped[..g])) + ChartRows(grouped[g].items)
  {
    assert grouped[..g + 1] == grouped[..g] + [grouped[g]];
    FlattenSnoc(grouped[..g], grouped[g]);
    assert GroupsDescribable(grouped[..g]);
    FlattenDescribable(grouped[..g]);
    FlattenDescribable(grouped[..g + 1]);
  }

  /** The loop over the `BTreeMap` that fills `dates` and `chart_data`. */
  method DatesAndChart(grouped: seq<Group<TemplateItem>>) returns (dates: seq<int>, chart: seq<ChartRow>)
    requires Ascending(grouped)
    requires GroupsDescribable(grouped)
    ensures dates == Keys(grouped)
    ensures Describable(Flatten(grouped)) && chart == ChartRows(Flatten(grouped))
  {
    dates := [];
    chart := [];
    var g := 0;
    while g < |grouped|
      invariant 0 <= g <= |grouped|
      invariant dates == Keys(grouped[..g])
      invariant GroupsDescribable(grouped[..g])
      invariant Describable(Flatten(grouped[..g])) && chart == ChartRows(Flatten(grouped[..g]))
    {
      var dateStr := grouped[g].key;
      KeysStep(grouped, g);
      if dateStr !in dates {
        dates := dates + [dateStr];
      } else {
        assert false;
      }
      var rows := GroupChartRows(grouped[g].items);
      ChartStep(grouped, g);
      chart := chart + rows;
      g := g + 1;
    }
    assert grouped[..g] == grouped;
  }

  /**
   * `fetch_and_render_weather` after the response is parsed: the template
   * context for `days` days starting today.
   */
  method FetchAndRender(f: Weather, days: u8, now: int, offset: int) returns (view: View)
    requires Renderable(f, days, now, offset)
    ensures var today := LocalDate(now, offset);
      && view.grouped == Grouped(f.list, today, days as int, offset)
      && view.dates == Keys(view.grouped)
      && |view.dates| <= days as int
      && (forall i, j :: 0 <= i < j < |view.dates| ==> view.dates[i] < view.dates[j])
      && (forall i :: 0 <= i < |view.dates| ==> today <= view.dates[i] < today + days as int)
      && Describable(Flatten(view.grouped))
      && view.chartData == ChartRows(Flatten(view.grouped))
      && |view.chartData| == |KeptItems(f.list, today, days as int, offset)|
      && view.location == f.city.name && view.country == f.city.country && view.days == days
  {
    var today := LocalDate(now, offset);
    var grouped := GroupWindow(f.list, today, days, offset);
    var kept := KeptItems(f.list, today, days as int, offset);
    GroupedByLocalDate(f.list, today, days as int, offset);
    KeptDescribable(f, days, now, offset);
    forall i | 0 <= i < |grouped|
      ensures Describable(grouped[i].items)
    {
      forall j | 0 <= j < |grouped[i].items|
        ensures |grouped[i].items[j].weather| > 0
      {
        assert grouped[i].items[j] in multiset(kept);
      }
    }
    var dates, chart := DatesAndChart(grouped);
    assert |Flatten(grouped)| == |kept| by {
      assert |multiset(Flatten(grouped))| == |multiset(kept)|;
    }
    view := View(f.city.name, f.city.country, days, grouped, chart, dates);
  }

  lemma KeptDescribable(f: Weather, days: u8, now: int, offset: int)
    requires Renderable(f, days, now, offset)
    ensures Describable(KeptItems(f.list, LocalDate(now, offset), days as int, offset))
  {
    var today := LocalDate(now, offset);
    var kept := Filter(InWindow(today, days as int, offset), f.list);
    forall i | 0 <= i < |kept|
      ensures |kept[i].weather| > 0
    {
      assert InWindow(today, days as int, offset)(kept[i]);
      var j :| 0 <= j < |f.list| && f.list[j] == kept[i];
    }
  }
}
