/**
 * The WeatherAPI.com response shape (`src/models.rs`) that the service and
 * the terminal program deserialize. Epoch fields are `i64` in the source and
 * `int` here; temperatures and rain chances are `f64` and `real` here.
 */
module Models {
  import opened Primitives

  datatype Condition = Condition(text: string)

  datatype HourData = HourData(
    timeEpoch: int,
    tempC: real,
    chanceOfRain: Option<real>,
    condition: Condition)

  datatype ForecastDay = ForecastDay(dateEpoch: int, hour: seq<HourData>)

  datatype Forecast = Forecast(forecastday: seq<ForecastDay>)

  datatype Location = Location(name: string, country: string)

  datatype Current = Current(tempC: real, condition: Condition)

  datatype Weather = Weather(location: Location, current: Current, forecast: Forecast)
}
