/** Turning the last hourly Meteostat row and the daily rows into the canonical
    snapshot: `safe_float`, the current-conditions record and the five-day
    forecast of `get_weather_data` (app.py). */
module Normalize {
  import opened Values

  /** Number of forecast days, `range(1, 6)`. */
  const HORIZON: nat := 5

  /** Seconds in a calendar day, for `now.date()`. */
  const SECONDS_PER_DAY: int := 86400

  /** One cell of a pandas row: the column is absent (`row.get` gives `None`),
      the cell holds NaN, or it holds a number. */
  datatype Cell = Missing | NaN | Num(x: real)

  /** A data-frame row, by provider column name. */
  type Row = map<string, Cell>

  /** `row.get(key)` on a pandas row. */
  function Get(row: Row, key: string): (c: Cell)
    ensures key !in row ==> c == Missing
    ensures key in row ==> c == row[key]
  {
    if key in row then row[key] else Missing
  }

  /** `safe_float(value, default)`: `None` and NaN become the default, any
      number comes back as itself. */
  function SafeFloat(c: Cell, default: Option<real> := None): (r: Option<real>)
    ensures c.Num? ==> r == Some(c.x)
    ensures !c.Num? ==> r == default
  {
    match c
    case Num(x) => Some(x)
    case _ => default
  }

  /** The provider's readings with the default `None`: no number is ever
      invented, in particular no 0 for a missing or NaN cell. */
  lemma SafeFloatNoData(c: Cell)
    ensures SafeFloat(c) == None <==> (c == Missing || c == NaN)
    ensures SafeFloat(c).Some? ==> c == Num(SafeFloat(c).value)
  {
  }

  /** The calendar day of a time given in seconds (`datetime.date()`). */
  function Day(t: int): (d: int)
    ensures d * SECONDS_PER_DAY <= t < (d + 1) * SECONDS_PER_DAY
  {
    t / SECONDS_PER_DAY
  }

  /** An hourly row: its index label (a time) and its cells. */
  datatype HourlyRow = HourlyRow(time: int, values: Row)

  /** The `current_weather` record. */
  datatype CurrentWeather = CurrentWeather(
    temperature: Option<real>,
    dewPoint: Option<real>,
    humidity: Option<real>,
    cloudCover: Option<real>,
    windSpeed: Option<real>,
    windDirection: Option<real>,
    pressure: Option<real>,
    precipitation: Option<real>,
    timestamp: int)

  /** Current conditions from one hourly row, each field from a fixed column. */
  function CurrentWeatherOf(hour: HourlyRow): CurrentWeather
  {
    var v := hour.values;
    CurrentWeather(
      SafeFloat(Get(v, "temp")),
      SafeFloat(Get(v, "dwpt")),
      SafeFloat(Get(v, "rhum")),
      SafeFloat(Get(v, "coco")),
      SafeFloat(Get(v, "wspd")),
      SafeFloat(Get(v, "wdir")),
      SafeFloat(Get(v, "pres")),
      SafeFloat(Get(v, "prcp")),
      hour.time)
  }

  /** True when the provider gave no number under `key`. */
  predicate NoData(row: Row, key: string)
  {
    Get(row, key) == Missing || Get(row, key) == NaN
  }

  /** Every current-conditions field is "no data" exactly when its column is
      absent or NaN, and otherwise holds that column's number; the timestamp
      is the row's own time. */
  lemma CurrentWeatherNoData(hour: HourlyRow)
    ensures var w, v := CurrentWeatherOf(hour), hour.values;
      (w.temperature == None <==> NoData(v, "temp")) &&
      (w.dewPoint == None <==> NoData(v, "dwpt")) &&
      (w.humidity == None <==> NoData(v, "rhum")) &&
      (w.cloudCover == None <==> NoData(v, "coco")) &&
      (w.windSpeed == None <==> NoData(v, "wspd")) &&
      (w.windDirection == None <==> NoData(v, "wdir")) &&
      (w.pressure == None <==> NoData(v, "pres")) &&
      (w.precipitation == None <==> NoData(v, "prcp")) &&
      (w.temperature.Some? ==> Get(v, "temp") == Num(w.temperature.value)) &&
      (w.dewPoint.Some? ==> Get(v, "dwpt") == Num(w.dewPoint.value)) &&
      (w.humidity.Some? ==> Get(v, "rhum") == Num(w.humidity.value)) &&
      (w.cloudCover.Some? ==> Get(v, "coco") == Num(w.cloudCover.value)) &&
      (w.windSpeed.Some? ==> Get(v, "wspd") == Num(w.windSpeed.value)) &&
      (w.windDirection.Some? ==> Get(v, "wdir") == Num(w.windDirection.value)) &&
      (w.pressure.Some? ==> Get(v, "pres") == Num(w.pressure.value)) &&
      (w.precipitation.Some? ==> Get(v, "prcp") == Num(w.precipitation.value)) &&
      w.timestamp == hour.time
  {
    var v := hour.values;
    SafeFloatNoData(Get(v, "temp"));
    SafeFloatNoData(Get(v, "dwpt"));
    SafeFloatNoData(Get(v, "rhum"));
    SafeFloatNoData(Get(v, "coco"));
    SafeFloatNoData(Get(v, "wspd"));
    SafeFloatNoData(Get(v, "wdir"));
    SafeFloatNoData(Get(v, "pres"));
    SafeFloatNoData(Get(v, "prcp"));
  }

  /** One entry of the forecast list. The date is a day number. */
  datatype ForecastDay = ForecastDay(
    date: int,
    temperatureAvg: Option<real>,
    temperatureMin: Option<real>,
    temperatureMax: Option<real>,
    precipitation: Option<real>,
    windSpeedAvg: Option<real>,
    pressureAvg: Option<real>)

  /** All six numeric fields are `None`. */
  predicate IsPlaceholder(d: ForecastDay)
  {
    d.temperatureAvg == None && d.temperatureMin == None && d.temperatureMax == None &&
    d.precipitation == None && d.windSpeedAvg == None && d.pressureAvg == None
  }

  /** The entry for `date`: taken from that day's row when the daily data has
      one, a placeholder otherwise. */
  function ForecastEntry(date: int, daily: map<int, Row>): (d: ForecastDay)
    ensures d.date == date
    ensures date !in daily ==> IsPlaceholder(d)
    ensures date in daily ==>
      d.temperatureAvg == SafeFloat(Get(daily[date], "tavg")) &&
      d.temperatureMin == SafeFloat(Get(daily[date], "tmin")) &&
      d.temperatureMax == SafeFloat(Get(daily[date], "tmax")) &&
      d.precipitation == SafeFloat(Get(daily[date], "prcp")) &&
      d.windSpeedAvg == SafeFloat(Get(daily[date], "wspd")) &&
      d.pressureAvg == SafeFloat(Get(daily[date], "pres"))
  {
    if date in daily then
      var row := daily[date];
      ForecastDay(date,
        SafeFloat(Get(row, "tavg")),
        SafeFloat(Get(row, "tmin")),
        SafeFloat(Get(row, "tmax")),
        SafeFloat(Get(row, "prcp")),
        SafeFloat(Get(row, "wspd")),
        SafeFloat(Get(row, "pres")))
    else
      ForecastDay(date, None, None, None, None, None, None)
  }

  /** Reference definition: the entries for the `n` days starting at `first`. */
  function ForecastFrom(first: int, n: nat, daily: map<int, Row>): seq<ForecastDay>
    decreases n
  {
    if n == 0 then [] else [ForecastEntry(first, daily)] + ForecastFrom(first + 1, n - 1, daily)
  }

  /** The forecast for a request made on day `today`. */
  function Forecast(today: int, daily: map<int, Row>): seq<ForecastDay>
  {
    ForecastFrom(today + 1, HORIZON, daily)
  }

  /** The reference definition has `n` entries and entry `i` is the one for
      day `first + i`. */
  lemma {:induction false} ForecastFromAt(first: int, n: nat, daily: map<int, Row>, i: int)
    requires 0 <= i < n
    decreases n
    ensures |ForecastFrom(first, n, daily)| == n
    ensures ForecastFrom(first, n, daily)[i] == ForecastEntry(first + i, daily)
  {
    if i > 0 {
      ForecastFromAt(first + 1, n - 1, daily, i - 1);
    } else if n > 1 {
      ForecastFromAt(first + 1, n - 1, daily, 0);
    }
  }

  /** Appending the entry after the last one extends the reference definition
      by one day. */
  lemma {:induction false} ForecastFromSnoc(first: int, n: nat, daily: map<int, Row>)
    decreases n
    ensures ForecastFrom(first, n + 1, daily) ==
            ForecastFrom(first, n, daily) + [ForecastEntry(first + n, daily)]
  {
    if n > 0 {
      ForecastFromSnoc(first + 1, n - 1, daily);
    }
  }

  /** The forecast has exactly `HORIZON` entries whatever the daily data holds;
      entry `i` is for day `today + 1 + i`, so the dates are consecutive and
      strictly ascending from the day after `today`; a day missing from the
      daily data is a placeholder, a day present is taken from its row. */
  lemma ForecastShape(today: int, daily: map<int, Row>)
    ensures var f := Forecast(today, daily);
      |f| == HORIZON &&
      (forall i :: 0 <= i < |f| ==> f[i] == ForecastEntry(today + 1 + i, daily)) &&
      (forall i :: 0 <= i < |f| ==> f[i].date == today + 1 + i) &&
      (forall i, j :: 0 <= i < j < |f| ==> f[i].date < f[j].date) &&
      (forall i :: 0 <= i < |f| ==> (f[i].date !in daily ==> IsPlaceholder(f[i])))
  {
    var f := Forecast(today, daily);
    ForecastFromAt(today + 1, HORIZON, daily, 0);
    forall i | 0 <= i < |f|
      ensures f[i] == ForecastEntry(today + 1 + i, daily)
    {
      ForecastFromAt(today + 1, HORIZON, daily, i);
    }
  }

  /** The `for i in range(1, 6)` loop of app.py that appends one entry per
      day after `today`. */
  method BuildForecast(today: int, daily: map<int, Row>) returns (forecast: seq<ForecastDay>)
    ensures forecast == Forecast(today, daily)
  {
    forecast := [];
    for i := 1 to HORIZON + 1
      invariant forecast == ForecastFrom(today + 1, i - 1, daily)
    {
      ForecastFromSnoc(today + 1, i - 1, daily);
      forecast := forecast + [ForecastEntry(today + i, daily)];
    }
  }

  /** The location descriptor. */
  datatype Location = Location(lat: real, lon: real, name: string)

  /** The single configured location, hard-coded in app.py. */
  const BAREILLY: Location := Location(28.336485, 79.402418, "Bareilly")

  /** The `weather_data` dictionary. */
  datatype Snapshot = Snapshot(
    current: CurrentWeather,
    forecast: seq<ForecastDay>,
    location: Location,
    lastUpdated: int)

  /** A snapshot whose forecast has the fixed length and consecutive dates. */
  predicate WellFormed(s: Snapshot)
  {
    |s.forecast| == HORIZON &&
    forall i :: 0 <= i < |s.forecast| - 1 ==> s.forecast[i + 1].date == s.forecast[i].date + 1
  }

  /** The snapshot built from the last hourly row and the daily rows for a
      request on day `today`, stamped `stamp`. */
  function NormalizeSnapshot(last: HourlyRow, daily: map<int, Row>, today: int, stamp: int): (s: Snapshot)
    ensures WellFormed(s)
    ensures s.current == CurrentWeatherOf(last)
    ensures |s.forecast| == HORIZON && s.forecast[0].date == today + 1
    ensures s.location == BAREILLY && s.lastUpdated == stamp
  {
    ForecastShape(today, daily);
    Snapshot(CurrentWeatherOf(last), Forecast(today, daily), BAREILLY, stamp)
  }
}
