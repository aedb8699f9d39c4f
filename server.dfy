/** The process-wide state of app.py as one object: the thirteen telemetry
    globals and the two weather-cache globals, with the three operations that
    read and write them (`get_weather_data`, `receive_data`,
    `get_combined_data`). HTTP routing and serialisation are not modelled. */
module Server {
  import opened Values
  import opened Normalize
  import opened Cache
  import opened Telemetry

  /** The reply of `receive_data`: `{"status": "success", ...}` or the
      `{"status": "error", ...}` reply of its exception handler. */
  datatype ReceiveReply = Received | Rejected

  /** The `combined_data` dictionary. */
  datatype CombinedView = CombinedView(esp32Data: Telemetry, weatherData: WeatherResult, timestamp: int)

  class App {
    var boxTemp: Json
    var frequency: Json
    var powerFactor: Json
    var voltage: Json
    var current: Json
    var power: Json
    var energy: Json
    var solarVoltage: Json
    var solarCurrent: Json
    var solarPower: Json
    var batteryPercentage: Json
    var lightIntensity: Json
    var batteryVoltage: Json

    var weatherCache: Option<Snapshot>
    var weatherLastUpdated: Option<int>

    /** How many times the upstream provider has been contacted. */
    ghost var fetches: nat

    /** The telemetry slot as `get_combined_data` reports it. */
    function Esp32Data(): Telemetry
      reads this
    {
      Telemetry(boxTemp, voltage, current, power, energy, frequency, powerFactor,
                solarVoltage, solarCurrent, solarPower, batteryPercentage,
                batteryVoltage, lightIntensity)
    }

    /** The two cache cells. */
    function CacheCells(): CacheState
      reads this
    {
      CacheState(weatherCache, weatherLastUpdated)
    }

    ghost predicate Valid()
      reads this
    {
      Cache.Valid(CacheCells())
    }

    /** Module load: every global is `None`. */
    constructor ()
      ensures Valid()
      ensures Esp32Data() == NO_SAMPLE && CacheCells() == EMPTY && fetches == 0
    {
      boxTemp, frequency, powerFactor, voltage, current, power, energy := Null, Null, Null, Null, Null, Null, Null;
      solarVoltage, solarCurrent, solarPower := Null, Null, Null;
      batteryPercentage, lightIntensity, batteryVoltage := Null, Null, Null;
      weatherCache, weatherLastUpdated := None, None;
      fetches := 0;
    }

    /** `get_weather_data`: serve the cached snapshot while it is fresh,
        otherwise fetch, normalise and, on success only, store. */
    method GetWeatherData(clock: Clock, fetch: Fetched) returns (r: WeatherResult)
      requires Valid()
      modifies this`weatherCache, this`weatherLastUpdated, this`fetches
      ensures Valid()
      ensures (r, CacheCells()) == Step(old(CacheCells()), clock, fetch)
      ensures IsHit(old(CacheCells()), clock.check) ==>
        r == Weather(old(weatherCache).value) && CacheCells() == old(CacheCells()) && fetches == old(fetches)
      ensures !IsHit(old(CacheCells()), clock.check) ==> fetches == old(fetches) + 1
      ensures r.WeatherError? ==> CacheCells() == old(CacheCells())
      ensures r.Weather? && !IsHit(old(CacheCells()), clock.check) ==>
        weatherCache == Some(r.snapshot) && weatherLastUpdated == Some(clock.store)
      ensures r.Weather? ==> WellFormed(r.snapshot)
    {
      if weatherCache.Some? && weatherLastUpdated.Some? {
        if clock.check - weatherLastUpdated.value < CACHE_DURATION {
          return Weather(weatherCache.value);
        }
      }
      fetches := fetches + 1;
      match fetch
      case FetchFailed(msg) =>
        r := WeatherError(msg);
      case Frames(hourly, hourlyColumns, daily, dailyColumns) =>
        if FrameEmpty(|hourly|, hourlyColumns) || FrameEmpty(|daily|, dailyColumns) {
          return WeatherError(NO_DATA);
        }
        var currentHour := hourly[|hourly| - 1];
        var currentWeather := CurrentWeatherOf(currentHour);
        var forecast := BuildForecast(Day(clock.fetch), daily);
        var weatherData := Snapshot(currentWeather, forecast, BAREILLY, clock.stamp);
        assert weatherData == NormalizeSnapshot(currentHour, daily, Day(clock.fetch), clock.stamp);
        weatherCache := Some(weatherData);
        weatherLastUpdated := Some(clock.store);
        r := Weather(weatherData);
    }

    /** The thirteen assignments of `receive_data`: each global takes the
        value of its fixed payload key, whatever it held before. */
    method StoreSample(data: map<string, Json>)
      modifies this`boxTemp, this`frequency, this`powerFactor, this`voltage, this`current,
               this`power, this`energy, this`solarVoltage, this`solarCurrent, this`solarPower,
               this`batteryPercentage, this`lightIntensity, this`batteryVoltage
      ensures Esp32Data() == FromPayload(data)
    {
      var sample := FromPayload(data);
      boxTemp := sample.boxTemperature;
      frequency := sample.frequency;
      powerFactor := sample.powerFactor;
      voltage := sample.voltage;
      current := sample.current;
      power := sample.power;
      energy := sample.energy;
      solarVoltage := sample.solarVoltage;
      solarCurrent := sample.solarCurrent;
      solarPower := sample.solarPower;
      batteryPercentage := sample.batteryPercentage;
      lightIntensity := sample.lightIntensity;
      batteryVoltage := sample.batteryVoltage;
    }

    /** `receive_data`: a JSON object replaces all thirteen globals (a missing
        key gives `None`), then the weather cache is consulted; the reply is a
        success whatever the weather leg returned. A body that is not a JSON
        object makes `data.get` raise before any global is written. */
    method ReceiveData(body: Option<Json>, clock: Clock, fetch: Fetched) returns (reply: ReceiveReply)
      requires Valid()
      modifies this
      ensures Valid()
      ensures reply == Received <==> body.Some? && body.value.Obj?
      ensures reply == Received ==>
        Esp32Data() == FromPayload(body.value.fields) &&
        CacheCells() == Step(old(CacheCells()), clock, fetch).1 &&
        fetches == old(fetches) + (if IsHit(old(CacheCells()), clock.check) then 0 else 1)
      ensures reply == Rejected ==>
        Esp32Data() == old(Esp32Data()) && CacheCells() == old(CacheCells()) && fetches == old(fetches)
    {
      if !(body.Some? && body.value.Obj?) {
        return Rejected;
      }
      StoreSample(body.value.fields);
      var weatherData := GetWeatherData(clock, fetch);
      reply := Received;
    }

    /** `get_combined_data`: the telemetry slot as it stands, next to whatever
        `get_weather_data` returned (snapshot or error), and the composition
        time. The telemetry leg is never suppressed by the weather leg. */
    method GetCombinedData(clock: Clock, composedAt: int, fetch: Fetched) returns (v: CombinedView)
      requires Valid()
      modifies this`weatherCache, this`weatherLastUpdated, this`fetches
      ensures Valid()
      ensures v.esp32Data == old(Esp32Data()) && Esp32Data() == old(Esp32Data())
      ensures (v.weatherData, CacheCells()) == Step(old(CacheCells()), clock, fetch)
      ensures fetches == old(fetches) + (if IsHit(old(CacheCells()), clock.check) then 0 else 1)
      ensures v.timestamp == composedAt
    {
      var esp32Data := Esp32Data();
      var weatherData := GetWeatherData(clock, fetch);
      v := CombinedView(esp32Data, weatherData, composedAt);
    }
  }

  /** A client: two samples, the second wins; a weather call at t = 0 that
      succeeds, one at t = 1800 served from the cache without a fetch, and a
      failing one after the hour that reports the error. */
  method Scenario(rows: seq<HourlyRow>, daily: map<int, Row>, t: real, u: real)
    requires |rows| > 0 && |daily| > 0
  {
    var app := new App();
    var reply := app.ReceiveData(Some(Obj(map["Voltage" := Number(t)])), Clock(0, 0, 0, 0), FetchFailed("timeout"));
    assert reply == Received && app.voltage == Number(t) && app.CacheCells() == EMPTY;
    reply := app.ReceiveData(Some(Obj(map["BoxTemperature" := Number(u)])), Clock(0, 0, 0, 0), FetchFailed("timeout"));
    assert app.Esp32Data() == NO_SAMPLE.(boxTemperature := Number(u));

    var a := app.GetWeatherData(Clock(0, 0, 0, 0), Frames(rows, {"temp"}, daily, {"tavg"}));
    assert a.Weather? && app.fetches == 3;
    var b := app.GetWeatherData(Clock(1800, 1800, 1800, 1800), FetchFailed("timeout"));
    assert b == a && app.fetches == 3;
    var c := app.GetWeatherData(Clock(3700, 3700, 3700, 3700), FetchFailed("timeout"));
    assert c == WeatherError("timeout") && app.weatherCache == Some(a.snapshot);
  }
}
