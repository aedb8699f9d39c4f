# ESP32 telemetry and weather cache: a Dafny model

This project models the stateful core of a small Flask service (`app.py`). The
service does two things:

- It receives telemetry samples from an ESP32 device. All thirteen values of the
  latest sample are kept in module globals.
- It serves weather data for one fixed location (Bareilly) from the Meteostat
  provider. A single-slot cache with a time-to-live (TTL) sits in front of the
  provider.

The model has five modules:

- `Values` (values.dfy): Python's `None` as `Option`, and posted JSON as a
  `Json` datatype. `Lookup` is `dict.get`.
- `Normalize` (normalize.dfy): `safe_float`, the current-conditions record
  built from the last hourly row, and the five-day forecast. The forecast is
  built by a `for` loop, as in the source, and proved equal to a recursive
  reference definition.
- `Cache` (cache.dfy): one call of `get_weather_data` as a pure function
  `Step` on the two cache cells `weather_cache` and `weather_last_updated`.
  The lemmas here cover the freshness rule, the rule that the cache is
  written only on success, and properties of a call followed by another call.
- `Telemetry` (telemetry.dfy): the thirteen-field record and how a payload
  fills it.
- `Server` (server.dfy): class `App`, which holds all the globals as mutable
  fields. Its methods `GetWeatherData`, `ReceiveData` and `GetCombinedData`
  change those fields in place. Each method is proved to match `Step` and
  `FromPayload`, and to keep the cache invariant `Valid()`.
  The method `Server.Scenario` is a worked example of these three methods:
  two samples, where the second replaces the first; a weather call at
  t = 0 that succeeds; a call at t = 1800 served from the cache with no
  fetch; and a failing call at t = 3700 that returns the error.

### How the environment is modelled

- **Time.** Time is in integer seconds. The clock readings a call makes are
  passed in as `Clock(check, fetch, stamp, store)`. These are the four
  `datetime.now()` calls at app.py:63, 75, 138 and 143, in program order.
  `Day(t)` stands for `.date()`.
- **The Meteostat fetch.** The fetch is an input of type `Fetched`. It is
  either `FetchFailed(message)`, for any exception raised while fetching or
  normalising, or `Frames(hourly, hourlyColumns, daily, dailyColumns)`.
  `hourly` holds the hourly rows in time order; `daily` maps a day number to
  that day's row. Each frame carries its column set, because pandas calls a
  frame `.empty` when it has no rows or no columns (`Cache.FrameEmpty`).
- **Data-frame cells.** A cell is `Missing` (the column is absent), `NaN`,
  or `Num(x)`.

### Behaviour a reader might expect that the code does not have

The model follows the code in each case below.

- **No stale-on-failure fallback.** A cache could serve its stale snapshot
  when a fetch after the TTL fails. This code does not: it returns the error
  dictionary even when a snapshot is stored (app.py:88-89, 147-149). The
  stored snapshot is kept for later calls, but this call does not return it.
  See `Cache.StaleWithFailureIsError`.
- **No padding of an empty daily frame.** Missing forecast days become
  placeholders only when the daily frame is non-empty but lacks some of the
  five days (app.py:111-132). An empty daily frame is an error, the same as
  an empty hourly frame (app.py:88).
- **Error kinds.** The code does not distinguish kinds of error. Every failure
  is `{'error': message}`, modelled as `WeatherError(message)`.
- **Concurrent fetches.** The code does not de-duplicate concurrent fetches.
  It has no lock at all.
- **Telemetry write time.** The telemetry slot records no write time. "No
  sample yet" is the record with every field `None` (`Telemetry.NO_SAMPLE`).

## Model

| member | source | states |
|---|---|---|
| `Normalize.SafeFloat` | app.py:29-36 | a number comes back as itself; `None` (missing) and NaN give the default |
| `Normalize.SafeFloatNoData` | app.py:29-32 | with the default `None`, the result is "no data" exactly when the cell is missing or NaN, and a present result is the cell's own number (never an invented 0) |
| `Normalize.Day` | app.py:110 | the day number of a time is the calendar day containing it (floor division, also for negative times) |
| `Normalize.CurrentWeatherNoData` | app.py:92-105 | each of the eight current-conditions fields is "no data" exactly when its fixed provider column (`temp`, `dwpt`, `rhum`, `coco`, `wspd`, `wdir`, `pres`, `prcp`) is missing or NaN, otherwise it holds that column's number; the timestamp is the row's time |
| `Normalize.CurrentWeatherOf` | app.py:92-105 | definition: the `current_weather` record of one hourly row; its properties are stated by `Normalize.CurrentWeatherNoData` |
| `Normalize.ForecastEntry` | app.py:110-132 | the entry carries the requested date; a date absent from the daily data gives the all-`None` placeholder; a present date takes each of the six fields from its fixed column through `safe_float` |
| `Normalize.ForecastFromAt` | app.py:108-132 | the reference forecast over `n` days has `n` entries, and entry `i` is the entry for day `first + i` |
| `Normalize.ForecastFromSnoc` | app.py:109-121 | appending the next day's entry extends the reference forecast by exactly that day (what each loop iteration does) |
| `Normalize.ForecastShape` | app.py:108-132 | the forecast has exactly 5 entries whatever the daily data holds; entry `i` is for day today+1+i, so dates are consecutive and strictly ascending; a missing day is a placeholder |
| `Normalize.BuildForecast` | app.py:107-132 | the `for i in range(1, 6)` loop produces exactly the reference forecast for today |
| `Normalize.NormalizeSnapshot` | app.py:134-139 | the snapshot is well formed (5 consecutive days), its forecast starts the day after the request day, its current conditions come from the given row, location is Bareilly and `last_updated` is the stamp reading |
| `Cache.Refresh` | app.py:67-149 | the miss path gives a snapshot exactly when neither frame is empty (each has at least one row and one column); an exception gives its message as the error; an empty frame gives the fixed "No weather data available from Meteostat" error; a success is the normalised last hourly row and daily data |
| `Cache.IsHit` | app.py:62-63 | definition: the freshness test (both cells set, age strictly below 3600 s); its properties are stated by `Cache.HitServesCache`, `Cache.ExpiredRefetches` and `Cache.ColdStartFetches` |
| `Cache.Step` | app.py:54-149 | one whole call: a hit returns the stored snapshot and keeps the cells; otherwise the cells are unchanged, or they hold exactly the snapshot returned with the store time after a successful fetch; an error never writes the cells |
| `Cache.HitServesCache` | app.py:62-65 | on a hit (both cells set, age strictly below 3600 s) the stored snapshot is returned unchanged, both cells stay as they are, and the result does not depend on the fetch |
| `Cache.ExpiredRefetches` | app.py:62-67 | at an age of exactly 3600 s or more it is not a hit and the result is that of the miss path |
| `Cache.FailureKeepsCache` | app.py:88-149 | on a miss, an empty frame or an exception gives the error value and leaves both cells untouched |
| `Cache.SuccessReplacesCache` | app.py:141-145 | on a successful miss the new snapshot replaces the cache, the cache time is the fourth clock reading (at least the check time under a monotone clock), and the value returned is the new cache content |
| `Cache.StepPreservesValid` | app.py:134-143 | every call keeps the two cells set together and the stored snapshot well formed, and any snapshot returned is well formed |
| `Cache.SecondCallWithinTtl` | app.py:62-143 | after a call that returned a snapshot, a later call checked less than 3600 s after the cache time returns the same snapshot and changes nothing, whatever its fetch would give |
| `Cache.ColdStartFetches` | app.py:24-67 | the first call after start-up always takes the miss path, and the cache stays empty if that fails |
| `Cache.NoColumnsIsError` | app.py:87-89 | on a miss, a frame with rows but no columns counts as empty: the call returns the "No weather data available from Meteostat" error and leaves both cells untouched |
| `Cache.StaleWithFailureIsError` | app.py:147-149 | with a stale snapshot stored and a failing fetch, the call returns the error (not the stale snapshot) and the snapshot stays stored |
| `Telemetry.FromPayload` | app.py:161-173 | definition: each of the thirteen fields is `data.get` of its fixed key; its properties are stated by `Telemetry.FromPayloadDependsOnKeys`, `Telemetry.UnknownKeyIgnored`, `Telemetry.EmptyPayloadClears` and `Telemetry.PartialSample` |
| `Telemetry.FromPayloadDependsOnKeys` | app.py:161-173 | two payloads give the same sample exactly when they agree (with absent meaning `None`) on every one of the thirteen device keys |
| `Telemetry.UnknownKeyIgnored` | app.py:161-173 | adding or changing a key outside the thirteen leaves the sample unchanged |
| `Telemetry.EmptyPayloadClears` | app.py:161-173 | an empty object sets every field to `None` |
| `Telemetry.PartialSample` | app.py:161-173 | a payload with only `BoxTemperature` and `Voltage` gives those two values and `None` everywhere else |
| `Server.App.constructor` | app.py:10-26 | at module load every telemetry global and both cache cells are `None` |
| `Server.App.Esp32Data` | app.py:256-270 | definition: the `esp32_data` record read from the thirteen fields; its properties are stated by `Server.App.StoreSample`, `Server.App.ReceiveData` and `Server.App.GetCombinedData` |
| `Server.App.GetWeatherData` | app.py:54-149 | the call matches `Cache.Step` on the cache cells and keeps `Valid()`: a hit returns the cached snapshot with no fetch and no change; any miss performs one fetch; an error leaves the cells unchanged; a success stores the snapshot with the store time; nothing outside the two cells changes |
| `Server.App.StoreSample` | app.py:161-173 | the thirteen globals become the payload's sample, whatever they held before |
| `Server.App.ReceiveData` | app.py:152-208 | the reply is a success exactly when the body is a JSON object, whatever the weather leg returned; then the slot holds that payload's sample and the cache has taken one `Step`; otherwise nothing changes and nothing is fetched |
| `Server.App.GetCombinedData` | app.py:250-286 | the view holds the telemetry slot as it stood (which stays unchanged), the exact value of the weather step (snapshot or error) and the composition time |

## Left out

- HTTP plumbing is not modelled: Flask routing, `jsonify`, status codes, the `home` page, `app.run` (app.py:151, 210-247, 249, 288-299). The `/weather` handler only passes `get_weather_data` through and logs the result.
- `print` logging and `log_weather_data` (app.py:38-52) are not modelled. They are output only.
- The Meteostat `Point`/`Hourly`/`Daily` calls and the pandas data frames (app.py:72-85) are a foreign library. They are replaced by the `Fetched` input. The daily frame is a map keyed by day number; how pandas matches a `date` against its index is not modelled. A row's cells are not tied to its frame's column set, which only decides `.empty`. A row may hold cells for columns outside that set, and those cells are read as given. A column missing from a row reads as `Missing`, which `safe_float` treats like the NaN pandas would hold there.
- `Normalize.SafeFloat`: Meteostat values are modelled as numbers (`real`), with one NaN marker. Non-numeric cell values are not modelled because Meteostat columns are numeric. For such a value `math.isnan` would raise before the `try`.
- Floating point, `isoformat` text and `total_seconds` fractions are not modelled. Times are integer seconds and dates are day numbers. `Normalize.Day` uses UTC day boundaries; the server's local time zone is not modelled.
- The wall clock may step backwards. `Cache.SuccessReplacesCache` claims "cache time at least the request time" only under `Clock.Monotone()`. With a clock that ran backwards, a negative age counts as fresh, as in the code.
- The truthiness test `weather_cache and weather_last_updated` is modelled as "both are set". A snapshot dictionary is never empty, and a `datetime` is always true.
- An exception raised during normalisation is folded into `FetchFailed`, because the modelled normalisation is total.
- `Server.App.ReceiveData`: the error reply's message text (`str(e)`) and its HTTP 400 status are not modelled. The reply is only `Rejected`.
- The exception handler of `get_combined_data` (app.py:283-286) is not modelled, because nothing in the modelled body raises.
- Concurrency is not modelled: the source has no locking, and the model is sequential. In-flight fetch de-duplication and a stale-on-failure fallback are not modelled either, because the source has neither.
- config.py is not modelled: app.py never imports it. python.py is an earlier revision whose thirteen assignments (python.py:31-43) are the ones `Server.App.StoreSample` models.
