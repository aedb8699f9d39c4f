/** The single-slot time-to-live weather cache of `get_weather_data`
    (app.py), as a pure step function on the two cache cells. The class in
    server.dfy runs the same step in place and is proved equal to it. */
module Cache {
  import opened Values
  import opened Normalize

  /** `CACHE_DURATION`: a cached snapshot is served for one hour. */
  const CACHE_DURATION: int := 3600

  /** The error text for an empty hourly or daily frame. */
  const NO_DATA: string := "No weather data available from Meteostat"

  /** The four readings of `datetime.now()` one call may take, in seconds, in
      program order: the freshness check, the request time whose date starts
      the forecast, the snapshot's `last_updated`, and the cache time. */
  datatype Clock = Clock(check: int, fetch: int, stamp: int, store: int)
  {
    /** The clock did not run backwards during the call. */
    predicate Monotone()
    {
      check <= fetch <= stamp <= store
    }
  }

  /** What the Meteostat fetch produced: an exception (with its message), or
      the two data frames: the hourly rows in time order and the daily rows by
      day, each frame with its set of columns. */
  datatype Fetched =
    | FetchFailed(message: string)
    | Frames(hourly: seq<HourlyRow>, hourlyColumns: set<string>,
             daily: map<int, Row>, dailyColumns: set<string>)

  /** A pandas frame is `.empty` when it has no rows or no columns. */
  predicate FrameEmpty(rows: nat, columns: set<string>)
  {
    rows == 0 || columns == {}
  }

  /** What `get_weather_data` returns: the snapshot dictionary, or a
      dictionary whose only key is `'error'`. */
  datatype WeatherResult = Weather(snapshot: Snapshot) | WeatherError(message: string)

  /** The global cells `weather_cache` and `weather_last_updated`. */
  datatype CacheState = CacheState(cache: Option<Snapshot>, lastUpdated: Option<int>)

  /** The state before any weather request. */
  const EMPTY: CacheState := CacheState(None, None)

  /** Both cells are set or both are unset, and a stored snapshot is well
      formed. */
  predicate Valid(s: CacheState)
  {
    (s.cache.Some? <==> s.lastUpdated.Some?) &&
    (s.cache.Some? ==> WellFormed(s.cache.value))
  }

  /** A cache hit at time `now`: both cells are set and the stored value is
      strictly younger than `CACHE_DURATION`. */
  predicate IsHit(s: CacheState, now: int)
  {
    s.cache.Some? && s.lastUpdated.Some? && now - s.lastUpdated.value < CACHE_DURATION
  }

  /** True when the fetch produced two frames neither of which is `.empty`. */
  predicate HasData(f: Fetched)
  {
    f.Frames? && !FrameEmpty(|f.hourly|, f.hourlyColumns) && !FrameEmpty(|f.daily|, f.dailyColumns)
  }

  /** The miss path: fetch, check for empty frames, normalise. */
  function Refresh(f: Fetched, clock: Clock): (r: WeatherResult)
    ensures r.Weather? <==> HasData(f)
    ensures f.FetchFailed? ==> r == WeatherError(f.message)
    ensures f.Frames? && !HasData(f) ==> r == WeatherError(NO_DATA)
    ensures HasData(f) ==>
      r.snapshot == NormalizeSnapshot(f.hourly[|f.hourly| - 1], f.daily, Day(clock.fetch), clock.stamp)
  {
    match f
    case FetchFailed(msg) => WeatherError(msg)
    case Frames(hourly, hourlyColumns, daily, dailyColumns) =>
      if FrameEmpty(|hourly|, hourlyColumns) || FrameEmpty(|daily|, dailyColumns) then WeatherError(NO_DATA)
      else Weather(NormalizeSnapshot(hourly[|hourly| - 1], daily, Day(clock.fetch), clock.stamp))
  }

  /** One call of `get_weather_data`: the value returned and the new cells.
      The cells change only on a miss whose fetch succeeded, and then they hold
      exactly the snapshot returned and the store time; an error never writes. */
  function Step(s: CacheState, clock: Clock, f: Fetched): (r: (WeatherResult, CacheState))
    ensures IsHit(s, clock.check) ==> r == (Weather(s.cache.value), s)
    ensures r.1 == s ||
      (!IsHit(s, clock.check) && r.0.Weather? && r.1 == CacheState(Some(r.0.snapshot), Some(clock.store)))
    ensures r.0.WeatherError? ==> r.1 == s
  {
    if IsHit(s, clock.check) then
      (Weather(s.cache.value), s)
    else
      var r := Refresh(f, clock);
      if r.Weather? then (r, CacheState(Some(r.snapshot), Some(clock.store))) else (r, s)
  }

  /** A hit returns the stored snapshot unchanged, leaves both cells as they
      were and does not depend on the fetch at all: nothing is fetched. */
  lemma HitServesCache(s: CacheState, clock: Clock, f1: Fetched, f2: Fetched)
    requires IsHit(s, clock.check)
    ensures Step(s, clock, f1) == Step(s, clock, f2) == (Weather(s.cache.value), s)
  {
  }

  /** Freshness is strict: from an age of exactly `CACHE_DURATION` seconds on,
      the call takes the miss path even though a snapshot is stored. */
  lemma ExpiredRefetches(s: CacheState, clock: Clock, f: Fetched)
    requires s.lastUpdated.Some? && clock.check - s.lastUpdated.value >= CACHE_DURATION
    ensures !IsHit(s, clock.check)
    ensures Step(s, clock, f).0 == Refresh(f, clock)
  {
  }

  /** An empty frame or an exception gives an error and leaves both cells
      untouched; a stale snapshot is not returned in place of the error. */
  lemma FailureKeepsCache(s: CacheState, clock: Clock, f: Fetched)
    requires !IsHit(s, clock.check) && !HasData(f)
    ensures Step(s, clock, f).1 == s
    ensures f.FetchFailed? ==> Step(s, clock, f).0 == WeatherError(f.message)
    ensures f.Frames? ==> Step(s, clock, f).0 == WeatherError(NO_DATA)
  {
  }

  /** On success the new snapshot replaces the cache, the cache time is the
      fourth clock reading (not earlier than the freshness check when the
      clock is monotone), and the value returned is the new cache content. */
  lemma SuccessReplacesCache(s: CacheState, clock: Clock, f: Fetched)
    requires !IsHit(s, clock.check) && HasData(f)
    ensures var (r, s') := Step(s, clock, f);
      r.Weather? && s'.cache == Some(r.snapshot) && s'.lastUpdated == Some(clock.store)
    ensures clock.Monotone() ==> Step(s, clock, f).1.lastUpdated.value >= clock.check
    ensures var r := Step(s, clock, f).0;
      r.snapshot.current == CurrentWeatherOf(f.hourly[|f.hourly| - 1]) &&
      r.snapshot.forecast == Forecast(Day(clock.fetch), f.daily)
  {
  }

  /** Every step keeps the two cells paired and the stored snapshot well
      formed, and every snapshot it returns is well formed. */
  lemma StepPreservesValid(s: CacheState, clock: Clock, f: Fetched)
    requires Valid(s)
    ensures Valid(Step(s, clock, f).1)
    ensures Step(s, clock, f).0.Weather? ==> WellFormed(Step(s, clock, f).0.snapshot)
  {
  }

  /** Calls inside the TTL are served from the cache: after a call that
      returned a snapshot, any later call whose freshness check comes less
      than `CACHE_DURATION` after the cache time returns that same snapshot,
      changes nothing and ignores its fetch. */
  lemma SecondCallWithinTtl(s: CacheState, c1: Clock, c2: Clock, f1: Fetched, f2: Fetched)
    requires Step(s, c1, f1).0.Weather?
    requires Step(s, c1, f1).1.lastUpdated.Some?
    requires c2.check - Step(s, c1, f1).1.lastUpdated.value < CACHE_DURATION
    ensures Step(Step(s, c1, f1).1, c2, f2) == Step(s, c1, f1)
  {
  }

  /** The first call after start-up always fetches. */
  lemma ColdStartFetches(clock: Clock, f: Fetched)
    ensures Step(EMPTY, clock, f) ==
      (var r := Refresh(f, clock); (r, if r.Weather? then CacheState(Some(r.snapshot), Some(clock.store)) else EMPTY))
  {
  }

  /** Frames that have rows but no columns are `.empty` too: the call reports
      "no data" instead of caching a snapshot made of placeholders. */
  lemma NoColumnsIsError(s: CacheState, clock: Clock, hourly: seq<HourlyRow>, daily: map<int, Row>, columns: set<string>)
    requires !IsHit(s, clock.check)
    ensures Step(s, clock, Frames(hourly, {}, daily, columns)) == (WeatherError(NO_DATA), s)
    ensures Step(s, clock, Frames(hourly, columns, daily, {})) == (WeatherError(NO_DATA), s)
  {
  }

  /** A stored snapshot A, a call after the TTL and a failing fetch: the call
      returns the error, not A, and A stays stored for the next call. */
  lemma StaleWithFailureIsError(a: Snapshot, t0: int, clock: Clock, msg: string)
    requires clock.check - t0 >= CACHE_DURATION
    ensures Step(CacheState(Some(a), Some(t0)), clock, FetchFailed(msg)) ==
            (WeatherError(msg), CacheState(Some(a), Some(t0)))
  {
  }
}
