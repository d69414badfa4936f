/** The weather lookup: the choice of provider and the in-memory cache in
    front of it. The providers' HTTP calls are an input, a function from the
    call the dispatcher makes to its outcome; the wall clock is read twice and
    both readings are inputs. */
module Weather {
  import opened Wrappers

  datatype WeatherData = WeatherData(temperature: string, condition: string, icon: string, updateTime: string)

  /** The provider call `getWeatherData` makes, with the arguments it passes. */
  datatype ProviderCall =
    | Qweather(cityCode: string, apiKey: string)
    | OpenWeather(cityName: string, apiKey: string)
    | Seniverse(cityName: string, apiKey: string)

  /** What a provider call settles to: its data, or the error it throws. */
  type Fetcher = ProviderCall -> Result<WeatherData>

  /** The dispatch of `getWeatherData`: 和风天气 is asked by city code, the
      other two providers by city name, and any other provider is an error. */
  function Dispatch(provider: string, cityCode: string, cityName: string, apiKey: string): (r: Result<ProviderCall>)
    ensures provider == "qweather" <==> r == Success(Qweather(cityCode, apiKey))
    ensures provider == "openweather" <==> r == Success(OpenWeather(cityName, apiKey))
    ensures provider == "seniverse" <==> r == Success(Seniverse(cityName, apiKey))
    ensures r.Failure? <==> provider !in {"qweather", "openweather", "seniverse"}
    ensures r.Failure? ==> r.error == "Unsupported weather provider: " + provider
  {
    if provider == "qweather" then Success(Qweather(cityCode, apiKey))
    else if provider == "openweather" then Success(OpenWeather(cityName, apiKey))
    else if provider == "seniverse" then Success(Seniverse(cityName, apiKey))
    else Failure("Unsupported weather provider: " + provider)
  }

  /** `getWeatherData`. */
  function GetWeatherData(fetch: Fetcher, provider: string, cityCode: string, cityName: string,
                          apiKey: string): Result<WeatherData>
  {
    var call :- Dispatch(provider, cityCode, cityName, apiKey);
    fetch(call)
  }

  // ---------------------------------------------------------------------------
  // The cache

  /** `CACHE_DURATION`: thirty minutes in milliseconds. */
  const CacheDuration: int := 30 * 60 * 1000

  /** A cached reading and the time, in milliseconds, it was stored. */
  datatype Entry = Entry(data: WeatherData, timestamp: int)

  type Cache = map<string, Entry>

  /** The cache key `${provider}-${cityCode}`. */
  function CacheKey(provider: string, cityCode: string): string {
    provider + "-" + cityCode
  }

  /** Providers without a hyphen never share a key: the key determines the
      provider and the city code. */
  lemma CacheKeyInjective(p1: string, c1: string, p2: string, c2: string)
    requires '-' !in p1 && '-' !in p2
    requires CacheKey(p1, c1) == CacheKey(p2, c2)
    ensures p1 == p2 && c1 == c2
  {
    var k := CacheKey(p1, c1);
    if |p1| < |p2| {
      HyphenInLonger(p1, c1, p2, c2);
      assert false;
    } else if |p2| < |p1| {
      HyphenInLonger(p2, c2, p1, c1);
      assert false;
    }
    assert p1 == k[..|p1|] == p2;
    assert c1 == k[|p1| + 1..] == c2;
  }

  /** Where one key has its separator, a key with a longer provider has a
      character of that provider. */
  lemma HyphenInLonger(p1: string, c1: string, p2: string, c2: string)
    requires |p1| < |p2| && CacheKey(p1, c1) == CacheKey(p2, c2)
    ensures '-' in p2
  {
    assert CacheKey(p1, c1)[|p1|] == '-';
    assert CacheKey(p2, c2)[|p1|] == p2[|p1|];
  }

  /** The three providers of the `WeatherProvider` type contain no hyphen. */
  lemma ProvidersHaveNoHyphen(p: string)
    requires p in {"qweather", "openweather", "seniverse"}
    ensures '-' !in p
  {
  }

  /** A stored entry is served while strictly less than `CACHE_DURATION` has
      passed since it was stored. */
  predicate Fresh(e: Entry, now: int) {
    now - e.timestamp < CacheDuration
  }

  /** `getCachedWeatherData`. `checkedAt` is the clock reading of the
      freshness test and `storedAt` the later one taken when the fetched
      reading is stored. Returns the reading or the error, and the cache
      afterwards. */
  function GetCached(cache: Cache, fetch: Fetcher, provider: string, cityCode: string, cityName: string,
                     apiKey: string, checkedAt: int, storedAt: int): (r: (Result<WeatherData>, Cache))
    ensures var key := CacheKey(provider, cityCode);
      key in cache && Fresh(cache[key], checkedAt) ==> r == (Success(cache[key].data), cache)
    ensures var key := CacheKey(provider, cityCode);
      !(key in cache && Fresh(cache[key], checkedAt)) ==>
        && r.0 == GetWeatherData(fetch, provider, cityCode, cityName, apiKey)
        && r.1 == (if r.0.Success? then cache[key := Entry(r.0.value, storedAt)] else cache)
  {
    var key := CacheKey(provider, cityCode);
    if key in cache && checkedAt - cache[key].timestamp < CacheDuration then (Success(cache[key].data), cache)
    else
      match GetWeatherData(fetch, provider, cityCode, cityName, apiKey)
      case Failure(e) => (Failure(e), cache)
      case Success(data) => (Success(data), cache[key := Entry(data, storedAt)])
  }

  /** A hit calls no provider: the outcome is the same whatever the providers
      would answer, and whatever city name and API key are passed. */
  lemma HitIgnoresProvider(cache: Cache, f1: Fetcher, f2: Fetcher, provider: string, cityCode: string,
                           n1: string, n2: string, k1: string, k2: string, checkedAt: int, s1: int, s2: int)
    requires CacheKey(provider, cityCode) in cache && Fresh(cache[CacheKey(provider, cityCode)], checkedAt)
    ensures GetCached(cache, f1, provider, cityCode, n1, k1, checkedAt, s1) ==
            GetCached(cache, f2, provider, cityCode, n2, k2, checkedAt, s2)
  {
  }

  /** An entry exactly `CACHE_DURATION` old is stale. */
  lemma ExpiryIsStrict(e: Entry)
    ensures !Fresh(e, e.timestamp + 1800000)
    ensures Fresh(e, e.timestamp + 1799999)
  {
  }

  /** A failed fetch leaves the cache as it was. */
  lemma FailureKeepsCache(cache: Cache, fetch: Fetcher, provider: string, cityCode: string, cityName: string,
                          apiKey: string, checkedAt: int, storedAt: int)
    requires GetCached(cache, fetch, provider, cityCode, cityName, apiKey, checkedAt, storedAt).0.Failure?
    ensures GetCached(cache, fetch, provider, cityCode, cityName, apiKey, checkedAt, storedAt).1 == cache
  {
  }

  /** A reading fetched on a miss and stored at `storedAt` is served,
      without calling a provider, by any call for the same provider and city
      code less than thirty minutes later. */
  lemma StoredIsServed(cache: Cache, fetch: Fetcher, later: Fetcher, provider: string, cityCode: string,
                       cityName: string, otherName: string, apiKey: string, otherKey: string,
                       checkedAt: int, storedAt: int, now: int, nowStored: int)
    requires !(CacheKey(provider, cityCode) in cache && Fresh(cache[CacheKey(provider, cityCode)], checkedAt))
    requires GetWeatherData(fetch, provider, cityCode, cityName, apiKey).Success?
    requires now < storedAt + CacheDuration
    ensures var (r, c) := GetCached(cache, fetch, provider, cityCode, cityName, apiKey, checkedAt, storedAt);
      GetCached(c, later, provider, cityCode, otherName, otherKey, now, nowStored) == (r, c)
  {
  }

  /** `clearWeatherCache`. */
  function Clear(cache: Cache): (r: Cache)
    ensures forall provider, cityCode :: CacheKey(provider, cityCode) !in r
  {
    map[]
  }

  /** After clearing, the next call asks the provider. */
  lemma ClearedMisses(cache: Cache, fetch: Fetcher, provider: string, cityCode: string, cityName: string,
                      apiKey: string, checkedAt: int, storedAt: int)
    ensures GetCached(Clear(cache), fetch, provider, cityCode, cityName, apiKey, checkedAt, storedAt).0 ==
      GetWeatherData(fetch, provider, cityCode, cityName, apiKey)
  {
  }
}
