/** fetch_weather_data: one air-quality call, then one weather call whose
    failure is replaced by fixed defaults, merged into the record
    feature preparation reads. */
module Acquisition {
  import opened Wrappers
  import opened Errors
  import opened Calendar
  import opened AirQuality
  import opened Weather

  /** The merged dict: `pm10`, the four weather readings and `datetime`. */
  datatype WeatherData = WeatherData(pm10: real, windspeed: real, temperature: real, humidity: real,
                                     rainfall: real, measured: Timestamp)

  /** fetch_weather_data for the decoded air-quality response `air`, the
      weather service `weatherApi` and the clock reading `now`. */
  function Combined(air: AirResponse, weatherApi: WeatherRequest -> WeatherResponse, nx: int, ny: int, now: Timestamp)
    : Result<WeatherData, Error>
    requires ValidTimestamp(now)
  {
    match FetchAirQuality(air, now)
    case Failure(e) => Failure(AirQualityFailed(e))
    case Success(reading) =>
      var obs := match WeatherApiResult(weatherApi, nx, ny, now)
        case Failure(_) => Observation(DefaultTemperature, DefaultHumidity, DefaultWindspeed, DefaultRainfall, reading.measured)
        case Success(o) => o;
      Success(WeatherData(reading.pm10, obs.windspeed, obs.temperature, obs.humidity, obs.rainfall, obs.observed))
  }

  /** fetch_weather_data as written: the weather failure is caught and the
      record rebound to the defaults. */
  method FetchWeatherData(airApi: string -> AirResponse, weatherApi: WeatherRequest -> WeatherResponse,
                          districtCode: string, nx: int, ny: int, now: Timestamp)
    returns (r: Result<WeatherData, Error>)
    requires ValidTimestamp(now)
    ensures r == Combined(airApi(districtCode), weatherApi, nx, ny, now)
  {
    var air := FetchAirQuality(airApi(districtCode), now);
    if air.Failure? {
      return Failure(AirQualityFailed(air.error));
    }
    var weather := FetchWeatherApi(weatherApi, nx, ny, now);
    if weather.Failure? {
      weather := Success(Observation(DefaultTemperature, DefaultHumidity, DefaultWindspeed, DefaultRainfall,
                                     air.value.measured));
    }
    var w := weather.value;
    r := Success(WeatherData(air.value.pm10, w.windspeed, w.temperature, w.humidity, w.rainfall, w.observed));
  }

  /** The asymmetric fallback: an air-quality failure is fatal, a weather
      failure gives the defaults stamped with the air-quality time, and the
      PM10 value always comes from the air-quality reading. */
  lemma FallbackRule(air: AirResponse, weatherApi: WeatherRequest -> WeatherResponse, nx: int, ny: int, now: Timestamp)
    requires ValidTimestamp(now)
    ensures FetchAirQuality(air, now).Failure? ==>
      Combined(air, weatherApi, nx, ny, now) == Failure(AirQualityFailed(FetchAirQuality(air, now).error))
    ensures FetchAirQuality(air, now).Success? ==> (Combined(air, weatherApi, nx, ny, now).Success?
      && Combined(air, weatherApi, nx, ny, now).value.pm10 == FetchAirQuality(air, now).value.pm10)
    ensures (FetchAirQuality(air, now).Success? && WeatherApiResult(weatherApi, nx, ny, now).Failure?) ==>
      Combined(air, weatherApi, nx, ny, now)
        == Success(WeatherData(FetchAirQuality(air, now).value.pm10, 2.0, 20.0, 60.0, 0.0, FetchAirQuality(air, now).value.measured))
    ensures (FetchAirQuality(air, now).Success? && WeatherApiResult(weatherApi, nx, ny, now).Success?) ==>
      var o := WeatherApiResult(weatherApi, nx, ny, now).value;
      Combined(air, weatherApi, nx, ny, now)
        == Success(WeatherData(FetchAirQuality(air, now).value.pm10, o.windspeed, o.temperature, o.humidity, o.rainfall, now))
  {
    if FetchAirQuality(air, now).Success? && WeatherApiResult(weatherApi, nx, ny, now).Success? {
      var (d, t) := BaseSlot(now).value;
      assert ReadObservation(weatherApi(WeatherRequest(DateText(d), t, nx, ny)), now).Success?;
    }
  }

  /** Whatever path was taken, the record is stamped with a real moment. */
  lemma MeasuredIsValid(air: AirResponse, weatherApi: WeatherRequest -> WeatherResponse, nx: int, ny: int, now: Timestamp)
    requires ValidTimestamp(now)
    requires Combined(air, weatherApi, nx, ny, now).Success?
    ensures ValidTimestamp(Combined(air, weatherApi, nx, ny, now).value.measured)
  {
    FallbackRule(air, weatherApi, nx, ny, now);
    AirQualityOutcome(air, now);
  }
}
