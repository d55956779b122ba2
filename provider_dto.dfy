/**
 * The OpenWeatherMap "current weather" record as the weather core receives it.
 * Every field is a boxed Java reference, so each one may be null (`None`).
 * Temperatures and speeds are `real`: the core only copies them.
 */
module ProviderDto {
  import opened Wrappers

  /** The `sys` block; only the country code is read. */
  datatype Sys = Sys(country: Option<string>)

  /** The `main` block: temperature and felt temperature in degrees Celsius, relative humidity in percent. */
  datatype MainBlock = MainBlock(temperature: Option<real>, feelsLike: Option<real>, humidity: Option<int>)

  /** One element of the `weather` list: a free-text description and a short condition code. */
  datatype Condition = Condition(description: Option<string>, main: Option<string>)

  /** The `wind` block: speed in metres per second. */
  datatype Wind = Wind(speed: Option<real>)

  /** OpenWeatherMapResponse: the city name and the four nested parts, each possibly null. */
  datatype OpenWeatherMapResponse = OpenWeatherMapResponse(
    cityName: Option<string>,
    sys: Option<Sys>,
    main: Option<MainBlock>,
    weather: Option<seq<Option<Condition>>>,
    wind: Option<Wind>)
}
