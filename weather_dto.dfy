/** The report the service hands back to its callers (WeatherResponse). */
module WeatherDto {
  import opened Wrappers

  /** LocalDateTime, as an int that the core only stores and never computes with. */
  type Instant = int

  /**
   * The fields of a WeatherResponse that the builder sets and that
   * createFormattedMessage reads: everything except the formatted message.
   */
  datatype Report = Report(
    location: Option<string>,
    country: Option<string>,
    temperature: Option<real>,
    feelsLike: Option<real>,
    description: Option<string>,
    humidity: Option<int>,
    windSpeed: Option<real>,
    timestamp: Instant)

  /**
   * A WeatherResponse object. It is built with every field but
   * `formattedMessage`, which stays null until the service sets it.
   */
  class WeatherResponse {
    var location: Option<string>
    var country: Option<string>
    var temperature: Option<real>
    var feelsLike: Option<real>
    var description: Option<string>
    var humidity: Option<int>
    var windSpeed: Option<real>
    var formattedMessage: Option<string>
    var timestamp: Instant

    /** The report fields of this object. */
    function Fields(): Report
      reads this`location, this`country, this`temperature, this`feelsLike,
        this`description, this`humidity, this`windSpeed, this`timestamp
    {
      Report(location, country, temperature, feelsLike, description, humidity, windSpeed, timestamp)
    }

    /** `WeatherResponse.builder()...build()` without a formatted message. */
    constructor Build(f: Report)
      ensures Fields() == f
      ensures formattedMessage == None
    {
      location, country, temperature, feelsLike := f.location, f.country, f.temperature, f.feelsLike;
      description, humidity, windSpeed, timestamp := f.description, f.humidity, f.windSpeed, f.timestamp;
      formattedMessage := None;
    }

    /**
     * createFormattedMessage: a rendering of the report fields. The text
     * template and its number formatting are left uninterpreted as `render`;
     * the frame says the formatted message itself is not read.
     */
    function CreateFormattedMessage(render: Report -> string): (m: string)
      reads this`location, this`country, this`temperature, this`feelsLike,
        this`description, this`humidity, this`windSpeed, this`timestamp
      ensures m == render(Report(location, country, temperature, feelsLike, description, humidity, windSpeed, timestamp))
    {
      render(Fields())
    }

    /** setFormattedMessage: only the formatted message changes. */
    method SetFormattedMessage(message: string)
      modifies this
      ensures formattedMessage == Some(message)
      ensures Fields() == old(Fields())
    {
      formattedMessage := Some(message);
    }
  }
}
