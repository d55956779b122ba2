/**
 * WeatherClient, reduced to what the service can observe of it: each lookup
 * is answered by the remote provider, seen here as a fixed function from
 * query to answer, and every lookup is recorded in a ghost log.
 */
module WeatherClientModel {
  import opened Wrappers
  import opened ProviderDto

  /** What the service asked the provider for. */
  datatype Query = ByCity(city: string) | ByCoordinates(lat: real, lon: real)

  /** The references mapToWeatherResponse dereferences that may be null. */
  datatype NullSite = ApiResponse | WeatherEntry | SysBlock | MainBlockRef | WindBlock

  /** Why a service call ended without a report. */
  datatype Failure =
    | FetchFailed(message: string)   // the client's RuntimeException, message included
    | NullPointer(site: NullSite)    // a NullPointerException in the service's mapping of the provider's record

  /**
   * What the provider gives back for a query: a record, a null body
   * (`Ok(None)`), or a transport or HTTP failure, given by the message of
   * the exception RestTemplate threw.
   */
  type Answer = Result<Option<OpenWeatherMapResponse>, string>

  /** The text the client puts before the cause's message when it rethrows. */
  const FetchFailurePrefix := "Failed to fetch weather data: "

  /** The RuntimeException the client throws for a failed exchange with cause message `cause`. */
  function FetchFailure(cause: string): (f: Failure)
    ensures f.FetchFailed? && |f.message| == |FetchFailurePrefix| + |cause|
    ensures f.message[..|FetchFailurePrefix|] == FetchFailurePrefix
    ensures f.message[|FetchFailurePrefix|..] == cause
  {
    FetchFailed(FetchFailurePrefix + cause)
  }

  class WeatherClient {
    /** The remote provider, including URL building and the HTTP exchange. */
    const provider: Query -> Answer
    /** Every lookup made so far, in order. */
    ghost var calls: seq<Query>

    constructor (provider: Query -> Answer)
      ensures this.provider == provider
      ensures calls == []
    {
      this.provider := provider;
      calls := [];
    }

    /** getWeatherByCity: one provider call for `city`. */
    method GetWeatherByCity(city: string) returns (answer: Answer)
      modifies this
      ensures calls == old(calls) + [ByCity(city)]
      ensures answer == provider(ByCity(city))
    {
      calls := calls + [ByCity(city)];
      answer := provider(ByCity(city));
    }

    /** getWeatherByCoordinates: one provider call for `(lat, lon)`. */
    method GetWeatherByCoordinates(lat: real, lon: real) returns (answer: Answer)
      modifies this
      ensures calls == old(calls) + [ByCoordinates(lat, lon)]
      ensures answer == provider(ByCoordinates(lat, lon))
    {
      calls := calls + [ByCoordinates(lat, lon)];
      answer := provider(ByCoordinates(lat, lon));
    }
  }
}
