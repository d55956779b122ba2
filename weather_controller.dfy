/**
 * WeatherController: checks the query parameters, answers 400 without
 * touching the service when they are unusable, and otherwise forwards them
 * to the service once and answers 200 with its report.
 */
module WeatherControllerModel {
  import opened Wrappers
  import opened JavaString
  import opened WeatherDto
  import opened WeatherClientModel
  import opened WeatherServiceModel

  /** ResponseEntity: an HTTP status and an optional body. */
  datatype ResponseEntity<T> = ResponseEntity(status: int, body: Option<T>)

  const OkStatus: int := 200
  const BadRequestStatus: int := 400

  /** The guard's verdict: refuse the request, or forward exactly this one request to the service. */
  datatype Decision = BadRequest | Forward(request: Request)

  /**
   * The guard of getWeatherByCity: a null name or one made only of
   * characters that trim removes is refused; any other name is forwarded as given.
   */
  function DecideCity(name: Option<string>): (d: Decision)
    ensures d == BadRequest <==>
      name.None? || forall i :: 0 <= i < |name.value| ==> IsTrimmable(name.value[i])
    ensures d.Forward? ==> d.request == CityRequest(name.value)
  {
    if name.None? then BadRequest
    else if IsBlank(name.value) then BadRequest else Forward(CityRequest(name.value))
  }

  /** Latitude and longitude lie in the closed ranges [-90, 90] and [-180, 180]. */
  predicate InRange(lat: real, lon: real) {
    -90.0 <= lat <= 90.0 && -180.0 <= lon <= 180.0
  }

  /**
   * The guards of getWeatherByCoordinates: both values present and inside
   * the closed ranges, or the request is refused.
   */
  function DecideCoordinates(lat: Option<real>, lon: Option<real>): (d: Decision)
    ensures d.Forward? <==> lat.Some? && lon.Some? && InRange(lat.value, lon.value)
    ensures d.Forward? ==> d.request == CoordinatesRequest(lat.value, lon.value)
  {
    if lat.None? || lon.None? then BadRequest
    else if lat.value < -90.0 || lat.value > 90.0 || lon.value < -180.0 || lon.value > 180.0 then BadRequest
    else Forward(CoordinatesRequest(lat.value, lon.value))
  }

  lemma CityDecisionExamples()
    ensures DecideCity(None) == BadRequest
    ensures DecideCity(Some("")) == BadRequest
    ensures DecideCity(Some("   ")) == BadRequest
    ensures DecideCity(Some(" Stockholm ")) == Forward(CityRequest(" Stockholm "))
  {
    var blank, padded := "   ", " Stockholm ";
    assert forall i :: 0 <= i < |blank| ==> IsTrimmable(blank[i]);
    assert !IsTrimmable(padded[1]);
  }

  lemma CoordinateDecisionExamples()
    ensures DecideCoordinates(Some(91.0), Some(0.0)) == BadRequest
    ensures DecideCoordinates(Some(0.0), Some(-200.0)) == BadRequest
    ensures DecideCoordinates(None, Some(0.0)) == BadRequest
    ensures DecideCoordinates(Some(90.0), Some(-180.0)) == Forward(CoordinatesRequest(90.0, -180.0))
    ensures DecideCoordinates(Some(-90.0), Some(180.0)) == Forward(CoordinatesRequest(-90.0, 180.0))
  {
  }

  /** The body of the health check, as the source file spells it. */
  const HealthMessage: string := "Weather Integration Service is running \U{E2}\U{153}\U{2026}"

  /** healthCheck: always 200 with the same text. */
  function HealthCheck(): (r: ResponseEntity<string>)
    ensures r.status == OkStatus && r.body == Some(HealthMessage)
  {
    ResponseEntity(OkStatus, Some(HealthMessage))
  }

  /**
   * The controller's answer, when no exception escapes, carries exactly the
   * report the service delivered, with status 200.
   */
  predicate Answered(r: Result<ResponseEntity<WeatherResponse>, Failure>, expected: Result<Report, Failure>, render: Report -> string)
    reads if r.Ok? && r.value.body.Some? then {r.value.body.value} else {}
  {
    match r
    case Ok(entity) =>
      entity.status == OkStatus && entity.body.Some? &&
      Delivered(Ok(entity.body.value), expected, render)
    case Err(e) => expected == Err(e)
  }

  class WeatherController {
    const service: WeatherService

    constructor (service: WeatherService)
      ensures this.service == service
    {
      this.service := service;
    }

    /** getWeatherByCity */
    method GetWeatherByCity(name: Option<string>, now: Instant) returns (r: Result<ResponseEntity<WeatherResponse>, Failure>)
      modifies service, service.client
      ensures DecideCity(name) == BadRequest ==>
        r == Ok(ResponseEntity(BadRequestStatus, None)) &&
        service.requests == old(service.requests) &&
        service.client.calls == old(service.client.calls)
      ensures DecideCity(name).Forward? ==>
        service.requests == old(service.requests) + [CityRequest(name.value)] &&
        service.client.calls == old(service.client.calls) + (if IsMockCity(name.value) then [] else [ByCity(name.value)]) &&
        Answered(r, CityReport(name.value, service.client.provider, now), service.render)
    {
      match DecideCity(name)
      case BadRequest =>
        r := Ok(ResponseEntity(BadRequestStatus, None));
      case Forward(request) =>
        var response := service.GetWeatherForCity(request.city, now);
        if response.Err? {
          return Err(response.error);
        }
        r := Ok(ResponseEntity(OkStatus, Some(response.value)));
    }

    /** getWeatherByCoordinates */
    method GetWeatherByCoordinates(lat: Option<real>, lon: Option<real>, now: Instant)
      returns (r: Result<ResponseEntity<WeatherResponse>, Failure>)
      modifies service, service.client
      ensures DecideCoordinates(lat, lon) == BadRequest ==>
        r == Ok(ResponseEntity(BadRequestStatus, None)) &&
        service.requests == old(service.requests) &&
        service.client.calls == old(service.client.calls)
      ensures DecideCoordinates(lat, lon).Forward? ==>
        service.requests == old(service.requests) + [CoordinatesRequest(lat.value, lon.value)] &&
        service.client.calls == old(service.client.calls) + [ByCoordinates(lat.value, lon.value)] &&
        Answered(r, CoordinatesReport(lat.value, lon.value, service.client.provider, now), service.render)
    {
      match DecideCoordinates(lat, lon)
      case BadRequest =>
        r := Ok(ResponseEntity(BadRequestStatus, None));
      case Forward(request) =>
        var response := service.GetWeatherByCoordinates(request.lat, request.lon, now);
        if response.Err? {
          return Err(response.error);
        }
        r := Ok(ResponseEntity(OkStatus, Some(response.value)));
    }
  }
}
