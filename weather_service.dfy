/**
 * WeatherService: picks the mock report or asks the client, maps the
 * provider's record to a report and attaches the formatted message.
 */
module WeatherServiceModel {
  import opened Wrappers
  import opened JavaString
  import opened ProviderDto
  import opened WeatherDto
  import opened WeatherClientModel

  // ---------------------------------------------------------------------
  // capitalizeFirstLetter

  /** Upper-cases the first character only; null and "" come back unchanged. */
  function CapitalizeFirstLetter(s: Option<string>): (r: Option<string>)
    ensures s.None? ==> r.None?
    ensures s == Some([]) ==> r == s
    ensures s.Some? && s.value != [] ==>
      r.Some? && |r.value| == |s.value| &&
      r.value[0] == ToUpper(s.value[0]) && IsUpperForm(r.value[0]) &&
      forall i :: 1 <= i < |s.value| ==> r.value[i] == s.value[i]
  {
    match s
    case None => None
    case Some(str) =>
      if |str| == 0 then s
      else Some(UpperCase(str[..1]) + str[1..])
  }

  /** Capitalising twice is capitalising once. */
  lemma CapitalizeIdempotent(s: Option<string>)
    ensures CapitalizeFirstLetter(CapitalizeFirstLetter(s)) == CapitalizeFirstLetter(s)
  {
    if s.Some? && s.value != [] {
      ToUpperIdempotent(s.value[0]);
      assert CapitalizeFirstLetter(CapitalizeFirstLetter(s)).value == CapitalizeFirstLetter(s).value;
    }
  }

  /** A string whose first character is already upper-case comes back unchanged. */
  lemma CapitalizeFixesUpperInitial(s: string)
    requires s == [] || IsUpperForm(s[0])
    ensures CapitalizeFirstLetter(Some(s)) == Some(s)
  {
    if s != [] {
      assert CapitalizeFirstLetter(Some(s)).value == s;
    }
  }

  lemma CapitalizeExamples()
    ensures CapitalizeFirstLetter(Some("clear sky")) == Some("Clear sky")
    ensures CapitalizeFirstLetter(Some(NotAvailable)) == Some(NotAvailable)
    ensures CapitalizeFirstLetter(Some("")) == Some("")
    ensures CapitalizeFirstLetter(None) == None
  {
    assert CapitalizeFirstLetter(Some("clear sky")).value == "Clear sky";
    CapitalizeFixesUpperInitial(NotAvailable);
  }

  // ---------------------------------------------------------------------
  // mapToWeatherResponse

  /** The description used when the provider sends no condition list, or an empty one. */
  const NotAvailable: string := "N/A"

  /**
   * The description before capitalisation: the first condition's text, or
   * "N/A" for a null or empty list. A null first element is dereferenced.
   */
  function SelectDescription(api: OpenWeatherMapResponse): (r: Result<Option<string>, Failure>)
    ensures r.Err? <==> Missing(Some(api), WeatherEntry)
    ensures r.Err? ==> r.error == NullPointer(WeatherEntry)
    ensures r.Ok? && (api.weather.None? || api.weather.value == []) ==> r.value == Some(NotAvailable)
    ensures r.Ok? && api.weather.Some? && api.weather.value != [] ==> r.value == api.weather.value[0].value.description
  {
    if api.weather.Some? && api.weather.value != [] then
      match api.weather.value[0]
      case None => Err(NullPointer(WeatherEntry))
      case Some(condition) => Ok(condition.description)
    else
      Ok(Some(NotAvailable))
  }

  /** True when the dereference at `site` would find null. */
  predicate Missing(response: Option<OpenWeatherMapResponse>, site: NullSite) {
    match site
    case ApiResponse => response.None?
    case WeatherEntry =>
      response.Some? && response.value.weather.Some? &&
      response.value.weather.value != [] && response.value.weather.value[0].None?
    case SysBlock => response.Some? && response.value.sys.None?
    case MainBlockRef => response.Some? && response.value.main.None?
    case WindBlock => response.Some? && response.value.wind.None?
  }

  /** The order in which mapToWeatherResponse performs the dereferences. */
  function EvaluationOrder(site: NullSite): nat {
    match site
    case ApiResponse => 0
    case WeatherEntry => 1
    case SysBlock => 2
    case MainBlockRef => 3
    case WindBlock => 4
  }

  /**
   * The provider's record as a report stamped `now`. The mapping fails with
   * the first null it dereferences; otherwise every scalar is copied and the
   * description is the capitalised first condition, or "N/A".
   */
  function MapToWeatherResponse(response: Option<OpenWeatherMapResponse>, now: Instant): (r: Result<Report, Failure>)
    ensures r.Ok? <==> forall site :: !Missing(response, site)
    ensures r.Err? ==>
      r.error.NullPointer? && Missing(response, r.error.site) &&
      forall site :: EvaluationOrder(site) < EvaluationOrder(r.error.site) ==> !Missing(response, site)
    ensures r.Ok? ==>
      response.Some? && response.value.sys.Some? && response.value.main.Some? && response.value.wind.Some? &&
      (response.value.weather.Some? && response.value.weather.value != [] ==> response.value.weather.value[0].Some?)
    ensures r.Ok? ==>
      var api := response.value;
      r.value.location == api.cityName &&
      r.value.country == api.sys.value.country &&
      r.value.temperature == api.main.value.temperature &&
      r.value.feelsLike == api.main.value.feelsLike &&
      r.value.humidity == api.main.value.humidity &&
      r.value.windSpeed == api.wind.value.speed &&
      r.value.timestamp == now
    ensures r.Ok? && (response.value.weather.None? || response.value.weather.value == []) ==>
      r.value.description == Some(NotAvailable)
    ensures r.Ok? && response.value.weather.Some? && response.value.weather.value != [] ==>
      r.value.description == CapitalizeFirstLetter(response.value.weather.value[0].value.description)
  {
    match response
    case None =>
      assert Missing(response, ApiResponse);
      Err(NullPointer(ApiResponse))
    case Some(api) =>
      match SelectDescription(api)
      case Err(e) =>
        assert Missing(response, WeatherEntry);
        Err(e)
      case Ok(description) =>
        if api.sys.None? then
          assert Missing(response, SysBlock);
          Err(NullPointer(SysBlock))
        else if api.main.None? then
          assert Missing(response, MainBlockRef);
          Err(NullPointer(MainBlockRef))
        else if api.wind.None? then
          assert Missing(response, WindBlock);
          Err(NullPointer(WindBlock))
        else
          CapitalizeFixesUpperInitial(NotAvailable);
          Ok(Report(
            api.cityName,
            api.sys.value.country,
            api.main.value.temperature,
            api.main.value.feelsLike,
            CapitalizeFirstLetter(description),
            api.main.value.humidity,
            api.wind.value.speed,
            now))
  }

  /** Only the first condition in the list is looked at. */
  lemma MapIgnoresLaterConditions(api: OpenWeatherMapResponse, first: Option<Condition>, rest: seq<Option<Condition>>, now: Instant)
    requires api.weather == Some([first] + rest)
    ensures MapToWeatherResponse(Some(api), now) == MapToWeatherResponse(Some(api.(weather := Some([first]))), now)
  {
  }

  /** Two mappings of one record differ at most in their timestamps. */
  lemma MapDependsOnClockOnlyInTimestamp(response: Option<OpenWeatherMapResponse>, t1: Instant, t2: Instant)
    ensures MapToWeatherResponse(response, t1).Ok? == MapToWeatherResponse(response, t2).Ok?
    ensures MapToWeatherResponse(response, t1).Ok? ==>
      MapToWeatherResponse(response, t2).value == MapToWeatherResponse(response, t1).value.(timestamp := t2)
    ensures MapToWeatherResponse(response, t1).Err? ==>
      MapToWeatherResponse(response, t2).error == MapToWeatherResponse(response, t1).error
  {
  }

  // ---------------------------------------------------------------------
  // getWeatherForCity and getWeatherByCoordinates

  /**
   * The test of line 26: the two city names the service answers with canned
   * data, in any letter case, instead of asking the provider.
   */
  predicate IsMockCity(city: string): (m: bool)
    ensures m <==> UpperCase(city) == "STOCKHOLM" || UpperCase(city) == "PRISHTINA"
  {
    IsMockCityIff(city);
    EqualsIgnoreCase("Stockholm", city) || EqualsIgnoreCase("Prishtina", city)
  }

  /** Comparing with "Stockholm" and "Prishtina" ignoring case is comparing upper-case forms. */
  lemma IsMockCityIff(city: string)
    ensures EqualsIgnoreCase("Stockholm", city) || EqualsIgnoreCase("Prishtina", city)
      <==> UpperCase(city) == "STOCKHOLM" || UpperCase(city) == "PRISHTINA"
  {
    EqualsIgnoreCaseIffSameUpperCase("Stockholm", city);
    EqualsIgnoreCaseIffSameUpperCase("Prishtina", city);
    UpperCaseOfUpper("STOCKHOLM");
    UpperCaseOfUpper("PRISHTINA");
    assert UpperCase("Stockholm") == UpperCase("STOCKHOLM");
    assert UpperCase("Prishtina") == UpperCase("PRISHTINA");
  }

  /** Names are compared whole: surrounding blanks are not ignored. */
  lemma MockCityExamples()
    ensures IsMockCity("stockholm") && IsMockCity("PRISHTINA") && IsMockCity("StOcKhOlM")
    ensures !IsMockCity("London") && !IsMockCity(" Stockholm") && !IsMockCity("Stockholm ")
  {
    assert EqualsIgnoreCase("Stockholm", "stockholm");
    assert EqualsIgnoreCase("Stockholm", "StOcKhOlM");
    assert EqualsIgnoreCase("Prishtina", "PRISHTINA");
    assert |UpperCase("London")| == 6;
    assert |UpperCase(" Stockholm")| == 10 && |UpperCase("Stockholm ")| == 10;
  }


  /** The canned report of the mock branch; the location is the caller's name as given. */
  function MockReport(city: string, now: Instant): (r: Report)
    ensures r.location == Some(city) && r.timestamp == now
    ensures r.country == Some("SE") && r.description == Some("Light snow") && r.humidity == Some(85)
    ensures r.temperature == Some(2.5) && r.feelsLike == Some(0.3) && r.windSpeed == Some(4.2)
  {
    Report(Some(city), Some("SE"), Some(2.5), Some(0.3), Some("Light snow"), Some(85), Some(4.2), now)
  }

  /**
   * The live path after the provider call: a failed exchange becomes the
   * client's FetchFailed, a received body is mapped. A NullPointer can
   * therefore only come from the mapping, never from the exchange.
   */
  function FromAnswer(answer: Answer, now: Instant): (r: Result<Report, Failure>)
    ensures answer.Err? ==> r == Err(FetchFailure(answer.error))
    ensures answer.Ok? ==> r == MapToWeatherResponse(answer.value, now)
    ensures r.Err? && r.error.NullPointer? ==> answer.Ok?
    ensures r.Err? && r.error.FetchFailed? ==> answer.Err?
  {
    match answer
    case Err(cause) => Err(FetchFailure(cause))
    case Ok(body) => MapToWeatherResponse(body, now)
  }

  /** The report (before formatting) that getWeatherForCity returns, or the failure it throws. */
  function CityReport(city: string, provider: Query -> Answer, now: Instant): (r: Result<Report, Failure>)
    ensures IsMockCity(city) ==> r == Ok(MockReport(city, now))
    ensures !IsMockCity(city) && provider(ByCity(city)).Err? ==> r == Err(FetchFailure(provider(ByCity(city)).error))
    ensures !IsMockCity(city) && provider(ByCity(city)).Ok? ==> r == MapToWeatherResponse(provider(ByCity(city)).value, now)
  {
    if IsMockCity(city) then Ok(MockReport(city, now)) else FromAnswer(provider(ByCity(city)), now)
  }

  /** The report (before formatting) that getWeatherByCoordinates returns, or the failure it throws. */
  function CoordinatesReport(lat: real, lon: real, provider: Query -> Answer, now: Instant): (r: Result<Report, Failure>)
    ensures provider(ByCoordinates(lat, lon)).Err? ==> r == Err(FetchFailure(provider(ByCoordinates(lat, lon)).error))
    ensures provider(ByCoordinates(lat, lon)).Ok? ==> r == MapToWeatherResponse(provider(ByCoordinates(lat, lon)).value, now)
  {
    FromAnswer(provider(ByCoordinates(lat, lon)), now)
  }

  /** The mock branch does not depend on the provider and echoes the caller's spelling. */
  lemma MockBranchIgnoresProvider(city: string, p1: Query -> Answer, p2: Query -> Answer, now: Instant)
    requires IsMockCity(city)
    ensures CityReport(city, p1, now) == CityReport(city, p2, now)
    ensures CityReport(city, p1, now).Ok?
    ensures CityReport(city, p1, now).value.location == Some(city)
    ensures CityReport(city, p1, now).value.description == Some("Light snow")
    ensures CityReport(city, p1, now).value.humidity == Some(85)
  {
  }

  /**
   * A returned WeatherResponse carries exactly the expected report fields and
   * the rendering of them as its formatted message; a failure is the expected one.
   */
  predicate Delivered(r: Result<WeatherResponse, Failure>, expected: Result<Report, Failure>, render: Report -> string)
    reads if r.Ok? then {r.value} else {}
  {
    match r
    case Ok(response) =>
      expected.Ok? && response.Fields() == expected.value &&
      response.formattedMessage == Some(render(expected.value))
    case Err(e) => expected == Err(e)
  }

  /** What a caller hands to the service. */
  datatype Request = CityRequest(city: string) | CoordinatesRequest(lat: real, lon: real)

  class WeatherService {
    const client: WeatherClient
    /** WeatherResponse.createFormattedMessage, left uninterpreted. */
    const render: Report -> string
    /** Every request the service has served, in order. */
    ghost var requests: seq<Request>

    constructor (client: WeatherClient, render: Report -> string)
      ensures this.client == client && this.render == render
      ensures requests == []
    {
      this.client := client;
      this.render := render;
      requests := [];
    }

    /**
     * getWeatherForCity: a mock name is answered without a provider call;
     * any other name costs exactly one provider call with the name unchanged.
     */
    method GetWeatherForCity(city: string, now: Instant) returns (r: Result<WeatherResponse, Failure>)
      modifies this, client
      ensures requests == old(requests) + [CityRequest(city)]
      ensures client.calls == old(client.calls) + if IsMockCity(city) then [] else [ByCity(city)]
      ensures r.Ok? ==> fresh(r.value)
      ensures Delivered(r, CityReport(city, client.provider, now), render)
    {
      requests := requests + [CityRequest(city)];
      if IsMockCity(city) {
        var mock := new WeatherResponse.Build(MockReport(city, now));
        var message := mock.CreateFormattedMessage(render);
        mock.SetFormattedMessage(message);
        return Ok(mock);
      }
      var answer := client.GetWeatherByCity(city);
      r := Finish(answer, now);
    }

    /** getWeatherByCoordinates: exactly one provider call, no mock branch. */
    method GetWeatherByCoordinates(lat: real, lon: real, now: Instant) returns (r: Result<WeatherResponse, Failure>)
      modifies this, client
      ensures requests == old(requests) + [CoordinatesRequest(lat, lon)]
      ensures client.calls == old(client.calls) + [ByCoordinates(lat, lon)]
      ensures r.Ok? ==> fresh(r.value)
      ensures Delivered(r, CoordinatesReport(lat, lon, client.provider, now), render)
    {
      requests := requests + [CoordinatesRequest(lat, lon)];
      var answer := client.GetWeatherByCoordinates(lat, lon);
      r := Finish(answer, now);
    }

    /** The steps both live paths share: map the answer, build the response, attach its formatted message. */
    method Finish(answer: Answer, now: Instant) returns (r: Result<WeatherResponse, Failure>)
      ensures r.Ok? ==> fresh(r.value)
      ensures Delivered(r, FromAnswer(answer, now), render)
    {
      if answer.Err? {
        return Err(FetchFailure(answer.error));
      }
      var mapped := MapToWeatherResponse(answer.value, now);
      if mapped.Err? {
        return Err(mapped.error);
      }
      var response := new WeatherResponse.Build(mapped.value);
      var message := response.CreateFormattedMessage(render);
      response.SetFormattedMessage(message);
      r := Ok(response);
    }
  }
}
