# Weather integration core, modelled in Dafny

The system is a small Spring service in front of the OpenWeatherMap
"current weather" API. This model covers its two pieces of decision logic.

* **WeatherService** decides between a canned report and a provider lookup.
  A city named "Stockholm" or "Prishtina", in any letter case, gets the canned
  report. Any other city, and every coordinate lookup, costs one provider call.
  The service then maps the provider's record to a report (`mapToWeatherResponse`),
  capitalises the description (`capitalizeFirstLetter`) and stores the
  formatted message in the freshly built `WeatherResponse`.
* **WeatherController** checks the query parameters and answers 400 without
  calling the service when they are unusable. Otherwise it forwards them to
  the service once, unchanged, and answers 200 with the report. Its health
  check always answers 200 with one fixed text.

Modules, one per file:

* `Wrappers` (wrappers.dfy): `Option` stands for a Java reference that may be null.
  `Result` stands for a call that returns or throws.
* `JavaString` (java_string.dfy): the `String` operations the core uses, with ASCII case mapping.
  These are `toUpperCase`, `equalsIgnoreCase`, `trim` and `isEmpty`.
* `ProviderDto` (provider_dto.dfy): `OpenWeatherMapResponse` and its nested blocks.
  Every field is an `Option`.
* `WeatherDto` (weather_dto.dfy): the `Report` datatype holds the report fields.
  The `WeatherResponse` class holds those fields and a `formattedMessage` that is set after construction.
* `WeatherClientModel` (weather_client.dfy): the client, seen as a fixed provider function from
  query to answer. A ghost log records each call. The answer can be a record, a null body, or the message of a failed exchange.
* `WeatherServiceModel` (weather_service.dfy): the pure mapping and capitalisation functions,
  the mock branch, and the `WeatherService` class.
* `WeatherControllerModel` (weather_controller.dfy): the guard decisions as pure functions,
  the `WeatherController` class that dispatches on them, and the health check.

A Java exception becomes an `Err`. A `NullPointerException` during mapping is
`NullPointer(site)`, where the site is the first null the Java code dereferences,
in evaluation order. That order is: the provider record itself (line 75), the
first element of the `weather` list (line 76), `sys` (81), `main` (82), `wind` (86).
A null body returned by the client's `getForObject` therefore fails at the first site.
The client's wrapped exception is `FetchFailed(message)`, whose message is "Failed to fetch weather data: " followed by the cause's message.

Further facts about the code that the model keeps:

* The service itself does not check the city name; only the controller does.
* A missing `sys`, `main` or `wind` block, or a null first element of `weather`,
  makes the mapping throw a plain `NullPointerException`, modelled as `NullPointer(site)`.
* The health-check text is kept exactly as the source file spells it, ending in the three characters U+00E2 U+0153 U+2026.

## Model

| member | source | states |
|---|---|---|
| `JavaString.ToUpper` | src/main/java/se/moln/ecommerceintegration/service/WeatherService.java:98 | ASCII lower-case letters map to their upper-case letter; every other character is unchanged |
| `JavaString.ToUpperIdempotent` | src/main/java/se/moln/ecommerceintegration/service/WeatherService.java:98 | an upper-cased character has no lower-case letter left, and upper-casing it again changes nothing |
| `JavaString.UpperCase` | src/main/java/se/moln/ecommerceintegration/service/WeatherService.java:98 | `toUpperCase` keeps the length, turns each lower-case letter into its own capital, leaves no lower-case letter, and keeps every character that has no different upper-case form |
| `JavaString.UpperCaseOfUpper` | src/main/java/se/moln/ecommerceintegration/service/WeatherService.java:26 | a string without lower-case letters is its own upper-case form, e.g. "STOCKHOLM" |
| `JavaString.EqualsIgnoreCase` | src/main/java/se/moln/ecommerceintegration/service/WeatherService.java:26 | `equalsIgnoreCase` is the position-by-position comparison of upper-case forms; it holds only for equal lengths and always holds for equal strings |
| `JavaString.EqualsIgnoreCaseIffSameUpperCase` | src/main/java/se/moln/ecommerceintegration/service/WeatherService.java:26 | `equalsIgnoreCase` holds exactly when the two upper-case forms are equal |
| `JavaString.LeadingTrimmable` | src/main/java/se/moln/ecommerceintegration/controller/WeatherController.java:45 | the count of leading characters at or below U+0020: all of them are, and the next character, if any, is above U+0020 |
| `JavaString.TrailingTrimmable` | src/main/java/se/moln/ecommerceintegration/controller/WeatherController.java:45 | the count of trailing characters at or below U+0020: all of them are, and the character before them, if any, is above U+0020 |
| `JavaString.BlankIffAllTrimmable` | src/main/java/se/moln/ecommerceintegration/controller/WeatherController.java:45 | `trim` returns the empty string exactly when every character of the input is at or below U+0020 |
| `JavaString.IsBlank` | src/main/java/se/moln/ecommerceintegration/controller/WeatherController.java:45 | `s.trim().isEmpty()` holds exactly when every character of `s` is at or below U+0020 |
| `JavaString.Trim` | src/main/java/se/moln/ecommerceintegration/controller/WeatherController.java:45 | `trim` returns the infix of the input that starts after the leading characters at or below U+0020; everything before and after that infix is at or below U+0020, and the infix is empty or starts and ends with a character above U+0020 |
| `WeatherServiceModel.CapitalizeFirstLetter` | src/main/java/se/moln/ecommerceintegration/service/WeatherService.java:94-99 | null and "" come back unchanged; otherwise the length is kept, the first character becomes its upper-case form, and every later character is unchanged |
| `WeatherServiceModel.CapitalizeIdempotent` | src/main/java/se/moln/ecommerceintegration/service/WeatherService.java:94-99 | capitalising twice gives the same result as capitalising once |
| `WeatherServiceModel.CapitalizeFixesUpperInitial` | src/main/java/se/moln/ecommerceintegration/service/WeatherService.java:95-98 | a string that is empty or starts with an upper-case form comes back unchanged, so "N/A" stays "N/A" |
| `WeatherServiceModel.CapitalizeExamples` | src/main/java/se/moln/ecommerceintegration/service/WeatherService.java:94-99 | "clear sky" becomes "Clear sky"; "N/A", "" and null are unchanged |
| `WeatherServiceModel.SelectDescription` | src/main/java/se/moln/ecommerceintegration/service/WeatherService.java:75-77 | the raw description fails exactly when the condition list is non-empty and its first element is null. Otherwise it is "N/A" for a null or empty list, else the first condition's description |
| `WeatherServiceModel.MapToWeatherResponse` | src/main/java/se/moln/ecommerceintegration/service/WeatherService.java:74-89 | mapping succeeds exactly when no dereferenced reference is null. A failure names a null site, and every site dereferenced before it was present. On success the location, country, temperature, felt temperature, humidity and wind speed are the provider's values. The timestamp is the clock reading. The description is "N/A" for a null or empty condition list, else the capitalised description of the first condition |
| `WeatherServiceModel.MapIgnoresLaterConditions` | src/main/java/se/moln/ecommerceintegration/service/WeatherService.java:75-77 | conditions after the first do not affect the mapping |
| `WeatherServiceModel.MapDependsOnClockOnlyInTimestamp` | src/main/java/se/moln/ecommerceintegration/service/WeatherService.java:79-88 | two mappings of one record at different times succeed or fail together; they fail alike, or the reports differ only in the timestamp |
| `WeatherServiceModel.IsMockCity` | src/main/java/se/moln/ecommerceintegration/service/WeatherService.java:26 | the mock test holds exactly when the name's upper-case form is "STOCKHOLM" or "PRISHTINA" |
| `WeatherServiceModel.IsMockCityIff` | src/main/java/se/moln/ecommerceintegration/service/WeatherService.java:26 | comparing the name with "Stockholm" or "Prishtina" ignoring case is the same as comparing its upper-case form with "STOCKHOLM" or "PRISHTINA" |
| `WeatherServiceModel.MockCityExamples` | src/main/java/se/moln/ecommerceintegration/service/WeatherService.java:26 | "stockholm", "PRISHTINA" and "StOcKhOlM" take the mock branch; "London" does not, and neither do " Stockholm" or "Stockholm " |
| `WeatherServiceModel.MockReport` | src/main/java/se/moln/ecommerceintegration/service/WeatherService.java:27-36 | the canned report: the caller's name as location, country "SE", temperature 2.5, felt temperature 0.3, "Light snow", humidity 85, wind speed 4.2, and the clock reading |
| `WeatherServiceModel.CityReport` | src/main/java/se/moln/ecommerceintegration/service/WeatherService.java:22-54 | the outcome of a city lookup before formatting. A mock name gives the canned report. Otherwise a failed exchange becomes the client's fetch failure, and a received answer is mapped |
| `WeatherServiceModel.CoordinatesReport` | src/main/java/se/moln/ecommerceintegration/service/WeatherService.java:59-69 | the outcome of a coordinate lookup before formatting: the client's fetch failure, or its answer mapped; there is no mock case |
| `WeatherServiceModel.MockBranchIgnoresProvider` | src/main/java/se/moln/ecommerceintegration/service/WeatherService.java:26-42 | for a mock name the report does not depend on the provider and always succeeds. Its location is the caller's string as given, its description "Light snow" and its humidity 85 |
| `WeatherServiceModel.WeatherService.constructor` | src/main/java/se/moln/ecommerceintegration/service/WeatherService.java:15-18 | the service holds the given client and renderer and has served nothing yet |
| `WeatherServiceModel.WeatherService.GetWeatherForCity` | src/main/java/se/moln/ecommerceintegration/service/WeatherService.java:22-54 | a mock name makes no client call and yields the canned report (country "SE", 2.5, 0.3, "Light snow", 85, 4.2). Any other name makes exactly one client call with the name unchanged and yields the client's failure or the mapping of its answer. A returned response is fresh, and its formatted message is the rendering of its other fields |
| `WeatherServiceModel.WeatherService.GetWeatherByCoordinates` | src/main/java/se/moln/ecommerceintegration/service/WeatherService.java:59-69 | there is no mock branch: exactly one client call with the same coordinates, then the client's failure or the mapped answer with its formatted message |
| `WeatherServiceModel.WeatherService.Finish` | src/main/java/se/moln/ecommerceintegration/service/WeatherService.java:46-50 | a failed exchange gives the client's fetch failure. Otherwise the mapping's failure is passed on, or a fresh response holds the mapped report and the rendering of it as its formatted message |
| `WeatherDto.WeatherResponse.Build` | src/main/java/se/moln/ecommerceintegration/dto/weather/WeatherResponse.java:9-23 | the built object holds the given report fields, and its formatted message is still null |
| `WeatherClientModel.FetchFailure` | src/main/java/se/moln/ecommerceintegration/client/WeatherClient.java:52 | the rethrown exception's message is "Failed to fetch weather data: " followed by the cause's message, and nothing else |
| `WeatherServiceModel.FromAnswer` | src/main/java/se/moln/ecommerceintegration/service/WeatherService.java:46-47 | a failed exchange becomes the client's fetch failure and a received record is mapped; so a null-pointer failure comes only from the mapping and a fetch failure only from the exchange |
| `WeatherDto.WeatherResponse.CreateFormattedMessage` | src/main/java/se/moln/ecommerceintegration/dto/weather/WeatherResponse.java:25-38 | the uninterpreted rendering of the report fields; the formatted message is not among its inputs |
| `WeatherDto.WeatherResponse.SetFormattedMessage` | src/main/java/se/moln/ecommerceintegration/dto/weather/WeatherResponse.java:22 | only the formatted message changes, to the given text |
| `WeatherClientModel.WeatherClient.constructor` | src/main/java/se/moln/ecommerceintegration/client/WeatherClient.java:22-30 | a new client is bound to the provider and has made no calls |
| `WeatherClientModel.WeatherClient.GetWeatherByCity` | src/main/java/se/moln/ecommerceintegration/client/WeatherClient.java:35-54 | one call is logged for the city, and the answer is the provider's answer to that query |
| `WeatherClientModel.WeatherClient.GetWeatherByCoordinates` | src/main/java/se/moln/ecommerceintegration/client/WeatherClient.java:59-76 | one call is logged for the coordinate pair, and the answer is the provider's answer to that query |
| `WeatherControllerModel.DecideCity` | src/main/java/se/moln/ecommerceintegration/controller/WeatherController.java:45-51 | refuse exactly when the name is null or made only of characters at or below U+0020. Otherwise forward the name itself, untrimmed |
| `WeatherControllerModel.DecideCoordinates` | src/main/java/se/moln/ecommerceintegration/controller/WeatherController.java:75-86 | forward exactly when both values are present, latitude is in the closed range [-90, 90] and longitude in the closed range [-180, 180]; the request then carries the same two values |
| `WeatherControllerModel.CityDecisionExamples` | src/main/java/se/moln/ecommerceintegration/controller/WeatherController.java:45-51 | null, "" and "   " are refused; " Stockholm " is forwarded with its blanks |
| `WeatherControllerModel.CoordinateDecisionExamples` | src/main/java/se/moln/ecommerceintegration/controller/WeatherController.java:75-86 | lat 91, lon -200 and a missing lat are refused; the corners (90, -180) and (-90, 180) are forwarded |
| `WeatherControllerModel.HealthCheck` | src/main/java/se/moln/ecommerceintegration/controller/WeatherController.java:95-96 | always status 200 with the one fixed message |
| `WeatherControllerModel.WeatherController.constructor` | src/main/java/se/moln/ecommerceintegration/controller/WeatherController.java:20-24 | the controller holds the given service |
| `WeatherControllerModel.WeatherController.GetWeatherByCity` | src/main/java/se/moln/ecommerceintegration/controller/WeatherController.java:39-52 | a refused name gives 400 with no body, and neither the service nor the client is called. An accepted name reaches the service exactly once, unchanged. The client is then called once, or not at all for a mock name, and the answer is 200 with the service's report, or the service's failure |
| `WeatherControllerModel.WeatherController.GetWeatherByCoordinates` | src/main/java/se/moln/ecommerceintegration/controller/WeatherController.java:67-87 | refused coordinates give 400 with no body and no service or client call. Accepted ones reach the service and the client exactly once with the same values, and the answer is 200 with the service's report, or the service's failure |

## Left out

- The HTTP exchange with OpenWeatherMap is a fixed function from query to answer. This covers URL building, the API key and `RestTemplate`. A failed exchange is given by the cause's message, which the function returns as it likes; the wrapping in `WeatherClient` is modelled by `FetchFailure`.
- The report text of `createFormattedMessage` is not modelled. Its `String.format` template, `%.1f` rounding and emoji are an uninterpreted function `render` of the report fields, held by the service.
- `LocalDateTime.now()` is not modelled; the clock reading is a parameter `now` of each service and controller operation.
- Java `Double` values are `real` and are only copied or compared. The mock constants 2.5, 0.3 and 4.2 are exact. A NaN coordinate, which passes the Java range check because every comparison with NaN is false, is not modelled.
- JavaString.ToUpper: only ASCII letters change case, as under a default locale such as English. `toUpperCase()` at WeatherService.java:98 uses the JVM's default locale; under a Turkish or Azerbaijani locale it maps 'i' to U+0130, so "isolated rain" would become "İsolated rain", which the model does not produce. `equalsIgnoreCase` at line 26 does not depend on the locale. Java's full Unicode mapping is not modelled. That mapping can lengthen a string (German sharp s becomes "SS") and makes the Kelvin sign equal "k" under `equalsIgnoreCase`. A surrogate pair split by `substring(0, 1)` is not modelled either.
- WeatherServiceModel.CapitalizeFirstLetter: upper-cases its first character with `JavaString.ToUpper`, so it has that member's ASCII and default-locale restriction.
- WeatherServiceModel.WeatherService.GetWeatherForCity: the city is a non-null string. In Java a null city would skip the mock branch and reach the client. The only caller never passes null.
- WeatherServiceModel.WeatherService.GetWeatherByCoordinates: the coordinates are `real`, not nullable `Double`. In Java a null would be passed on to the client. The only caller, WeatherController.java:75-78, never passes null.
- The ghost logs `WeatherClient.calls` and `WeatherService.requests` are not in the source. They only make "called exactly once" and "not called" statable.
- Spring is not modelled: routing, rejection of a missing required parameter before the handler runs, and translation of an escaping exception into a 500 response. In the model the handler returns that exception as `Err`.
- Logging, Swagger/OpenAPI annotations, dependency injection, Jackson deserialisation and the Lombok-generated getters, `equals` and no-argument constructor are not modelled.
