/**
 * The OpenWeatherMap-based weather service (app/weather_service.py): a
 * state-to-city mapping, a Kelvin-to-Celsius conversion feeding a ladder of
 * temperature bands, a humidity suffix, and an 8-location fallback table that
 * is separate from the search-based service's table.
 */
module WeatherService {
  import opened Wrappers
  import opened Text
  import opened WeatherData

  const FallbackTable: Table := [
    ("Delhi", Reading(35, "Sunny and Hot")),
    ("Mumbai", Reading(28, "Humid and Cloudy")),
    ("Bangalore", Reading(25, "Pleasant and Breezy")),
    ("Chennai", Reading(32, "Hot and Humid")),
    ("Kolkata", Reading(30, "Warm and Rainy")),
    ("Rajasthan", Reading(40, "Very Hot and Dry")),
    ("Kerala", Reading(29, "Tropical and Humid")),
    ("Default", Reading(27, "Moderate"))
  ]

  /** `FALLBACK_WEATHER.get(location, FALLBACK_WEATHER["Default"])`. */
  function FallbackWeather(location: string): (w: Weather)
    ensures w.dataSource.None?
  {
    assert FallbackTable[7].0 == "Default";
    AsWeather(GetOrDefault(FallbackTable, location))
  }

  lemma FallbackKeysDistinct()
    ensures DistinctKeys(FallbackTable)
  {
  }

  /** Each of the seven named locations gets its own row. */
  lemma FallbackEntry(i: nat)
    requires i < |FallbackTable|
    ensures FallbackWeather(FallbackTable[i].0) == AsWeather(FallbackTable[i].1)
  {
    FallbackKeysDistinct();
    GetEntry(FallbackTable, i);
  }

  /** Any other location gets the Default row: 27 degrees, "Moderate". */
  lemma FallbackDefault(location: string)
    requires !HasKey(FallbackTable, location)
    ensures FallbackWeather(location) == Weather(27.0, "Moderate", None)
  {
    FallbackEntry(7);
  }

  /** `STATE_TO_CITY`: states are looked up by a major city; the cities map to themselves. */
  const StateToCity: map<string, string> := map[
    "Delhi" := "Delhi",
    "Mumbai" := "Mumbai",
    "Bangalore" := "Bangalore",
    "Chennai" := "Chennai",
    "Kolkata" := "Kolkata",
    "Rajasthan" := "Jaipur",
    "Kerala" := "Kochi"
  ]

  /** `STATE_TO_CITY.get(location, location)`: the city queried for a location. */
  function CityFor(location: string): (city: string)
    ensures location !in StateToCity ==> city == location
  {
    if location in StateToCity then StateToCity[location] else location
  }

  /** Only the two states are renamed; every other location is queried under its own name. */
  lemma CityForRenamesOnlyStates(location: string)
    ensures CityFor("Rajasthan") == "Jaipur" && CityFor("Kerala") == "Kochi"
    ensures location != "Rajasthan" && location != "Kerala" ==> CityFor(location) == location
  {
  }

  /** `kelvin_to_celsius`, on exact reals. */
  function KelvinToCelsius(kelvin: real): (c: real)
    ensures c + 273.15 == kelvin
    ensures kelvin < 273.15 <==> c < 0.0
  {
    kelvin - 273.15
  }

  /** The band names from hottest to coldest, and the strict lower bounds of all but the last. */
  const BandNames: seq<string> := ["Very Hot", "Hot", "Warm", "Pleasant", "Cool", "Cold", "Very Cold"]
  const BandFloors: seq<real> := [35.0, 30.0, 25.0, 20.0, 15.0, 10.0]

  /** Band `i` holds the temperatures above its floor and at or below the previous band's floor. */
  predicate InBand(t: real, i: nat)
    requires i < 7
  {
    (i == 0 || t <= BandFloors[i - 1]) && (i == 6 || t > BandFloors[i])
  }

  /** The temperature ladder: the first band, from the hottest, whose strict floor `t` exceeds. */
  function Band(t: real): (name: string)
    ensures forall i :: 0 <= i < 7 ==> (name == BandNames[i] <==> InBand(t, i))
  {
    if t > 35.0 then "Very Hot"
    else if t > 30.0 then "Hot"
    else if t > 25.0 then "Warm"
    else if t > 20.0 then "Pleasant"
    else if t > 15.0 then "Cool"
    else if t > 10.0 then "Cold"
    else "Very Cold"
  }

  /** The bands cover every temperature and do not overlap. */
  lemma {:induction false} BandsPartition(t: real)
    ensures exists i :: 0 <= i < 7 && InBand(t, i)
    ensures forall i, j :: 0 <= i < 7 && 0 <= j < 7 && InBand(t, i) && InBand(t, j) ==> i == j
  {
    if t > 35.0 {
      assert InBand(t, 0);
    } else if t > 30.0 {
      assert InBand(t, 1);
    } else if t > 25.0 {
      assert InBand(t, 2);
    } else if t > 20.0 {
      assert InBand(t, 3);
    } else if t > 15.0 {
      assert InBand(t, 4);
    } else if t > 10.0 {
      assert InBand(t, 5);
    } else {
      assert InBand(t, 6);
    }
  }

  /** A warmer temperature never gets a colder band. */
  lemma BandMonotone(t: real, u: real, i: nat, j: nat)
    requires t <= u && i < 7 && j < 7 && InBand(t, i) && InBand(u, j)
    ensures j <= i
  {
  }

  /** The humidity suffix: above 80 is humid, below 30 is dry, anything else (or no reading) adds nothing. */
  function HumiditySuffix(humidity: Option<real>): (s: string)
    ensures humidity.None? ==> s == ""
    ensures humidity.Some? && humidity.value > 80.0 ==> s == " and Humid"
    ensures humidity.Some? && humidity.value < 30.0 ==> s == " and Dry"
    ensures humidity.Some? && 30.0 <= humidity.value <= 80.0 ==> s == ""
  {
    match humidity
    case None => ""
    case Some(h) => if h > 80.0 then " and Humid" else if h < 30.0 then " and Dry" else ""
  }

  /** One entry of the reply's `weather` list; a missing key is None. */
  datatype Condition = Condition(main: Option<string>, description: Option<string>)

  /** The reply's `main` object: temperature and humidity, each possibly absent. */
  datatype Readings = Readings(temp: Option<real>, humidity: Option<real>)

  /** The decoded reply of the weather API; absent keys are None. */
  datatype Report = Report(weather: Option<seq<Condition>>, main: Option<Readings>)

  /**
   * `get_condition_description`: "Unknown" without a `weather` key; with a
   * temperature, "<band><humidity suffix> with <Description>", the band taken
   * from the temperature read as Kelvin; without one, "<main> - <Description>".
   * None is the KeyError or IndexError the Python code raises when a key it
   * reads is missing or the `weather` list is empty.
   */
  function ConditionDescription(report: Report): (r: Option<string>)
    ensures report.weather.None? ==> r == Some("Unknown")
  {
    match report.weather
    case None => Some("Unknown")
    case Some(conditions) =>
      if conditions == [] || conditions[0].main.None? || conditions[0].description.None? || report.main.None? then None
      else
        var description := Capitalize(conditions[0].description.value);
        var readings := report.main.value;
        match readings.temp
        case Some(temp) => Some(Band(KelvinToCelsius(temp)) + HumiditySuffix(readings.humidity) + " with " + description)
        case None => Some(conditions[0].main.value + " - " + description)
  }

  /** With a temperature, the description is the band, the suffix, then the capitalised description; without one, the main label first. */
  lemma ConditionDescriptionShape(report: Report)
    requires report.weather.Some? && |report.weather.value| > 0
    requires report.weather.value[0].main.Some? && report.weather.value[0].description.Some?
    requires report.main.Some?
    ensures var c := report.weather.value[0];
      var described := Capitalize(c.description.value);
      var r := ConditionDescription(report);
      r.Some? &&
      (report.main.value.temp.Some? ==>
        exists i :: 0 <= i < 7 && InBand(report.main.value.temp.value - 273.15, i) &&
          r.value == BandNames[i] + HumiditySuffix(report.main.value.humidity) + " with " + described) &&
      (report.main.value.temp.None? ==> r.value == c.main.value + " - " + described)
  {
    var readings := report.main.value;
    if readings.temp.Some? {
      var t := KelvinToCelsius(readings.temp.value);
      BandsPartition(t);
      var k :| 0 <= k < 7 && InBand(t, k);
      assert Band(t) == BandNames[k];
    }
  }

  /**
   * The reply asks for metric units, so `main.temp` is already in Celsius and
   * subtracting 273.15 again puts every reading at or below 283.15 in the
   * coldest band: 35 degrees is described as "Very Cold".
   */
  lemma MetricReadingsAreVeryCold(temp: real)
    requires temp <= 283.15
    ensures Band(KelvinToCelsius(temp)) == "Very Cold"
  {
  }

  /** What an HTTP request for the weather came to. */
  datatype FetchOutcome = Http(status: int, body: Option<Report>) | Raised(error: string)

  /**
   * What `get_weather_for_location` returns for a given request outcome: the
   * reply's own temperature with the derived description and source "api"
   * for a 200 reply that has a temperature and whose description can be
   * built; the fallback entry for a missing key, another status, or any
   * exception (including a missing field in the reply).
   */
  function WeatherFor(location: string, apiKey: Option<string>, outcome: FetchOutcome): (w: Weather)
    ensures w.dataSource.Some? ==> w.dataSource == Some("api") && KeyConfigured(apiKey) && outcome.Http? && outcome.status == 200
    ensures w.dataSource.None? ==> w == FallbackWeather(location)
  {
    if !KeyConfigured(apiKey) then FallbackWeather(location)
    else
      match outcome
      case Raised(_) => FallbackWeather(location)
      case Http(status, body) =>
        if status != 200 || body.None? then FallbackWeather(location)
        else
          var report := body.value;
          if report.main.None? || report.main.value.temp.None? then FallbackWeather(location)
          else
            match ConditionDescription(report)
            case None => FallbackWeather(location)
            case Some(condition) => Weather(report.main.value.temp.value, condition, Some("api"))
  }

  /** A well-formed 200 reply is reported as it came, with source "api". */
  lemma SuccessShape(location: string, apiKey: string, report: Report)
    requires apiKey != ""
    requires report.weather.Some? && |report.weather.value| > 0
    requires report.weather.value[0].main.Some? && report.weather.value[0].description.Some?
    requires report.main.Some? && report.main.value.temp.Some?
    ensures var w := WeatherFor(location, Some(apiKey), Http(200, Some(report)));
      w.dataSource == Some("api") && w.tempC == report.main.value.temp.value &&
      Some(w.condition) == ConditionDescription(report)
  {
    ConditionDescriptionShape(report);
  }

  /** `get_weather_for_location`: the request goes out for the mapped city, and only when a key is set. */
  method GetWeatherForLocation(location: string, apiKey: Option<string>, fetch: string -> FetchOutcome)
    returns (w: Weather)
    ensures w == WeatherFor(location, apiKey, fetch(CityFor(location)))
  {
    if !KeyConfigured(apiKey) {
      return FallbackWeather(location);
    }
    var city := CityFor(location);
    w := WeatherFor(location, apiKey, fetch(city));
  }
}
