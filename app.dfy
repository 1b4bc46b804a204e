/**
 * The page component (src/App.tsx): the search form's state transitions,
 * the twelve-hour forecast strip and the description shown for the current
 * weather code.
 */
module App {
  import opened Config
  import opened Api
  import Notifications

  /** `WhiteSpace` and `LineTerminator` of ECMAScript (sections 12.2 and 12.3
      of ECMA-262), the characters `String.prototype.trim` removes. */
  predicate IsJsSpace(c: char)
  {
    c == '\t' || c == '\n' || c == '\U{B}' || c == '\U{C}' || c == '\r' || c == ' '
    || c == '\U{A0}' || c == '\U{1680}' || ('\U{2000}' <= c <= '\U{200A}')
    || c == '\U{2028}' || c == '\U{2029}' || c == '\U{202F}' || c == '\U{205F}'
    || c == '\U{3000}' || c == '\U{FEFF}'
  }

  /** `s` without its leading white space. */
  function TrimStart(s: string): string
  {
    if |s| > 0 && IsJsSpace(s[0]) then TrimStart(s[1..]) else s
  }

  /** `s` without its trailing white space. */
  function TrimEnd(s: string): string
  {
    if |s| > 0 && IsJsSpace(s[|s| - 1]) then TrimEnd(s[..|s| - 1]) else s
  }

  /** `TrimStart` drops a run of white space from the front, and stops at the
      first other character. */
  lemma {:induction false} TrimStartMeaning(s: string)
    ensures |TrimStart(s)| <= |s| && TrimStart(s) == s[|s| - |TrimStart(s)|..]
    ensures forall i :: 0 <= i < |s| - |TrimStart(s)| ==> IsJsSpace(s[i])
    ensures |TrimStart(s)| > 0 ==> !IsJsSpace(TrimStart(s)[0])
  {
    if |s| > 0 && IsJsSpace(s[0]) {
      TrimStartMeaning(s[1..]);
    }
  }

  /** `TrimEnd` drops a run of white space from the back, and stops at the
      last other character. */
  lemma {:induction false} TrimEndMeaning(s: string)
    ensures |TrimEnd(s)| <= |s| && TrimEnd(s) == s[..|TrimEnd(s)|]
    ensures forall i :: |TrimEnd(s)| <= i < |s| ==> IsJsSpace(s[i])
    ensures |TrimEnd(s)| > 0 ==> !IsJsSpace(TrimEnd(s)[|TrimEnd(s)| - 1])
  {
    if |s| > 0 && IsJsSpace(s[|s| - 1]) {
      TrimEndMeaning(s[..|s| - 1]);
    }
  }

  /** `String.prototype.trim`. */
  function Trim(s: string): (r: string)
    ensures |r| <= |s|
    ensures r != "" ==> !IsJsSpace(r[0]) && !IsJsSpace(r[|r| - 1])
  {
    TrimStartMeaning(s);
    TrimEndMeaning(TrimStart(s));
    TrimEnd(TrimStart(s))
  }

  /** The trimmed query is empty exactly when the query is all white space;
      otherwise it is a slice of the query that neither starts nor ends with
      white space. */
  lemma TrimMeaning(s: string)
    ensures Trim(s) == "" <==> forall i :: 0 <= i < |s| ==> IsJsSpace(s[i])
    ensures Trim(s) != "" ==>
      !IsJsSpace(Trim(s)[0]) && !IsJsSpace(Trim(s)[|Trim(s)| - 1])
      && exists k: nat :: OccursAt(s, Trim(s), k)
  {
    var t := TrimStart(s);
    var r := TrimEnd(t);
    TrimStartMeaning(s);
    TrimEndMeaning(t);
    if r == "" {
      assert t == "";
    } else {
      var k := |s| - |t|;
      assert r == s[k..k + |r|];
      assert t[0] == r[0];
      assert !IsJsSpace(s[k]);
      assert OccursAt(s, r, k);
    }
  }

  const BLANK_QUERY: string := "Entre le nom d’une ville."

  /** What one search yields: the city found for the trimmed query and then
      its forecast, or the first error met on the way. */
  function SearchOutcome(query: string, geo: HttpReply<GeocodingResponse>, forecast: HttpReply<WeatherData>)
    : (r: Result<(Location, WeatherData)>)
    ensures r.Ok? ==> SearchCity(Trim(query), geo) == Ok(r.value.0)
    ensures r.Ok? ==> forecast.Reply? && forecast.ok && forecast.json == Ok(r.value.1)
  {
    match SearchCity(Trim(query), geo)
    case Err(message) => Err(message)
    case Ok(city) =>
      match FetchWeather(forecast)
      case Err(message) => Err(message)
      case Ok(data) => Ok((city, data))
  }

  /** A search succeeds exactly when the city is found and its forecast
      fetched, and yields both; a failure reports the first error met. */
  lemma SearchOutcomeMeaning(query: string, geo: HttpReply<GeocodingResponse>, forecast: HttpReply<WeatherData>)
    ensures var r := SearchOutcome(query, geo, forecast); var found := SearchCity(Trim(query), geo);
      (r.Ok? <==> found.Ok? && FetchWeather(forecast).Ok?)
      && (r.Ok? ==> r.value == (found.value, FetchWeather(forecast).value))
      && (found.Err? ==> r == Err(found.message))
      && (found.Ok? && FetchWeather(forecast).Err? ==> r == Err(FetchWeather(forecast).message))
  {
  }

  /** After a completed search the page shows a city together with its
      forecast and no error, or neither of them and an error. */
  lemma DisplayedBothOrNeither(outcome: Result<(Location, WeatherData)>)
    ensures var (location, weather, error) := Displayed(outcome);
      (location.Some? <==> weather.Some?) && (error.None? <==> location.Some?)
      && (outcome.Err? ==> error == Some(outcome.message))
  {
  }

  /** The city, forecast and error shown once a search has completed: both
      results on success, and on failure neither of them but the message. */
  function Displayed(outcome: Result<(Location, WeatherData)>): (Option<Location>, Option<WeatherData>, Option<string>)
  {
    match outcome
    case Ok((city, data)) => (Some(city), Some(data), None)
    case Err(message) => (None, None, Some(message))
  }

  /** The state of the search part of the page. */
  class SearchPage {
    var query: string
    var location: Option<Location>
    var weather: Option<WeatherData>
    var loading: bool
    var error: Option<string>

    /** Between events: a city is shown with its forecast or neither is, and
        no search is in flight. */
    ghost predicate Valid()
      reads this
    {
      (location.Some? <==> weather.Some?) && !loading
    }

    constructor()
      ensures Valid()
      ensures query == "" && location.None? && weather.None? && !loading && error.None?
    {
      query := "";
      location := None;
      weather := None;
      loading := false;
      error := None;
    }

    /** Typing into the field. */
    method SetQuery(text: string)
      modifies this
      ensures query == text
      ensures location == old(location) && weather == old(weather)
      ensures loading == old(loading) && error == old(error)
    {
      query := text;
    }

    /** `handleSearch`, with the replies to the geocoding and forecast requests
        as inputs (the forecast reply is used only once a city is found). */
    method HandleSearch(geo: HttpReply<GeocodingResponse>, forecast: HttpReply<WeatherData>)
      requires Valid()
      modifies this
      ensures Valid()
      ensures query == old(query)
      ensures Trim(query) == "" ==>
        error == Some(BLANK_QUERY) && location == old(location) && weather == old(weather)
      ensures Trim(query) != "" ==>
        (location, weather, error) == Displayed(SearchOutcome(query, geo, forecast))
    {
      var trimmed := Trim(query);
      if trimmed == "" {
        error := Some(BLANK_QUERY);
        return;
      }
      loading := true;
      error := None;
      var found := SearchCity(trimmed, geo);
      var outcome: Result<WeatherData> := Err("");
      if found.Ok? {
        outcome := FetchWeather(forecast);
      }
      ghost var expected := SearchOutcome(query, geo, forecast);
      if found.Ok? && outcome.Ok? {
        assert expected == Ok((found.value, outcome.value));
        location := Some(found.value);
        weather := Some(outcome.value);
      } else {
        assert expected == Err(if found.Err? then found.message else outcome.message);
        error := Some(if found.Err? then found.message else outcome.message);
        weather := None;
        location := None;
      }
      loading := false;
    }
  }

  /** A search that finds nothing for a non-blank query reports the query. */
  lemma SearchNotFoundMessage(query: string, geo: HttpReply<GeocodingResponse>, forecast: HttpReply<WeatherData>)
    requires Trim(query) != ""
    requires geo.Reply? && geo.ok && geo.json == Ok(GeocodingResponse(Some([])))
    ensures SearchOutcome(query, geo, forecast) == Err(NotFound(Trim(query)))
    ensures Contains(SearchOutcome(query, geo, forecast).message, Trim(query))
  {
    NotFoundNamesQuery(Trim(query));
  }

  /** One cell of the forecast strip. A value missing from its array is
      `undefined`, and rounding it gives `NaN`: both are `None`. */
  datatype HourEntry = HourEntry(time: string, temp: Option<int>, code: Option<int>, precipitation: Option<int>)

  /** How many hours the strip shows. */
  const STRIP_HOURS: nat := 12

  function Cell(h: Hourly, i: nat): HourEntry
    requires i < |h.time|
  {
    var temp := At(h.temperature2m, i);
    HourEntry(h.time[i], if temp.Some? then Some(Round(temp.value)) else None,
              At(h.weatherCode, i), At(h.precipitationProbability, i))
  }

  /** `hourlyForecast`: the first twelve hours, one cell per time stamp. */
  function HourlyForecast(weather: Option<WeatherData>): (r: seq<HourEntry>)
    ensures weather.None? || weather.value.hourly.None? ==> r == []
    ensures weather.Some? && weather.value.hourly.Some? ==>
      |r| == Min(STRIP_HOURS, |weather.value.hourly.value.time|)
  {
    if weather.None? || weather.value.hourly.None? then []
    else
      var h := weather.value.hourly.value;
      seq(Min(STRIP_HOURS, |h.time|), i requires 0 <= i < Min(STRIP_HOURS, |h.time|) => Cell(h, i))
  }

  /** Cell `i` of the strip shows hour `i`: its time stamp, its rounded
      temperature, code and precipitation probability when present. */
  lemma ForecastCells(w: WeatherData, i: nat)
    requires w.hourly.Some? && i < Min(STRIP_HOURS, |w.hourly.value.time|)
    ensures var cell := HourlyForecast(Some(w))[i]; var h := w.hourly.value;
      cell.time == h.time[i]
      && (i < |h.temperature2m| <==> cell.temp.Some?)
      && (i < |h.temperature2m| ==> h.temperature2m[i] - 0.5 < cell.temp.value as real <= h.temperature2m[i] + 0.5)
      && (cell.code.Some? <==> i < |h.weatherCode|)
      && (cell.code.Some? ==> cell.code.value == h.weatherCode[i])
      && (cell.precipitation.Some? <==> i < |h.precipitationProbability|)
      && (cell.precipitation.Some? ==> cell.precipitation.value == h.precipitationProbability[i])
  {
  }

  /** The first cells of the strip show the very samples the alert scan
      examines: a cell announces rain by the alert rule exactly when the scan
      counts its hour as rainy. */
  lemma ForecastMatchesAlertScan(w: WeatherData, i: nat)
    requires w.hourly.Some? && i < Min(Notifications.HORIZON, |w.hourly.value.time|)
    ensures var cell := HourlyForecast(Some(w))[i];
      Notifications.RainAt(w.hourly.value, i) <==>
        (cell.code.Some? && cell.code.value in RAIN_CODES)
        || (cell.precipitation.Some? && cell.precipitation.value > Notifications.RAIN_PROBABILITY)
  {
  }

  /** `createWeatherDescriptionMap`. */
  const DESCRIPTIONS: map<int, string> := map[
    0 := "Ciel dégagé", 1 := "Ciel principalement dégagé", 2 := "Partiellement nuageux",
    3 := "Très nuageux", 45 := "Brouillard", 48 := "Brouillard givrant",
    51 := "Bruine légère", 53 := "Bruine", 55 := "Bruine dense",
    56 := "Bruine verglaçante", 57 := "Bruine verglaçante dense",
    61 := "Pluie faible", 63 := "Pluie", 65 := "Pluie forte",
    66 := "Pluie verglaçante", 67 := "Pluie verglaçante forte",
    71 := "Neige faible", 73 := "Neige", 75 := "Neige forte", 77 := "Grains de neige",
    80 := "Averses faibles", 81 := "Averses", 82 := "Averses violentes",
    85 := "Averses de neige", 86 := "Averses de neige fortes",
    95 := "Orages", 96 := "Orages avec grêle", 99 := "Orages violents"]

  const DEFAULT_DESCRIPTION: string := "Conditions actuelles"

  /** `weatherDescription[code] ?? 'Conditions actuelles'`. */
  function Description(code: int): (r: string)
    ensures r != ""
    ensures code !in EMOJI ==> r == DEFAULT_DESCRIPTION
  {
    if code in DESCRIPTIONS then DESCRIPTIONS[code] else DEFAULT_DESCRIPTION
  }

  /** A listed code reads its own text and any other code the fallback. */
  lemma DescriptionLookup(code: int)
    ensures code in DESCRIPTIONS ==> Description(code) == DESCRIPTIONS[code]
    ensures code !in DESCRIPTIONS ==> Description(code) == DEFAULT_DESCRIPTION
    ensures Description(code) != ""
  {
  }

  /** The description and emoji tables list the same codes, so a code has a
      text of its own exactly when it has an emoji of its own. */
  lemma TablesListSameCodes()
    ensures DESCRIPTIONS.Keys == EMOJI.Keys
  {
  }
}
