/**
 * The Open-Meteo client (src/lib/api.ts): what `searchCity` and
 * `fetchWeather` return or throw for a given HTTP reply, and the emoji shown
 * for a weather code. The request itself is not part of the model: its reply
 * is an input.
 */
module Api {
  import opened Config

  /** What `await fetch(...)` followed by `await response.json()` produced:
      either `fetch` rejected, or a response arrived with its `ok` flag and
      the outcome of parsing its body (a parse failure throws its own error). */
  datatype HttpReply<T> = FetchFailed(reason: string) | Reply(ok: bool, json: Result<T>)

  const GEOCODING_ERROR: string := "Erreur de géocodage"
  const WEATHER_ERROR: string := "Erreur lors de la récupération des données météo"

  function NotFound(query: string): string
  {
    "Ville \"" + query + "\" non trouvée. Vérifiez l'orthographe."
  }

  /** `searchCity(query)`. */
  function SearchCity(query: string, reply: HttpReply<GeocodingResponse>): (r: Result<Location>)
    ensures reply.FetchFailed? ==> r == Err(reply.reason)
    ensures reply.Reply? && !reply.ok ==> r == Err(GEOCODING_ERROR)
    ensures reply.Reply? && reply.ok && reply.json.Err? ==> r == Err(reply.json.message)
    ensures reply.Reply? && reply.ok && reply.json.Ok? ==>
      var results := reply.json.value.results;
      if results.None? || results.value == [] then r == Err(NotFound(query))
      else r == Ok(results.value[0])
  {
    match reply
    case FetchFailed(reason) => Err(reason)
    case Reply(ok, json) =>
      if !ok then Err(GEOCODING_ERROR)
      else match json
        case Err(message) => Err(message)
        case Ok(data) =>
          if data.results.None? || |data.results.value| == 0 then Err(NotFound(query))
          else Ok(data.results.value[0])
  }

  /** `searchCity` succeeds exactly on an ok reply with at least one result,
      and then yields the first result. */
  lemma SearchCitySucceeds(query: string, reply: HttpReply<GeocodingResponse>)
    ensures SearchCity(query, reply).Ok? <==>
      reply.Reply? && reply.ok && reply.json.Ok? && reply.json.value.results.Some?
      && |reply.json.value.results.value| > 0
    ensures SearchCity(query, reply).Ok? ==>
      SearchCity(query, reply).value == reply.json.value.results.value[0]
  {
  }

  /** The not-found message names the query. */
  lemma NotFoundNamesQuery(query: string)
    ensures Contains(NotFound(query), query)
  {
    var m := NotFound(query);
    assert m[7..7 + |query|] == query;
    assert OccursAt(m, query, 7);
    ContainsAt(m, query);
  }

  /** `fetchWeather(lat, lon)`: the parsed body of an ok reply, unchanged. */
  function FetchWeather(reply: HttpReply<WeatherData>): (r: Result<WeatherData>)
    ensures r.Ok? <==> reply.Reply? && reply.ok && reply.json.Ok?
    ensures r.Ok? ==> r.value == reply.json.value
    ensures reply.Reply? && !reply.ok ==> r == Err(WEATHER_ERROR)
  {
    match reply
    case FetchFailed(reason) => Err(reason)
    case Reply(ok, json) => if !ok then Err(WEATHER_ERROR) else json
  }

  /** The emoji table of `getWeatherEmoji`. */
  const EMOJI: map<int, string> := map[
    0 := "☀️", 1 := "🌤️", 2 := "⛅", 3 := "☁️", 45 := "🌫️", 48 := "🌫️",
    51 := "🌦️", 53 := "🌦️", 55 := "🌧️", 56 := "🌨️", 57 := "🌨️",
    61 := "🌧️", 63 := "🌧️", 65 := "🌧️", 66 := "🌨️", 67 := "🌨️",
    71 := "🌨️", 73 := "🌨️", 75 := "❄️", 77 := "🌨️",
    80 := "🌦️", 81 := "🌧️", 82 := "⛈️", 85 := "🌨️", 86 := "❄️",
    95 := "⛈️", 96 := "⛈️", 99 := "⛈️"]

  const DEFAULT_EMOJI: string := "🌤️"

  /** `getWeatherEmoji(code)`: the table entry, or the default when the code
      is missing or its entry is empty. */
  function WeatherEmoji(code: int): (r: string)
    ensures r != ""
  {
    if code in EMOJI && EMOJI[code] != "" then EMOJI[code] else DEFAULT_EMOJI
  }

  /** Every listed code shows its own entry, and every other code the default. */
  lemma EmojiLookup(code: int)
    ensures code in EMOJI ==> WeatherEmoji(code) == EMOJI[code]
    ensures code !in EMOJI ==> WeatherEmoji(code) == DEFAULT_EMOJI
  {
  }

  lemma EmojiExamples()
    ensures WeatherEmoji(0) == "☀️"
    ensures WeatherEmoji(61) == "🌧️"
    ensures WeatherEmoji(4) == DEFAULT_EMOJI && WeatherEmoji(-1) == DEFAULT_EMOJI
  {
  }

  /** Every code the alert scan treats as rain has an entry of its own. */
  lemma RainCodesHaveEmoji()
    ensures forall c :: c in RAIN_CODES ==> c in EMOJI
  {
  }
}
