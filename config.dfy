/**
 * Constants of the weather app (src/lib/config.ts) and the record shapes it
 * exchanges with the Open-Meteo services (src/lib/types.ts), together with
 * the small value helpers every other module uses.
 */
module Config {

  datatype Option<T> = None | Some(value: T)

  /** A computation that either yields a value or fails with an error message,
      standing for a JavaScript function that returns or throws an `Error`. */
  datatype Result<T> = Ok(value: T) | Err(message: string)

  const GEOCODING_API: string := "https://geocoding-api.open-meteo.com/v1/search"
  const WEATHER_API: string := "https://api.open-meteo.com/v1/forecast"
  const STORAGE_KEY_FAVORITES: string := "meteo-pwa-favorites"
  const STORAGE_KEY_THEME: string := "meteo-pwa-theme"

  /** Weather codes treated as rain by the alert evaluation. */
  const RAIN_CODES: seq<int> :=
    [51, 53, 55, 56, 57, 61, 63, 65, 66, 67, 71, 73, 75, 77, 80, 81, 82, 85, 86, 95, 96, 99]

  /** Temperature (in degrees Celsius) above which a heat alert is raised. */
  const TEMP_THRESHOLD: real := 10.0

  /** A geocoding result. `admin1` is the optional region name. */
  datatype Location = Location(
    name: string,
    latitude: real,
    longitude: real,
    country: string,
    admin1: Option<string>)

  datatype Current = Current(
    temperature2m: real,
    relativeHumidity2m: real,
    apparentTemperature: real,
    weatherCode: int,
    windSpeed10m: real)

  /** Hourly forecast arrays, aligned by index. Nothing forces them to have the
      same length: a shorter array simply has no value at a later index. */
  datatype Hourly = Hourly(
    time: seq<string>,
    temperature2m: seq<real>,
    weatherCode: seq<int>,
    precipitationProbability: seq<int>)

  /** A forecast. The type declares `hourly` as always present, but both the
      alert evaluation and the display test for its absence, so it may be missing. */
  datatype WeatherData = WeatherData(current: Current, hourly: Option<Hourly>)

  datatype GeocodingResponse = GeocodingResponse(results: Option<seq<Location>>)

  /** Array indexing as JavaScript does it: an index past the end yields `undefined`. */
  function At<T>(s: seq<T>, i: nat): (r: Option<T>)
    ensures r.Some? <==> i < |s|
    ensures r.Some? ==> r.value == s[i]
  {
    if i < |s| then Some(s[i]) else None
  }

  function Min(a: int, b: int): (r: int)
    ensures r <= a && r <= b
    ensures r == a || r == b
  {
    if a <= b then a else b
  }

  /** `String.prototype.includes`: `sub` occurs somewhere inside `s`. */
  predicate Contains(s: string, sub: string)
    decreases |s|
  {
    sub <= s || (|s| > 0 && Contains(s[1..], sub))
  }

  /** `sub` occurs in `s` starting at offset `k`. */
  predicate OccursAt(s: string, sub: string, k: nat)
  {
    k + |sub| <= |s| && s[k..k + |sub|] == sub
  }

  /** `Contains` holds exactly when `sub` sits at some offset of `s`. */
  lemma {:induction false} ContainsAt(s: string, sub: string)
    ensures Contains(s, sub) <==> exists k: nat :: OccursAt(s, sub, k)
    decreases |s|
  {
    if sub <= s {
      assert OccursAt(s, sub, 0);
    } else if |s| > 0 {
      ContainsAt(s[1..], sub);
      if Contains(s[1..], sub) {
        var k: nat :| OccursAt(s[1..], sub, k);
        assert s[k + 1..k + 1 + |sub|] == s[1..][k..k + |sub|];
        assert OccursAt(s, sub, k + 1);
      }
      if exists k: nat :: OccursAt(s, sub, k) {
        var k: nat :| OccursAt(s, sub, k);
        assert k != 0;
        assert s[1..][k - 1..k - 1 + |sub|] == s[k..k + |sub|];
        assert OccursAt(s[1..], sub, k - 1);
      }
    }
  }

  /** Decimal rendering of an integer, as `String(n)` gives it. */
  function IntToString(n: int): (r: string)
    ensures |r| > 0
    ensures n >= 0 ==> IsDigits(r) && DecimalValue(r) == n && (r[0] == '0' ==> r == "0")
    ensures n < 0 ==> |r| > 1 && r[0] == '-' && IsDigits(r[1..]) && DecimalValue(r[1..]) == -n && r[1] != '0'
  {
    if n < 0 then "-" + NatToString(-n) else NatToString(n)
  }

  /** Decimal digits, without a leading zero unless the number is zero. */
  function NatToString(n: nat): (r: string)
    ensures |r| > 0 && IsDigits(r) && DecimalValue(r) == n
    ensures r[0] == '0' ==> r == "0"
  {
    if n < 10 then [Digit(n)]
    else
      var r := NatToString(n / 10) + [Digit(n % 10)];
      assert r[..|r| - 1] == NatToString(n / 10);
      r
  }

  predicate IsDigits(s: string)
  {
    forall i :: 0 <= i < |s| ==> '0' <= s[i] <= '9'
  }

  /** The number a string of decimal digits denotes. */
  function DecimalValue(s: string): nat
    requires IsDigits(s)
  {
    if |s| == 0 then 0
    else 10 * DecimalValue(s[..|s| - 1]) + (s[|s| - 1] as int - '0' as int)
  }

  function Digit(d: nat): (c: char)
    requires d < 10
    ensures '0' <= c <= '9' && c as int - '0' as int == d
  {
    ['0', '1', '2', '3', '4', '5', '6', '7', '8', '9'][d]
  }

  /** `Math.round`: the nearest integer, halves rounded up. */
  function Round(x: real): (r: int)
    ensures x - 0.5 < r as real <= x + 0.5
  {
    (x + 0.5).Floor
  }
}
