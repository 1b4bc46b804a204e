/**
 * The weather-alert hook (src/hooks/useNotifications.ts): the permission
 * state it keeps, the guarded dispatch of one notification, and the scan of
 * the next four hourly samples that decides which alerts to raise.
 */
module Notifications {
  import opened Config
  import opened Browser

  /** A notification the hook asks to send: its title and body. */
  datatype Alert = Alert(title: string, body: string)

  const ALERT_ICON: string := "/icons/icon-192.png"
  const ALERT_BADGE: string := "/icons/icon-72.png"
  const ALERT_TAG: string := "weather-alert"

  /** Precipitation probability above which a sample counts as rainy. */
  const RAIN_PROBABILITY: int := 30

  /** How many hourly samples the scan looks at. */
  const HORIZON: nat := 4

  const RAIN_BODY: string := "De la pluie est attendue dans les 4 prochaines heures."

  const RAIN_TITLE: string := "🌧️ Pluie prévue à "
  const HEAT_TITLE: string := "🌡️ Température élevée à "
  /** The heat body around the rounded maximum temperature. */
  const HEAT_BODY_START: string := "La température va dépasser les 10°C (jusqu'à "
  const HEAT_BODY_END: string := "°C) dans les 4 prochaines heures."

  /** The rain alert: its title names the city. */
  function RainAlert(city: string): (a: Alert)
    ensures RAIN_TITLE <= a.title && a.title[|RAIN_TITLE|..] == city
    ensures a.body == RAIN_BODY
  {
    Alert(RAIN_TITLE + city, RAIN_BODY)
  }

  /** The heat alert: its title names the city, and for a non-negative
      maximum its body carries the decimal digits of the rounded maximum
      between the two fixed parts. */
  function HeatAlert(city: string, maxTemp: real): (a: Alert)
    ensures HEAT_TITLE <= a.title && a.title[|HEAT_TITLE|..] == city
    ensures HEAT_BODY_START <= a.body && |HEAT_BODY_START| + |HEAT_BODY_END| < |a.body|
    ensures a.body[|a.body| - |HEAT_BODY_END|..] == HEAT_BODY_END
    ensures var digits := a.body[|HEAT_BODY_START|..|a.body| - |HEAT_BODY_END|];
            maxTemp >= 0.0 ==> IsDigits(digits) && DecimalValue(digits) == Round(maxTemp)
  {
    Alert(HEAT_TITLE + city, HEAT_BODY_START + IntToString(Round(maxTemp)) + HEAT_BODY_END)
  }

  /** The options every alert is displayed with. */
  function WeatherNotice(a: Alert): (n: Notice)
    ensures n.title == a.title && n.body == a.body
    ensures n.tag == ALERT_TAG && n.icon == ALERT_ICON && n.badge == ALERT_BADGE
    ensures !n.requireInteraction
  {
    Notice(a.title, a.body, ALERT_ICON, ALERT_BADGE, ALERT_TAG, false)
  }

  function Notices(alerts: seq<Alert>): (r: seq<Notice>)
    ensures |r| == |alerts|
    ensures forall i :: 0 <= i < |alerts| ==> r[i] == WeatherNotice(alerts[i])
  {
    if alerts == [] then [] else [WeatherNotice(alerts[0])] + Notices(alerts[1..])
  }

  /** Each hourly array cut to its first four values, as the scan sees them. */
  function First4(h: Hourly): (r: Hourly)
    ensures |r.time| == Min(HORIZON, |h.time|)
  {
    Hourly(h.time[..Min(HORIZON, |h.time|)],
           h.temperature2m[..Min(HORIZON, |h.temperature2m|)],
           h.weatherCode[..Min(HORIZON, |h.weatherCode|)],
           h.precipitationProbability[..Min(HORIZON, |h.precipitationProbability|)])
  }

  /** Sample `i` announces rain: its code is a rain code, or its precipitation
      probability is above 30. A missing value satisfies neither test. */
  predicate RainAt(h: Hourly, i: nat)
  {
    (At(h.weatherCode, i).Some? && At(h.weatherCode, i).value in RAIN_CODES)
    || (At(h.precipitationProbability, i).Some? && At(h.precipitationProbability, i).value > RAIN_PROBABILITY)
  }

  /** Sample `i` has a temperature above the threshold. */
  predicate HotAt(h: Hourly, i: nat)
  {
    At(h.temperature2m, i).Some? && At(h.temperature2m, i).value > TEMP_THRESHOLD
  }

  /** Whether rain was seen among the first `n` samples. */
  function RainSeen(h: Hourly, n: nat): bool
  {
    n > 0 && (RainSeen(h, n - 1) || RainAt(h, n - 1))
  }

  /** `Math.max(m, t)` where `None` stands for `-Infinity`. */
  function MaxWith(m: Option<real>, t: real): (r: Option<real>)
    ensures r.Some? && t <= r.value
    ensures m.Some? ==> m.value <= r.value && (r.value == m.value || r.value == t)
    ensures m.None? ==> r.value == t
  {
    if m.Some? && m.value > t then m else Some(t)
  }

  /** The highest temperature above the threshold among the first `n`
      samples, or `None` (`-Infinity`) when there is none. */
  function HottestSeen(h: Hourly, n: nat): Option<real>
  {
    if n == 0 then None
    else if HotAt(h, n - 1) then MaxWith(HottestSeen(h, n - 1), h.temperature2m[n - 1])
    else HottestSeen(h, n - 1)
  }

  /** The alerts one evaluation raises, in the order they are sent. */
  function Alerts(hourly: Option<Hourly>, city: string): (r: seq<Alert>)
    ensures |r| <= 2
  {
    if hourly.None? || |hourly.value.time| == 0 then []
    else
      var next := First4(hourly.value);
      (if RainSeen(next, |next.time|) then [RainAlert(city)] else [])
      + (match HottestSeen(next, |next.time|)
         case Some(m) => [HeatAlert(city, m)]
         case None => [])
  }

  /** `RainSeen` is the existence of a rainy sample below `n`. */
  lemma {:induction false} RainSeenIff(h: Hourly, n: nat)
    ensures RainSeen(h, n) <==> exists i :: 0 <= i < n && RainAt(h, i)
  {
    if n > 0 {
      RainSeenIff(h, n - 1);
    }
  }

  /** `HottestSeen` is present exactly when some sample below `n` is hot, and
      it is then the largest such temperature, attained by one of them. */
  lemma {:induction false} HottestSeenIsMax(h: Hourly, n: nat)
    ensures HottestSeen(h, n).Some? <==> exists i :: 0 <= i < n && HotAt(h, i)
    ensures HottestSeen(h, n).Some? ==>
      (forall i :: 0 <= i < n && HotAt(h, i) ==> h.temperature2m[i] <= HottestSeen(h, n).value)
      && (exists i :: 0 <= i < n && HotAt(h, i) && h.temperature2m[i] == HottestSeen(h, n).value)
  {
    if n > 0 {
      HottestSeenIsMax(h, n - 1);
      if HotAt(h, n - 1) {
        var m := HottestSeen(h, n - 1);
        if m.Some? {
          var k :| 0 <= k < n - 1 && HotAt(h, k) && h.temperature2m[k] == m.value;
          if HottestSeen(h, n).value == m.value {
            assert HotAt(h, k) && h.temperature2m[k] == HottestSeen(h, n).value;
          } else {
            assert HotAt(h, n - 1) && h.temperature2m[n - 1] == HottestSeen(h, n).value;
          }
        }
      }
    }
  }

  /** The cut arrays agree with the full ones on the first four samples. */
  lemma First4Agrees(h: Hourly, i: nat)
    requires i < HORIZON
    ensures RainAt(First4(h), i) == RainAt(h, i)
    ensures HotAt(First4(h), i) == HotAt(h, i)
    ensures HotAt(h, i) ==> First4(h).temperature2m[i] == h.temperature2m[i]
  {
  }

  lemma {:induction false} RainSeenFirst4(h: Hourly, n: nat)
    requires n <= HORIZON
    ensures RainSeen(First4(h), n) == RainSeen(h, n)
  {
    if n > 0 {
      RainSeenFirst4(h, n - 1);
      First4Agrees(h, n - 1);
    }
  }

  lemma {:induction false} HottestSeenFirst4(h: Hourly, n: nat)
    requires n <= HORIZON
    ensures HottestSeen(First4(h), n) == HottestSeen(h, n)
  {
    if n > 0 {
      HottestSeenFirst4(h, n - 1);
      First4Agrees(h, n - 1);
    }
  }

  /** What one evaluation raises, in terms of the samples with index below
      min(4, |time|): a rain alert first when one of them is rainy, then a heat
      alert carrying their highest temperature above 10 when one of them is hot.
      Samples at index 4 or later play no part. */
  lemma AlertsMeaning(h: Hourly, city: string)
    ensures var n := Min(HORIZON, |h.time|);
      Alerts(Some(h), city) ==
        (if exists i :: 0 <= i < n && RainAt(h, i) then [RainAlert(city)] else [])
        + (match HottestSeen(h, n)
           case Some(m) => [HeatAlert(city, m)]
           case None => [])
  {
    var n := Min(HORIZON, |h.time|);
    RainSeenFirst4(h, n);
    HottestSeenFirst4(h, n);
    RainSeenIff(h, n);
  }

  /** No samples, or no hourly data at all, raise no alert. */
  lemma NoSamplesNoAlerts(hourly: Option<Hourly>, city: string)
    requires hourly.None? || hourly.value.time == []
    ensures Alerts(hourly, city) == []
  {
  }

  /** A probability of exactly 30 is not rain, and 31 is. */
  lemma RainProbabilityBoundary(h: Hourly, i: nat)
    requires i < |h.precipitationProbability|
    requires At(h.weatherCode, i).None? || At(h.weatherCode, i).value !in RAIN_CODES
    ensures h.precipitationProbability[i] == 30 ==> !RainAt(h, i)
    ensures h.precipitationProbability[i] == 31 ==> RainAt(h, i)
  {
  }

  /** The state of one `useNotifications` hook. */
  class NotificationHook {
    const api: NotificationApi
    /** The hook's `permission` state, shown to the page. */
    var permission: Permission

    /** The state starts from `Notification.permission`, or `default` when
        notifications are unsupported. */
    constructor(api: NotificationApi)
      ensures this.api == api
      ensures permission == if api.supported then api.permission else Default
    {
      this.api := api;
      permission := if api.supported then api.permission else Default;
    }

    /** Whether `sendNotification` actually displays something. */
    predicate Deliverable()
      reads api
    {
      api.supported && api.permission == Granted && !api.constructorThrows
    }

    /** `requestPermission`: unsupported and denied answer false, granted
        answers true, and only a default permission prompts the user, whose
        answer is stored in both the page-wide and the hook's permission. */
    method RequestPermission(answer: Permission) returns (ok: bool)
      modifies this, api
      ensures !api.supported ==> !ok && permission == old(permission)
      ensures api.supported && old(api.permission) == Granted ==> ok && permission == old(permission)
      ensures api.supported && old(api.permission) == Denied ==> !ok && permission == old(permission)
      ensures api.supported && old(api.permission) == Default ==>
        api.permission == answer && permission == answer && (ok <==> answer == Granted)
      ensures !api.supported || old(api.permission) != Default ==> api.permission == old(api.permission)
      ensures api.shown == old(api.shown)
    {
      if !api.supported {
        return false;
      }
      if api.permission == Granted {
        return true;
      }
      if api.permission == Denied {
        return false;
      }
      var result := api.RequestPermission(answer);
      permission := result;
      ok := result == Granted;
    }

    /** `sendNotification`: displays one alert under the weather tag when
        notifications are supported and granted; a throwing constructor is
        swallowed. */
    method SendNotification(a: Alert)
      modifies api
      ensures api.permission == old(api.permission)
      ensures api.shown == old(api.shown) + if Deliverable() then [WeatherNotice(a)] else []
    {
      if !api.supported {
        return;
      }
      if api.permission != Granted {
        return;
      }
      var created := api.Create(WeatherNotice(a));
    }

    /** `checkWeatherConditions`: scans the first four samples and sends the
        alerts they call for. */
    method CheckWeatherConditions(weather: WeatherData, city: string)
      modifies api
      ensures api.permission == old(api.permission)
      ensures api.shown == old(api.shown) + if Deliverable() then Notices(Alerts(weather.hourly, city)) else []
    {
      if weather.hourly.None? || |weather.hourly.value.time| == 0 {
        return;
      }
      var next := First4(weather.hourly.value);
      var hasRain, hasHighTemp, maxTemp := false, false, None;
      for i := 0 to |next.time|
        invariant hasRain == RainSeen(next, i)
        invariant maxTemp == HottestSeen(next, i)
        invariant hasHighTemp == maxTemp.Some?
      {
        var weatherCode := At(next.weatherCode, i);
        var temperature := At(next.temperature2m, i);
        var precipitation := At(next.precipitationProbability, i);
        if (weatherCode.Some? && weatherCode.value in RAIN_CODES)
           || (precipitation.Some? && precipitation.value > RAIN_PROBABILITY) {
          hasRain := true;
        }
        if temperature.Some? && temperature.value > TEMP_THRESHOLD {
          hasHighTemp := true;
          maxTemp := MaxWith(maxTemp, temperature.value);
        }
      }
      if hasRain {
        SendNotification(RainAlert(city));
      }
      if hasHighTemp && maxTemp.Some? {
        SendNotification(HeatAlert(city, maxTemp.value));
      }
    }
  }
}
