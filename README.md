# Météo PWA: verified model of its policy cores

This project models, in Dafny, four small decision cores of a French weather
progressive web app that reads Open-Meteo's geocoding and forecast services:

- **The service worker** (`public/service-worker.js`). It derives its base path
  and prefixes app paths with it, and it precaches a manifest of ten assets on
  install. On activate it deletes every cache except `meteo-pwa-v1`. It routes
  each request one of three ways:
  - ignore it;
  - network only, for the data APIs (a JSON 503 when offline);
  - cache first, for everything else. On a miss an ok response is stored;
    offline, an HTML navigation gets the cached `index.html`, anything else a
    plain-text 503.

  It also answers the `SKIP_WAITING` and `SHOW_NOTIFICATION` messages.
- **The weather-alert hook** (`src/hooks/useNotifications.ts`). It scans the
  first four hourly samples for rain (a rain weather code, or a precipitation
  probability above 30) and for heat (a temperature above 10 °C, keeping the
  maximum). It sends at most one rain alert and then one heat alert, and only
  while notifications are supported and granted. `requestPermission` is a small
  state machine over default, granted, denied and unsupported.
- **The favorites hook** (`src/hooks/useFavorites.ts`). This is an ordered list of
  locations keyed by name, latitude and longitude. Adding never creates a
  duplicate; removing filters out every match. The list is loaded from local
  storage and written back when it changes.
- **Decision helpers**:
  - `src/lib/api.ts`: what `searchCity` and `fetchWeather` return or throw for a
    given HTTP reply, and the emoji table;
  - `src/App.tsx`: the search form's state transitions, the twelve-hour forecast
    strip and the description table;
  - `src/main.tsx`: the theme chosen at start-up, the test-notification table and
    its choice between posting to the service worker and creating the
    notification directly, and `resetNotifications`.

Modules follow the source files:

- `Config` holds `config.ts` and `types.ts`, plus `Option`, `Result` and string
  helpers.
- `ServiceWorker`.
- `Browser`: the Notification API, local storage and the class list, as seen by
  the page.
- `Notifications`, `Favorites`, `Api`, `App` and `Main`.

State that the source updates in place is modelled as classes:

- the Cache Storage, the worker and its platform calls;
- the notification permission and the displayed notifications;
- the hook states, the search page and the document's classes.

Each method is proved against a pure function of the old state, and the
properties are lemmas about those functions.

Modelling conventions:

- A network fetch, a JSON parse, the user's answer to a permission prompt and
  the service-worker environment of `testNotification` are inputs.
- A missing or falsy optional string is the empty string.
- A JavaScript `undefined` from reading past the end of an array is `None`, and
  every comparison with it is false.
- Temperatures are `real`.
- Precipitation probabilities and weather codes are `int`.

## Model

| member | source | states |
|---|---|---|
| ServiceWorker.LastIndexOf | public/service-worker.js:9 | Result is -1 or an index holding the character; no later index holds it. |
| ServiceWorker.BasePath | public/service-worker.js:7-11 | Result is a prefix of the worker path; it is non-empty iff the path has a `/`, and then it ends in `/`; what follows it contains no `/`. |
| ServiceWorker.WithBasePath | public/service-worker.js:16-23 | Result always starts with the base; a path already starting with the base is returned unchanged. |
| ServiceWorker.WithBasePathCases | public/service-worker.js:16-23 | The three cases: already based → unchanged; leading `/` → base + rest; otherwise base + path. |
| ServiceWorker.WithBasePathIdempotent | public/service-worker.js:16-23 | Prefixing twice equals prefixing once. |
| ServiceWorker.WithBasePathJoin | public/service-worker.js:20 | With a base ending in `/`, an absolute path shares that slash (no doubled `/`). |
| ServiceWorker.OfflinePage | public/service-worker.js:154 | The offline page `withBasePath('/index.html')` lies under the base. |
| ServiceWorker.Assets | public/service-worker.js:25-36 | Exactly 10 entries; the first is the base; every entry starts with the base; the offline page is among them. |
| ServiceWorker.Route | public/service-worker.js:86-99 | Ignored iff the method is not GET or the protocol does not start with `http`; network-only iff it is a GET over http(s) to an API host; cache-first otherwise. |
| ServiceWorker.IsApiRequest | public/service-worker.js:103-106 | A host is a data API iff `open-meteo.com` or `geocoding-api` occurs somewhere in its name. |
| ServiceWorker.AppApiHostsAreApi | public/service-worker.js:103-106 | Both Open-Meteo hosts the app calls are recognised as API hosts. |
| ServiceWorker.AppApiRequestsAreNetworkOnly | public/service-worker.js:93-95 | Every https GET to the geocoding or forecast host is routed network-only. |
| ServiceWorker.GeocodingHostMatchesConfig | src/lib/config.ts:2 | The geocoding host the routing lemmas use is the host of the configured geocoding URL. |
| ServiceWorker.WeatherHostMatchesConfig | src/lib/config.ts:3 | The forecast host the routing lemmas use is the host of the configured forecast URL. |
| ServiceWorker.NetworkOnly | public/service-worker.js:110-126 | A fetched response is returned unchanged; a failure gives the 503 JSON `{"error":"Pas de connexion internet"}`, which is not ok. |
| ServiceWorker.Lookup | public/service-worker.js:131 | `caches.match`: no result iff no cache holds the key; a result is the entry of the first cache, in creation order, that holds the key. |
| ServiceWorker.Opened | public/service-worker.js:144 | After `caches.open` the named cache exists. An existing cache leaves the store as it was. A missing one is appended to the list, empty. Every other cache keeps its entries. |
| ServiceWorker.PutAll | public/service-worker.js:145 | Storing into an open cache adds the batch to that cache. The cache list, the set of caches and every other cache stay as they were. |
| ServiceWorker.Batch | public/service-worker.js:46 | The batch `addAll` commits has exactly the manifest paths as keys. |
| ServiceWorker.OpenedWellFormed | public/service-worker.js:43 | Opening keeps cache names distinct and in step with the caches. |
| ServiceWorker.LookupAfterPut | public/service-worker.js:131-148 | After one cache gains a key no cache had, a lookup of that key finds the new entry. |
| ServiceWorker.CacheHitServesStored | public/service-worker.js:131-136 | A hit is served as stored, the store is unchanged, and the network outcome plays no part (no fetch). |
| ServiceWorker.CacheMissStoresOkResponse | public/service-worker.js:138-148 | On a miss an ok response that the cache accepts is returned and stored under the request in `meteo-pwa-v1`, so the next lookup hits it. The cache list is that of `caches.open`, and every other cache is unchanged. |
| ServiceWorker.CacheMissUnstorable | public/service-worker.js:143-148 | On a miss an ok response the cache refuses (status 206, or `Vary: *`) is still returned. The current cache is opened but gains nothing, so the request still misses. |
| ServiceWorker.CacheMissPassesNonOk | public/service-worker.js:140-148 | On a miss a non-ok response is returned and the store stays unchanged. |
| ServiceWorker.CacheMissOffline | public/service-worker.js:149-163 | Offline on a miss: an HTML request gets the cached offline page if present, otherwise the 503 'Contenu non disponible hors-ligne'; the store is untouched. |
| ServiceWorker.CacheFirst | public/service-worker.js:130-164 | The store changes only after a miss answered by an ok response, and only in `meteo-pwa-v1`. When the network answers, the response is the cached entry or the fetched one, never a synthesized one. Offline, the store is untouched, and the response is the cached entry, the cached offline page, or the plain-text 503. |
| ServiceWorker.ApiRequestsBypassCache | public/service-worker.js:93-126 | A network-only request never reads or writes the store; offline it always gets the JSON 503. |
| ServiceWorker.HandleFetch | public/service-worker.js:82-100 | A request gets no response (left to the browser) iff it is not a GET over http(s). Only cache-first requests can change the store. A network-only request gets the fetched response or the JSON 503. |
| ServiceWorker.InstallCachesManifest | public/service-worker.js:40-53 | After a successful install, `meteo-pwa-v1` holds every manifest path with the response fetched for it, and a lookup finds every path. |
| ServiceWorker.Installed | public/service-worker.js:40-53 | Install opens `meteo-pwa-v1` and leaves every other cache unchanged. If any manifest fetch fails, nothing but the opening happens. |
| ServiceWorker.ActivateKeepsOnlyCurrent | public/service-worker.js:57-70 | After activate the cache list is `[meteo-pwa-v1]` if it existed and empty otherwise; the current cache's contents are kept. |
| ServiceWorker.Activated | public/service-worker.js:57-70 | After activation only `meteo-pwa-v1` can be listed. Every other listed cache is gone. Every surviving cache keeps its entries, and an existing `meteo-pwa-v1` survives. |
| ServiceWorker.ActivateIdempotent | public/service-worker.js:57-70 | A second activate changes nothing. |
| ServiceWorker.InstallThenActivateServesManifest | public/service-worker.js:40-136 | After install and activate, every manifest request is served from the cache with what install fetched, whatever the network does. |
| ServiceWorker.WithoutMembers | public/service-worker.js:67 | Deleting a cache name removes exactly that name from the list. |
| ServiceWorker.WithoutDistinct | public/service-worker.js:67 | Deleting a cache name keeps the list of names distinct. |
| ServiceWorker.RetainDistinct | public/service-worker.js:63-64 | In a distinct list, keeping only one name leaves that name alone if it was there. |
| ServiceWorker.ActivateDeleteStep | public/service-worker.js:63-68 | One deletion of the activation loop advances its progress by one name. |
| ServiceWorker.ProgressStep | public/service-worker.js:63-68 | Each turn of the activation loop (delete, or keep the current cache) moves the store from one loop stage to the next. |
| ServiceWorker.ProgressDone | public/service-worker.js:63-70 | After the last turn the store is the activated store. |
| ServiceWorker.OrDefault | public/service-worker.js:178-180 | `value \|\| fallback` on strings: a non-empty value is kept, the empty string takes the fallback. |
| ServiceWorker.ShowNotificationDefaults | public/service-worker.js:167-189 | `SKIP_WAITING` → one skipWaiting call. `SHOW_NOTIFICATION` → exactly one notification with the given title and body, and icon, badge and tag defaulting to `withBasePath('/icons/icon-192.png')`, `withBasePath('/icons/icon-72.png')` and `'default'` (never empty). Other messages do nothing. |
| ServiceWorker.MessageCalls | public/service-worker.js:167-189 | One message makes at most one platform call, and never `clients.claim`. `SKIP_WAITING` gives exactly `skipWaiting`. An unknown message gives nothing. `SHOW_NOTIFICATION` shows one notification with the given title. |
| ServiceWorker.CacheStorage.Open | public/service-worker.js:144 | `caches.open` on the live store equals `Opened` of the old state and keeps it well formed. |
| ServiceWorker.CacheStorage.Put | public/service-worker.js:145 | `cache.put` stores the batch (`PutAll` of the old state) iff every response is storable; otherwise it rejects and stores nothing. |
| ServiceWorker.CacheStorage.Delete | public/service-worker.js:67 | `caches.delete` reports whether the cache existed and removes exactly it. |
| ServiceWorker.CacheStorage.Match | public/service-worker.js:131 | The search over caches in creation order returns `Lookup` of the state. |
| ServiceWorker.Worker.constructor | public/service-worker.js:7-13 | The worker's base path is `BasePath` of its script path. |
| ServiceWorker.Worker.Install | public/service-worker.js:40-53 | Opens the current cache; succeeds iff every manifest fetch is ok and storable, then stores all of them and records skipWaiting; otherwise stores nothing. |
| ServiceWorker.Worker.Activate | public/service-worker.js:57-76 | The store becomes `Activated` of the old store, then clients.claim is recorded. |
| ServiceWorker.Worker.DeleteOldCaches | public/service-worker.js:60-69 | The loop over `caches.keys()` deletes each key other than `meteo-pwa-v1` and ends with the activated store. |
| ServiceWorker.Worker.CacheFirstFetch | public/service-worker.js:130-164 | The served response and the new store equal the `CacheFirst` specification. |
| ServiceWorker.Worker.Fetch | public/service-worker.js:82-100 | The fetch handler equals `HandleFetch`: ignore, network-only or cache-first by `Route`. |
| ServiceWorker.Worker.OnMessage | public/service-worker.js:167-189 | Records exactly the platform calls `MessageCalls` gives for the message. |
| Browser.NotificationApi.RequestPermission | src/hooks/useNotifications.ts:31 | The user is asked only under the default permission and the answer becomes the permission; a decision already taken is returned unchanged. |
| Browser.NotificationApi.Create | src/hooks/useNotifications.ts:94-100 | Constructing succeeds iff the platform constructor does not throw; the notice is displayed only if it is constructed and the permission is granted. |
| Browser.LocalStorage.GetItem | src/main.tsx:8 | `getItem` is present iff the key is stored, and returns its value. |
| Browser.LocalStorage.RemoveItem | src/main.tsx:125 | Removes exactly the given key. |
| Notifications.WeatherNotice | src/hooks/useNotifications.ts:94-100 | Every alert is displayed with its own title and body, tag `weather-alert`, icon `/icons/icon-192.png`, badge `/icons/icon-72.png`, and no required interaction. |
| Notifications.RainAlert | src/hooks/useNotifications.ts:69-74 | The rain title is the fixed prefix followed by the city name, and the body is the fixed four-hour text. |
| Notifications.HeatAlert | src/hooks/useNotifications.ts:76-81 | The heat title is the fixed prefix followed by the city name. For a non-negative maximum, the body holds, between its fixed parts, decimal digits whose value is the rounded maximum. |
| Notifications.First4 | src/hooks/useNotifications.ts:40-45 | The cut forecast has min(4, \|time\|) time stamps. |
| Notifications.MaxWith | src/hooks/useNotifications.ts:64 | `Math.max` from `-Infinity`: the result is at least the new value and the old one, and is one of them. |
| Notifications.Alerts | src/hooks/useNotifications.ts:36-82 | One evaluation raises at most two alerts. |
| Notifications.RainSeenIff | src/hooks/useNotifications.ts:51-59 | `hasRain` after n samples iff some sample below n has a rain code or a precipitation probability strictly above 30. |
| Notifications.HottestSeenIsMax | src/hooks/useNotifications.ts:49-65 | `maxTemp` is present iff some examined temperature is strictly above 10; it is then an upper bound of those temperatures and equals one of them. |
| Notifications.First4Agrees | src/hooks/useNotifications.ts:40-45 | The cut arrays agree with the full ones on the first four samples. |
| Notifications.RainSeenFirst4 | src/hooks/useNotifications.ts:40-59 | The rain scan over the cut arrays equals the scan over the full ones. |
| Notifications.HottestSeenFirst4 | src/hooks/useNotifications.ts:40-65 | The maximum over the cut arrays equals the maximum over the full ones. |
| Notifications.AlertsMeaning | src/hooks/useNotifications.ts:36-82 | The alerts raised are: a rain alert iff some sample below min(4, \|time\|) is rainy, then a heat alert carrying the maximum hot temperature among those samples iff one is hot. Samples at index 4 or later play no part. |
| Notifications.NoSamplesNoAlerts | src/hooks/useNotifications.ts:37 | No hourly data, or an empty `time` array, raises nothing. |
| Notifications.RainProbabilityBoundary | src/hooks/useNotifications.ts:57 | Precipitation of exactly 30 is not rain; 31 is. |
| Notifications.NotificationHook.constructor | src/hooks/useNotifications.ts:6-14 | The hook's permission starts as `Notification.permission`, or default when unsupported. |
| Notifications.NotificationHook.RequestPermission | src/hooks/useNotifications.ts:16-34 | Unsupported → false. Granted → true with no prompt. Denied → false with no prompt. Default → prompt, store the answer in both permissions, return answer == granted. The page-wide permission changes only in the default case. Nothing is displayed. |
| Notifications.NotificationHook.SendNotification | src/hooks/useNotifications.ts:84-104 | Displays the weather notice iff supported, granted and the constructor does not throw; otherwise nothing changes and nothing is thrown. |
| Notifications.NotificationHook.CheckWeatherConditions | src/hooks/useNotifications.ts:36-82 | The scan loop yields `hasRain`, `hasHighTemp` and `maxTemp` as specified. The notices displayed are those of `Alerts`, rain first, when delivery is possible. |
| Favorites.LoadFavorites | src/hooks/useFavorites.ts:6-16 | A missing key, an empty string or a parse failure gives `[]`; otherwise the parsed list. |
| Favorites.SaveThenLoad | src/hooks/useFavorites.ts:6-36 | A list written by a serializer that parsing undoes loads back unchanged. |
| Favorites.AddedMeaning | src/hooks/useFavorites.ts:39-48 | With the key present the list is unchanged; otherwise `loc` is appended at the end; either way the old list is a prefix and the key is present. |
| Favorites.RemovedMembers | src/hooks/useFavorites.ts:52-63 | An entry survives removal iff it was in the list and its name, latitude or longitude differs; country and region play no part. |
| Favorites.RemovedAppend | src/hooks/useFavorites.ts:54 | Filtering distributes over concatenation, so survivors keep their order. |
| Favorites.RemovedAbsent | src/hooks/useFavorites.ts:54 | Removing a key no entry has leaves the list unchanged. |
| Favorites.RemovedLength | src/hooks/useFavorites.ts:52-63 | Removal never lengthens the list, and in a duplicate-free list drops at most one entry. |
| Favorites.KeyOfMember | src/hooks/useFavorites.ts:41-46 | A list member with a location's key makes that key present. |
| Favorites.AddedKeepsNoDuplicates | src/hooks/useFavorites.ts:41-48 | Add preserves "no two entries share a key". |
| Favorites.RemovedKeepsNoDuplicates | src/hooks/useFavorites.ts:52-63 | Remove preserves "no two entries share a key". |
| Favorites.IsFavoriteAfterUpdates | src/hooks/useFavorites.ts:65-73 | `isFavorite(null)` is false; `isFavorite` is true right after an add and false right after a remove. |
| Favorites.FavoritesStore.IsFavorite | src/hooks/useFavorites.ts:65-73 | `isFavorite(null)` is false. Otherwise it is true iff some entry shares the name, latitude and longitude, so any list member with that key makes it true. |
| Favorites.FavoritesStore.constructor | src/hooks/useFavorites.ts:20-29 | Mounting loads the list stored under `meteo-pwa-favorites` and writes nothing. |
| Favorites.FavoritesStore.Add | src/hooks/useFavorites.ts:24-50 | The list becomes `Added`; storage is written (with the new list) only when the list changed; storage once written mirrors the list. |
| Favorites.FavoritesStore.Remove | src/hooks/useFavorites.ts:24-63 | The list becomes `Removed` and is always written, since filtering yields a new array. |
| Api.SearchCity | src/lib/api.ts:4-20 | A failed fetch or parse passes its error on. A non-ok reply fails with 'Erreur de géocodage'. Missing or empty results fail with the not-found message. Otherwise the result is exactly `results[0]`. |
| Api.SearchCitySucceeds | src/lib/api.ts:9-19 | `searchCity` succeeds iff the reply is ok, parsed, and has at least one result, and then yields the first. |
| Api.NotFoundNamesQuery | src/lib/api.ts:16 | The not-found message contains the query. |
| Api.FetchWeather | src/lib/api.ts:22-36 | Succeeds iff the reply is ok and parsed, returning the parsed data unchanged; a non-ok reply fails with 'Erreur lors de la récupération des données météo'. |
| Api.WeatherEmoji | src/lib/api.ts:38-71 | The emoji is never empty. |
| Api.EmojiLookup | src/lib/api.ts:38-71 | A listed code gives its table entry; any other code gives '🌤️'. |
| Api.EmojiExamples | src/lib/api.ts:38-71 | 0 → '☀️', 61 → '🌧️', 4 and -1 → '🌤️'. |
| Api.RainCodesHaveEmoji | src/lib/api.ts:39-68 | Every code in `RAIN_CODES` has an emoji entry of its own. |
| App.TrimStartMeaning | src/App.tsx:18 | Trimming the front drops a run of white space and stops at the first other character. |
| App.TrimEndMeaning | src/App.tsx:18 | Trimming the back drops a run of white space and stops at the last other character. |
| App.TrimMeaning | src/App.tsx:18-19 | The trimmed query is empty iff the query is all JavaScript white space; otherwise it is a slice of the query that starts and ends with a non-space character. |
| App.Trim | src/App.tsx:18 | The trimmed query is no longer than the query, and a non-empty one starts and ends with a non-space character. |
| App.SearchOutcomeMeaning | src/App.tsx:26-35 | A search succeeds iff the city is found and its forecast fetched, and yields both; a failure reports the first error met. |
| App.SearchOutcome | src/App.tsx:26-35 | A successful search yields the city `searchCity` found for the trimmed query, and the forecast of an ok, parsed forecast reply. |
| App.DisplayedBothOrNeither | src/App.tsx:29-35 | After a completed search, location and weather are both set with no error, or both null with the error message. |
| App.SearchPage.SetQuery | src/App.tsx:8 | Typing changes only the query. |
| App.SearchPage.HandleSearch | src/App.tsx:16-39 | A blank query sets 'Entre le nom d’une ville.' and changes nothing else. Otherwise location, weather and error become those of the search outcome. Location and weather stay both set or both null, and loading is false afterwards. |
| App.SearchNotFoundMessage | src/App.tsx:27-33 | An empty geocoding result for a non-blank query shows the not-found message, which names the trimmed query. |
| App.HourlyForecast | src/App.tsx:43-51 | Empty without hourly data; otherwise min(12, \|time\|) cells. |
| App.ForecastCells | src/App.tsx:45-50 | Cell i carries `time[i]`, the temperature rounded to the nearest integer, the code and the precipitation probability of hour i. A value missing from its array is `None`. |
| App.ForecastMatchesAlertScan | src/App.tsx:45-50 | For the first four hours, a cell meets the alert scan's rain rule exactly when the scan counts that hour as rainy. |
| App.DescriptionLookup | src/App.tsx:190-221 | A listed code reads its own French text; any other code reads 'Conditions actuelles'; never empty. |
| App.Description | src/App.tsx:145 | The description is never empty, and a code without an emoji entry reads 'Conditions actuelles'. |
| App.TablesListSameCodes | src/App.tsx:190-221 | The description table and the emoji table list exactly the same codes. |
| Main.ThemeFor | src/main.tsx:7-10 | A non-empty stored theme wins; otherwise the theme is 'dark' iff the user prefers dark, else 'light'. |
| Main.WithThemeMeaning | src/main.tsx:12-16 | The `dark` class is present iff the theme is 'dark'; every other class is unchanged. |
| Main.StoredThemeWins | src/main.tsx:10-16 | A stored 'light' removes `dark` even for a dark preference; a stored 'dark' sets it; with nothing stored the preference decides. |
| Main.InitTheme | src/main.tsx:7-17 | The document's classes become `WithTheme` of the theme read from storage key 'theme'. |
| Main.TestTags | src/main.tsx:56-72 | Rain uses tag 'rain-alert', temp 'temp-alert', custom 'test-notification'; the three differ. |
| Main.TestMessageFor | src/main.tsx:51-72 | Title, body and tag are never empty. For rain and temp, the title ends with the city, or with 'Test City' when none is given. |
| Main.TestDefaults | src/main.tsx:54-71 | The custom title and body fall back to '🔔 Notification de test' and 'Ceci est une notification de test'; the city falls back to 'Test City'. |
| Main.TestRainLikeAlert | src/main.tsx:57-61 | The test rain title is the real rain-alert title for the same city. |
| Main.TestHeatLikeAlert | src/main.tsx:62-66 | The test heat title and body are exactly those of a real heat alert with a maximum of 25 °C. |
| Main.DeliveryChannels | src/main.tsx:37-117 | With no granted permission nothing is delivered. A ready worker with a controller gets the message and nothing is created directly. Every other worker state, except one never ready, gives exactly one direct notification. Never both. |
| Main.DeliveryFor | src/main.tsx:37-117 | Any delivery requires the permission granted, before or after asking. A worker delivery needs a ready, controlled worker and posts a `SHOW_NOTIFICATION` message with the table's tag. A direct notice carries the table's title and tag and does not require interaction. |
| Main.WorkerShowsSameNotification | src/main.tsx:93-116 | The worker displays a posted test message with the same title, body, tag, icon, badge and interaction flag as the direct path. |
| Main.DevConsole.TestNotification | src/main.tsx:30-121 | Unsupported → nothing. Otherwise permission is asked only when not granted, and the delivery is exactly the one `DeliveryFor` names: a posted message, a direct notice (unless the constructor throws), or nothing. |
| Main.DevConsole.ResetNotifications | src/main.tsx:123-130 | Removes exactly 'meteo-pwa-notifications-sent' from storage. |
| Main.ResetKeepsOtherItems | src/main.tsx:125 | After the reset that key is absent and every other key keeps its value. |
| Config.IntToString | src/hooks/useNotifications.ts:79 | Integer interpolation: a non-negative number gives digits whose decimal value is the number. A negative one gives '-' followed by digits whose value is its magnitude. There is never a leading zero, except in "0" itself. |
| Config.Round | src/hooks/useNotifications.ts:79 | `Math.round`: the nearest integer, with halves rounded up. |
| Config.ContainsAt | public/service-worker.js:104-105 | `includes` holds iff the substring sits at some offset. |
| Config.At | src/hooks/useNotifications.ts:52-54 | An array read is defined iff the index is in range, and is then that element. |

## Left out

- The comment at `public/service-worker.js:79` says "Network First", but the code is cache-first (`:97-98`, `:130-164`). The model follows the code.
- `cache.put` at `public/service-worker.js:145` is not awaited. The model treats it as complete before the response is returned. A put the platform rejects stores nothing and the response is still served. A response is refused when its status is 206 or its `Vary` header lists `*`; the other refusals of the Cache API are not modelled.
- Request URLs are cache keys as given. Resolving relative asset paths against the origin is not modelled.
- `cache.addAll` rejecting a manifest with duplicate entries is not modelled. Non-ok, unstorable (status 206 or `Vary: *`) and failed fetches reject it.
- `ServiceWorker.ShowNotificationDefaults` and `ServiceWorker.Worker.OnMessage` record `skipWaiting`, `clients.claim` and `showNotification` as platform calls. They do not model the calls' effects or their failures.
- `Main.DevConsole.TestNotification`: the 2-second wait for a controller (`src/main.tsx:80-90`) is an input, "controlled after the wait". The timer and listener race is not modelled.
- Real `fetch`, `Response` objects, `JSON.parse`/`JSON.stringify`, `encodeURIComponent` and URL query strings (`src/lib/api.ts:5-7`, `:23-28`) are left out. They are foreign calls; their results are inputs.
- `Favorites.LoadFavorites`: JSON that parses but is not an array of locations is returned unchecked by the source. The model can only express a parse that yields a list or fails.
- `Favorites.FavoritesStore.Add` and `Favorites.FavoritesStore.Remove` write to storage immediately. React may batch several updates into a single write. Storage quota and security errors (`src/hooks/useFavorites.ts:31-35`) are not modelled.
- `Main.DevConsole.ResetNotifications`: a `localStorage` that throws (`src/main.tsx:127-129`) is not modelled.
- `formatHour` (`src/App.tsx:223-229`), the display of the current temperature, humidity and wind, and all JSX are left out. They are presentation only.
- The intermediate `loading = true` state of `handleSearch` is not observable. Each handler runs to completion as one step.
- `App.SearchPage.HandleSearch`: a thrown value that is not an `Error` ('Erreur inattendue.', `src/App.tsx:32`) is not modelled. Every failure in the model carries a message.
- `Notifications.NotificationHook.CheckWeatherConditions`: NaN values in the forecast arrays are not modelled. Temperatures are reals.
- Console logging throughout and `checkNotificationPermission` (`src/main.tsx:132-154`) are left out. They only log.
- In development, `<StrictMode>` (`src/main.tsx:170`) runs the favorites save effect (`src/hooks/useFavorites.ts:24-36`) a second time on mount. By then the initial-mount flag is already cleared, so the loaded list is written back once, and an unparsable stored value becomes `[]`. This is not modelled: `Favorites.FavoritesStore.constructor` writes nothing, as a production build does.
- `vite.config.ts` is build configuration; its Workbox rules are plugin data. `src/hooks/useServiceWorker.ts` and the components are not part of this model.
- Two defaults of the source are not represented. `testNotification` (`src/main.tsx:31-32`) defaults `type` to `'rain'` and `options` to `{}`; `Main.DevConsole.TestNotification` takes the kind explicitly. A `SHOW_NOTIFICATION` message without a title makes the browser show "undefined" (`public/service-worker.js:175-177`); `ServiceWorker.MessageCalls` passes the empty string instead.
- `initTheme` reads the storage key 'theme', not the configured `STORAGE_KEY_THEME` ('meteo-pwa-theme'). The hook that writes the theme is not part of this model, so the two keys are kept as the source has them.
