/**
 * The service worker (public/service-worker.js): base-path handling, the
 * precache manifest, per-request routing, the network-only and cache-first
 * strategies over the Cache Storage, install and activate effects, and the
 * control messages.
 *
 * The Cache Storage is a class holding, in creation order, the names of the
 * caches (what `caches.keys()` lists, and the order `caches.match` searches)
 * and, per name, a map from request key to stored response. A network fetch
 * is an input: an ok response, a non-ok response, or a transport failure.
 */
module ServiceWorker {
  import opened Config

  const CACHE_NAME: string := "meteo-pwa-v1"

  // ---------------------------------------------------------------------------
  // Base path

  /** `String.prototype.lastIndexOf` for one character: -1 when absent. */
  function LastIndexOf(s: string, c: char): (r: int)
    ensures -1 <= r < |s|
    ensures 0 <= r ==> s[r] == c
    ensures forall j :: r < j < |s| ==> s[j] != c
  {
    if |s| == 0 then -1
    else if s[|s| - 1] == c then |s| - 1
    else LastIndexOf(s[..|s| - 1], c)
  }

  /** The worker's directory: its own path up to and including the last '/'. */
  function BasePath(swPath: string): (r: string)
    ensures r <= swPath
    ensures '/' in swPath <==> |r| > 0
    ensures |r| > 0 ==> r[|r| - 1] == '/'
    ensures '/' !in swPath[|r|..]
  {
    swPath[..LastIndexOf(swPath, '/') + 1]
  }

  /** Resolves an app path against the base path. */
  function WithBasePath(base: string, path: string): (r: string)
    ensures base <= r
    ensures base <= path ==> r == path
  {
    if base <= path then path
    else if "/" <= path then base + path[1..]
    else base + path
  }

  /** The three cases of `WithBasePath`: already based, absolute, relative. */
  lemma WithBasePathCases(base: string, path: string)
    ensures base <= path ==> WithBasePath(base, path) == path
    ensures !(base <= path) && "/" <= path ==> WithBasePath(base, path) == base + path[1..]
    ensures !(base <= path) && !("/" <= path) ==> WithBasePath(base, path) == base + path
  {
  }

  /** Prefixing twice is prefixing once. */
  lemma WithBasePathIdempotent(base: string, path: string)
    ensures WithBasePath(base, WithBasePath(base, path)) == WithBasePath(base, path)
  {
  }

  /** With a base ending in '/', an absolute path shares that slash: the
      result is the base without its slash followed by the whole path. */
  lemma WithBasePathJoin(base: string, path: string)
    requires |base| > 0 && base[|base| - 1] == '/'
    requires "/" <= path && !(base <= path)
    ensures WithBasePath(base, path) == base[..|base| - 1] + path
  {
    assert path == [path[0]] + path[1..];
    assert base == base[..|base| - 1] + [base[|base| - 1]];
  }

  /** The page every HTML navigation falls back to when offline. */
  function OfflinePage(base: string): (r: string)
    ensures base <= r
  {
    WithBasePath(base, "/index.html")
  }

  /** The precache manifest. */
  function Assets(base: string): (r: seq<string>)
    ensures |r| == 10 && r[0] == base
    ensures forall i :: 0 <= i < |r| ==> base <= r[i]
    ensures OfflinePage(base) in r
  {
    [ base,
      OfflinePage(base),
      WithBasePath(base, "/icons/icon-72.png"),
      WithBasePath(base, "/icons/icon-96.png"),
      WithBasePath(base, "/icons/icon-128.png"),
      WithBasePath(base, "/icons/icon-144.png"),
      WithBasePath(base, "/icons/icon-152.png"),
      WithBasePath(base, "/icons/icon-192.png"),
      WithBasePath(base, "/icons/icon-384.png"),
      WithBasePath(base, "/icons/icon-512.png") ]
  }

  // ---------------------------------------------------------------------------
  // Requests, responses and routing

  /** A response: status line, body, content type, and the field values of its
      `Vary` header (empty when there is none). */
  datatype Response = Response(status: int, statusText: string, body: string, contentType: Option<string>,
                               vary: seq<string>)
  {
    /** `Response.ok`: a 2xx status. */
    predicate Ok() { 200 <= status <= 299 }

    /** What the Cache API agrees to store: `cache.put` and `cache.addAll`
        reject a partial response (206) and one that varies on `*`. */
    predicate Storable() { status != 206 && "*" !in vary }
  }

  datatype FetchOutcome = Fetched(response: Response) | NetworkError

  /** A request: its method, URL parts, the URL itself (the cache key) and the
      value of its `accept` header, if any. */
  datatype Request = Request(verb: string, protocol: string, hostname: string, url: string, accept: Option<string>)

  /** What a failed data request is answered with. */
  const API_OFFLINE: Response :=
    Response(503, "Service Unavailable", "{\"error\":\"Pas de connexion internet\"}", Some("application/json"), [])

  /** What a failed asset request without an offline page is answered with;
      a string body gets the plain-text content type. */
  const ASSET_OFFLINE: Response :=
    Response(503, "Service Unavailable", "Contenu non disponible hors-ligne", Some("text/plain;charset=UTF-8"), [])

  /** `isApiRequest`: the host name mentions one of the two data services. */
  predicate IsApiRequest(hostname: string)
    ensures IsApiRequest(hostname) <==>
      (exists k: nat :: OccursAt(hostname, "open-meteo.com", k))
      || (exists k: nat :: OccursAt(hostname, "geocoding-api", k))
  {
    ContainsAt(hostname, "open-meteo.com");
    ContainsAt(hostname, "geocoding-api");
    Contains(hostname, "open-meteo.com") || Contains(hostname, "geocoding-api")
  }

  datatype Strategy = Passthrough | NetworkOnlyStrategy | CacheFirstStrategy

  function Route(req: Request): (s: Strategy)
    ensures s == Passthrough <==> req.verb != "GET" || !("http" <= req.protocol)
    ensures s == NetworkOnlyStrategy <==> req.verb == "GET" && "http" <= req.protocol && IsApiRequest(req.hostname)
  {
    if req.verb != "GET" then Passthrough
    else if !("http" <= req.protocol) then Passthrough
    else if IsApiRequest(req.hostname) then NetworkOnlyStrategy
    else CacheFirstStrategy
  }

  const GEOCODING_HOST: string := "geocoding-api.open-meteo.com"
  const WEATHER_HOST: string := "api.open-meteo.com"

  /** The geocoding host is the host of the configured geocoding URL. */
  lemma GeocodingHostMatchesConfig()
    ensures "https://" + GEOCODING_HOST + "/v1/search" == GEOCODING_API
  {
  }

  /** The forecast host is the host of the configured forecast URL. */
  lemma WeatherHostMatchesConfig()
    ensures "https://" + WEATHER_HOST + "/v1/forecast" == WEATHER_API
  {
  }

  /** Both hosts the app calls are recognised as data APIs. */
  lemma AppApiHostsAreApi()
    ensures IsApiRequest(GEOCODING_HOST) && IsApiRequest(WEATHER_HOST)
  {
    assert "geocoding-api" <= GEOCODING_HOST;
    assert OccursAt(WEATHER_HOST, "open-meteo.com", 4);
    ContainsAt(WEATHER_HOST, "open-meteo.com");
  }

  /** Every GET over https to the app's data services goes to the network only. */
  lemma AppApiRequestsAreNetworkOnly(req: Request)
    requires req.verb == "GET" && req.protocol == "https:"
    requires req.hostname == GEOCODING_HOST || req.hostname == WEATHER_HOST
    ensures Route(req) == NetworkOnlyStrategy
  {
    AppApiHostsAreApi();
    assert "http" <= req.protocol;
  }

  /** Network-only: the fetched response as it is, or the JSON 503. */
  function NetworkOnly(outcome: FetchOutcome): (r: Response)
    ensures outcome.Fetched? ==> r == outcome.response
    ensures outcome.NetworkError? ==> r == API_OFFLINE && !r.Ok()
  {
    match outcome
    case Fetched(resp) => resp
    case NetworkError => API_OFFLINE
  }

  /** The `accept` header is present and mentions `text/html`. */
  predicate AcceptsHtml(req: Request)
  {
    req.accept.Some? && Contains(req.accept.value, "text/html")
  }

  // ---------------------------------------------------------------------------
  // The Cache Storage as a value

  datatype Store = Store(names: seq<string>, entries: map<string, map<string, Response>>)

  ghost predicate Distinct<T>(s: seq<T>)
  {
    forall i, j :: 0 <= i < j < |s| ==> s[i] != s[j]
  }

  /** Cache names are unique, and the listed names are exactly the caches. */
  ghost predicate WellFormed(st: Store)
  {
    Distinct(st.names) && (forall n :: n in st.names <==> n in st.entries)
  }

  /** `caches.match`: the entry of the first cache, in creation order, that holds the key. */
  function Lookup(names: seq<string>, entries: map<string, map<string, Response>>, key: string): (r: Option<Response>)
    ensures r.None? <==> forall i :: 0 <= i < |names| && names[i] in entries ==> key !in entries[names[i]]
    ensures r.Some? ==> exists i :: 0 <= i < |names| && names[i] in entries && key in entries[names[i]]
                                   && entries[names[i]][key] == r.value
                                   && forall j :: 0 <= j < i && names[j] in entries ==> key !in entries[names[j]]
  {
    if |names| == 0 then None
    else if names[0] in entries && key in entries[names[0]] then Some(entries[names[0]][key])
    else Lookup(names[1..], entries, key)
  }

  /** `caches.open`: the named cache, created empty at the end of the list if missing. */
  function Opened(st: Store, name: string): (r: Store)
    ensures name in r.entries
    ensures name in st.entries ==> r == st
    ensures name !in st.entries ==> r.names == st.names + [name] && r.entries[name] == map[]
    ensures r.entries.Keys == st.entries.Keys + {name}
    ensures forall n :: n in st.entries ==> r.entries[n] == st.entries[n]
  {
    if name in st.entries then st
    else Store(st.names + [name], st.entries[name := map[]])
  }

  /** `cache.put` (one key) and the commit of `cache.addAll` (a batch) into a cache. */
  function PutAll(st: Store, name: string, batch: map<string, Response>): (r: Store)
    requires name in st.entries
    ensures r.names == st.names && r.entries.Keys == st.entries.Keys
    ensures r.entries[name] == st.entries[name] + batch
    ensures forall n :: n in st.entries && n != name ==> r.entries[n] == st.entries[n]
  {
    Store(st.names, st.entries[name := st.entries[name] + batch])
  }

  /** The sequence with every occurrence of `x` removed. */
  function Without<T(==)>(s: seq<T>, x: T): seq<T>
  {
    if |s| == 0 then []
    else if s[0] == x then Without(s[1..], x)
    else [s[0]] + Without(s[1..], x)
  }

  /** The sequence keeping only the occurrences of `x`. */
  function Retain<T(==)>(s: seq<T>, x: T): seq<T>
  {
    if |s| == 0 then []
    else if s[0] == x then [x] + Retain(s[1..], x)
    else Retain(s[1..], x)
  }

  /** The store after activation: every listed cache other than `CACHE_NAME` deleted. */
  function Activated(st: Store): (r: Store)
    ensures forall n :: n in r.names ==> n == CACHE_NAME
    ensures forall n :: n in st.names && n != CACHE_NAME ==> n !in r.entries
    ensures forall n :: n in r.entries ==> n in st.entries && r.entries[n] == st.entries[n]
    ensures CACHE_NAME in st.entries ==> CACHE_NAME in r.entries
  {
    RetainMembers(st.names, CACHE_NAME);
    Store(Retain(st.names, CACHE_NAME), st.entries - Doomed(st.names, CACHE_NAME))
  }

  /** The listed names other than `keep`: the caches activation deletes. */
  function Doomed<T(==)>(names: seq<T>, keep: T): set<T>
  {
    set n | n in names && n != keep
  }

  /** Every fetch of the batch gave an ok response that the cache accepts
      (`cache.addAll` rejects otherwise). */
  predicate AllFetchedOk(paths: seq<string>, net: string -> FetchOutcome)
  {
    forall i :: 0 <= i < |paths| ==>
      net(paths[i]).Fetched? && net(paths[i]).response.Ok() && net(paths[i]).response.Storable()
  }

  function Batch(paths: seq<string>, net: string -> FetchOutcome): (m: map<string, Response>)
    requires AllFetchedOk(paths, net)
    ensures m.Keys == set p | p in paths
  {
    map p | p in paths :: net(p).response
  }

  /** The store after the install handler: the current cache opened, then filled
      with the whole manifest or, if any fetch failed, with nothing. */
  function Installed(st: Store, base: string, net: string -> FetchOutcome): (r: Store)
    ensures r.names == Opened(st, CACHE_NAME).names && CACHE_NAME in r.entries
    ensures !AllFetchedOk(Assets(base), net) ==> r == Opened(st, CACHE_NAME)
    ensures forall n :: n in st.entries && n != CACHE_NAME ==> n in r.entries && r.entries[n] == st.entries[n]
  {
    var withCurrent := Opened(st, CACHE_NAME);
    if AllFetchedOk(Assets(base), net) then PutAll(withCurrent, CACHE_NAME, Batch(Assets(base), net))
    else withCurrent
  }

  /** Cache-first: the response served and the store afterwards. */
  function CacheFirst(base: string, st: Store, req: Request, outcome: FetchOutcome): (r: (Response, Store))
    ensures r.1 != st ==> Lookup(st.names, st.entries, req.url).None? && outcome.Fetched? && outcome.response.Ok()
    ensures forall n :: n in st.entries && n != CACHE_NAME ==> n in r.1.entries && r.1.entries[n] == st.entries[n]
    ensures outcome.Fetched? ==> r.0 == outcome.response || Lookup(st.names, st.entries, req.url) == Some(r.0)
    ensures outcome.NetworkError? ==>
      r.1 == st
      && (r.0 == ASSET_OFFLINE || Lookup(st.names, st.entries, req.url) == Some(r.0)
          || Lookup(st.names, st.entries, OfflinePage(base)) == Some(r.0))
  {
    match Lookup(st.names, st.entries, req.url)
    case Some(hit) => (hit, st)
    case None =>
      match outcome
      case Fetched(resp) =>
        // the put is not awaited: a rejected one still serves the response
        if resp.Ok() then
          (resp, if resp.Storable() then PutAll(Opened(st, CACHE_NAME), CACHE_NAME, map[req.url := resp])
                 else Opened(st, CACHE_NAME))
        else (resp, st)
      case NetworkError =>
        var fallback := Lookup(st.names, st.entries, OfflinePage(base));
        if AcceptsHtml(req) && fallback.Some? then (fallback.value, st)
        else (ASSET_OFFLINE, st)
  }

  /** The fetch handler: `None` leaves the request to the browser. */
  function HandleFetch(base: string, st: Store, req: Request, outcome: FetchOutcome): (r: (Option<Response>, Store))
    ensures r.0.None? <==> req.verb != "GET" || !("http" <= req.protocol)
    ensures Route(req) != CacheFirstStrategy ==> r.1 == st
    ensures Route(req) == NetworkOnlyStrategy ==>
      r.0 == Some(if outcome.Fetched? then outcome.response else API_OFFLINE)
  {
    match Route(req)
    case Passthrough => (None, st)
    case NetworkOnlyStrategy => (Some(NetworkOnly(outcome)), st)
    case CacheFirstStrategy =>
      var (resp, st') := CacheFirst(base, st, req, outcome);
      (Some(resp), st')
  }

  // ---------------------------------------------------------------------------
  // Lemmas about the store

  lemma {:induction false} WithoutMembers<T>(s: seq<T>, x: T)
    ensures forall y :: y in Without(s, x) <==> y in s && y != x
  {
    if |s| > 0 {
      WithoutMembers(s[1..], x);
      assert s == [s[0]] + s[1..];
    }
  }

  lemma {:induction false} RetainMembers<T>(s: seq<T>, x: T)
    ensures forall y :: y in Retain(s, x) ==> y == x
  {
    if |s| > 0 {
      RetainMembers(s[1..], x);
    }
  }

  lemma {:induction false} WithoutAppend<T>(a: seq<T>, b: seq<T>, x: T)
    ensures Without(a + b, x) == Without(a, x) + Without(b, x)
  {
    if |a| > 0 {
      assert (a + b)[1..] == a[1..] + b;
      WithoutAppend(a[1..], b, x);
    } else {
      assert a + b == b;
    }
  }

  lemma {:induction false} WithoutAbsent<T>(s: seq<T>, x: T)
    requires x !in s
    ensures Without(s, x) == s
  {
    if |s| > 0 {
      WithoutAbsent(s[1..], x);
    }
  }

  lemma {:induction false} RetainAppend<T>(a: seq<T>, b: seq<T>, x: T)
    ensures Retain(a + b, x) == Retain(a, x) + Retain(b, x)
  {
    if |a| > 0 {
      assert (a + b)[1..] == a[1..] + b;
      RetainAppend(a[1..], b, x);
    } else {
      assert a + b == b;
    }
  }

  /** In a list of distinct names, keeping one name leaves it alone, if it was there. */
  lemma {:induction false} RetainDistinct<T>(s: seq<T>, x: T)
    requires Distinct(s)
    ensures Retain(s, x) == if x in s then [x] else []
  {
    if |s| > 0 {
      assert Distinct(s[1..]) by {
        forall i, j | 0 <= i < j < |s[1..]| ensures s[1..][i] != s[1..][j] {
          assert s[1..][i] == s[i + 1] && s[1..][j] == s[j + 1];
        }
      }
      RetainDistinct(s[1..], x);
      if s[0] == x {
        assert x !in s[1..] by {
          forall k | 0 <= k < |s[1..]| ensures s[1..][k] != x {
            assert s[1..][k] == s[k + 1];
          }
        }
      } else {
        assert x in s <==> x in s[1..] by {
          assert s == [s[0]] + s[1..];
        }
      }
    }
  }

  /** Activation leaves at most the current cache, unchanged, and nothing else. */
  lemma ActivateKeepsOnlyCurrent(st: Store)
    requires WellFormed(st)
    ensures WellFormed(Activated(st))
    ensures Activated(st).names == if CACHE_NAME in st.entries then [CACHE_NAME] else []
    ensures Activated(st).entries.Keys == st.entries.Keys * {CACHE_NAME}
    ensures CACHE_NAME in st.entries ==> Activated(st).entries[CACHE_NAME] == st.entries[CACHE_NAME]
  {
    RetainDistinct(st.names, CACHE_NAME);
  }

  /** A second activation changes nothing. */
  lemma ActivateIdempotent(st: Store)
    requires WellFormed(st)
    ensures Activated(Activated(st)) == Activated(st)
  {
    ActivateKeepsOnlyCurrent(st);
    var a := Activated(st);
    ActivateKeepsOnlyCurrent(a);
    assert Activated(a).entries == a.entries;
  }

  /** Looking up through a list in which exactly one cache changed, by gaining
      one key that no cache had, finds that key's new entry. */
  lemma {:induction false} LookupAfterPut(names: seq<string>, entries: map<string, map<string, Response>>,
                                          name: string, key: string, resp: Response)
    requires name in names && name in entries
    requires Lookup(names, entries, key).None?
    ensures Lookup(names, entries[name := entries[name][key := resp]], key) == Some(resp)
  {
    if names[0] != name {
      LookupAfterPut(names[1..], entries, name, key, resp);
    }
  }

  /** The store stays well formed through open and put. */
  lemma OpenedWellFormed(st: Store, name: string)
    requires WellFormed(st)
    ensures WellFormed(Opened(st, name))
  {
    if name !in st.entries {
      var r := Opened(st, name);
      forall i, j | 0 <= i < j < |r.names| ensures r.names[i] != r.names[j] {
        if j == |st.names| {
          assert r.names[i] == st.names[i];
        }
      }
    }
  }

  /** A cache hit is served as stored, the store stays as it was, and the
      network outcome plays no part. */
  lemma CacheHitServesStored(base: string, st: Store, req: Request, outcome: FetchOutcome, other: FetchOutcome)
    requires Lookup(st.names, st.entries, req.url).Some?
    ensures CacheFirst(base, st, req, outcome) == (Lookup(st.names, st.entries, req.url).value, st)
    ensures CacheFirst(base, st, req, outcome) == CacheFirst(base, st, req, other)
  {
  }

  /** On a miss, an ok response is stored in the current cache before it is
      returned, so the next lookup of the same request hits it. */
  lemma CacheMissStoresOkResponse(base: string, st: Store, req: Request, resp: Response)
    requires WellFormed(st)
    requires Lookup(st.names, st.entries, req.url).None? && resp.Ok() && resp.Storable()
    ensures CacheFirst(base, st, req, Fetched(resp)).0 == resp
    ensures WellFormed(CacheFirst(base, st, req, Fetched(resp)).1)
    ensures var st' := CacheFirst(base, st, req, Fetched(resp)).1;
            Lookup(st'.names, st'.entries, req.url) == Some(resp)
    ensures var st' := CacheFirst(base, st, req, Fetched(resp)).1;
            st'.entries[CACHE_NAME] == Opened(st, CACHE_NAME).entries[CACHE_NAME][req.url := resp]
    ensures var st' := CacheFirst(base, st, req, Fetched(resp)).1;
            st'.names == Opened(st, CACHE_NAME).names
            && forall n :: n in st.entries && n != CACHE_NAME ==> n in st'.entries && st'.entries[n] == st.entries[n]
  {
    var withCurrent := Opened(st, CACHE_NAME);
    OpenedWellFormed(st, CACHE_NAME);
    assert Lookup(withCurrent.names, withCurrent.entries, req.url).None?;
    assert withCurrent.entries[CACHE_NAME] + map[req.url := resp] == withCurrent.entries[CACHE_NAME][req.url := resp];
    LookupAfterPut(withCurrent.names, withCurrent.entries, CACHE_NAME, req.url, resp);
  }

  /** On a miss, an ok response the cache refuses (206, or `Vary: *`) is still
      returned; the current cache is opened but gains nothing, so the request
      still misses. */
  lemma CacheMissUnstorable(base: string, st: Store, req: Request, resp: Response)
    requires WellFormed(st)
    requires Lookup(st.names, st.entries, req.url).None? && resp.Ok() && !resp.Storable()
    ensures CacheFirst(base, st, req, Fetched(resp)) == (resp, Opened(st, CACHE_NAME))
    ensures var st' := CacheFirst(base, st, req, Fetched(resp)).1;
            WellFormed(st') && Lookup(st'.names, st'.entries, req.url).None?
  {
    OpenedWellFormed(st, CACHE_NAME);
    if CACHE_NAME !in st.entries {
      LookupAppendEmpty(st.names, st.entries, CACHE_NAME, req.url);
    }
  }

  /** Appending a new, empty cache does not change what a lookup finds. */
  lemma {:induction false} LookupAppendEmpty(names: seq<string>, entries: map<string, map<string, Response>>,
                                             name: string, key: string)
    requires name !in entries
    ensures Lookup(names + [name], entries[name := map[]], key) == Lookup(names, entries, key)
  {
    if |names| == 0 {
      assert names + [name] == [name];
    } else {
      assert (names + [name])[1..] == names[1..] + [name];
      LookupAppendEmpty(names[1..], entries, name, key);
      if names[0] in entries {
        assert names[0] != name;
      }
    }
  }

  /** On a miss, a non-ok response is returned and not stored. */
  lemma CacheMissPassesNonOk(base: string, st: Store, req: Request, resp: Response)
    requires Lookup(st.names, st.entries, req.url).None? && !resp.Ok()
    ensures CacheFirst(base, st, req, Fetched(resp)) == (resp, st)
  {
  }

  /** Offline on a miss: an HTML request gets the cached offline page if there
      is one, anything else the plain-text 503; the store is untouched. */
  lemma CacheMissOffline(base: string, st: Store, req: Request)
    requires Lookup(st.names, st.entries, req.url).None?
    ensures CacheFirst(base, st, req, NetworkError).1 == st
    ensures AcceptsHtml(req) && Lookup(st.names, st.entries, OfflinePage(base)).Some? ==>
              CacheFirst(base, st, req, NetworkError).0 == Lookup(st.names, st.entries, OfflinePage(base)).value
    ensures !(AcceptsHtml(req) && Lookup(st.names, st.entries, OfflinePage(base)).Some?) ==>
              CacheFirst(base, st, req, NetworkError).0 == ASSET_OFFLINE
  {
  }

  /** Data requests never touch the store: a failure always gives the JSON 503,
      whatever is cached. */
  lemma ApiRequestsBypassCache(base: string, st: Store, req: Request, outcome: FetchOutcome)
    requires Route(req) == NetworkOnlyStrategy
    ensures HandleFetch(base, st, req, outcome) == (Some(NetworkOnly(outcome)), st)
    ensures outcome.NetworkError? ==> HandleFetch(base, st, req, outcome).0 == Some(API_OFFLINE)
  {
  }

  /** After a successful install, every manifest entry is found by a lookup. */
  lemma InstallCachesManifest(st: Store, base: string, net: string -> FetchOutcome)
    requires WellFormed(st) && AllFetchedOk(Assets(base), net)
    ensures WellFormed(Installed(st, base, net))
    ensures var st' := Installed(st, base, net);
            forall a :: a in Assets(base) ==> Lookup(st'.names, st'.entries, a).Some?
    ensures var st' := Installed(st, base, net);
            forall a :: a in Assets(base) ==> a in st'.entries[CACHE_NAME] && st'.entries[CACHE_NAME][a] == net(a).response
  {
    OpenedWellFormed(st, CACHE_NAME);
    var st' := Installed(st, base, net);
    var k :| 0 <= k < |st'.names| && st'.names[k] == CACHE_NAME;
    forall a | a in Assets(base) ensures Lookup(st'.names, st'.entries, a).Some? {
      assert a in st'.entries[st'.names[k]];
    }
  }

  /** Install then activate: each manifest entry is served from the cache with
      exactly what was fetched at install time, whatever the network does now. */
  lemma InstallThenActivateServesManifest(st: Store, base: string, net: string -> FetchOutcome,
                                          req: Request, outcome: FetchOutcome)
    requires WellFormed(st) && AllFetchedOk(Assets(base), net)
    requires req.url in Assets(base)
    ensures var st' := Activated(Installed(st, base, net));
            CacheFirst(base, st', req, outcome) == (net(req.url).response, st')
  {
    InstallCachesManifest(st, base, net);
    var installed := Installed(st, base, net);
    ActivateKeepsOnlyCurrent(installed);
    var st' := Activated(installed);
    assert st'.names == [CACHE_NAME];
    assert req.url in st'.entries[CACHE_NAME];
  }

  // ---------------------------------------------------------------------------
  // Messages and platform calls

  /** The options handed to `registration.showNotification`. */
  datatype ShowOptions = ShowOptions(body: string, icon: string, badge: string, tag: string,
                                     requireInteraction: bool, vibrate: seq<int>)

  /** Calls the worker makes on its platform, recorded in order. */
  datatype PlatformCall = SkipWaiting | ClaimClients | ShowNotification(title: string, options: ShowOptions)

  /** A message posted to the worker. An empty string stands for a field that
      is missing or falsy. */
  datatype Message =
    | SkipWaitingMessage
    | ShowNotificationMessage(title: string, body: string, tag: string, icon: string, badge: string)
    | OtherMessage

  /** `value || fallback` on strings. */
  function OrDefault(value: string, fallback: string): (r: string)
    ensures value != "" ==> r == value
    ensures value == "" ==> r == fallback
  {
    if value == "" then fallback else value
  }

  /** The calls the message handler makes for one message. */
  function MessageCalls(base: string, msg: Message): (calls: seq<PlatformCall>)
    ensures |calls| <= 1 && ClaimClients !in calls
    ensures calls == [SkipWaiting] <==> msg.SkipWaitingMessage?
    ensures calls == [] <==> msg.OtherMessage?
    ensures msg.ShowNotificationMessage? ==> calls[0].ShowNotification? && calls[0].title == msg.title
  {
    match msg
    case SkipWaitingMessage => [SkipWaiting]
    case ShowNotificationMessage(title, body, tag, icon, badge) =>
      [ShowNotification(title, ShowOptions(
         body,
         OrDefault(icon, WithBasePath(base, "/icons/icon-192.png")),
         OrDefault(badge, WithBasePath(base, "/icons/icon-72.png")),
         OrDefault(tag, "default"),
         false,
         [200, 100, 200]))]
    case OtherMessage => []
  }

  /** A show request displays exactly one notification with the given title and
      body; a missing icon, badge or tag takes its default, so the three are
      never empty; other messages display nothing. */
  lemma ShowNotificationDefaults(base: string, msg: Message)
    ensures msg.SkipWaitingMessage? ==> MessageCalls(base, msg) == [SkipWaiting]
    ensures msg.OtherMessage? ==> MessageCalls(base, msg) == []
    ensures msg.ShowNotificationMessage? ==>
      var calls := MessageCalls(base, msg);
      && |calls| == 1 && calls[0].ShowNotification?
      && calls[0].title == msg.title && calls[0].options.body == msg.body
      && calls[0].options.icon == (if msg.icon == "" then WithBasePath(base, "/icons/icon-192.png") else msg.icon)
      && calls[0].options.badge == (if msg.badge == "" then WithBasePath(base, "/icons/icon-72.png") else msg.badge)
      && calls[0].options.tag == (if msg.tag == "" then "default" else msg.tag)
      && calls[0].options.icon != "" && calls[0].options.badge != "" && calls[0].options.tag != ""
  {
    if msg.ShowNotificationMessage? {
      assert WithBasePath(base, "/icons/icon-192.png") != "" by {
        if !(base <= "/icons/icon-192.png") { assert |"/icons/icon-192.png"[1..]| > 0; }
      }
      assert WithBasePath(base, "/icons/icon-72.png") != "" by {
        if !(base <= "/icons/icon-72.png") { assert |"/icons/icon-72.png"[1..]| > 0; }
      }
    }
  }

  // ---------------------------------------------------------------------------
  // The Cache Storage object

  class CacheStorage {
    var names: seq<string>
    var entries: map<string, map<string, Response>>

    ghost predicate Valid()
      reads this
    {
      WellFormed(Store(names, entries))
    }

    function State(): Store
      reads this
    {
      Store(names, entries)
    }

    constructor ()
      ensures Valid() && names == [] && entries == map[]
    {
      names := [];
      entries := map[];
    }

    /** `caches.keys()`. */
    method Keys() returns (ks: seq<string>)
      ensures ks == names
    {
      ks := names;
    }

    /** `caches.open(name)`. */
    method Open(name: string)
      requires Valid()
      modifies this
      ensures Valid()
      ensures State() == Opened(old(State()), name)
    {
      OpenedWellFormed(State(), name);
      if name !in entries {
        names := names + [name];
        entries := entries[name := map[]];
      }
    }

    /** `cache.put` for several keys at once, into an open cache. The batch is
        refused, and nothing stored, if any response is not storable. */
    method Put(name: string, batch: map<string, Response>) returns (stored: bool)
      requires Valid() && name in entries
      modifies this
      ensures Valid()
      ensures stored <==> forall k :: k in batch ==> batch[k].Storable()
      ensures State() == if stored then PutAll(old(State()), name, batch) else old(State())
    {
      stored := forall k | k in batch :: batch[k].Storable();
      if stored {
        entries := entries[name := entries[name] + batch];
      }
    }

    /** `caches.delete(name)`. */
    method Delete(name: string) returns (found: bool)
      requires Valid()
      modifies this
      ensures Valid()
      ensures found == (name in old(entries))
      ensures State() == Deleted(old(State()), name)
    {
      found := name in entries;
      WithoutDistinct(names, name);
      WithoutMembers(names, name);
      names := Without(names, name);
      entries := entries - {name};
    }

    /** `caches.match(key)`: searches the caches in creation order. */
    method Match(key: string) returns (r: Option<Response>)
      requires Valid()
      ensures r == Lookup(names, entries, key)
    {
      var i := 0;
      while i < |names|
        invariant 0 <= i <= |names|
        invariant Lookup(names, entries, key) == Lookup(names[i..], entries, key)
      {
        var cache := entries[names[i]];
        if key in cache {
          return Some(cache[key]);
        }
        assert names[i..][1..] == names[i + 1..];
        i := i + 1;
      }
      return None;
    }
  }

  /** Removing a name keeps the list of names distinct. */
  lemma {:induction false} WithoutDistinct<T>(s: seq<T>, x: T)
    requires Distinct(s)
    ensures Distinct(Without(s, x))
  {
    if |s| > 0 {
      assert Distinct(s[1..]) by {
        forall i, j | 0 <= i < j < |s[1..]| ensures s[1..][i] != s[1..][j] {
          assert s[1..][i] == s[i + 1] && s[1..][j] == s[j + 1];
        }
      }
      WithoutDistinct(s[1..], x);
      WithoutMembers(s[1..], x);
      if s[0] != x {
        assert s[0] !in s[1..] by {
          forall k | 0 <= k < |s[1..]| ensures s[1..][k] != s[0] {
            assert s[1..][k] == s[k + 1];
          }
        }
        var r := [s[0]] + Without(s[1..], x);
        forall i, j | 0 <= i < j < |r| ensures r[i] != r[j] {
          if i == 0 {
            assert r[j] in Without(s[1..], x);
          } else {
            assert r[i] == Without(s[1..], x)[i - 1] && r[j] == Without(s[1..], x)[j - 1];
          }
        }
      }
    }
  }

  /** In a list of distinct names, a name does not occur after its own position. */
  lemma NotInTail<T>(keys: seq<T>, i: nat)
    requires Distinct(keys) && i < |keys|
    ensures keys[i] !in keys[i + 1..]
  {
    forall k | i + 1 <= k < |keys| ensures keys[k] != keys[i] {
      assert keys[i] != keys[k];
    }
  }

  /** Deleting a name at the head of a list leaves the list after it. */
  lemma DropHead<T>(key: T, rest: seq<T>)
    requires key !in rest
    ensures Without([key] + rest, key) == rest
  {
    assert ([key] + rest)[1..] == rest;
    WithoutAbsent(rest, key);
  }

  /** One deletion of the activation loop, on the list of names. */
  lemma {:induction false} ActivateDeleteStep<T>(keys: seq<T>, i: nat, keep: T)
    requires i < |keys| && keys[i] != keep && keys[i] !in keys[i + 1..]
    ensures Without(Retain(keys[..i], keep) + keys[i..], keys[i])
            == Retain(keys[..i + 1], keep) + keys[i + 1..]
  {
    var key, kept, rest := keys[i], Retain(keys[..i], keep), keys[i + 1..];
    assert keys[i..] == [key] + rest;
    WithoutAppend(kept, [key] + rest, key);
    RetainMembers(keys[..i], keep);
    WithoutAbsent(kept, key);
    DropHead(key, rest);
    assert Without(kept + keys[i..], key) == kept + rest;
    assert keys[..i + 1] == keys[..i] + [key];
    RetainAppend(keys[..i], [key], keep);
    assert Retain([key], keep) == [];
    assert Retain(keys[..i + 1], keep) == kept;
  }

  /** The names deleted by the first `i + 1` steps of the activation loop. */
  lemma {:induction false} ActivateDeletedStep<T>(keys: seq<T>, i: nat, keep: T)
    requires i < |keys|
    ensures keys[i] != keep ==> Doomed(keys[..i + 1], keep) == Doomed(keys[..i], keep) + {keys[i]}
    ensures keys[i] == keep ==> Doomed(keys[..i + 1], keep) == Doomed(keys[..i], keep)
  {
    assert keys[..i + 1] == keys[..i] + [keys[i]];
  }

  /** `caches.delete` on the store value. */
  function Deleted(st: Store, name: string): Store
  {
    Store(Without(st.names, name), st.entries - {name})
  }

  /** The store after the activation loop has handled the first `i` names. */
  ghost function Progress(start: Store, i: nat): Store
    requires i <= |start.names|
  {
    Store(Retain(start.names[..i], CACHE_NAME) + start.names[i..],
          start.entries - Doomed(start.names[..i], CACHE_NAME))
  }

  lemma ProgressStep(start: Store, i: nat)
    requires WellFormed(start) && i < |start.names|
    ensures start.names[i] != CACHE_NAME ==> Deleted(Progress(start, i), start.names[i]) == Progress(start, i + 1)
    ensures start.names[i] == CACHE_NAME ==> Progress(start, i) == Progress(start, i + 1)
  {
    ActivateDeletedStep(start.names, i, CACHE_NAME);
    if start.names[i] != CACHE_NAME {
      NotInTail(start.names, i);
      ActivateDeleteStep(start.names, i, CACHE_NAME);
    } else {
      ActivateKeepStep(start.names, i, CACHE_NAME);
    }
  }

  lemma ProgressStart(start: Store)
    ensures Progress(start, 0) == start
  {
    assert start.names[..0] == [];
    assert start.names[0..] == start.names;
    assert Doomed(start.names[..0], CACHE_NAME) == {};
  }

  lemma ProgressDone(start: Store)
    ensures Progress(start, |start.names|) == Activated(start)
  {
    assert start.names[..|start.names|] == start.names;
    assert start.names[|start.names|..] == [];
  }

  /** One step of the activation loop that keeps the current cache. */
  lemma {:induction false} ActivateKeepStep<T>(keys: seq<T>, i: nat, keep: T)
    requires i < |keys| && keys[i] == keep
    ensures Retain(keys[..i], keep) + keys[i..] == Retain(keys[..i + 1], keep) + keys[i + 1..]
  {
    assert keys[..i + 1] == keys[..i] + [keep];
    RetainAppend(keys[..i], [keep], keep);
    assert keys[i..] == [keep] + keys[i + 1..];
  }

  // ---------------------------------------------------------------------------
  // The worker

  class Worker {
    const basePath: string
    const storage: CacheStorage
    var calls: seq<PlatformCall>

    constructor (swPath: string, storage: CacheStorage)
      ensures basePath == BasePath(swPath) && this.storage == storage && calls == []
    {
      basePath := BasePath(swPath);
      this.storage := storage;
      calls := [];
    }

    /** The install handler: open the current cache, add the whole manifest,
        then skip waiting. A failed fetch rejects the installation. */
    method Install(net: string -> FetchOutcome) returns (installed: bool)
      requires storage.Valid()
      modifies this, storage
      ensures storage.Valid()
      ensures installed == AllFetchedOk(Assets(basePath), net)
      ensures storage.State() == Installed(old(storage.State()), basePath, net)
      ensures calls == old(calls) + (if installed then [SkipWaiting] else [])
    {
      storage.Open(CACHE_NAME);
      var assets := Assets(basePath);
      installed := AllFetchedOk(assets, net);
      if installed {
        var batch := Batch(assets, net);
        forall k | k in batch ensures batch[k].Storable() {
          var i :| 0 <= i < |assets| && assets[i] == k;
        }
        var _ := storage.Put(CACHE_NAME, batch);
        calls := calls + [SkipWaiting];
      }
    }

    /** The activate handler: delete every cache but the current one, then
        claim the open clients. */
    method Activate()
      requires storage.Valid()
      modifies this, storage
      ensures storage.Valid()
      ensures storage.State() == Activated(old(storage.State()))
      ensures calls == old(calls) + [ClaimClients]
    {
      DeleteOldCaches();
      calls := calls + [ClaimClients];
    }

    /** The first step of activation: delete, one by one, every listed
        cache whose name is not the current one. */
    method DeleteOldCaches()
      requires storage.Valid()
      modifies storage
      ensures storage.Valid()
      ensures storage.State() == Activated(old(storage.State()))
    {
      var keys := storage.Keys();
      ghost var start := storage.State();
      ProgressStart(start);
      var i := 0;
      while i < |keys|
        invariant 0 <= i <= |keys| && keys == start.names
        invariant storage.Valid()
        invariant storage.State() == Progress(start, i)
      {
        HandleName(start, i, keys[i]);
        i := i + 1;
      }
      ProgressDone(start);
    }

    /** One turn of the activation loop: delete the `i`-th listed cache
        unless it is the current one. */
    method HandleName(ghost start: Store, i: nat, name: string)
      requires WellFormed(start) && i < |start.names| && name == start.names[i]
      requires storage.Valid() && storage.State() == Progress(start, i)
      modifies storage
      ensures storage.Valid() && storage.State() == Progress(start, i + 1)
    {
      ProgressStep(start, i);
      if name != CACHE_NAME {
        var _ := storage.Delete(name);
      }
    }

    /** Cache-first over the live store. */
    method CacheFirstFetch(req: Request, outcome: FetchOutcome) returns (resp: Response)
      requires storage.Valid()
      modifies storage
      ensures storage.Valid()
      ensures (resp, storage.State()) == CacheFirst(basePath, old(storage.State()), req, outcome)
    {
      var cached := storage.Match(req.url);
      if cached.Some? {
        return cached.value;
      }
      match outcome
      case Fetched(networkResponse) =>
        if networkResponse.Ok() {
          storage.Open(CACHE_NAME);
          var stored := storage.Put(CACHE_NAME, map[req.url := networkResponse]);
          assert stored == networkResponse.Storable() by {
            assert req.url in map[req.url := networkResponse];
          }
        }
        resp := networkResponse;
      case NetworkError =>
        if AcceptsHtml(req) {
          var fallback := storage.Match(OfflinePage(basePath));
          if fallback.Some? {
            return fallback.value;
          }
        }
        resp := ASSET_OFFLINE;
    }

    /** The fetch handler. */
    method Fetch(req: Request, outcome: FetchOutcome) returns (resp: Option<Response>)
      requires storage.Valid()
      modifies storage
      ensures storage.Valid()
      ensures (resp, storage.State()) == HandleFetch(basePath, old(storage.State()), req, outcome)
    {
      match Route(req)
      case Passthrough =>
        resp := None;
      case NetworkOnlyStrategy =>
        resp := Some(NetworkOnly(outcome));
      case CacheFirstStrategy =>
        var r := CacheFirstFetch(req, outcome);
        resp := Some(r);
    }

    /** The message handler. */
    method OnMessage(msg: Message)
      modifies this
      ensures calls == old(calls) + MessageCalls(basePath, msg)
    {
      calls := calls + MessageCalls(basePath, msg);
    }
  }
}
