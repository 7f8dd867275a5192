/** The service worker of the site: its install, activate and fetch
    handlers over the browser's CacheStorage, with the network's behaviour
    passed in as a parameter. */
module ServiceWorker {
  import opened Http
  import opened Caches

  /** The name of the current cache version. */
  const CacheName: string := "teguh-pwa-v1"

  /** The pages and files seeded into the cache at install time. */
  const AssetsToCache: seq<Url> := [
    "/latihan-web/",
    "/latihan-web/index.html",
    "/latihan-web/about.html",
    "/latihan-web/contact.html",
    "/latihan-web/offline.html",
    "/latihan-web/manifest.json",
    "/latihan-web/style.css",
    "/latihan-web/icons/logo-192.png",
    "/latihan-web/icons/logo-512.png",
    "/latihan-web/icons/apple-touch-icon.png"
  ]

  /** The page a failed navigation falls back to. */
  const OfflinePage: Url := "/latihan-web/offline.html"

  /** The response an asset request gets when it misses the cache and the
      network fails. */
  const OfflineReply: Response := Response(503, "Service Unavailable", "Offline")

  /** The current cache holds the offline page. A successful install
      establishes this, and neither fetching nor activating undoes it. */
  predicate OfflineReady(stores: map<string, Store>) {
    Holds(stores, CacheName, OfflinePage)
  }

  /** What the fetch handler tells the browser: it does not call
      `respondWith` at all, or it answers with a response (`None` when the
      promise it answers with resolves to `undefined`). */
  datatype Handling = Unhandled | Respond(response: Option<Response>)

  /** The handler's decision: its answer, and the response, if any, that it
      puts into the current cache under the request's URL. */
  datatype Plan = Plan(handling: Handling, save: Option<Response>)

  /** A response the network gave is returned, and kept in the current
      cache when its status is 200. */
  function Fetched(response: Response): (p: Plan)
  {
    Plan(Respond(Some(response)), if response.status == 200 then Some(response) else None)
  }

  /** The navigation policy, network first: the network's response if it
      gives one; otherwise the cached entry for the request, and failing
      that the cached offline page. */
  function NetworkFirst(url: Url, names: seq<string>, stores: map<string, Store>, net: NetOutcome): (p: Plan)
    ensures p.handling.Respond?
    ensures p.save.Some? ==> net == Ok(p.save.value) && p.save.value.status == 200 && p.handling == Respond(p.save)
  {
    match net
    case Ok(response) => Fetched(response)
    case Fail =>
      var cached := MatchIn(names, stores, url);
      Plan(Respond(if cached.Some? then cached else MatchIn(names, stores, OfflinePage)), None)
  }

  /** The asset policy, cache first: the cached entry for the request if
      there is one; otherwise the network's response, or a synthesized 503
      response when the network fails. */
  function CacheFirst(url: Url, names: seq<string>, stores: map<string, Store>, net: NetOutcome): (p: Plan)
    ensures p.handling.Respond? && p.handling.response.Some?
    ensures p.save.Some? ==> net == Ok(p.save.value) && p.save.value.status == 200 && p.handling == Respond(p.save)
  {
    var cached := MatchIn(names, stores, url);
    if cached.Some? then Plan(Respond(cached), None)
    else
      match net
      case Ok(response) => Fetched(response)
      case Fail => Plan(Respond(Some(OfflineReply)), None)
  }

  /** The fetch policy: requests other than GET are left to the browser,
      navigations go network first and everything else cache first. `net`
      is what fetching the request would do; it is consulted only where
      the handler fetches. Whatever is stored is a status-200 response the
      network gave, and it is also the answer. */
  function Route(request: Request, names: seq<string>, stores: map<string, Store>, net: NetOutcome): (p: Plan)
    ensures p.handling.Unhandled? <==> request.httpMethod != "GET"
    ensures p.handling.Unhandled? ==> p.save.None?
    ensures p.save.Some? ==> net == Ok(p.save.value) && p.save.value.status == 200 && p.handling == Respond(p.save)
    ensures request.httpMethod == "GET" && request.mode != "navigate" ==> p.handling.Respond? && p.handling.response.Some?
  {
    if request.httpMethod != "GET" then Plan(Unhandled, None)
    else if request.mode == "navigate" then NetworkFirst(request.url, names, stores, net)
    else CacheFirst(request.url, names, stores, net)
  }

  /** `names'` and `stores'` are the caches after carrying out plan `p` for
      a request for `url`: unchanged, or with the saved response put under
      `url` into the current cache, which is opened first. */
  ghost predicate Carried(p: Plan, url: Url, names: seq<string>, stores: map<string, Store>,
                          names': seq<string>, stores': map<string, Store>)
  {
    if p.save.Some? then names' == Opened(names, CacheName) && stores' == Stored(stores, CacheName, url, p.save.value)
    else names' == names && stores' == stores
  }

  /** Carrying out a plan never removes the offline page. */
  lemma CarriedKeepsOfflinePage(p: Plan, url: Url, names: seq<string>, stores: map<string, Store>,
                                names': seq<string>, stores': map<string, Store>)
    requires Carried(p, url, names, stores, names', stores') && OfflineReady(stores)
    ensures OfflineReady(stores')
  {
  }

  /** Returns a response the network gave and, when its status is 200,
      opens the current cache and puts the response into it (lines 58-66
      and 87-95 of the source are the same code). */
  method KeepFetched(storage: CacheStorage, url: Url, response: Response) returns (h: Handling)
    requires storage.Valid()
    modifies storage
    ensures storage.Valid()
    ensures h == Fetched(response).handling
    ensures Carried(Fetched(response), url, old(storage.names), old(storage.stores), storage.names, storage.stores)
  {
    if response.status == 200 {
      storage.Open(CacheName);
      storage.Put(CacheName, url, response);
    }
    return Respond(Some(response));
  }

  /** The navigation branch of the fetch handler. */
  method OnNavigate(storage: CacheStorage, url: Url, net: NetOutcome) returns (h: Handling)
    requires storage.Valid()
    modifies storage
    ensures storage.Valid()
    ensures h == NetworkFirst(url, old(storage.names), old(storage.stores), net).handling
    ensures Carried(NetworkFirst(url, old(storage.names), old(storage.stores), net), url,
                    old(storage.names), old(storage.stores), storage.names, storage.stores)
  {
    match net {
      case Ok(response) =>
        h := KeepFetched(storage, url, response);
      case Fail =>
        var cached := MatchIn(storage.names, storage.stores, url);
        if cached.Some? {
          return Respond(cached);
        }
        var offline := MatchIn(storage.names, storage.stores, OfflinePage);
        return Respond(offline);
    }
  }

  /** The asset branch of the fetch handler. */
  method OnAsset(storage: CacheStorage, url: Url, net: NetOutcome) returns (h: Handling)
    requires storage.Valid()
    modifies storage
    ensures storage.Valid()
    ensures h == CacheFirst(url, old(storage.names), old(storage.stores), net).handling
    ensures Carried(CacheFirst(url, old(storage.names), old(storage.stores), net), url,
                    old(storage.names), old(storage.stores), storage.names, storage.stores)
  {
    var cached := MatchIn(storage.names, storage.stores, url);
    if cached.Some? {
      return Respond(cached);
    }
    match net {
      case Ok(response) =>
        h := KeepFetched(storage, url, response);
      case Fail =>
        return Respond(Some(OfflineReply));
    }
  }

  /** The "fetch" event handler. It answers as `Route` decides and changes
      the caches only by carrying out the plan `Route` makes; it never
      removes the offline page. */
  method OnFetch(storage: CacheStorage, request: Request, net: NetOutcome) returns (h: Handling)
    requires storage.Valid()
    modifies storage
    ensures storage.Valid()
    ensures h == Route(request, old(storage.names), old(storage.stores), net).handling
    ensures Carried(Route(request, old(storage.names), old(storage.stores), net), request.url,
                    old(storage.names), old(storage.stores), storage.names, storage.stores)
    ensures OfflineReady(old(storage.stores)) ==> OfflineReady(storage.stores)
  {
    if request.httpMethod != "GET" {
      return Unhandled;
    }
    if request.mode == "navigate" {
      h := OnNavigate(storage, request.url, net);
    } else {
      h := OnAsset(storage, request.url, net);
    }
    if OfflineReady(old(storage.stores)) {
      CarriedKeepsOfflinePage(Route(request, old(storage.names), old(storage.stores), net), request.url,
                              old(storage.names), old(storage.stores), storage.names, storage.stores);
    }
  }

  /** A request whose method is not GET is left to the browser, whatever the
      caches hold and whatever the network would do; nothing is stored. */
  lemma NonGetIsUnhandled(request: Request)
    requires request.httpMethod != "GET"
    ensures forall names', stores', net' :: Route(request, names', stores', net') == Plan(Unhandled, None)
  {
  }

  /** A navigation the network answers with status 200: that response is
      returned, and once the handler has carried out its plan the current
      cache maps the request's URL to it while every other entry of every
      cache stays as it was. */
  lemma NavigationOkIsSaved(request: Request, names: seq<string>, stores: map<string, Store>, response: Response,
                            names': seq<string>, stores': map<string, Store>)
    requires request.httpMethod == "GET" && request.mode == "navigate" && response.status == 200
    requires Carried(Route(request, names, stores, Ok(response)), request.url, names, stores, names', stores')
    ensures Route(request, names, stores, Ok(response)) == Plan(Respond(Some(response)), Some(response))
    ensures CacheName in names' && forall n :: n in names ==> n in names'
    ensures Holds(stores', CacheName, request.url) && stores'[CacheName][request.url] == response
    ensures forall n, u :: n != CacheName || u != request.url ==>
      (Holds(stores', n, u) <==> Holds(stores, n, u)) && (Holds(stores, n, u) ==> stores'[n][u] == stores[n][u])
  {
  }

  /** A navigation the network answers with any other status: that response
      is returned and nothing is stored. */
  lemma NavigationNotOkIsNotSaved(request: Request, names: seq<string>, stores: map<string, Store>, response: Response)
    requires request.httpMethod == "GET" && request.mode == "navigate" && response.status != 200
    ensures Route(request, names, stores, Ok(response)) == Plan(Respond(Some(response)), None)
  {
  }

  /** A navigation while the network fails: the cached entry for the
      request if some cache has one, otherwise the cached offline page,
      otherwise nothing; nothing is stored. */
  lemma NavigationOfflineFallsBack(request: Request, names: seq<string>, stores: map<string, Store>)
    requires request.httpMethod == "GET" && request.mode == "navigate"
    ensures var p := Route(request, names, stores, Fail);
      && p.save.None?
      && (MatchIn(names, stores, request.url).Some? ==> p.handling == Respond(MatchIn(names, stores, request.url)))
      && (MatchIn(names, stores, request.url).None? ==> p.handling == Respond(MatchIn(names, stores, OfflinePage)))
      && (p.handling.response.None? <==>
            forall i :: 0 <= i < |names| ==> !Holds(stores, names[i], request.url) && !Holds(stores, names[i], OfflinePage))
  {
  }

  /** An asset some cache holds is served from the cache as it is: the answer
      does not depend on the network, so no fetch is needed, and nothing is
      stored. */
  lemma AssetHitIgnoresNetwork(request: Request, names: seq<string>, stores: map<string, Store>, net: NetOutcome)
    requires request.httpMethod == "GET" && request.mode != "navigate"
    requires MatchIn(names, stores, request.url).Some?
    ensures Route(request, names, stores, net) == Plan(Respond(MatchIn(names, stores, request.url)), None)
    ensures forall net' :: Route(request, names, stores, net') == Route(request, names, stores, net)
  {
  }

  /** An asset no cache holds is fetched: the network's response is
      returned, and stored exactly when its status is 200. */
  lemma AssetMissIsFetched(request: Request, names: seq<string>, stores: map<string, Store>, response: Response)
    requires request.httpMethod == "GET" && request.mode != "navigate"
    requires MatchIn(names, stores, request.url).None?
    ensures Route(request, names, stores, Ok(response)).handling == Respond(Some(response))
    ensures Route(request, names, stores, Ok(response)).save.Some? <==> response.status == 200
  {
  }

  /** An asset no cache holds, while the network fails: a synthesized 503
      "Service Unavailable" response with body "Offline"; nothing is stored. */
  lemma AssetMissOfflineIs503(request: Request, names: seq<string>, stores: map<string, Store>)
    requires request.httpMethod == "GET" && request.mode != "navigate"
    requires MatchIn(names, stores, request.url).None?
    ensures var p := Route(request, names, stores, Fail);
      && p.save.None? && p.handling.Respond? && p.handling.response.Some?
      && p.handling.response.value.status == 503
      && p.handling.response.value.statusText == "Service Unavailable"
      && p.handling.response.value.body == "Offline"
  {
  }

  /** After `OnFetch` has put `response` under `url` into the current
      cache, a lookup of `url` finds it, provided no cache had `url` before. */
  lemma MatchFindsStoredOnMiss(names: seq<string>, stores: map<string, Store>, url: Url, response: Response)
    requires MatchIn(names, stores, url).None?
    ensures MatchIn(Opened(names, CacheName), Stored(stores, CacheName, url, response), url) == Some(response)
  {
  }

  /** Cache-first, repeated: an asset that missed and was fetched with status
      200 is, on the next identical request, served from the cache whatever
      the network would do then, and nothing more is stored. */
  lemma RepeatedAssetIsServedFromCache(
    request: Request, names: seq<string>, stores: map<string, Store>, response: Response, net: NetOutcome)
    requires request.httpMethod == "GET" && request.mode != "navigate" && response.status == 200
    requires MatchIn(names, stores, request.url).None?
    ensures Route(request, names, stores, Ok(response)) == Plan(Respond(Some(response)), Some(response))
    ensures Route(request, Opened(names, CacheName), Stored(stores, CacheName, request.url, response), net)
         == Plan(Respond(Some(response)), None)
  {
  }

  /** Network-first, then offline: once a navigation has been saved, the same
      navigation while the network fails gets the saved page back, provided
      no cache other than the current one held that URL. */
  lemma SavedNavigationServedOffline(
    request: Request, names: seq<string>, stores: map<string, Store>, response: Response)
    requires request.httpMethod == "GET" && request.mode == "navigate" && response.status == 200
    requires forall i :: 0 <= i < |names| && names[i] != CacheName ==> !Holds(stores, names[i], request.url)
    ensures Route(request, Opened(names, CacheName), Stored(stores, CacheName, request.url, response), Fail)
         == Plan(Respond(Some(response)), None)
  {
  }

  /** No URL is listed twice among the assets, so `cache.addAll` accepts them. */
  lemma AssetsAreDistinct()
    ensures Distinct(AssetsToCache)
  {
  }

  /** The current cache as `caches.open` leaves it: as it was, or empty. */
  function OpenedStore(stores: map<string, Store>): Store
  {
    if CacheName in stores then stores[CacheName] else map[]
  }

  /** The "install" event handler: open the current cache and add every
      asset to it, where fetching `AssetsToCache[i]` gives `results[i]`.
      It succeeds exactly when every fetch resolved with an ok status, and
      then seeds the current cache with the assets; otherwise the current
      cache stays as `caches.open` left it. No other cache changes. */
  method OnInstall(storage: CacheStorage, results: seq<NetOutcome>) returns (installed: bool)
    requires storage.Valid() && |results| == |AssetsToCache|
    modifies storage
    ensures storage.Valid()
    ensures installed == AllOk(results)
    ensures storage.names == Opened(old(storage.names), CacheName)
    ensures forall n :: n != CacheName ==>
      (n in storage.stores <==> n in old(storage.stores)) &&
      (n in storage.stores ==> storage.stores[n] == old(storage.stores)[n])
    ensures CacheName in storage.stores
    ensures storage.stores[CacheName] ==
      if installed then Seeded(OpenedStore(old(storage.stores)), AssetsToCache, results)
      else OpenedStore(old(storage.stores))
    ensures installed ==> OfflineReady(storage.stores)
  {
    storage.Open(CacheName);
    AssetsAreDistinct();
    installed := storage.AddAll(CacheName, AssetsToCache, results);
    if installed {
      InstallStoresEveryAsset(OpenedStore(old(storage.stores)), results);
    }
  }

  /** After a successful install, the current cache holds an entry for
      every asset, namely the response its fetch gave. */
  lemma InstallStoresEveryAsset(store: Store, results: seq<NetOutcome>)
    requires |results| == |AssetsToCache| && AllOk(results)
    ensures forall i :: 0 <= i < |AssetsToCache| ==>
      AssetsToCache[i] in Seeded(store, AssetsToCache, results)
      && Seeded(store, AssetsToCache, results)[AssetsToCache[i]] == results[i].response
    ensures OfflinePage in Seeded(store, AssetsToCache, results)
  {
    AssetsAreDistinct();
    assert AssetsToCache[4] == OfflinePage;
  }

  /** Caches of which only the current one survives, unchanged, are the
      current cache alone, or none if there was no current cache. */
  lemma OnlyCurrentLeft(stores: map<string, Store>, before: map<string, Store>)
    requires forall n :: n in stores <==> n in before && n == CacheName
    requires forall n :: n in stores ==> stores[n] == before[n]
    ensures stores == if CacheName in before then map[CacheName := before[CacheName]] else map[]
  {
  }

  /** The "activate" event handler: delete every cache whose name is not the
      current one. Afterwards the current cache is the only one left, with
      its contents untouched, if it existed before; otherwise none is left. */
  method OnActivate(storage: CacheStorage)
    requires storage.Valid()
    modifies storage
    ensures storage.Valid()
    ensures forall n :: n in storage.names <==> n == CacheName && CacheName in old(storage.stores)
    ensures storage.stores == if CacheName in old(storage.stores) then map[CacheName := old(storage.stores)[CacheName]] else map[]
    ensures OfflineReady(old(storage.stores)) ==> OfflineReady(storage.stores)
  {
    var keys := storage.Keys();
    var stale := Without(keys, CacheName);
    var i := 0;
    while i < |stale|
      invariant 0 <= i <= |stale|
      invariant storage.Valid()
      invariant forall n :: n in storage.stores <==> n in old(storage.stores) && n !in stale[..i]
      invariant forall n :: n in storage.stores ==> storage.stores[n] == old(storage.stores)[n]
    {
      var deleted := storage.Delete(stale[i]);
      i := i + 1;
    }
    assert stale[..i] == stale;
    OnlyCurrentLeft(storage.stores, old(storage.stores));
  }

  /** Once the offline page is in the current cache, a navigation while the
      network fails always gets a response: the cached page for the request
      or the offline page. */
  lemma OfflineNavigationAlwaysAnswered(request: Request, names: seq<string>, stores: map<string, Store>)
    requires request.httpMethod == "GET" && request.mode == "navigate"
    requires CacheName in names && OfflineReady(stores)
    ensures Route(request, names, stores, Fail).handling.response.Some?
  {
  }

  /** Once only the current cache is left, as after activation, a lookup
      finds exactly what the current cache holds. */
  lemma MatchAfterActivate(names: seq<string>, stores: map<string, Store>, url: Url)
    requires forall i :: 0 <= i < |names| ==> names[i] == CacheName
    requires CacheName in names
    ensures MatchIn(names, stores, url) == if Holds(stores, CacheName, url) then Some(stores[CacheName][url]) else None
  {
  }
}
