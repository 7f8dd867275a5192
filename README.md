# Offline-caching service worker, modelled in Dafny

This project models the service worker of a small portfolio site
(`service-worker.js`). The worker does three things:

- **install** opens the cache `teguh-pwa-v1` and seeds it with a fixed list
  of ten pages and files;
- **activate** deletes every cache whose name is not `teguh-pwa-v1`;
- **fetch** routes each GET request. Navigations go to the network first: a
  status-200 answer is kept in the cache, and on a network failure the
  handler falls back to the cached page, then to the cached
  `/latihan-web/offline.html`. Every other request goes to the cache first:
  a hit is served as it is, and a miss is fetched. The fetched response is
  kept if its status is 200. If the network fails, the handler makes up a
  503 `Service Unavailable` response with body `Offline`. Requests other
  than GET are left to the browser.

The browser's CacheStorage becomes the class `Caches.CacheStorage`. It has
two fields: the cache names in creation order (what `caches.keys()`
returns), and a map from each name to that cache's contents (request URL to
response). Its methods `Open`, `Put`, `AddAll`, `Delete` and `Keys` change
or read those fields in place. The network is a parameter, `NetOutcome`:
`Ok(response)` when `fetch` resolves (with any status) and `Fail` when it
rejects. `caches.match` is the function `Caches.MatchIn`. It looks through
every cache in creation order, not only the current one.

The fetch decision is the pure function `ServiceWorker.Route`. It returns a
`Plan`: what the handler answers, and which response, if any, it puts into
the current cache. The handler `ServiceWorker.OnFetch` is proved to answer
as `Route` decides and to change the caches only as the plan says (the
predicate `Carried`). The lemmas state the routing properties over `Route`.
`OnInstall` and `OnActivate` are methods over the `CacheStorage` object.
Their postconditions give the whole new state.

Files: `http.dfy` (requests, responses, network outcomes), `caches.dfy`
(CacheStorage), `service_worker.dfy` (constants, policy, handlers, lemmas).

The script went through several generations. Some of them did no
response caching; others were network-only, with an inline offline document
and a test on the `Accept` header. The code modelled here is the generation
with cache-first assets and network-first navigations, and the model
follows that code. The other generations, and their same-origin and
`Accept` checks, are not modelled.

## Model

| member | source | states |
|---|---|---|
| `ServiceWorker.Route` | service-worker.js:46-107 | Non-GET requests, and only those, are unhandled and store nothing. Anything stored is a status-200 response the network gave, and it is also the answer. Every non-navigation GET gets a response. |
| `ServiceWorker.NetworkFirst` | service-worker.js:54-75 | A navigation always gets an answer. Anything it stores is the network's status-200 response, and that is also what it returns. |
| `ServiceWorker.CacheFirst` | service-worker.js:76-105 | An asset request always gets an actual response. Anything it stores is the network's status-200 response, and that is also what it returns. |
| `ServiceWorker.OnFetch` | service-worker.js:46-107 | The handler answers as `Route` decides. It changes the caches only by opening `teguh-pwa-v1` and putting the saved response under the request URL. It never removes a cached offline page. |
| `ServiceWorker.OnNavigate` | service-worker.js:54-75 | The navigation branch answers as `NetworkFirst` decides and changes the caches only as its plan says. |
| `ServiceWorker.OnAsset` | service-worker.js:76-105 | The asset branch answers as `CacheFirst` decides and changes the caches only as its plan says. |
| `ServiceWorker.KeepFetched` | service-worker.js:58-66 | The shared `.then` body (lines 87-95 are the same code), whose plan is the function `Fetched`. Returns the network's response. When its status is 200, the response is put under the URL in `teguh-pwa-v1`, which is created if absent; otherwise nothing changes. |
| `ServiceWorker.NonGetIsUnhandled` | service-worker.js:49-52 | A non-GET request is unhandled and nothing is stored, whatever the caches hold and whatever the network would do. |
| `ServiceWorker.NavigationOkIsSaved` | service-worker.js:57-66 | A navigation answered with status 200 returns that response. In the state the handler leaves, `teguh-pwa-v1` exists, no cache name is lost, the current cache maps the URL to the response, and every other entry of every cache is unchanged. |
| `ServiceWorker.NavigationNotOkIsNotSaved` | service-worker.js:60-66 | A navigation answered with any other status returns that response and stores nothing. |
| `ServiceWorker.NavigationOfflineFallsBack` | service-worker.js:68-73 | When the network fails, a navigation gets the cached entry for the request, else the cached offline page, else nothing. It gets nothing exactly when no cache holds either. Nothing is stored. |
| `ServiceWorker.AssetHitIgnoresNetwork` | service-worker.js:79-83 | A cached asset is served as cached and nothing is stored. The answer is the same whatever the network would do, so no fetch is needed. |
| `ServiceWorker.AssetMissIsFetched` | service-worker.js:86-96 | A cache miss returns the network's response, and stores it exactly when its status is 200. |
| `ServiceWorker.AssetMissOfflineIs503` | service-worker.js:97-103 | A cache miss while the network fails gets status 503, statusText `Service Unavailable` and body `Offline`. Nothing is stored. |
| `ServiceWorker.MatchFindsStoredOnMiss` | service-worker.js:79-93 | If no cache held a URL, then after the handler stores a response under it, `caches.match` finds that response. |
| `ServiceWorker.RepeatedAssetIsServedFromCache` | service-worker.js:79-95 | After an asset misses and is fetched with status 200, the next identical request is served from the cache, whatever the network does. |
| `ServiceWorker.SavedNavigationServedOffline` | service-worker.js:57-73 | After a navigation is saved, the same navigation with the network failing gets the saved page back. It assumes no cache other than `teguh-pwa-v1` holds that URL; otherwise `caches.match` returns the older cache's entry first. |
| `ServiceWorker.OfflineNavigationAlwaysAnswered` | service-worker.js:68-73 | While `teguh-pwa-v1` exists and holds the offline page, a navigation with the network failing always gets a response. |
| `ServiceWorker.CarriedKeepsOfflinePage` | service-worker.js:62-64 | Carrying out a fetch plan never removes the offline page from the current cache. |
| `ServiceWorker.AssetsAreDistinct` | service-worker.js:3-14 | No URL appears twice in the asset list, so `addAll` does not reject it for duplicates. |
| `ServiceWorker.OpenedStore` | service-worker.js:20 | The current cache as `caches.open(CACHE_NAME)` leaves it: the existing cache if there is one, otherwise an empty one. It has no contract of its own; `OnInstall`'s postcondition uses it. |
| `ServiceWorker.OnInstall` | service-worker.js:19-25 | Opens `teguh-pwa-v1`, creating it if absent. Succeeds exactly when every asset fetch resolved with an ok status. Then the cache is the old cache seeded with the assets; otherwise it is as `open` left it. No other cache changes. On success the offline page is cached. |
| `ServiceWorker.InstallStoresEveryAsset` | service-worker.js:20-23 | After a successful seeding, the cache holds an entry for every listed URL. That entry is the response its own fetch gave, and the offline page is among them. |
| `ServiceWorker.OnActivate` | service-worker.js:33-41 | Every cache other than `teguh-pwa-v1` is deleted. Afterwards the only name left is `teguh-pwa-v1`, and only if it existed before, with its contents unchanged. A cached offline page survives. |
| `ServiceWorker.MatchAfterActivate` | service-worker.js:70-72 | Once the current cache is the only one, `caches.match` returns exactly what the current cache holds for the URL. |
| `Caches.Without` | service-worker.js:35 | The filter `key !== CACHE_NAME`: the result holds exactly the names other than `CACHE_NAME`, and distinct input gives distinct output. |
| `Caches.WithoutKeepsOrder` | service-worker.js:35 | The filter keeps order: its result is a subsequence of the input (the kept names stay in creation order) and holds every other name as often as the input does and `CACHE_NAME` never. |
| `Caches.MatchIn` | service-worker.js:70 | `caches.match`: no result exactly when no cache holds the URL. Otherwise the entry from the first cache, in creation order, that holds it. |
| `Caches.Opened` | service-worker.js:62 | `caches.open` adds the name if it was absent, keeps every other name and keeps names distinct. |
| `Caches.Stored` | service-worker.js:62-63 | Opening a cache and putting a response under a URL makes that entry the response. Every other entry of every cache is unchanged. |
| `Caches.Seeded` | service-worker.js:23 | After `addAll`, the keys are the old keys plus the URLs. Entries for other URLs are unchanged. With distinct URLs, each URL maps to its own fetch's response. |
| `Caches.CacheStorage.Keys` | service-worker.js:33 | `caches.keys()` returns the cache names: distinct, exactly the existing caches, in creation order. |
| `Caches.CacheStorage.Open` | service-worker.js:20 | `caches.open(name)` creates an empty cache `name` (appended last) if there is none, and otherwise changes nothing. |
| `Caches.CacheStorage.Put` | service-worker.js:63 | `cache.put` sets one entry of an open cache and changes nothing else. |
| `Caches.CacheStorage.AddAll` | service-worker.js:23 | `cache.addAll` is all or nothing. It stores every entry when each fetch resolved with an ok status and no URL repeats; otherwise it stores nothing. |
| `Caches.CacheStorage.Delete` | service-worker.js:38 | `caches.delete(name)` removes that cache and its name, and reports whether it existed. |

## Left out

- Logging (`console.log`), event registration (`addEventListener`) and `event.waitUntil` / `event.respondWith`. `respondWith` is modelled by the `Handling` value the handler returns.
- `self.skipWaiting()` and `self.clients.claim()`. These are host lifecycle calls that change no cache.
- Asynchrony. `cache.put` after a fetch is not awaited in the source, but the model applies it at once. Interleavings of concurrent requests with that put are not modelled.
- `response.clone()`. Responses are immutable values, so the stored copy and the returned copy are the same value.
- Real `fetch`: the network outcome is a parameter. The source's `response &&` test is always true for a resolved fetch, so it does not appear.
- Headers, `Vary`, and the matching options of `caches.match` are not modelled. Request keys compare only by URL.
- URLs (`Http.Url`) are taken already in the form the Cache API compares: resolved against the site's origin, with the fragment removed. That resolution is not modelled, so `/latihan-web/about.html#contact` must be given to the model as `/latihan-web/about.html`. The asset paths are written as the source lists them and stand for their resolved forms.
- Caches.CacheStorage.Put: always stores. A browser's `cache.put` also rejects a status-200 response in three cases: the response carries `Vary: *`, the request URL's scheme is not http or https, or the storage quota is exceeded. The put after a fetch is not awaited, so the answer is unchanged but nothing is stored. The model stores anyway, so `Carried`, `KeepFetched`, `RepeatedAssetIsServedFromCache` and `SavedNavigationServedOffline` describe the browser only when the put succeeds.
- Caches.CacheStorage.AddAll: `Http.IsOkStatus` counts every 200-299 status as ok, as the Fetch standard does. A browser's `addAll` also refuses a 206 partial response, which the model would store.
- `cache.addAll` on partial failure: the model stores all entries or none. Whether a browser keeps a partially filled cache is host behaviour.
- Earlier and later generations of the script are not part of this code.
