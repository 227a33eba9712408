# School Schedule service worker: a verified model of its caching engine

This project models the caching decision engine of the School Schedule
calendar's service worker (`sw.js`). The worker sits between the web app and
the network. It answers requests from the origin's Cache Storage when it can,
refreshes what it has cached, bounds the dynamic cache, and retires the caches
of earlier versions when a new version activates.

Modules:

- `Http` (http.dfy): requests (method and split URL), responses with a status
  and an opaque or JSON body, and the outcome of a settled promise: a response,
  or a rejection (network failure, refused `cache.put`). A refused
  `cache.addAll` is the `false` result of `AddAll`.
  `OfflineResponse` is the 503 `{"error": ..., "offline": true}` notice.
- `Text` (text.dfy): `includes`, `startsWith`, and a regex anchored with `$`.
- `Config` (config.dfy): `CACHE_VERSION`, the two cache names built from it,
  `MAX_DYNAMIC_CACHE_SIZE`, the API path, the CDN hosts, the sync tag and the
  message types.
- `Routing` (routing.dfy): the fetch listener's classifier and
  `DYNAMIC_CACHE_PATTERNS`. The patterns are two "contains" tests and two
  "ends with" tests.
- `CacheStore` (cache_store.dfy): the host's Cache Storage as values.
  - Cache names are kept in creation order. `caches.match` searches every
    cache in that order and returns the first hit.
  - Each cache is an insertion-ordered list of entries keyed by the request
    URL.
  - `put` removes the entry with the same key and appends the new one.
    `delete`, `keys` and `addAll` are also modelled, and so is the spec of
    `trimCache`.
  - Only GET requests can be matched or put: a non-GET `put` is refused.
- `Generations` (generations.dfy): the activate handler's retirement filter.
- `ServiceWorker` (worker.dfy): the class `Worker`. Its fields are the cache
  names, the caches, and flags for `skipWaiting`/`clients.claim`. Every handler
  is a method that changes those fields and states the new state as a function
  of the old one.

Async steps are flattened into one sequential step per handler. Work that a
handler starts without awaiting it becomes a `Job` value, which the handler
returns. The host runs that job later through its own method:

- `UpdateInBackground` runs through `UpdateCacheInBackground`.
- `StoreFetched` runs through `StoreFetchedResponse`.
- `RefreshApi` runs through `FetchAndCacheApi`.

Each network fetch is a parameter that holds its outcome. `addAll` takes the
network as a function from URL to outcome.

Consequences of the code as written:

- A POST to `/functions/api/events` that the server answers with 200 still
  gets the 503 offline notice:
  1. `cache.put` refuses the non-GET request.
  2. `fetchAndCacheAPI` rethrows the refusal.
  3. The stale lookup cannot match a POST.

  `HandleApiRequest` states this.
- In the sequential model, the stale-cache fallback of `handleAPIRequest`
  always misses. The first lookup already missed, and a failed fetch writes
  nothing. A stale hit needs another task to write the entry in between.
- The allow-list is a substring test on the whole href, as the code has it,
  not a test of the host or of a URL prefix. `AllowListMatchesQueryText`
  shows a URL on an unrelated origin that is intercepted only because its
  query string mentions a CDN host.
- The naming scheme lets two cache names coincide: the shell cache of version
  `dynamic-v1.0.2` has the name of the current dynamic cache
  (`ShellAndDynamicNamesCollide`).

## Model

| member | source | states |
|---|---|---|
| `Text.Includes` | sw.js:96-98 | `includes` is true exactly when the text occurs at some index of the string |
| `Text.IncludesWithin` | sw.js:103 | a string that embeds another contains everything the embedded one contains |
| `Routing.SomeMatches` | sw.js:137-139 | `DYNAMIC_CACHE_PATTERNS.some(...)` is true exactly when some pattern in the list tests true |
| `Routing.CacheNameFor` | sw.js:140 | the cache-first target is `CACHE_NAME_DYNAMIC` exactly when a dynamic pattern matches the URL, and `CACHE_NAME` exactly when none does |
| `Routing.IsIntercepted` | sw.js:95-100 | a request is intercepted exactly when it is same-origin or its href contains one of the three CDN host names |
| `Routing.RouteOf` | sw.js:95-113 | not intercepted means pass-through; intercepted with `/functions/api/events` in the pathname means the API handler; every other intercepted request goes to the cache-first handler |
| `Routing.SameOriginIntercepted` | sw.js:95 | every same-origin request is intercepted |
| `Routing.CdnHostIntercepted` | sw.js:95-98 | a request whose origin names one of the CDN hosts is intercepted, whatever the worker's origin |
| `Routing.AllowListMatchesQueryText` | sw.js:96-98 | whatever the worker's origin, a request to `https://tracker.example` whose query mentions `cdn.tailwindcss.com` is intercepted and sent to the cache-first handler; for an unrelated worker origin only the query text lets it in |
| `Routing.ApiRequestsAreDynamic` | sw.js:21 | an API-class URL also matches the first dynamic pattern, so both classifications pick the dynamic cache |
| `Routing.WebfontsAreDynamic` | sw.js:23-24 | any href ending in `.woff2` or `.woff` goes to the dynamic cache |
| `Routing.FontHostIsDynamic` | sw.js:22 | anything from `fonts.gstatic.com` goes to the dynamic cache |
| `CacheStore.MatchIn` | sw.js:120 | `caches.match` finds a response only for a GET request and only if some cache holds the key, and it does find one whenever some cache holds the key |
| `CacheStore.FirstHit` | sw.js:166 | the response `caches.match` returns comes from the first cache in creation order that holds the key |
| `CacheStore.StoredLookup` | sw.js:143 | after `put(key, r)` the key answers `r` and every other key answers as before |
| `CacheStore.StoredKeepsUnique` | sw.js:214 | `put` keeps at most one entry per request |
| `CacheStore.RemoveOldest` | sw.js:35 | deleting `keys[0]` removes exactly the oldest entry |
| `CacheStore.TrimStep` | sw.js:34-36 | one pass of the trim loop on an over-full cache removes exactly the oldest entry and leaves the eventual trimmed cache the same |
| `CacheStore.TrimmedIsSuffix` | sw.js:31-38 | trimming leaves the last `max` entries in their original order, or everything when there are at most `max` |
| `CacheStore.TrimmedWithinBound` | sw.js:34 | after trimming at most `max` entries remain, and a cache already within the bound is unchanged |
| `CacheStore.TrimmedIdempotent` | sw.js:34-37 | a second trim with the same bound changes nothing |
| `CacheStore.TrimmedKeepsNewest` | sw.js:214-218 | the entry just put survives a trim to any positive bound |
| `CacheStore.AddAllStoresEveryUrl` | sw.js:260 | after an accepted `addAll`, every listed URL answers with the response fetched for it |
| `CacheStore.AddAllThenMatch` | sw.js:257-262 | after an accepted `addAll` into a cache, `caches.match` serves every listed URL that no other cache holds |
| `CacheStore.MatchAfterPut` | sw.js:233-236 | once a GET response is put into a cache and no other cache holds the request, `caches.match` serves the new response |
| `Generations.Survivors` | sw.js:69-75 | a name survives activation exactly when it was present and is not retired |
| `Generations.SurvivorsInOrder` | sw.js:69-75 | the filter keeps creation order: the survivors of a concatenation are the survivors of each part in turn |
| `Generations.SurvivorsSnoc` | sw.js:69-75 | a name appended to the list is appended to the survivors exactly when it is not retired |
| `Generations.SurvivorsOne` | sw.js:72-74 | a single name survives as itself exactly when it is not retired, and otherwise nothing survives |
| `Generations.CurrentCachesSurvive` | sw.js:72-74 | `CACHE_NAME` and `CACHE_NAME_DYNAMIC` are never retired |
| `Generations.ForeignCachesSurvive` | sw.js:72 | a cache name without the `school-schedule-` prefix is never retired |
| `Generations.NamesInFamily` | sw.js:4-5 | both cache names of any version carry the `school-schedule-` prefix |
| `Generations.EarlierGenerationsRetired` | sw.js:72-74 | the dynamic cache of any other version is retired, and so is its shell cache unless the version is `dynamic-` plus the current one |
| `Generations.ShellAndDynamicNamesCollide` | sw.js:4-5 | the shell-cache name of version `dynamic-v1.0.2` is the current dynamic cache's name, so it survives activation |
| `ServiceWorker.SyncEntryIsApi` | sw.js:279-283 | the key the sync handler writes is routed to the API handler and classified dynamic |
| `ServiceWorker.ApiStoredBoundedAndFresh` | sw.js:211-218 | after fetchAndCacheAPI stores a GET response, the dynamic cache holds at most 50 entries and still holds that response, and no other cache has changed |
| `ServiceWorker.Worker.TrimCache` | sw.js:31-38 | the named cache (created if missing) becomes the trimmed list of its old entries; no other cache changes |
| `ServiceWorker.Worker.Activate` | sw.js:66-85 | afterwards the names are the survivors of the old names, exactly the non-retired caches remain with their entries unchanged, and the clients are claimed |
| `ServiceWorker.Worker.OnFetch` | sw.js:90-114 | a request that is not intercepted gets the network's answer and changes nothing; a cache-first request changes nothing, answers a hit from cache and starts a background refresh, and on a miss returns the network outcome and schedules a store only for a 200 response; an API request never rejects, starts a refresh on a hit, and on a miss gives the offline notice for a failed fetch, passes a non-200 response through uncached, and stores a 200 GET response in the trimmed dynamic cache |
| `ServiceWorker.Worker.HandleCacheFirst` | sw.js:117-160 | a hit returns the cached response and starts a background refresh; a miss returns the network outcome unchanged (a rejection is rethrown); only a 200 response starts a store, into the cache `CacheNameFor` picks |
| `ServiceWorker.Worker.StoreFetchedResponse` | sw.js:142-149 | the response is put into the chosen cache, and the dynamic cache is then trimmed to 50 |
| `ServiceWorker.Worker.HandleApiRequest` | sw.js:163-204 | never rejects: a hit answers from cache unchanged; on a miss a fetch failure gives the 503 offline notice, a non-200 response is returned and not cached, a 200 GET response is returned and cached (trimmed), and a 200 non-GET response gives the offline notice |
| `ServiceWorker.Worker.FetchAndCacheApi` | sw.js:207-226 | fetch failures and non-200 responses pass through with no change; a 200 GET response goes into the dynamic cache, which is then trimmed; a 200 non-GET response is refused by `put` and rejects |
| `ServiceWorker.Worker.UpdateCacheInBackground` | sw.js:229-242 | a 200 response is put into `CACHE_NAME` with no trim; anything else leaves every cache unchanged |
| `ServiceWorker.Worker.OnMessage` | sw.js:245-273 | a message with no source, a foreign source, no data or an unknown type changes nothing; SKIP_WAITING sets the flag; CACHE_URLS adds the whole batch to the dynamic cache or nothing; CLEAR_CACHE deletes every cache |
| `ServiceWorker.Worker.AddAll` | sw.js:260 | `addAll` is all-or-nothing: it stores the batch exactly when a URL list was given, every fetch succeeded with an ok status other than 206, and no URL repeats |
| `ServiceWorker.Worker.ClearAll` | sw.js:264-272 | every cache is deleted, including caches outside the `school-schedule-` family |
| `ServiceWorker.Worker.OnSync` | sw.js:276-291 | for tag `sync-events`, a 200 response is put into the dynamic cache under the API endpoint of the worker's own origin; anything else changes nothing |

## Left out

- The install handler (sw.js:41-59) is left out. Pre-caching rests on the
  browser's all-or-nothing `addAll`. Its `.catch` swallows a pre-cache failure,
  so the install does not fail. Starting states are given to the `Worker`
  constructor instead.
- `self.skipWaiting()` and `self.clients.claim()` are host signals. They are
  recorded only as the flags `skipWaitingCalled` and `clientsClaimed`.
- Concurrency is left out, and races between requests are not modelled.
  Unawaited work at sw.js:125, 142-149 and 173 runs as a separate later step
  (a `Job`). The unawaited open and put at sw.js:282-283 run inside
  `OnSync`'s own step. In the source the sync event's `waitUntil` can settle
  before that put, so other events may run in between; the model folds that
  gap away.
  - In the source, the put and the trim at sw.js:143-147 are not awaited
    against each other. The model runs put, then trim.
  - In the source, the rejection of an unawaited `fetchAndCacheAPI` is never
    observed. Running the job method simply drops its result.
- Response bodies, headers, `clone()`, `Vary` matching and the 206/`Vary: *`
  refusals of `put` are not modelled. The worker only ever puts 200
  responses, so the 206 refusal cannot arise there. A response is its
  status, content type and an opaque or JSON body.
- URL parsing is not modelled. A URL is given already split into origin,
  pathname and query, and the href is their concatenation. Fragments are not
  represented, so key equality is equality of that href. The source's
  allow-list test (sw.js:96-98) and its `$`-anchored patterns (sw.js:23-24,
  137-139) read the full URL including any fragment, so a request such as
  `https://other.example/p#fonts.gstatic.com`, which the source intercepts,
  cannot be represented. `addAll` URLs are not checked for an http(s) scheme.
- Regular expressions are not modelled generally. The four patterns are the
  string tests they amount to.
- Console logging is not modelled.
- `caches.delete` failing for one cache is not modelled: every delete succeeds.
- `ServiceWorker.Worker.TrimCache`: `maxItems` is a natural number. The
  worker only ever passes 50. The source with a negative bound would recurse
  forever once the cache is empty.
- The dynamic cache is not claimed to stay within 50 entries overall. Two
  paths write into it without trimming: CACHE_URLS (sw.js:259-260) and the
  sync handler (sw.js:282-283). Only the state right after a trim is bounded.
  `updateCacheInBackground` writes into the shell cache, which has no bound.
