/**
 * The service worker's event handlers over the origin's Cache Storage.
 * Each handler runs to completion as one sequential step; work a handler
 * starts without awaiting it is handed back as a `Job` for the host to run later.
 */
module ServiceWorker {
  import opened Http
  import opened Config
  import opened CacheStore
  import opened Routing
  import opened Generations
  import Text

  /** Work a handler starts and does not wait for. */
  datatype Job =
    | NoJob
      /** updateCacheInBackground(request), started on a cache-first hit */
    | UpdateInBackground(req: Request)
      /** the `caches.open(...).then(put; trim)` chain started on a cache-first miss */
    | StoreFetched(req: Request, response: Response, dynamic: bool)
      /** fetchAndCacheAPI(request), started on an API hit */
    | RefreshApi(req: Request)

  /** The data of a posted message: its `type` and, for CACHE_URLS, its `urls`. */
  datatype MessageData = MessageData(kind: string, urls: Option<seq<Url>>)

  /** A posted message: the URL of the client that sent it, if any, and its data. */
  datatype Message = Message(source: Option<Url>, data: Option<MessageData>)

  /** The origin gate of the message handler. */
  predicate FromSameOrigin(msg: Message, selfOrigin: string)
  {
    msg.source.Some? && msg.source.value.origin == selfOrigin
  }

  /** The request the sync handler fetches and stores: the API endpoint on the worker's own origin. */
  function SyncRequest(selfOrigin: string): Request
  {
    Request(Get, Url(selfOrigin, ApiPath, ""))
  }

  /**
   * The entry the sync handler writes is keyed by a request the fetch
   * listener routes to handleAPIRequest, so that handler's lookup finds it.
   */
  lemma SyncEntryIsApi(selfOrigin: string)
    ensures RouteOf(SyncRequest(selfOrigin).url, selfOrigin) == ApiRoute
    ensures CacheNameFor(SyncRequest(selfOrigin).url) == CacheNameDynamic
  {
    assert Text.OccursAt(ApiPath, ApiPath, 0);
    ApiRequestsAreDynamic(SyncRequest(selfOrigin).url);
  }

  /** The caches after fetchAndCacheAPI stores a 200 response: put into the dynamic cache, then trimmed. */
  function ApiStored(stores: map<string, seq<Entry>>, req: Request, response: Response): map<string, seq<Entry>>
  {
    var put := PutInto(stores, CacheNameDynamic, req, response);
    put[CacheNameDynamic := Trimmed(put[CacheNameDynamic], MaxDynamicCacheSize)]
  }

  /** The caches after the cache-first miss chain stores a 200 response into the chosen cache. */
  function AssetStored(stores: map<string, seq<Entry>>, req: Request, response: Response, dynamic: bool): map<string, seq<Entry>>
  {
    if dynamic then ApiStored(stores, req, response) else PutInto(stores, CacheName, req, response)
  }

  /**
   * After fetchAndCacheAPI stores a GET response, the dynamic cache holds at
   * most MAX_DYNAMIC_CACHE_SIZE entries, still holds that response, and no
   * other cache has changed.
   */
  lemma ApiStoredBoundedAndFresh(stores: map<string, seq<Entry>>, req: Request, response: Response)
    requires req.verb == Get
    ensures |ApiStored(stores, req, response)[CacheNameDynamic]| <= MaxDynamicCacheSize
    ensures Lookup(ApiStored(stores, req, response)[CacheNameDynamic], req.url.Href()) == Some(response)
    ensures forall n :: n in stores && n != CacheNameDynamic ==> ApiStored(stores, req, response)[n] == stores[n]
  {
    var put := PutInto(stores, CacheNameDynamic, req, response);
    TrimmedWithinBound(put[CacheNameDynamic], MaxDynamicCacheSize);
    TrimmedKeepsNewest(EntriesOf(stores, CacheNameDynamic), req.url.Href(), response, MaxDynamicCacheSize);
  }

  /** One step of the activate loop over a distinct list of names. */
  lemma RetireStep(cacheNames: seq<string>, i: nat)
    requires Distinct(cacheNames) && i < |cacheNames|
    ensures forall n :: n in cacheNames[..i + 1] <==> n in cacheNames[..i] || n == cacheNames[i]
    ensures IsRetired(cacheNames[i]) ==>
      Without(Survivors(cacheNames[..i]) + cacheNames[i..], cacheNames[i]) == Survivors(cacheNames[..i + 1]) + cacheNames[i + 1..]
    ensures !IsRetired(cacheNames[i]) ==>
      Survivors(cacheNames[..i]) + cacheNames[i..] == Survivors(cacheNames[..i + 1]) + cacheNames[i + 1..]
  {
    var name := cacheNames[i];
    assert cacheNames[..i + 1][..i] == cacheNames[..i];
    assert cacheNames[..i + 1] == cacheNames[..i] + [name];
    assert cacheNames[i..] == [name] + cacheNames[i + 1..];
    var kept := Survivors(cacheNames[..i]);
    assert kept + cacheNames[i..] == kept + [name] + cacheNames[i + 1..];
    if IsRetired(name) {
      assert Survivors(cacheNames[..i + 1]) == kept;
      assert name !in cacheNames[i + 1..];
      assert name !in cacheNames[..i];
      WithoutListedOnce(kept, name, cacheNames[i + 1..]);
    } else {
      assert Survivors(cacheNames[..i + 1]) == kept + [name];
    }
  }

  class Worker {
    /** `self.location.origin` */
    const origin: string
    /** `caches.keys()`: cache names in creation order */
    var names: seq<string>
    /** the entries of each cache */
    var stores: map<string, seq<Entry>>
    /** `self.skipWaiting()` was called */
    var skipWaitingCalled: bool
    /** `self.clients.claim()` was called */
    var clientsClaimed: bool

    ghost predicate Valid()
      reads this
    {
      WellFormed(names, stores)
    }

    /** A worker starting over whatever caches the origin already holds. */
    constructor (origin: string, names: seq<string>, stores: map<string, seq<Entry>>)
      requires WellFormed(names, stores)
      ensures Valid()
      ensures this.origin == origin && this.names == names && this.stores == stores
      ensures !skipWaitingCalled && !clientsClaimed
    {
      this.origin := origin;
      this.names := names;
      this.stores := stores;
      skipWaitingCalled := false;
      clientsClaimed := false;
    }

    /** `caches.match(req)` on the current caches. */
    function Match(req: Request): Option<Response>
      reads this
    {
      MatchIn(names, stores, req)
    }

    /** `caches.open(name)`: creates the cache if it is missing. */
    method Open(name: string)
      requires Valid()
      modifies this`names, this`stores
      ensures Valid()
      ensures names == OpenNames(old(names), name) && stores == OpenStores(old(stores), name)
    {
      if name !in names {
        names := names + [name];
        stores := stores[name := []];
      }
    }

    /** `cache.put(req, response)` on an open cache; refused for a non-GET request. */
    method CachePut(name: string, req: Request, response: Response) returns (ok: bool)
      requires Valid() && name in stores
      modifies this`stores
      ensures Valid()
      ensures ok <==> req.verb == Get
      ensures stores == PutInto(old(stores), name, req, response)
    {
      ok := req.verb == Get;
      if ok {
        StoredKeepsUnique(stores[name], req.url.Href(), response);
        stores := stores[name := Stored(stores[name], req.url.Href(), response)];
      }
    }

    /** `cache.delete(key)` on an open cache. */
    method CacheDelete(name: string, key: string) returns (found: bool)
      requires Valid() && name in stores
      modifies this`stores
      ensures Valid()
      ensures found <==> Lookup(old(stores[name]), key).Some?
      ensures stores == old(stores)[name := RemoveKey(old(stores[name]), key)]
    {
      found := Lookup(stores[name], key).Some?;
      RemovePreservesUnique(stores[name], key);
      stores := stores[name := RemoveKey(stores[name], key)];
    }

    /** `caches.delete(name)`. */
    method DeleteCache(name: string) returns (found: bool)
      requires Valid()
      modifies this`names, this`stores
      ensures Valid()
      ensures found <==> name in old(names)
      ensures names == Without(old(names), name) && stores == old(stores) - {name}
    {
      found := name in names;
      WithoutKeepsDistinct(names, name);
      names := Without(names, name);
      stores := stores - {name};
    }

    /**
     * trimCache: while the cache holds more than `maxItems` keys, delete the
     * oldest key and look again. Opening creates the cache if it is missing.
     */
    method TrimCache(cacheName: string, maxItems: nat)
      requires Valid()
      modifies this`names, this`stores
      ensures Valid()
      ensures names == OpenNames(old(names), cacheName)
      ensures stores == OpenStores(old(stores), cacheName)[cacheName := Trimmed(EntriesOf(old(stores), cacheName), maxItems)]
    {
      Open(cacheName);
      ghost var start := stores;
      var keys := KeysOf(stores[cacheName]);
      while |keys| > maxItems
        invariant Valid() && cacheName in stores
        invariant names == OpenNames(old(names), cacheName)
        invariant keys == KeysOf(stores[cacheName])
        invariant stores == start[cacheName := stores[cacheName]]
        invariant Trimmed(stores[cacheName], maxItems) == Trimmed(start[cacheName], maxItems)
        decreases |keys|
      {
        ghost var before := stores[cacheName];
        TrimStep(before, maxItems);
        var _ := CacheDelete(cacheName, keys[0]);
        assert stores[cacheName] == before[1..];
        keys := KeysOf(stores[cacheName]);
      }
      assert Trimmed(stores[cacheName], maxItems) == stores[cacheName];
    }

    /**
     * The activate handler: delete every retired cache, keep the rest in
     * their order, then claim the clients.
     */
    method Activate()
      requires Valid()
      modifies this`names, this`stores, this`clientsClaimed
      ensures Valid()
      ensures names == Survivors(old(names))
      ensures forall n :: n in stores <==> n in old(stores) && !IsRetired(n)
      ensures forall n :: n in stores ==> stores[n] == old(stores)[n]
      ensures clientsClaimed
    {
      var cacheNames := names;
      ghost var before := stores;
      for i := 0 to |cacheNames|
        invariant Valid()
        invariant names == Survivors(cacheNames[..i]) + cacheNames[i..]
        invariant forall n :: n in stores ==> stores[n] == before[n]
      {
        var name := cacheNames[i];
        RetireStep(cacheNames, i);
        if IsRetired(name) {
          var _ := DeleteCache(name);
        }
      }
      assert cacheNames[..|cacheNames|] == cacheNames;
      clientsClaimed := true;
    }

    /**
     * The fetch listener: requests it does not intercept get the network's
     * own answer; API requests go to handleAPIRequest, the rest to handleCacheFirst.
     */
    method OnFetch(req: Request, fetched: Outcome) returns (intercepted: bool, out: Outcome, job: Job)
      requires Valid()
      modifies this`names, this`stores
      ensures Valid()
      ensures intercepted <==> IsIntercepted(req.url, origin)
      ensures !intercepted ==> out == fetched && job == NoJob
      ensures RouteOf(req.url, origin) != ApiRoute ==> names == old(names) && stores == old(stores)
      ensures RouteOf(req.url, origin) == ApiRoute ==> out.Ok?
      ensures intercepted && old(Match(req)).Some? ==> out == Ok(old(Match(req)).value)
      ensures RouteOf(req.url, origin) == CacheFirstRoute && old(Match(req)).None? ==> out == fetched
      ensures RouteOf(req.url, origin) == CacheFirstRoute && old(Match(req)).Some? ==> job == UpdateInBackground(req)
      ensures RouteOf(req.url, origin) == CacheFirstRoute && old(Match(req)).None? ==>
                if fetched.Ok? && fetched.response.status == 200
                then job == StoreFetched(req, fetched.response, IsDynamic(req.url))
                else job == NoJob
      ensures RouteOf(req.url, origin) == ApiRoute && old(Match(req)).Some? ==>
                job == RefreshApi(req) && names == old(names) && stores == old(stores)
      ensures RouteOf(req.url, origin) == ApiRoute && old(Match(req)).None? ==> job == NoJob
      ensures RouteOf(req.url, origin) == ApiRoute && old(Match(req)).None? && !(fetched.Ok? && fetched.response.status == 200) ==>
                names == old(names) && stores == old(stores) &&
                out == (if fetched.Ok? then fetched else Ok(OfflineResponse))
      ensures RouteOf(req.url, origin) == ApiRoute && old(Match(req)).None? && fetched.Ok? && fetched.response.status == 200 ==>
                names == OpenNames(old(names), CacheNameDynamic) &&
                (req.verb == Get ==> out == fetched && stores == ApiStored(old(stores), req, fetched.response)) &&
                (req.verb != Get ==> out == Ok(OfflineResponse) && stores == OpenStores(old(stores), CacheNameDynamic))
    {
      match RouteOf(req.url, origin)
      case PassThrough =>
        intercepted, out, job := false, fetched, NoJob;
      case ApiRoute =>
        intercepted := true;
        out, job := HandleApiRequest(req, fetched);
      case CacheFirstRoute =>
        intercepted := true;
        out, job := HandleCacheFirst(req, fetched);
    }

    /**
     * handleCacheFirst: a hit in any cache answers at once and starts a
     * background refresh; a miss answers with the network's response, or
     * rejects with its failure, and a 200 response is stored afterwards.
     */
    method HandleCacheFirst(req: Request, fetched: Outcome) returns (out: Outcome, job: Job)
      ensures Match(req).Some? ==> out == Ok(Match(req).value) && job == UpdateInBackground(req)
      ensures Match(req).None? ==> out == fetched
      ensures Match(req).None? && fetched.Ok? && fetched.response.status == 200 ==>
                job == StoreFetched(req, fetched.response, IsDynamic(req.url))
      ensures Match(req).None? && !(fetched.Ok? && fetched.response.status == 200) ==> job == NoJob
    {
      var cached := Match(req);
      if cached.Some? {
        return Ok(cached.value), UpdateInBackground(req);
      }
      if fetched.Err? {
        return fetched, NoJob;
      }
      job := NoJob;
      if fetched.response.status == 200 {
        var isDynamic := SomeMatches(DynamicCachePatterns, req.url.Href());
        job := StoreFetched(req, fetched.response, isDynamic);
      }
      out := fetched;
    }

    /**
     * The chain a cache-first miss starts: open the chosen cache, put the
     * response (a refused put is never observed), and trim the dynamic cache.
     */
    method StoreFetchedResponse(req: Request, response: Response, dynamic: bool)
      requires Valid()
      modifies this`names, this`stores
      ensures Valid()
      ensures names == OpenNames(old(names), if dynamic then CacheNameDynamic else CacheName)
      ensures stores == AssetStored(old(stores), req, response, dynamic)
    {
      var cacheName := if dynamic then CacheNameDynamic else CacheName;
      Open(cacheName);
      var _ := CachePut(cacheName, req, response);
      if dynamic {
        TrimCache(CacheNameDynamic, MaxDynamicCacheSize);
      }
    }

    /**
     * handleAPIRequest: a hit answers at once and starts a refresh; a miss
     * awaits fetchAndCacheAPI; if that rejects, a stale entry or the 503
     * offline notice answers. It never rejects.
     */
    method HandleApiRequest(req: Request, fetched: Outcome) returns (out: Outcome, job: Job)
      requires Valid()
      modifies this`names, this`stores
      ensures Valid()
      ensures out.Ok?
      ensures old(Match(req)).Some? ==>
                out == Ok(old(Match(req)).value) && job == RefreshApi(req) &&
                names == old(names) && stores == old(stores)
      ensures old(Match(req)).None? ==> job == NoJob
      ensures old(Match(req)).None? && fetched.Err? ==>
                out == Ok(OfflineResponse) && names == old(names) && stores == old(stores)
      ensures old(Match(req)).None? && fetched.Ok? && fetched.response.status != 200 ==>
                out == fetched && names == old(names) && stores == old(stores)
      ensures old(Match(req)).None? && fetched.Ok? && fetched.response.status == 200 ==>
                names == OpenNames(old(names), CacheNameDynamic) &&
                (req.verb == Get ==> out == fetched && stores == ApiStored(old(stores), req, fetched.response)) &&
                (req.verb != Get ==> out == Ok(OfflineResponse) && stores == OpenStores(old(stores), CacheNameDynamic))
    {
      var cached := Match(req);
      if cached.Some? {
        return Ok(cached.value), RefreshApi(req);
      }
      job := NoJob;
      var network := FetchAndCacheApi(req, fetched);
      if network.Ok? {
        return network, NoJob;
      }
      var stale := Match(req);
      out := match stale
        case Some(cachedResponse) => Ok(cachedResponse)
        case None => Ok(OfflineResponse);
    }

    /**
     * fetchAndCacheAPI: fetch; a 200 response is put into the dynamic cache,
     * which is then trimmed. Fetch failures and a refused put reject.
     */
    method FetchAndCacheApi(req: Request, fetched: Outcome) returns (out: Outcome)
      requires Valid()
      modifies this`names, this`stores
      ensures Valid()
      ensures !(fetched.Ok? && fetched.response.status == 200) ==>
                out == fetched && names == old(names) && stores == old(stores)
      ensures fetched.Ok? && fetched.response.status == 200 ==>
                names == OpenNames(old(names), CacheNameDynamic) &&
                (req.verb == Get ==> out == fetched && stores == ApiStored(old(stores), req, fetched.response)) &&
                (req.verb != Get ==> out == Err(PutRejected) && stores == OpenStores(old(stores), CacheNameDynamic))
    {
      if fetched.Err? {
        return fetched;
      }
      var response := fetched.response;
      if response.status == 200 {
        Open(CacheNameDynamic);
        var ok := CachePut(CacheNameDynamic, req, response);
        if !ok {
          return Err(PutRejected);
        }
        TrimCache(CacheNameDynamic, MaxDynamicCacheSize);
      }
      out := fetched;
    }

    /**
     * updateCacheInBackground: a 200 response is put into the shell cache;
     * every failure is swallowed and leaves the caches as they were.
     */
    method UpdateCacheInBackground(req: Request, fetched: Outcome)
      requires Valid()
      modifies this`names, this`stores
      ensures Valid()
      ensures fetched.Ok? && fetched.response.status == 200 ==>
                names == OpenNames(old(names), CacheName) && stores == PutInto(old(stores), CacheName, req, fetched.response)
      ensures !(fetched.Ok? && fetched.response.status == 200) ==> names == old(names) && stores == old(stores)
    {
      if fetched.Ok? && fetched.response.status == 200 {
        Open(CacheName);
        var _ := CachePut(CacheName, req, fetched.response);
      }
    }

    /**
     * The message handler: nothing happens unless the message comes from a
     * client of the worker's own origin; then SKIP_WAITING, CACHE_URLS and
     * CLEAR_CACHE are acted on and every other type is ignored.
     */
    method OnMessage(msg: Message, network: Url -> Outcome)
      requires Valid()
      modifies this`names, this`stores, this`skipWaitingCalled
      ensures Valid()
      ensures !FromSameOrigin(msg, origin) || msg.data.None? || msg.data.value.kind !in {SkipWaiting, CacheUrls, ClearCache} ==>
                names == old(names) && stores == old(stores) && skipWaitingCalled == old(skipWaitingCalled)
      ensures FromSameOrigin(msg, origin) && msg.data.Some? && msg.data.value.kind == SkipWaiting ==>
                skipWaitingCalled && names == old(names) && stores == old(stores)
      ensures FromSameOrigin(msg, origin) && msg.data.Some? && msg.data.value.kind == CacheUrls ==>
                var urls := msg.data.value.urls;
                skipWaitingCalled == old(skipWaitingCalled) &&
                names == OpenNames(old(names), CacheNameDynamic) &&
                stores == if urls.Some? && AddAllAccepts(urls.value, network)
                          then AddAllInto(old(stores), CacheNameDynamic, urls.value, network)
                          else OpenStores(old(stores), CacheNameDynamic)
      ensures FromSameOrigin(msg, origin) && msg.data.Some? && msg.data.value.kind == ClearCache ==>
                skipWaitingCalled == old(skipWaitingCalled) && names == [] && stores == map[]
    {
      if msg.source.None? || msg.source.value.origin != origin {
        return;
      }
      if msg.data.Some? && msg.data.value.kind == SkipWaiting {
        skipWaitingCalled := true;
      }
      if msg.data.Some? && msg.data.value.kind == CacheUrls {
        Open(CacheNameDynamic);
        var _ := AddAll(CacheNameDynamic, msg.data.value.urls, network);
      }
      if msg.data.Some? && msg.data.value.kind == ClearCache {
        ClearAll();
      }
    }

    /** `cache.addAll(urls)`: all or nothing; a missing URL list is refused. */
    method AddAll(name: string, urls: Option<seq<Url>>, network: Url -> Outcome) returns (ok: bool)
      requires Valid() && name in stores
      modifies this`stores
      ensures Valid()
      ensures ok <==> urls.Some? && AddAllAccepts(urls.value, network)
      ensures stores == if ok then old(stores)[name := StoredAll(old(stores[name]), Batch(urls.value, network))] else old(stores)
    {
      ok := urls.Some? && AddAllAccepts(urls.value, network);
      if ok {
        var batch := Batch(urls.value, network);
        StoredAllKeepsUnique(stores[name], batch);
        stores := stores[name := StoredAll(stores[name], batch)];
      }
    }

    /** CLEAR_CACHE: delete every cache the origin holds, whatever its name. */
    method ClearAll()
      requires Valid()
      modifies this`names, this`stores
      ensures Valid()
      ensures names == [] && stores == map[]
    {
      var cacheNames := names;
      for i := 0 to |cacheNames|
        invariant Valid()
        invariant names == cacheNames[i..]
      {
        assert cacheNames[i..] == [] + [cacheNames[i]] + cacheNames[i + 1..];
        WithoutListedOnce([], cacheNames[i], cacheNames[i + 1..]);
        var _ := DeleteCache(cacheNames[i]);
      }
      assert stores.Keys == {};
    }

    /**
     * The sync handler: for tag `sync-events`, a 200 response from the API
     * endpoint is put into the dynamic cache under that endpoint; failures are swallowed.
     */
    method OnSync(tag: string, fetched: Outcome)
      requires Valid()
      modifies this`names, this`stores
      ensures Valid()
      ensures tag == SyncTag && fetched.Ok? && fetched.response.status == 200 ==>
                names == OpenNames(old(names), CacheNameDynamic) &&
                stores == PutInto(old(stores), CacheNameDynamic, SyncRequest(origin), fetched.response)
      ensures !(tag == SyncTag && fetched.Ok? && fetched.response.status == 200) ==>
                names == old(names) && stores == old(stores)
    {
      if tag == SyncTag && fetched.Ok? && fetched.response.status == 200 {
        Open(CacheNameDynamic);
        var _ := CachePut(CacheNameDynamic, SyncRequest(origin), fetched.response);
      }
    }
  }
}
