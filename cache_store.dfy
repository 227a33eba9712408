/**
 * The host's Cache Storage, as the worker uses it: named caches in creation
 * order, each an insertion-ordered list of entries keyed by request URL.
 * Everything here is a function of values; the worker's class applies them
 * to its state.
 */
module CacheStore {
  import opened Http

  /** One cached pair: the request's URL (its key) and the stored response. */
  datatype Entry = Entry(key: string, response: Response)

  /** `cache.keys()`: the keys in insertion order. */
  function KeysOf(s: seq<Entry>): (keys: seq<string>)
    ensures |keys| == |s|
    ensures forall i :: 0 <= i < |s| ==> keys[i] == s[i].key
  {
    seq(|s|, i requires 0 <= i < |s| => s[i].key)
  }

  /** No two entries of a cache answer the same request. */
  ghost predicate UniqueKeys(s: seq<Entry>)
  {
    forall i, j :: 0 <= i < j < |s| ==> s[i].key != s[j].key
  }

  /** `cache.match(key)` on one cache: the response of the first entry with that key. */
  function Lookup(s: seq<Entry>, key: string): (r: Option<Response>)
    ensures r.None? <==> forall i :: 0 <= i < |s| ==> s[i].key != key
    ensures r.Some? ==> exists i :: 0 <= i < |s| && s[i] == Entry(key, r.value)
  {
    if s == [] then None
    else if s[0].key == key then Some(s[0].response)
    else Lookup(s[1..], key)
  }

  /** `cache.delete(key)`: every entry for that key removed, the others kept in order. */
  function RemoveKey(s: seq<Entry>, key: string): (r: seq<Entry>)
    ensures forall e :: e in r <==> e in s && e.key != key
    ensures |r| <= |s|
  {
    if s == [] then []
    else if s[0].key == key then RemoveKey(s[1..], key)
    else [s[0]] + RemoveKey(s[1..], key)
  }

  /**
   * `cache.put(key, response)`: the entry that answered the same request is
   * replaced, and the new one takes the newest place in insertion order.
   */
  function Stored(s: seq<Entry>, key: string, response: Response): seq<Entry>
  {
    RemoveKey(s, key) + [Entry(key, response)]
  }

  /** The entries trimCache leaves: while more than `max` remain, the oldest is deleted. */
  function Trimmed(s: seq<Entry>, max: nat): seq<Entry>
    decreases |s|
  {
    if |s| > max then Trimmed(s[1..], max) else s
  }

  /** `cache.addAll`'s batch of puts, applied in list order. */
  function StoredAll(s: seq<Entry>, batch: seq<Entry>): seq<Entry>
    decreases |batch|
  {
    if batch == [] then s
    else StoredAll(Stored(s, batch[0].key, batch[0].response), batch[1..])
  }

  lemma {:induction false} RemoveAbsentKey(s: seq<Entry>, key: string)
    requires forall i :: 0 <= i < |s| ==> s[i].key != key
    ensures RemoveKey(s, key) == s
  {
    if s != [] {
      RemoveAbsentKey(s[1..], key);
    }
  }

  /** With unique keys, deleting the oldest key removes exactly the oldest entry. */
  lemma RemoveOldest(s: seq<Entry>)
    requires UniqueKeys(s) && |s| > 0
    ensures RemoveKey(s, s[0].key) == s[1..]
  {
    RemoveAbsentKey(s[1..], s[0].key);
  }

  /** One pass of trimCache's loop: deleting the oldest key of an over-full cache does not change where trimming ends. */
  lemma TrimStep(s: seq<Entry>, max: nat)
    requires UniqueKeys(s) && |s| > max
    ensures RemoveKey(s, s[0].key) == s[1..]
    ensures Trimmed(s[1..], max) == Trimmed(s, max)
  {
    RemoveOldest(s);
  }

  lemma {:induction false} LookupAfterRemove(s: seq<Entry>, key: string, k: string)
    requires k != key
    ensures Lookup(RemoveKey(s, key), k) == Lookup(s, k)
  {
    if s != [] {
      LookupAfterRemove(s[1..], key, k);
    }
  }

  lemma {:induction false} LookupAppend(s: seq<Entry>, e: Entry, k: string)
    ensures Lookup(s + [e], k) == if Lookup(s, k).Some? then Lookup(s, k) else Lookup([e], k)
  {
    if s != [] {
      assert (s + [e])[1..] == s[1..] + [e];
      LookupAppend(s[1..], e, k);
    }
  }

  /**
   * Put-then-match: after `put(key, response)` the key answers with that
   * response, and every other key answers as before.
   */
  lemma StoredLookup(s: seq<Entry>, key: string, response: Response, k: string)
    ensures Lookup(Stored(s, key, response), k) == if k == key then Some(response) else Lookup(s, k)
  {
    LookupAppend(RemoveKey(s, key), Entry(key, response), k);
    if k != key {
      LookupAfterRemove(s, key, k);
    }
  }

  /** put keeps at most one entry per request. */
  lemma StoredKeepsUnique(s: seq<Entry>, key: string, response: Response)
    requires UniqueKeys(s)
    ensures UniqueKeys(Stored(s, key, response))
  {
    RemovePreservesUnique(s, key);
  }

  lemma {:induction false} RemovePreservesUnique(s: seq<Entry>, key: string)
    requires UniqueKeys(s)
    ensures UniqueKeys(RemoveKey(s, key))
  {
    if s != [] {
      RemovePreservesUnique(s[1..], key);
      if s[0].key != key {
        var t := RemoveKey(s[1..], key);
        forall e | e in t ensures e.key != s[0].key {
          var j :| 0 <= j < |s[1..]| && s[1..][j] == e;
          assert s[j + 1] == e;
        }
        assert RemoveKey(s, key) == [s[0]] + t;
      }
    }
  }

  /** trimCache keeps the newest `max` entries, in their original order, and nothing else. */
  lemma {:induction false} TrimmedIsSuffix(s: seq<Entry>, max: nat)
    ensures Trimmed(s, max) == if |s| <= max then s else s[|s| - max..]
  {
    if |s| > max {
      TrimmedIsSuffix(s[1..], max);
      assert s[1..][|s| - 1 - max..] == s[|s| - max..];
    }
  }

  /** After trimCache at most `max` entries remain; a cache already within the bound is untouched. */
  lemma {:induction false} TrimmedWithinBound(s: seq<Entry>, max: nat)
    ensures |Trimmed(s, max)| <= max
    ensures |s| <= max ==> Trimmed(s, max) == s
  {
    TrimmedIsSuffix(s, max);
  }

  /** Trimming twice with the same bound leaves what trimming once left. */
  lemma {:induction false} TrimmedIdempotent(s: seq<Entry>, max: nat)
    ensures Trimmed(Trimmed(s, max), max) == Trimmed(s, max)
  {
    TrimmedWithinBound(s, max);
    TrimmedWithinBound(Trimmed(s, max), max);
  }

  /** Trimming keeps at most one entry per request. */
  lemma {:induction false} TrimmedKeepsUnique(s: seq<Entry>, max: nat)
    requires UniqueKeys(s)
    ensures UniqueKeys(Trimmed(s, max))
  {
    TrimmedIsSuffix(s, max);
  }

  /** A key the batch does not write answers as before. */
  lemma {:induction false} StoredAllOthers(s: seq<Entry>, batch: seq<Entry>, k: string)
    requires forall i :: 0 <= i < |batch| ==> batch[i].key != k
    ensures Lookup(StoredAll(s, batch), k) == Lookup(s, k)
    decreases |batch|
  {
    if batch != [] {
      StoredLookup(s, batch[0].key, batch[0].response, k);
      StoredAllOthers(Stored(s, batch[0].key, batch[0].response), batch[1..], k);
    }
  }

  /** After a batch with distinct keys, every key of the batch answers with its own response. */
  lemma {:induction false} StoredAllPresent(s: seq<Entry>, batch: seq<Entry>, i: nat)
    requires i < |batch|
    requires forall a, b :: 0 <= a < b < |batch| ==> batch[a].key != batch[b].key
    ensures Lookup(StoredAll(s, batch), batch[i].key) == Some(batch[i].response)
    decreases |batch|
  {
    var s' := Stored(s, batch[0].key, batch[0].response);
    if i == 0 {
      StoredLookup(s, batch[0].key, batch[0].response, batch[0].key);
      StoredAllOthers(s', batch[1..], batch[0].key);
    } else {
      StoredAllPresent(s', batch[1..], i - 1);
    }
  }

  lemma {:induction false} StoredAllKeepsUnique(s: seq<Entry>, batch: seq<Entry>)
    requires UniqueKeys(s)
    ensures UniqueKeys(StoredAll(s, batch))
    decreases |batch|
  {
    if batch != [] {
      StoredKeepsUnique(s, batch[0].key, batch[0].response);
      StoredAllKeepsUnique(Stored(s, batch[0].key, batch[0].response), batch[1..]);
    }
  }

  /** Cache names are never repeated. */
  ghost predicate Distinct(names: seq<string>)
  {
    forall i, j :: 0 <= i < j < |names| ==> names[i] != names[j]
  }

  /**
   * A consistent Cache Storage: each name listed once, the list and the map
   * agree, and every cache has one entry per request.
   */
  ghost predicate WellFormed(names: seq<string>, stores: map<string, seq<Entry>>)
  {
    && Distinct(names)
    && (forall n :: n in stores <==> n in names)
    && (forall n :: n in stores ==> UniqueKeys(stores[n]))
  }

  /** `caches.open(n)` on the name list: a missing cache is created last. */
  function OpenNames(names: seq<string>, n: string): seq<string>
  {
    if n in names then names else names + [n]
  }

  /** `caches.open(n)` on the caches: a missing cache starts empty. */
  function OpenStores(stores: map<string, seq<Entry>>, n: string): map<string, seq<Entry>>
  {
    if n in stores then stores else stores[n := []]
  }

  /** The entries `caches.open(n)` presents. */
  function EntriesOf(stores: map<string, seq<Entry>>, n: string): seq<Entry>
  {
    if n in stores then stores[n] else []
  }

  /**
   * The caches after `caches.open(n)` and `cache.put(req, response)`; the
   * put is refused for a non-GET request, which leaves the opened cache as it was.
   */
  function PutInto(stores: map<string, seq<Entry>>, n: string, req: Request, response: Response): map<string, seq<Entry>>
  {
    var open := OpenStores(stores, n);
    if req.verb == Get then open[n := Stored(open[n], req.url.Href(), response)] else open
  }

  /** `caches.delete(n)` on the name list. */
  function Without(names: seq<string>, n: string): (r: seq<string>)
    ensures forall m :: m in r <==> m in names && m != n
  {
    if names == [] then []
    else if names[0] == n then Without(names[1..], n)
    else [names[0]] + Without(names[1..], n)
  }

  lemma {:induction false} WithoutAbsent(names: seq<string>, n: string)
    requires n !in names
    ensures Without(names, n) == names
  {
    if names != [] {
      WithoutAbsent(names[1..], n);
    }
  }

  lemma {:induction false} WithoutKeepsDistinct(names: seq<string>, n: string)
    requires Distinct(names)
    ensures Distinct(Without(names, n))
  {
    if names != [] {
      WithoutKeepsDistinct(names[1..], n);
      assert names[0] !in names[1..];
    }
  }

  lemma {:induction false} WithoutConcat(a: seq<string>, b: seq<string>, n: string)
    ensures Without(a + b, n) == Without(a, n) + Without(b, n)
  {
    if a != [] {
      assert (a + b)[1..] == a[1..] + b;
      WithoutConcat(a[1..], b, n);
    } else {
      assert a + b == b;
    }
  }

  /** Deleting a name that is listed once removes just that name from its place. */
  lemma WithoutListedOnce(a: seq<string>, n: string, b: seq<string>)
    requires n !in a && n !in b
    ensures Without(a + [n] + b, n) == a + b
  {
    WithoutConcat(a + [n], b, n);
    WithoutConcat(a, [n], n);
    WithoutAbsent(a, n);
    WithoutAbsent(b, n);
    assert [n][1..] == [];
    assert Without([n], n) == [];
    assert Without(a + [n], n) == a;
  }

  /**
   * `caches.match(request)` over the given caches: the first cache in
   * creation order that holds the key answers.
   */
  function FirstHit(names: seq<string>, stores: map<string, seq<Entry>>, key: string): (r: Option<Response>)
    ensures r.Some? <==> exists i :: 0 <= i < |names| && names[i] in stores && Lookup(stores[names[i]], key).Some?
    ensures r.Some? ==>
      exists i :: 0 <= i < |names| && names[i] in stores && Lookup(stores[names[i]], key) == r &&
        (forall j :: 0 <= j < i && names[j] in stores ==> Lookup(stores[names[j]], key).None?)
  {
    if names == [] then None
    else if names[0] in stores && Lookup(stores[names[0]], key).Some? then Lookup(stores[names[0]], key)
    else
      var r := FirstHit(names[1..], stores, key);
      assert forall i :: 0 < i < |names| ==> names[i] == names[1..][i - 1];
      r
  }

  /**
   * `caches.match(request)`: searches every cache; a non-GET request never
   * matches (the host's default `ignoreMethod: false`).
   */
  function MatchIn(names: seq<string>, stores: map<string, seq<Entry>>, req: Request): (r: Option<Response>)
    ensures r.Some? ==> req.verb == Get && exists n :: n in names && n in stores && Lookup(stores[n], req.url.Href()) == r
    ensures req.verb == Get && (exists n :: n in names && n in stores && Lookup(stores[n], req.url.Href()).Some?) ==> r.Some?
  {
    if req.verb != Get then None else FirstHit(names, stores, req.url.Href())
  }

  /**
   * `cache.addAll(urls)` takes the batch: every fetch succeeded with an ok
   * status other than 206 (a partial response), and no URL is repeated.
   */
  predicate AddAllAccepts(urls: seq<Url>, network: Url -> Outcome)
  {
    && (forall i :: 0 <= i < |urls| ==>
          network(urls[i]).Ok? && IsOk(network(urls[i]).response) && network(urls[i]).response.status != 206)
    && (forall i, j :: 0 <= i < j < |urls| ==> urls[i].Href() != urls[j].Href())
  }

  /** The entries `cache.addAll(urls)` writes, one per URL in list order. */
  function Batch(urls: seq<Url>, network: Url -> Outcome): (batch: seq<Entry>)
    requires forall i :: 0 <= i < |urls| ==> network(urls[i]).Ok?
    ensures |batch| == |urls|
    ensures forall i :: 0 <= i < |urls| ==> batch[i] == Entry(urls[i].Href(), network(urls[i]).response)
  {
    if urls == [] then []
    else [Entry(urls[0].Href(), network(urls[0]).response)] + Batch(urls[1..], network)
  }

  /** The caches after `caches.open(n)` and an accepted `cache.addAll(urls)`. */
  function AddAllInto(stores: map<string, seq<Entry>>, n: string, urls: seq<Url>, network: Url -> Outcome): map<string, seq<Entry>>
    requires forall i :: 0 <= i < |urls| ==> network(urls[i]).Ok?
  {
    OpenStores(stores, n)[n := StoredAll(EntriesOf(stores, n), Batch(urls, network))]
  }

  /** After an accepted `addAll`, every listed URL answers with the response fetched for it. */
  lemma AddAllStoresEveryUrl(s: seq<Entry>, urls: seq<Url>, network: Url -> Outcome, i: nat)
    requires AddAllAccepts(urls, network) && i < |urls|
    ensures Lookup(StoredAll(s, Batch(urls, network)), urls[i].Href()) == Some(network(urls[i]).response)
  {
    StoredAllPresent(s, Batch(urls, network), i);
  }

  /** When only cache `n` holds a key, `caches.match` answers from `n`. */
  lemma MatchOnlyHolder(names: seq<string>, stores: map<string, seq<Entry>>, n: string, key: string)
    requires n in names && n in stores && Lookup(stores[n], key).Some?
    requires forall m :: m in stores && m != n ==> Lookup(stores[m], key).None?
    ensures FirstHit(names, stores, key) == Lookup(stores[n], key)
  {
    var k :| 0 <= k < |names| && names[k] == n;
    assert Lookup(stores[names[k]], key).Some?;
  }

  /**
   * Put-then-match across caches: once a GET response is put into cache `n`,
   * and no other cache holds that request, `caches.match` answers with it.
   */
  lemma MatchAfterPut(names: seq<string>, stores: map<string, seq<Entry>>, n: string, req: Request, response: Response)
    requires req.verb == Get
    requires forall m :: m in stores && m != n ==> Lookup(stores[m], req.url.Href()).None?
    ensures MatchIn(OpenNames(names, n), PutInto(stores, n, req, response), req) == Some(response)
  {
    var key := req.url.Href();
    StoredLookup(EntriesOf(stores, n), key, response, key);
    MatchOnlyHolder(OpenNames(names, n), PutInto(stores, n, req, response), n, key);
  }

  /** The entry just put is the newest, so trimming to any positive bound keeps it. */
  lemma TrimmedKeepsNewest(s: seq<Entry>, key: string, response: Response, max: nat)
    requires max > 0
    ensures Lookup(Trimmed(Stored(s, key, response), max), key) == Some(response)
  {
    var removed := RemoveKey(s, key);
    var t := Stored(s, key, response);
    TrimmedIsSuffix(t, max);
    var k := if |t| <= max then 0 else |t| - max;
    assert Trimmed(t, max) == removed[k..] + [Entry(key, response)];
    assert forall i :: 0 <= i < |removed[k..]| ==> removed[k..][i] in removed;
    LookupAppend(removed[k..], Entry(key, response), key);
  }

  /**
   * After an accepted `addAll` into cache `n`, `caches.match` answers every
   * listed URL with the response fetched for it, provided no other cache
   * holds that URL.
   */
  lemma AddAllThenMatch(names: seq<string>, stores: map<string, seq<Entry>>, n: string, urls: seq<Url>,
                        network: Url -> Outcome, i: nat)
    requires AddAllAccepts(urls, network) && i < |urls|
    requires forall m :: m in stores && m != n ==> Lookup(stores[m], urls[i].Href()).None?
    ensures MatchIn(OpenNames(names, n), AddAllInto(stores, n, urls, network), Request(Get, urls[i])) == Some(network(urls[i]).response)
  {
    var stores' := AddAllInto(stores, n, urls, network);
    var names' := OpenNames(names, n);
    var key := urls[i].Href();
    AddAllStoresEveryUrl(EntriesOf(stores, n), urls, network, i);
    assert Lookup(stores'[n], key).Some?;
    assert n in names';
    assert forall m :: m in stores' && m != n ==> Lookup(stores'[m], key).None?;
    MatchOnlyHolder(names', stores', n, key);
    assert MatchIn(names', stores', Request(Get, urls[i])) == FirstHit(names', stores', key);
  }
}
