/**
 * The fetch listener's decisions: whether a request is intercepted, whether
 * it is an API request, and which cache a cache-first miss is written to.
 */
module Routing {
  import opened Http
  import opened Text
  import opened Config

  /** The two regex shapes DYNAMIC_CACHE_PATTERNS uses: unanchored text, and text anchored at the end. */
  datatype Pattern = Containing(text: string) | EndingWith(text: string)

  /** `pattern.test(s)` for a pattern without special characters. */
  predicate Test(p: Pattern, s: string)
  {
    match p
    case Containing(t) => Includes(s, t)
    case EndingWith(t) => EndsWith(s, t)
  }

  /** DYNAMIC_CACHE_PATTERNS: the API path, the font host, and the two webfont suffixes. */
  const DynamicCachePatterns: seq<Pattern> :=
    [Containing("/functions/api/events"), Containing("fonts.gstatic.com"), EndingWith(".woff2"), EndingWith(".woff")]

  /** `patterns.some(p => p.test(s))`. */
  function SomeMatches(patterns: seq<Pattern>, s: string): (r: bool)
    ensures r <==> exists i :: 0 <= i < |patterns| && Test(patterns[i], s)
  {
    if patterns == [] then false
    else Test(patterns[0], s) || SomeMatches(patterns[1..], s)
  }

  /** One matching pattern is enough for `some`. */
  lemma PatternMatches(patterns: seq<Pattern>, i: nat, s: string)
    requires i < |patterns| && Test(patterns[i], s)
    ensures SomeMatches(patterns, s)
  {
  }

  /** A cache-first response for this URL is kept in the dynamic cache. */
  predicate IsDynamic(url: Url)
  {
    SomeMatches(DynamicCachePatterns, url.Href())
  }

  /** The cache a cache-first miss is stored in (`isDynamic ? CACHE_NAME_DYNAMIC : CACHE_NAME`). */
  function CacheNameFor(url: Url): (name: string)
    ensures name == CacheNameDynamic <==> IsDynamic(url)
    ensures name == CacheName <==> !IsDynamic(url)
  {
    if IsDynamic(url) then CacheNameDynamic else CacheName
  }

  lemma CdnHostsListed(href: string)
    ensures (exists h :: h in CdnHosts && Includes(href, h)) <==>
      Includes(href, "cdn.tailwindcss.com") || Includes(href, "fonts.googleapis.com") || Includes(href, "fonts.gstatic.com")
  {
  }

  /**
   * The fetch listener's guard: same origin as the worker, or an href that
   * merely contains one of the CDN host names anywhere.
   */
  function IsIntercepted(url: Url, selfOrigin: string): (r: bool)
    ensures r <==> url.origin == selfOrigin || exists h :: h in CdnHosts && Includes(url.Href(), h)
  {
    CdnHostsListed(url.Href());
    !(url.origin != selfOrigin &&
      !Includes(url.Href(), "cdn.tailwindcss.com") &&
      !Includes(url.Href(), "fonts.googleapis.com") &&
      !Includes(url.Href(), "fonts.gstatic.com"))
  }

  /** An API request: its path contains `/functions/api/events`. */
  predicate IsApi(url: Url)
  {
    Includes(url.pathname, ApiPath)
  }

  /** Where the fetch listener sends a request. */
  datatype Route = PassThrough | ApiRoute | CacheFirstRoute

  function RouteOf(url: Url, selfOrigin: string): (r: Route)
    ensures r.PassThrough? <==> !IsIntercepted(url, selfOrigin)
    ensures r.ApiRoute? <==> IsIntercepted(url, selfOrigin) && IsApi(url)
    ensures r.CacheFirstRoute? <==> IsIntercepted(url, selfOrigin) && !IsApi(url)
  {
    if !IsIntercepted(url, selfOrigin) then PassThrough
    else if IsApi(url) then ApiRoute
    else CacheFirstRoute
  }

  /** Every same-origin request is intercepted, whatever its path. */
  lemma SameOriginIntercepted(url: Url, selfOrigin: string)
    requires url.origin == selfOrigin
    ensures RouteOf(url, selfOrigin) != PassThrough
  {
  }

  /** A request to any of the three CDN hosts is intercepted, from whatever origin it is made. */
  lemma CdnHostIntercepted(url: Url, selfOrigin: string, host: string)
    requires host in CdnHosts && Includes(url.origin, host)
    ensures RouteOf(url, selfOrigin) != PassThrough
  {
    IncludesWithin([], url.origin, url.pathname + url.search, host);
    assert [] + url.origin + (url.pathname + url.search) == url.Href();
  }

  /**
   * The allow-list is a substring test, not a host or prefix test: a URL of an
   * unrelated origin that only mentions a CDN host in its query is intercepted.
   */
  lemma AllowListMatchesQueryText(selfOrigin: string)
    ensures RouteOf(Url("https://tracker.example", "/pixel", "?from=cdn.tailwindcss.com"), selfOrigin) == CacheFirstRoute
  {
    var url := Url("https://tracker.example", "/pixel", "?from=cdn.tailwindcss.com");
    var href := url.Href();
    assert href[35..35 + |CdnHosts[0]|] == CdnHosts[0];
    assert OccursAt(href, CdnHosts[0], 35);
    assert IsIntercepted(url, selfOrigin);
    assert !IsApi(url);
  }

  /** A request routed as API is also matched by the first dynamic pattern, so both ways of writing it pick the dynamic cache. */
  lemma ApiRequestsAreDynamic(url: Url)
    requires IsApi(url)
    ensures IsDynamic(url)
    ensures CacheNameFor(url) == CacheNameDynamic
  {
    IncludesWithin(url.origin, url.pathname, url.search, ApiPath);
    assert Test(DynamicCachePatterns[0], url.Href());
  }

  /** Every webfont file, from any host, is kept in the dynamic cache. */
  lemma WebfontsAreDynamic(url: Url)
    requires EndsWith(url.Href(), ".woff2") || EndsWith(url.Href(), ".woff")
    ensures CacheNameFor(url) == CacheNameDynamic
  {
    var href := url.Href();
    var patterns := DynamicCachePatterns;
    if EndsWith(href, ".woff2") {
      assert patterns[2] == EndingWith(".woff2");
      PatternMatches(patterns, 2, href);
    } else {
      assert patterns[3] == EndingWith(".woff");
      PatternMatches(patterns, 3, href);
    }
  }

  /** Everything served from the Google font-file host is kept in the dynamic cache. */
  lemma FontHostIsDynamic(url: Url)
    requires Includes(url.origin, "fonts.gstatic.com")
    ensures CacheNameFor(url) == CacheNameDynamic
  {
    IncludesWithin([], url.origin, url.pathname + url.search, "fonts.gstatic.com");
    assert [] + url.origin + (url.pathname + url.search) == url.Href();
    assert Test(DynamicCachePatterns[1], url.Href());
  }
}
