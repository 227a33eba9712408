/** Requests, responses and fetch outcomes as the service worker sees them. */
module Http {

  datatype Option<+T> = None | Some(value: T)

  /** HTTP request methods. Only GET requests can be matched in, or written to, a cache. */
  datatype Method = Get | Head | Post | Put | Patch | Delete | Options

  /**
   * A URL already split into the parts the worker reads: `url.origin`,
   * `url.pathname` and the query string. The fragment is never part of a
   * cache key and is not represented.
   */
  datatype Url = Url(origin: string, pathname: string, search: string) {
    /** The serialised URL, `url.href`. */
    function Href(): string { origin + pathname + search }
  }

  datatype Request = Request(verb: Method, url: Url)

  /** A body is either opaque content from the network or the JSON notice the worker builds. */
  datatype Body = Opaque(content: string) | JsonNotice(error: string, offline: bool)

  datatype Response = Response(status: int, contentType: string, body: Body)

  /** Why a promise rejected: `fetch` failed, or `cache.put` refused a non-GET request. */
  datatype Failure = NetworkError | PutRejected

  /** A settled promise of a response: fulfilled or rejected. */
  datatype Outcome = Ok(response: Response) | Err(failure: Failure)

  /** `Response.ok`: the status lies in 200..299. */
  predicate IsOk(r: Response) { 200 <= r.status <= 299 }

  /** The response handleAPIRequest synthesises when neither network nor cache can answer. */
  const OfflineResponse: Response :=
    Response(503, "application/json", JsonNotice("Offline - no cached data available", true))
}
