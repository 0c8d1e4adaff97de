/**
 * The response cache of `StockAPI` (api.js): entries keyed by request URL,
 * served while younger than five minutes, written only after a successful
 * response that carries no provider error.
 */
module Cache {
  import opened Wrappers
  import opened Payloads

  /** `cacheTimeout`: five minutes, in milliseconds. */
  const CacheTimeout: int := 5 * 60 * 1000

  /** A cached payload and the `Date.now()` at which it was stored. */
  datatype Entry = Entry(data: Payload, storedAt: int)

  type Store = map<string, Entry>

  /** What `fetch` produced: the HTTP status line and the decoded body. */
  datatype Response = Response(ok: bool, status: int, statusText: string, body: Payload)

  /** The outcome of one `fetchAPI` call and the cache it leaves behind. */
  datatype Fetch = Fetch(result: Result<Payload, Error>, store: Store, usedNetwork: bool)

  /** The entry is young enough to serve at time `now` (strictly under the timeout). */
  predicate Fresh(store: Store, key: string, now: int) {
    key in store && now - store[key].storedAt < CacheTimeout
  }

  /** `getFromCache`: the stored payload while it is fresh. */
  function Lookup(store: Store, key: string, now: int): (r: Option<Payload>)
    ensures r.Some? <==> Fresh(store, key, now)
    ensures r.Some? ==> r.value == store[key].data
  {
    if key in store && now - store[key].storedAt < CacheTimeout then Some(store[key].data) else None
  }

  /**
   * `fetchAPI(url)` at time `now`: a fresh cache entry is returned without
   * touching the network; otherwise `response` is what `fetch` delivered
   * (`None` when it rejected) at time `arrival`. A non-ok status or a
   * provider error fails and leaves the cache as it was; a good payload is
   * stored under the URL, stamped with `arrival`.
   */
  function FetchAPI(store: Store, url: string, now: int, response: Option<Response>, arrival: int): (f: Fetch)
    ensures Fresh(store, url, now) ==> f == Fetch(Success(store[url].data), store, false)
    ensures !Fresh(store, url, now) ==> f.usedNetwork
    ensures f.result.Failure? ==> f.store == store
    ensures !Fresh(store, url, now) && f.result.Success? ==> f.store == store[url := Entry(f.result.value, arrival)]
    ensures !Fresh(store, url, now) ==>
      match response
      case None => f.result == Failure(Unreachable)
      case Some(resp) =>
        if !resp.ok then f.result == Failure(HttpError(resp.status, resp.statusText))
        else if ProviderFailure(resp.body).Some? then f.result == Failure(ProviderFailure(resp.body).value)
        else f.result == Success(resp.body)
  {
    match Lookup(store, url, now)
    case Some(data) => Fetch(Success(data), store, false)
    case None =>
      match response
      case None => Fetch(Failure(Unreachable), store, true)
      case Some(resp) =>
        if !resp.ok then Fetch(Failure(HttpError(resp.status, resp.statusText)), store, true)
        else match ProviderFailure(resp.body)
        case Some(e) => Fetch(Failure(e), store, true)
        case None => Fetch(Success(resp.body), store[url := Entry(resp.body, arrival)], true)
  }

  /** A fetch touches no cache entry but its own URL's. */
  lemma FetchKeepsOtherEntries(store: Store, url: string, now: int, response: Option<Response>, arrival: int, key: string)
    requires key != url
    ensures var f := FetchAPI(store, url, now, response, arrival);
      (key in f.store <==> key in store) && (key in store ==> f.store[key] == store[key])
  {
  }

  /**
   * After a successful network fetch, asking again for the same URL less
   * than five minutes after the response arrived returns the same payload
   * without a network call, whatever the network would now say.
   */
  lemma RepeatWithinTimeoutIsServedFromCache(store: Store, url: string, now: int, response: Option<Response>,
                                             arrival: int, later: int, response2: Option<Response>, arrival2: int)
    requires !Fresh(store, url, now)
    requires FetchAPI(store, url, now, response, arrival).result.Success?
    requires later < arrival + CacheTimeout
    ensures var f := FetchAPI(store, url, now, response, arrival);
      var g := FetchAPI(f.store, url, later, response2, arrival2);
      && !g.usedNetwork
      && g.result == f.result
      && g.store == f.store
  {
  }

  /** An entry exactly five minutes old, or older, is refetched. */
  lemma ExpiredEntryIsRefetched(store: Store, url: string, now: int, response: Option<Response>, arrival: int)
    requires url in store && now >= store[url].storedAt + CacheTimeout
    ensures var f := FetchAPI(store, url, now, response, arrival);
      && f.usedNetwork
      && (f.result.Success? ==> f.store[url] == Entry(f.result.value, arrival))
      && (f.result.Failure? ==> f.store[url] == store[url])
  {
  }

  /** A failed fetch caches nothing, so the next attempt goes to the network again. */
  lemma FailureIsNotCached(store: Store, url: string, now: int, response: Option<Response>, arrival: int,
                           later: int, response2: Option<Response>, arrival2: int)
    requires !Fresh(store, url, now)
    requires FetchAPI(store, url, now, response, arrival).result.Failure?
    requires !Fresh(store, url, later)
    ensures FetchAPI(FetchAPI(store, url, now, response, arrival).store, url, later, response2, arrival2).usedNetwork
  {
  }

  /** `cache.clear()`, as the dashboard's refresh button does it. */
  function Clear(store: Store): (s: Store)
    ensures forall key, now :: !Fresh(s, key, now)
  {
    map[]
  }

  /** After a refresh, every request goes to the network. */
  lemma RefreshForcesNetwork(store: Store, url: string, now: int, response: Option<Response>, arrival: int)
    ensures FetchAPI(Clear(store), url, now, response, arrival).usedNetwork
  {
  }
}
