/** The service worker: how each intercepted request is routed (bypass, network
    first from the HTML cache, cache first from the static cache, or fall
    through), the two caching strategies over the named caches, and the
    install-time and activation-time cache management. The Cache API is a map
    from cache name to a map from request URL to response; the network's
    answer and whether the unawaited `cache.put` lands are inputs. */
module ServiceWorker {
  import opened Text

  const StaticCache: string := "salonflow-static-v1"
  const HtmlCache: string := "salonflow-html-v1"

  /** The cache names activation keeps. */
  const Allowed: set<string> := {StaticCache, HtmlCache}

  /** Request destinations served cache first. */
  const StaticDestinations: seq<string> := ["script", "style", "font", "image"]

  /** Pathname extensions served cache first (`/\.(?:js|css|woff2?|png|svg|jpg|jpeg|gif|webp)$/`). */
  const StaticExtensions: seq<string> := ["js", "css", "woff", "woff2", "png", "svg", "jpg", "jpeg", "gif", "webp"]

  datatype Url = Url(origin: string, pathname: string, search: string)

  datatype Request = Request(verb: string, url: Url, mode: string, destination: string)

  datatype Response = Response(status: int, body: string)

  /** One named cache: request URL to stored response. */
  type Cache = map<Url, Response>

  /** All caches of the origin, by name. */
  type CacheStorage = map<string, Cache>

  /** What `fetch(request)` does: answer with a response or reject. */
  datatype Network = Answers(response: Response) | Rejects(error: string)

  /** What the page receives: the browser's own handling (no `respondWith`), a
      response, or a rejection. */
  datatype Reply = PassThrough | Respond(response: Response) | Fail(error: string)

  /** A reply, the caches afterwards, and whether the worker called `fetch`. */
  datatype Served = Served(reply: Reply, caches: CacheStorage, fetched: bool)

  datatype Strategy = Bypass | NetworkFirst(cacheName: string) | CacheFirst(cacheName: string) | FallThrough

  predicate IsApiPath(pathname: string)
  {
    StartsWith(pathname, "/api/")
  }

  predicate HasStaticExtension(pathname: string)
  {
    exists ext | ext in StaticExtensions :: EndsWith(pathname, "." + ext)
  }

  predicate IsStaticAsset(req: Request)
  {
    req.destination in StaticDestinations || HasStaticExtension(req.url.pathname)
  }

  /** The fetch handler's routing decision. */
  function Route(req: Request): (r: Strategy)
    ensures r == Bypass <==> req.verb != "GET" || IsApiPath(req.url.pathname)
    ensures r.NetworkFirst? <==> req.verb == "GET" && !IsApiPath(req.url.pathname) && req.mode == "navigate"
    ensures r.CacheFirst? <==>
      req.verb == "GET" && !IsApiPath(req.url.pathname) && req.mode != "navigate" && IsStaticAsset(req)
    ensures r.NetworkFirst? ==> r.cacheName == HtmlCache
    ensures r.CacheFirst? ==> r.cacheName == StaticCache
  {
    if req.verb != "GET" then Bypass
    else if IsApiPath(req.url.pathname) then Bypass
    else if req.mode == "navigate" then NetworkFirst(HtmlCache)
    else if IsStaticAsset(req) then CacheFirst(StaticCache)
    else FallThrough
  }

  /** `caches.open(name)`: the named cache, created empty when missing. */
  function Open(caches: CacheStorage, name: string): (r: CacheStorage)
    ensures name in r
    ensures r.Keys == caches.Keys + {name}
    ensures forall n :: n in caches ==> r[n] == caches[n]
    ensures name !in caches ==> r[name] == map[]
  {
    if name in caches then caches else caches[name := map[]]
  }

  /** `cache.put(url, response)` when `written`; a lost write leaves the cache as it was. */
  function Put(caches: CacheStorage, name: string, url: Url, response: Response, written: bool): (r: CacheStorage)
    requires name in caches
    ensures r.Keys == caches.Keys
    ensures forall n :: n in caches && n != name ==> r[n] == caches[n]
    ensures written ==> r[name] == caches[name][url := response]
    ensures !written ==> r == caches
  {
    if written then caches[name := caches[name][url := response]] else caches
  }

  /** `cacheFirst(request, name)`. */
  function CacheFirstServe(caches: CacheStorage, name: string, url: Url, network: Network, written: bool): (r: Served)
    ensures var ready := Open(caches, name);
      url in ready[name] ==> r == Served(Respond(ready[name][url]), ready, false)
    ensures var ready := Open(caches, name);
      url !in ready[name] && network.Answers? ==>
        && r.reply == Respond(network.response)
        && r.fetched
        && r.caches == Put(ready, name, url, network.response, written)
    ensures var ready := Open(caches, name);
      url !in ready[name] && network.Rejects? ==> r == Served(Fail(network.error), ready, true)
  {
    var ready := Open(caches, name);
    if url in ready[name] then Served(Respond(ready[name][url]), ready, false)
    else match network
      case Answers(response) => Served(Respond(response), Put(ready, name, url, response, written), true)
      case Rejects(error) => Served(Fail(error), ready, true)
  }

  /** `networkFirst(request, name)`. */
  function NetworkFirstServe(caches: CacheStorage, name: string, url: Url, network: Network, written: bool): (r: Served)
    ensures r.fetched
    ensures var ready := Open(caches, name);
      network.Answers? ==>
        r.reply == Respond(network.response) && r.caches == Put(ready, name, url, network.response, written)
    ensures var ready := Open(caches, name);
      network.Rejects? ==>
        && r.caches == ready
        && (url in ready[name] ==> r.reply == Respond(ready[name][url]))
        && (url !in ready[name] ==> r.reply == Fail(network.error))
  {
    var ready := Open(caches, name);
    match network
    case Answers(response) => Served(Respond(response), Put(ready, name, url, response, written), true)
    case Rejects(error) =>
      if url in ready[name] then Served(Respond(ready[name][url]), ready, true)
      else Served(Fail(error), ready, true)
  }

  /** The `fetch` event handler. */
  function OnFetch(caches: CacheStorage, req: Request, network: Network, written: bool): (r: Served)
    ensures r.reply == PassThrough <==>
      req.verb != "GET" || IsApiPath(req.url.pathname) || (req.mode != "navigate" && !IsStaticAsset(req))
    ensures r.reply == PassThrough ==> r.caches == caches && !r.fetched
    ensures req.verb == "GET" && !IsApiPath(req.url.pathname) && req.mode == "navigate" ==> r.fetched
    ensures r.fetched && network.Answers? ==> r.reply == Respond(network.response)
    ensures r.reply.Respond? && !(r.fetched && network.Answers?) ==>
      var name := if req.mode == "navigate" then HtmlCache else StaticCache;
      name in r.caches && req.url in r.caches[name] && r.caches[name][req.url] == r.reply.response
    ensures r.reply.Fail? ==> r.fetched && network == Rejects(r.reply.error)
    ensures r.caches.Keys <= caches.Keys + Allowed
    ensures caches.Keys <= r.caches.Keys
    ensures forall n :: n in caches && n !in Allowed ==> r.caches[n] == caches[n]
  {
    match Route(req)
    case Bypass => Served(PassThrough, caches, false)
    case FallThrough => Served(PassThrough, caches, false)
    case NetworkFirst(name) => NetworkFirstServe(caches, name, req.url, network, written)
    case CacheFirst(name) => CacheFirstServe(caches, name, req.url, network, written)
  }

  /** The `install` handler: pre-creates the static cache. */
  function Install(caches: CacheStorage): (r: CacheStorage)
    ensures StaticCache in r
    ensures r.Keys == caches.Keys + {StaticCache}
    ensures forall n :: n in caches ==> r[n] == caches[n]
  {
    Open(caches, StaticCache)
  }

  /** The `activate` handler: deletes every cache whose name is not allowed. */
  function Activate(caches: CacheStorage): (r: CacheStorage)
    ensures r.Keys == caches.Keys * Allowed
    ensures forall n :: n in r ==> r[n] == caches[n]
  {
    map n | n in caches && n in Allowed :: caches[n]
  }

  /** Requests the worker leaves alone neither touch the caches nor reach the
      network through the worker: non-GET requests and API requests, whatever
      their mode or extension. */
  lemma BypassedRequestsUntouched(caches: CacheStorage, req: Request, network: Network, written: bool)
    requires req.verb != "GET" || IsApiPath(req.url.pathname)
    ensures OnFetch(caches, req, network, written) == Served(PassThrough, caches, false)
  {
  }

  /** A navigation outside the API is network first even when its pathname
      looks like a static asset. */
  lemma NavigationBeforeStatic(req: Request)
    requires req.verb == "GET" && !IsApiPath(req.url.pathname) && req.mode == "navigate"
    ensures Route(req) == NetworkFirst(HtmlCache)
  {
  }

  /** No cached URL is an API URL. */
  predicate NoApiEntries(caches: CacheStorage)
  {
    forall n: string, u: Url :: n in caches && u in caches[n] ==> !IsApiPath(u.pathname)
  }

  lemma OpenKeepsApiOut(caches: CacheStorage, name: string)
    requires NoApiEntries(caches)
    ensures NoApiEntries(Open(caches, name))
  {
  }

  lemma PutKeepsApiOut(caches: CacheStorage, name: string, url: Url, response: Response, written: bool)
    requires NoApiEntries(caches) && name in caches && !IsApiPath(url.pathname)
    ensures NoApiEntries(Put(caches, name, url, response, written))
  {
    var r := Put(caches, name, url, response, written);
    forall n: string, u: Url | n in r && u in r[n]
      ensures !IsApiPath(u.pathname)
    {
      if u != url {
        assert u in caches[n];
      }
    }
  }

  /** Whatever the worker handles, API responses never enter a cache. */
  lemma OnFetchKeepsApiOut(caches: CacheStorage, req: Request, network: Network, written: bool)
    requires NoApiEntries(caches)
    ensures NoApiEntries(OnFetch(caches, req, network, written).caches)
  {
    match Route(req)
    case Bypass =>
    case FallThrough =>
    case NetworkFirst(name) =>
      OpenKeepsApiOut(caches, name);
      if network.Answers? {
        PutKeepsApiOut(Open(caches, name), name, req.url, network.response, written);
      }
    case CacheFirst(name) =>
      OpenKeepsApiOut(caches, name);
      if network.Answers? {
        PutKeepsApiOut(Open(caches, name), name, req.url, network.response, written);
      }
  }

  /** A static asset fetched and stored once is served from the cache the
      next time, without calling the network, whatever the network would do. */
  lemma CacheFirstSecondHit(caches: CacheStorage, req: Request, response: Response, network2: Network)
    requires Route(req).CacheFirst?
    requires req.url !in Open(caches, StaticCache)[StaticCache]
    ensures var first := OnFetch(caches, req, Answers(response), true);
      && first.reply == Respond(response)
      && OnFetch(first.caches, req, network2, true) == Served(Respond(response), first.caches, false)
  {
    var first := OnFetch(caches, req, Answers(response), true);
    assert first.caches[StaticCache][req.url] == response;
  }

  /** A navigation answered once by the network is answered from the HTML cache
      when the network fails later. */
  lemma NetworkFirstFallsBack(caches: CacheStorage, req: Request, response: Response, error: string)
    requires Route(req).NetworkFirst?
    ensures var first := OnFetch(caches, req, Answers(response), true);
      && first.reply == Respond(response)
      && OnFetch(first.caches, req, Rejects(error), true).reply == Respond(response)
  {
    var first := OnFetch(caches, req, Answers(response), true);
    assert first.caches[HtmlCache][req.url] == response;
  }

  /** A lost cache write never changes the answer the page gets. */
  lemma WriteLossInvisible(caches: CacheStorage, req: Request, network: Network)
    ensures OnFetch(caches, req, network, true).reply == OnFetch(caches, req, network, false).reply
  {
  }

  /** After activation only allowed caches remain, and activating again
      changes nothing. */
  lemma ActivateOnlyAllowed(caches: CacheStorage)
    ensures forall n :: n in Activate(caches) ==> n in Allowed
    ensures Activate(Activate(caches)) == Activate(caches)
  {
  }
}
