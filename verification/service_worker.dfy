/** The offline service worker: the routing decision of its `fetch` listener,
    the response each route produces, the cache writes it makes, and the
    eviction of stale caches on `activate`. The network is an input: the
    outcome `fetch(request)` would have. The URL parser is an input too. */
module ServiceWorker {
  import opened Wrappers
  import opened Strings
  import opened Seqs
  import opened Url

  /** `CACHE_NAME`: the only cache the current worker writes to and keeps. */
  const CacheName: string := "nav-web-v2"

  /** Requests whose URL contains this are left to the browser. */
  const BackendMark: string := "supabase.co"

  /** The offline fallback page `caches.match('/index.html')` looks up. */
  const IndexPath: string := "/index.html"

  /** The extensions of the static-asset pattern, without the leading dot. */
  const StaticExtensions: seq<string> := ["js", "css", "svg", "png", "jpg", "jpeg", "webp", "gif", "ico", "woff", "woff2"]

  /** The request destinations that count as static assets. */
  const StaticDestinations: seq<string> := ["script", "style", "image", "font"]

  /** The request fields the listener reads; `accept` is the `Accept` header,
      absent when the request has none. */
  datatype Request = Request(url: string, mode: string, accept: Option<string>, destination: string, httpMethod: string)

  datatype Response = Response(ok: bool, body: string)

  /** The caches in creation order, each a name with its entries keyed by
      request URL. */
  type Storage = seq<(string, map<string, Response>)>

  // ---------------------------------------------------------------------------
  // Classification

  /** `isHtmlRequest`. */
  predicate IsHtml(r: Request) {
    r.mode == "navigate" || Contains(r.accept.GetOr(""), "text/html") || r.destination == "document"
  }

  /** The pattern `\.(?:js|…|woff2?)$` with the `i` flag: the path ends with a
      dot and one of the extensions, letters compared without case. */
  predicate HasStaticExtension(path: string) {
    exists e :: e in StaticExtensions && IsSuffix("." + e, Lower(path))
  }

  /** `isStaticAsset`. */
  predicate IsStatic(path: string, destination: string) {
    HasStaticExtension(path) || destination in StaticDestinations
  }

  /** Where the listener sends a request. `Throws` is a request URL the URL
      parser rejects: the listener throws before answering, so the browser
      handles the request as if it had not been intercepted. */
  datatype Route = Bypass | Throws | HtmlNetworkFirst | StaticCacheFirst | NetworkFirst

  /** The routing decision of the `fetch` listener. */
  function RouteOf(parse: Parser, r: Request): (route: Route)
    ensures Contains(r.url, BackendMark) <==> route == Bypass
    ensures route == Throws <==> !Contains(r.url, BackendMark) && parse(r.url).None?
    ensures route == HtmlNetworkFirst <==>
      !Contains(r.url, BackendMark) && parse(r.url).Some? && IsHtml(r)
    ensures route == StaticCacheFirst <==>
      !Contains(r.url, BackendMark) && parse(r.url).Some? && !IsHtml(r) &&
      IsStatic(parse(r.url).value.pathname, r.destination) && r.httpMethod == "GET"
  {
    if Contains(r.url, BackendMark) then Bypass
    else match parse(r.url)
      case None => Throws
      case Some(u) =>
        if IsHtml(r) then HtmlNetworkFirst
        else if IsStatic(u.pathname, r.destination) && r.httpMethod == "GET" then StaticCacheFirst
        else NetworkFirst
  }

  /** The backend check comes first: a backend URL is bypassed whatever the
      rest of the request says, even when the URL does not parse. */
  lemma BypassIgnoresRest(parse: Parser, r: Request, s: Request)
    requires Contains(r.url, BackendMark) && s.url == r.url
    ensures RouteOf(parse, r) == RouteOf(parse, s) == Bypass
  {
  }

  /** An HTML request is never treated as a static asset, whatever its path
      or destination. */
  lemma HtmlWinsOverStatic(parse: Parser, r: Request)
    requires !Contains(r.url, BackendMark) && parse(r.url).Some? && IsHtml(r)
    ensures RouteOf(parse, r) == HtmlNetworkFirst
    ensures RouteOf(parse, r) != StaticCacheFirst
  {
  }

  /** A static asset fetched with any method other than GET goes network
      first like every other request. */
  lemma NonGetStaticIsNetworkFirst(parse: Parser, r: Request)
    requires !Contains(r.url, BackendMark) && parse(r.url).Some? && !IsHtml(r)
    requires IsStatic(parse(r.url).value.pathname, r.destination) && r.httpMethod != "GET"
    ensures RouteOf(parse, r) == NetworkFirst
  {
  }

  /** The extension test ignores letter case. */
  lemma StaticExtensionIgnoresCase(path: string)
    ensures HasStaticExtension(path) <==> HasStaticExtension(Lower(path))
  {
    LowerIdempotent(path);
  }

  lemma LowerAppend(a: string, b: string)
    ensures Lower(a + b) == Lower(a) + Lower(b)
  {
  }

  /** A path ending in an extension of the list, in any letter case, is
      static; `woff2?` makes both `.woff` and `.woff2` static. */
  lemma ExtensionMakesStatic(stem: string, ext: string)
    requires ext in StaticExtensions
    ensures HasStaticExtension(stem + "." + ext)
  {
    LowerAppend(stem, "." + ext);
    assert stem + "." + ext == stem + ("." + ext);
    LowerOfLower("." + ext);
    assert IsSuffix("." + ext, Lower(stem + "." + ext));
  }

  // ---------------------------------------------------------------------------
  // The Cache API

  /** Cache names are unique in a storage. */
  predicate DistinctNames(s: Storage) {
    forall i, j :: 0 <= i < j < |s| ==> s[i].0 != s[j].0
  }

  /** `caches.match(url)`: the entry for `url` in the oldest cache holding one. */
  function MatchIn(s: Storage, url: string): (r: Option<Response>)
    ensures r.None? <==> forall k :: 0 <= k < |s| ==> url !in s[k].1
    ensures r.Some? ==> exists k :: 0 <= k < |s| && url in s[k].1 && s[k].1[url] == r.value &&
                                    forall j :: 0 <= j < k ==> url !in s[j].1
  {
    if s == [] then None
    else if url in s[0].1 then Some(s[0].1[url])
    else
      var r := MatchIn(s[1..], url);
      assert forall k :: 1 <= k < |s| ==> s[1..][k - 1] == s[k];
      if r.Some? then
        var k :| 0 <= k < |s[1..]| && url in s[1..][k].1 && s[1..][k].1[url] == r.value &&
                 forall j :: 0 <= j < k ==> url !in s[1..][j].1;
        assert s[k + 1] == s[1..][k];
        r
      else r
  }

  /** `caches.match(request)`: as `MatchIn` for a GET request; a request with
      any other method matches nothing. */
  function MatchRequest(s: Storage, r: Request): Option<Response> {
    if r.httpMethod == "GET" then MatchIn(s, r.url) else None
  }

  function CacheNameOf(c: (string, map<string, Response>)): string { c.0 }

  /** `caches.open(name)` followed by `cache.put(url, response)`: the first
      cache of that name gets the entry; without one, a cache holding just
      the entry is created at the end of the storage. */
  function Put(s: Storage, name: string, url: string, resp: Response): (r: Storage)
    ensures |r| == |s| || |r| == |s| + 1
    ensures forall k :: 0 <= k < |s| && s[k].0 != name ==> r[k] == s[k]
    ensures (forall k :: 0 <= k < |s| ==> s[k].0 != name) ==> r == s + [(name, map[url := resp])]
    ensures forall k :: 0 <= k < |s| && s[k].0 == name && (forall j :: 0 <= j < k ==> s[j].0 != name) ==>
                        r == s[k := (name, s[k].1[url := resp])]
    ensures exists k :: 0 <= k < |r| && r[k].0 == name && url in r[k].1 && r[k].1[url] == resp
  {
    var k := FindIndex(CacheNameOf, s, name);
    if k < 0 then
      var r := s + [(name, map[url := resp])];
      assert r[|s|].0 == name;
      r
    else
      var r := s[k := (name, s[k].1[url := resp])];
      assert r[k].0 == name;
      r
  }

  // ---------------------------------------------------------------------------
  // The fetch listener

  /** What the page receives: a network response, a cached one, or a network
      error (a rejected `fetch` or an empty cache lookup). */
  datatype Reply = FromNetwork(response: Response) | FromCache(response: Response) | NetworkError

  /** The listener's effect: `reply` is `None` when it does not answer (the
      browser fetches the request itself), and `storage` is the cache storage
      after the write, if any, completes. */
  datatype Outcome = Outcome(reply: Option<Reply>, storage: Storage)

  /** The fallback of the network-first strategies: the cached response if
      there is one, else a network error. */
  function CachedOr(found: Option<Response>): Reply {
    match found
    case Some(c) => FromCache(c)
    case None => NetworkError
  }

  /** The `fetch` listener for request `r`. `fetched` is what `fetch(r)`
      settles to (a `Failure` when it rejects) and `origin` the worker's
      origin, against which `'/index.html'` resolves. */
  function Handle(parse: Parser, origin: string, r: Request, s: Storage, fetched: Result<Response>): (o: Outcome)
    ensures o.reply.None? <==> RouteOf(parse, r) in {Bypass, Throws}
    ensures o.storage != s ==>
      RouteOf(parse, r) == StaticCacheFirst && MatchIn(s, r.url).None? && fetched.Success? && fetched.value.ok
    ensures o.reply.Some? && fetched.Success? && RouteOf(parse, r) != StaticCacheFirst ==>
      o.reply == Some(FromNetwork(fetched.value))
  {
    match RouteOf(parse, r)
    case Bypass => Outcome(None, s)
    case Throws => Outcome(None, s)
    case HtmlNetworkFirst =>
      if fetched.Success? then Outcome(Some(FromNetwork(fetched.value)), s)
      else Outcome(Some(CachedOr(MatchIn(s, origin + IndexPath))), s)
    case StaticCacheFirst =>
      (match MatchRequest(s, r)
       case Some(c) => Outcome(Some(FromCache(c)), s)
       case None =>
         if fetched.Failure? then Outcome(Some(NetworkError), s)
         else if fetched.value.ok then Outcome(Some(FromNetwork(fetched.value)), Put(s, CacheName, r.url, fetched.value))
         else Outcome(Some(FromNetwork(fetched.value)), s))
    case NetworkFirst =>
      if fetched.Success? then Outcome(Some(FromNetwork(fetched.value)), s)
      else Outcome(Some(CachedOr(MatchRequest(s, r))), s)
  }

  /** HTML is network first with the cached index page as the offline
      fallback, and is never written to the cache. */
  lemma HtmlStrategy(parse: Parser, origin: string, r: Request, s: Storage, fetched: Result<Response>)
    requires RouteOf(parse, r) == HtmlNetworkFirst
    ensures var o := Handle(parse, origin, r, s, fetched);
      && o.storage == s
      && (fetched.Success? ==> o.reply == Some(FromNetwork(fetched.value)))
      && (fetched.Failure? && MatchIn(s, origin + IndexPath).Some? ==>
            o.reply == Some(FromCache(MatchIn(s, origin + IndexPath).value)))
      && (fetched.Failure? && MatchIn(s, origin + IndexPath).None? ==> o.reply == Some(NetworkError))
  {
  }

  /** A static GET is answered from the cache without touching the network
      when any cache holds its URL; otherwise from the network, storing the
      response in the worker's cache exactly when it is `ok`. */
  lemma StaticStrategy(parse: Parser, origin: string, r: Request, s: Storage, fetched: Result<Response>)
    requires RouteOf(parse, r) == StaticCacheFirst
    ensures var o := Handle(parse, origin, r, s, fetched);
      && (MatchIn(s, r.url).Some? ==> o == Outcome(Some(FromCache(MatchIn(s, r.url).value)), s))
      && (MatchIn(s, r.url).None? && fetched.Success? ==>
            o.reply == Some(FromNetwork(fetched.value)) &&
            o.storage == (if fetched.value.ok then Put(s, CacheName, r.url, fetched.value) else s))
      && (MatchIn(s, r.url).None? && fetched.Failure? ==> o == Outcome(Some(NetworkError), s))
  {
  }

  /** Every other request is network first, falls back to whatever the
      caches hold for it, and is never stored. */
  lemma OtherStrategy(parse: Parser, origin: string, r: Request, s: Storage, fetched: Result<Response>)
    requires RouteOf(parse, r) == NetworkFirst
    ensures var o := Handle(parse, origin, r, s, fetched);
      && o.storage == s
      && (fetched.Failure? && r.httpMethod != "GET" ==> o.reply == Some(NetworkError))
      && (fetched.Failure? && r.httpMethod == "GET" ==> o.reply == Some(CachedOr(MatchIn(s, r.url))))
  {
  }

  // ---------------------------------------------------------------------------
  // The activate listener

  function IsCurrent(c: (string, map<string, Response>)): bool {
    c.0 == CacheName
  }

  /** `activate`: delete every cache whose name is not `CACHE_NAME`. */
  function Evict(s: Storage): (r: Storage)
    ensures forall c :: c in r <==> c in s && c.0 == CacheName
  {
    FilterMembers(IsCurrent, s);
    Filter(IsCurrent, s)
  }

  /** Activation again deletes nothing more. */
  lemma EvictIdempotent(s: Storage)
    ensures Evict(Evict(s)) == Evict(s)
  {
    FilterIdempotent(IsCurrent, s);
  }

  /** After activation a static asset that missed the cache and came back
      `ok` is answered from the cache the next time, without the network. */
  lemma StoredAssetServedNext(parse: Parser, origin: string, r: Request, s: Storage,
                              resp: Response, later: Result<Response>)
    requires RouteOf(parse, r) == StaticCacheFirst
    requires MatchIn(Evict(s), r.url).None? && resp.ok
    ensures var s1 := Handle(parse, origin, r, Evict(s), Success(resp)).storage;
      Handle(parse, origin, r, s1, later) == Outcome(Some(FromCache(resp)), s1)
  {
    var e := Evict(s);
    var s1 := Put(e, CacheName, r.url, resp);
    assert Handle(parse, origin, r, e, Success(resp)).storage == s1;
    PutIntoCurrent(e, r.url, resp);
  }

  /** Putting into the worker's cache of an activated storage makes the entry
      the one `caches.match` finds. */
  lemma {:induction false} PutIntoCurrent(s: Storage, url: string, resp: Response)
    requires forall k :: 0 <= k < |s| ==> s[k].0 == CacheName
    requires MatchIn(s, url).None?
    ensures MatchIn(Put(s, CacheName, url, resp), url) == Some(resp)
  {
    if s != [] {
      assert s[0].0 == CacheName;
    }
  }
}
