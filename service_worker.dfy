// The service worker of public/sw.js: which fetches it intercepts, which of
// three caching strategies it picks for a URL, the strategies themselves over
// the Cache Storage, and the install and activate steps.
//
// The regular expressions of the source are written out as `Pattern` values
// with an explicit meaning.  The network is a parameter: `None` when `fetch`
// rejects, otherwise the response it resolved with.  `cache.put` is not
// awaited by the source; the model applies it within the same step.

module ServiceWorker {
  import opened Common

  const CacheName: string := "yara-agency-v1"
  const StaticCache: string := "static-v1"
  const DynamicCache: string := "dynamic-v1"

  /** The paths cached on install, resolved against the worker's origin. */
  const StaticAssets: seq<string> := ["/", "/about", "/services", "/portfolio", "/contact", "/blog", "/manifest.json"]

  datatype Response = Response(status: int, body: string)

  /** `response.ok`: a status in 200..299. */
  predicate Ok(r: Response)
  {
    200 <= r.status <= 299
  }

  function Offline(): Response
  {
    Response(503, "Offline - Resource not available")
  }

  /** A request as the fetch handler sees it; `navigate` is `mode === 'navigate'`. */
  datatype Request = Request(verb: string, url: string, navigate: bool)

  // ---------------------------------------------------------------------
  // URL patterns

  /** The shapes of the source's regular expressions:
    *   DotSuffix(exts)      `\.(?:e1|e2|...)$`
    *   Sub(t)               the literal `t` anywhere
    *   Gap(first, second)   `first.*second` (`.` stops at a line terminator)
    *   SiteRoot             `^https:\/\/[^\/]+\/?$` */
  datatype Pattern = DotSuffix(exts: seq<string>) | Sub(text: string) | Gap(first: string, second: string) | SiteRoot

  /** No line terminator in `s[a..b]`. */
  predicate OneLine(s: string, a: int, b: int)
    requires 0 <= a <= b <= |s|
  {
    forall k :: a <= k < b ==> !IsLineTerminator(s[k])
  }

  /** A host with an optional trailing '/': non-empty and free of '/'. */
  predicate HostOnly(r: string)
  {
    var host := if r != [] && r[|r| - 1] == '/' then r[..|r| - 1] else r;
    host != [] && '/' !in host
  }

  predicate Test(p: Pattern, url: string)
  {
    match p
    case DotSuffix(exts) => exists i :: 0 <= i < |exts| && EndsWith(url, "." + exts[i])
    case Sub(t) => Contains(url, t)
    case Gap(first, second) =>
      exists i, j | 0 <= i <= |url| && 0 <= j <= |url| ::
        OccursAt(url, first, i) && OccursAt(url, second, j) && i + |first| <= j && OneLine(url, i + |first|, j)
    case SiteRoot => StartsWith(url, "https://") && HostOnly(url[8..])
  }

  /** Whether any pattern of the list matches. */
  predicate AnyTest(ps: seq<Pattern>, url: string)
  {
    exists i :: 0 <= i < |ps| && Test(ps[i], url)
  }

  const StaticPatterns: seq<Pattern> := [
    DotSuffix(["png", "jpg", "jpeg", "svg", "gif", "webp", "ico"]),
    DotSuffix(["woff", "woff2", "ttf", "eot"]),
    DotSuffix(["css", "js"])]

  const NetworkFirstPatterns: seq<Pattern> := [Sub("/api/"), Sub("supabase"), Sub("/auth"), Sub("/admin"), Sub("/profile")]

  const StaleWhileRevalidatePatterns: seq<Pattern> :=
    [SiteRoot, Sub("/about"), Sub("/services"), Sub("/portfolio"), Sub("/contact"), Sub("/blog")]

  const SensitivePatterns: seq<Pattern> :=
    [Sub("/auth"), Sub("/admin"), Sub("/profile"), Gap("supabase", "/auth/"), Gap("supabase", "/functions/")]

  /** The loop `for (const pattern of ps) if (pattern.test(url)) ...`. */
  method FindMatch(ps: seq<Pattern>, url: string) returns (found: bool)
    ensures found <==> AnyTest(ps, url)
  {
    var i := 0;
    while i < |ps|
      invariant 0 <= i <= |ps|
      invariant forall j :: 0 <= j < i ==> !Test(ps[j], url)
    {
      if Test(ps[i], url) {
        return true;
      }
      i := i + 1;
    }
    return false;
  }

  /** `/supabase.*\/auth\//` adds nothing to the sensitive list: every URL it
    * matches already contains "/auth". */
  lemma SupabaseAuthRedundant(url: string)
    ensures Test(Gap("supabase", "/auth/"), url) ==> Test(Sub("/auth"), url)
  {
    if Test(Gap("supabase", "/auth/"), url) {
      var i, j :| 0 <= i <= |url| && 0 <= j <= |url| &&
        OccursAt(url, "supabase", i) && OccursAt(url, "/auth/", j) && i + 8 <= j && OneLine(url, i + 8, j);
      assert url[j..j + 5] == url[j..j + 6][..5];
      assert OccursAt(url, "/auth", j);
    }
  }

  // ---------------------------------------------------------------------
  // Interception

  /** The scheme of the URL with its ':' (`url.protocol`), lower-cased as the URL
    * parser does; empty when there is no ':'. */
  function Protocol(url: string): string
  {
    if ':' in url then Lower(url[..IndexOf(url, ':') + 1]) else ""
  }

  /** The fetch handler answers a request itself only for a GET to an http(s) URL
    * that no sensitive pattern matches. */
  predicate Intercepts(req: Request)
  {
    req.verb == "GET" && StartsWith(Protocol(req.url), "http") && !AnyTest(SensitivePatterns, req.url)
  }

  /** Any URL with "/auth", "/admin" or "/profile" in it (which includes, for
    * instance, "/authors") is left to the browser and never cached. */
  lemma SensitiveLeftAlone(req: Request)
    requires Contains(req.url, "/auth") || Contains(req.url, "/admin") || Contains(req.url, "/profile")
    ensures !Intercepts(req)
  {
    if Contains(req.url, "/auth") {
      assert Test(SensitivePatterns[0], req.url);
    } else if Contains(req.url, "/admin") {
      assert Test(SensitivePatterns[1], req.url);
    } else {
      assert Test(SensitivePatterns[2], req.url);
    }
  }

  /** The three strategies, and the strings `getCacheStrategy` returns for them. */
  datatype Strategy = CacheFirst | NetworkFirst | StaleWhileRevalidate

  function StrategyName(s: Strategy): string
  {
    match s
    case CacheFirst => "cacheFirst"
    case NetworkFirst => "networkFirst"
    case StaleWhileRevalidate => "staleWhileRevalidate"
  }

  /** `getCacheStrategy`: the static patterns win, then the network-first ones,
    * then the stale-while-revalidate ones; anything else is network-first. */
  function StrategyFor(url: string): (s: Strategy)
    ensures s == CacheFirst <==> AnyTest(StaticPatterns, url)
    ensures s == StaleWhileRevalidate <==>
      !AnyTest(StaticPatterns, url) && !AnyTest(NetworkFirstPatterns, url) && AnyTest(StaleWhileRevalidatePatterns, url)
  {
    if AnyTest(StaticPatterns, url) then CacheFirst
    else if AnyTest(NetworkFirstPatterns, url) then NetworkFirst
    else if AnyTest(StaleWhileRevalidatePatterns, url) then StaleWhileRevalidate
    else NetworkFirst
  }

  method GetCacheStrategy(url: string) returns (s: Strategy)
    ensures s == StrategyFor(url)
  {
    var hit := FindMatch(StaticPatterns, url);
    if hit {
      return CacheFirst;
    }
    hit := FindMatch(NetworkFirstPatterns, url);
    if hit {
      return NetworkFirst;
    }
    hit := FindMatch(StaleWhileRevalidatePatterns, url);
    if hit {
      return StaleWhileRevalidate;
    }
    return NetworkFirst;
  }

  /** The `switch` of `handleRequest`: an unknown name falls back to network-first. */
  function Dispatch(name: string): (s: Strategy)
    ensures name != "cacheFirst" && name != "staleWhileRevalidate" ==> s == NetworkFirst
  {
    if name == "cacheFirst" then CacheFirst
    else if name == "networkFirst" then NetworkFirst
    else if name == "staleWhileRevalidate" then StaleWhileRevalidate
    else NetworkFirst
  }

  lemma DispatchName(s: Strategy)
    ensures Dispatch(StrategyName(s)) == s
  {
  }

  /** A site asset with a static extension is cache-first whatever else its URL holds. */
  lemma ImageIsCacheFirst(url: string)
    requires EndsWith(url, ".png")
    ensures StrategyFor(url) == CacheFirst
  {
    assert Test(StaticPatterns[0], url) by {
      assert StaticPatterns[0].exts[0] == "png";
    }
  }

  // ---------------------------------------------------------------------
  // Cache Storage

  /** Cache name to (request URL to response). */
  type Caches = map<string, map<string, Response>>

  /** `caches.open(name)` creates the cache when it does not exist. */
  function Open(cs: Caches, name: string): (r: Caches)
    ensures name in r && r.Keys == cs.Keys + {name}
    ensures forall n :: n in cs ==> r[n] == cs[n]
  {
    if name in cs then cs else cs[name := map[]]
  }

  function Lookup(cs: Caches, name: string, key: string): (r: Option<Response>)
    ensures r.Some? <==> name in cs && key in cs[name]
  {
    if name in cs && key in cs[name] then Some(cs[name][key]) else None
  }

  function CachePut(cs: Caches, name: string, key: string, r: Response): (c: Caches)
    ensures Lookup(c, name, key) == Some(r)
    ensures forall n, k :: (n != name || k != key) ==> Lookup(c, n, k) == Lookup(cs, n, k)
  {
    cs[name := (if name in cs then cs[name] else map[])[key := r]]
  }

  /** Every stored response is ok. */
  predicate AllOk(cs: Caches)
  {
    forall n, k :: n in cs && k in cs[n] ==> Ok(cs[n][k])
  }

  lemma CachePutOk(cs: Caches, name: string, key: string, r: Response)
    requires AllOk(cs) && Ok(r)
    ensures AllOk(CachePut(cs, name, key, r))
  {
    var c := CachePut(cs, name, key, r);
    forall n, k | n in c && k in c[n]
      ensures Ok(c[n][k])
    {
      assert Lookup(c, n, k) == Some(c[n][k]);
    }
  }

  lemma OpenOk(cs: Caches, name: string)
    requires AllOk(cs)
    ensures AllOk(Open(cs, name))
  {
  }

  /** A cache, a response and the caches afterwards. */
  datatype Served = Served(response: Response, caches: Caches)

  /** `cacheFirst`: the static cache's entry, else the network response (stored
    * when ok), else the offline 503. */
  function CacheFirstSpec(cs: Caches, url: string, network: Option<Response>): Served
  {
    var c := Open(cs, StaticCache);
    match Lookup(c, StaticCache, url)
    case Some(hit) => Served(hit, c)
    case None =>
      match network
      case None => Served(Offline(), c)
      case Some(r) => Served(r, if Ok(r) then CachePut(c, StaticCache, url, r) else c)
  }

  /** `networkFirst`: the network response (stored in the dynamic cache when ok);
    * on a network failure the cached entry, then the cached '/' for a
    * navigation, then the offline 503.  The dynamic cache is opened only to
    * store an ok response or to read from it after a network failure. */
  function NetworkFirstSpec(cs: Caches, root: string, req: Request, network: Option<Response>): (s: Served)
    ensures network.Some? ==> s.response == network.value
    ensures network.Some? && !Ok(network.value) ==> s.caches == cs
    ensures network.Some? && Ok(network.value) ==>
              s.caches == CachePut(Open(cs, DynamicCache), DynamicCache, req.url, network.value)
    ensures network.None? ==> s.caches == Open(cs, DynamicCache)
  {
    match network
    case Some(r) => if Ok(r) then Served(r, CachePut(Open(cs, DynamicCache), DynamicCache, req.url, r)) else Served(r, cs)
    case None =>
      var c := Open(cs, DynamicCache);
      match Lookup(c, DynamicCache, req.url)
      case Some(hit) => Served(hit, c)
      case None =>
        if req.navigate && Lookup(c, DynamicCache, root).Some? then Served(Lookup(c, DynamicCache, root).value, c)
        else Served(Offline(), c)
  }

  /** `staleWhileRevalidate`: the cached entry at once when there is one, else the
    * network response, else the offline 503; an ok network response refreshes
    * the dynamic cache in either case. */
  function StaleWhileRevalidateSpec(cs: Caches, url: string, network: Option<Response>): Served
  {
    var c := Open(cs, DynamicCache);
    var after := if network.Some? && Ok(network.value) then CachePut(c, DynamicCache, url, network.value) else c;
    match Lookup(c, DynamicCache, url)
    case Some(hit) => Served(hit, after)
    case None => Served(if network.Some? then network.value else Offline(), after)
  }

  function HandleSpec(cs: Caches, root: string, req: Request, name: string, network: Option<Response>): Served
  {
    match Dispatch(name)
    case CacheFirst => CacheFirstSpec(cs, req.url, network)
    case NetworkFirst => NetworkFirstSpec(cs, root, req, network)
    case StaleWhileRevalidate => StaleWhileRevalidateSpec(cs, req.url, network)
  }

  /** Each strategy stores only ok responses, so a cache holding only ok
    * responses keeps holding only ok responses. */
  lemma HandleKeepsOk(cs: Caches, root: string, req: Request, name: string, network: Option<Response>)
    requires AllOk(cs)
    ensures AllOk(HandleSpec(cs, root, req, name, network).caches)
  {
    var stored := network.Some? && Ok(network.value);
    match Dispatch(name)
    case CacheFirst =>
      OpenOk(cs, StaticCache);
      if stored {
        CachePutOk(Open(cs, StaticCache), StaticCache, req.url, network.value);
      }
    case _ =>
      OpenOk(cs, DynamicCache);
      if stored {
        CachePutOk(Open(cs, DynamicCache), DynamicCache, req.url, network.value);
      }
  }

  /** What a strategy answers with is a cached entry, the network's response or
    * the offline 503; a cache-first or stale-while-revalidate hit is answered from
    * the cache whatever the network does. */
  lemma CacheHitServed(cs: Caches, url: string, network: Option<Response>)
    ensures Lookup(cs, StaticCache, url).Some? ==>
      CacheFirstSpec(cs, url, network).response == Lookup(cs, StaticCache, url).value
    ensures Lookup(cs, DynamicCache, url).Some? ==>
      StaleWhileRevalidateSpec(cs, url, network).response == Lookup(cs, DynamicCache, url).value
  {
  }

  /** With a working network, network-first always answers with the network's
    * response; only when it fails does a cached entry or the 503 appear. */
  lemma NetworkFirstPrefersNetwork(cs: Caches, root: string, req: Request, network: Option<Response>)
    ensures network.Some? ==> NetworkFirstSpec(cs, root, req, network).response == network.value
    ensures (network.None? && Lookup(cs, DynamicCache, req.url).None?
             && (!req.navigate || Lookup(cs, DynamicCache, root).None?)) ==>
      NetworkFirstSpec(cs, root, req, network).response == Offline()
  {
  }

  /** The caches an activation keeps. */
  predicate Known(name: string)
  {
    name == CacheName || name == StaticCache || name == DynamicCache
  }

  /** `activate`: every cache whose name is not one of the three known names is deleted. */
  function Activated(cs: Caches): (r: Caches)
    ensures forall n :: n in r <==> n in cs && Known(n)
    ensures forall n :: n in r ==> r[n] == cs[n]
  {
    map n | n in cs && Known(n) :: cs[n]
  }

  /** `install`: `cache.addAll` stores every asset, or none when one fetch fails or
    * is not ok. */
  predicate AllFetched(fetched: seq<Option<Response>>)
  {
    forall i :: 0 <= i < |fetched| ==> fetched[i].Some? && Ok(fetched[i].value)
  }

  function StoreAll(cs: Caches, keys: seq<string>, fetched: seq<Option<Response>>): Caches
    requires |keys| == |fetched| && AllFetched(fetched)
    decreases |keys|
  {
    if keys == [] then cs
    else StoreAll(CachePut(cs, StaticCache, keys[0], fetched[0].value), keys[1..], fetched[1..])
  }

  function Resolve(origin: string, paths: seq<string>): (r: seq<string>)
    ensures |r| == |paths|
    ensures forall i :: 0 <= i < |paths| ==> r[i] == origin + paths[i]
  {
    seq(|paths|, i requires 0 <= i < |paths| => origin + paths[i])
  }

  function Installed(cs: Caches, origin: string, fetched: seq<Option<Response>>): Caches
    requires |fetched| == |StaticAssets|
  {
    var c := Open(cs, StaticCache);
    if AllFetched(fetched) then StoreAll(c, Resolve(origin, StaticAssets), fetched) else c
  }

  lemma {:induction false} StoreAllFacts(cs: Caches, keys: seq<string>, fetched: seq<Option<Response>>)
    requires |keys| == |fetched| && AllFetched(fetched) && AllOk(cs)
    ensures AllOk(StoreAll(cs, keys, fetched))
    ensures forall k :: k in keys ==> Lookup(StoreAll(cs, keys, fetched), StaticCache, k).Some?
    decreases |keys|
  {
    if keys != [] {
      CachePutOk(cs, StaticCache, keys[0], fetched[0].value);
      var c := CachePut(cs, StaticCache, keys[0], fetched[0].value);
      StoreAllFacts(c, keys[1..], fetched[1..]);
      StoreAllKeeps(c, keys[1..], fetched[1..], keys[0]);
    }
  }

  lemma {:induction false} StoreAllKeeps(cs: Caches, keys: seq<string>, fetched: seq<Option<Response>>, k: string)
    requires |keys| == |fetched| && AllFetched(fetched)
    requires Lookup(cs, StaticCache, k).Some?
    ensures Lookup(StoreAll(cs, keys, fetched), StaticCache, k).Some?
    decreases |keys|
  {
    if keys != [] {
      StoreAllKeeps(CachePut(cs, StaticCache, keys[0], fetched[0].value), keys[1..], fetched[1..], k);
    }
  }

  /** After a successful install every static asset is cached, and the cache still
    * holds only ok responses; a failed install stores nothing. */
  lemma InstallFacts(cs: Caches, origin: string, fetched: seq<Option<Response>>)
    requires |fetched| == |StaticAssets| && AllOk(cs)
    ensures AllOk(Installed(cs, origin, fetched))
    ensures AllFetched(fetched) ==>
      forall i :: 0 <= i < |StaticAssets| ==> Lookup(Installed(cs, origin, fetched), StaticCache, origin + StaticAssets[i]).Some?
    ensures !AllFetched(fetched) ==> Installed(cs, origin, fetched) == Open(cs, StaticCache)
  {
    OpenOk(cs, StaticCache);
    if AllFetched(fetched) {
      var keys := Resolve(origin, StaticAssets);
      StoreAllFacts(Open(cs, StaticCache), keys, fetched);
      assert forall i :: 0 <= i < |StaticAssets| ==> origin + StaticAssets[i] == keys[i];
    }
  }

  /** The worker: its origin (against which '/' and the static assets resolve)
    * and the Cache Storage it manages. */
  class Worker {
    const origin: string
    var caches: Caches

    constructor(origin: string, existing: Caches)
      ensures this.origin == origin && caches == existing
    {
      this.origin := origin;
      caches := existing;
    }

    method Install(fetched: seq<Option<Response>>)
      requires |fetched| == |StaticAssets|
      modifies this
      ensures caches == Installed(old(caches), origin, fetched)
    {
      caches := Open(caches, StaticCache);
      if AllFetched(fetched) {
        var keys := Resolve(origin, StaticAssets);
        var i := 0;
        ghost var start := caches;
        while i < |keys|
          invariant 0 <= i <= |keys|
          invariant StoreAll(start, keys, fetched) == StoreAll(caches, keys[i..], fetched[i..])
        {
          assert keys[i..][1..] == keys[i + 1..] && fetched[i..][1..] == fetched[i + 1..];
          caches := CachePut(caches, StaticCache, keys[i], fetched[i].value);
          i := i + 1;
        }
      }
    }

    method Activate()
      modifies this
      ensures caches == Activated(old(caches))
    {
      var names := caches.Keys;
      var kept := caches;
      while names != {}
        invariant names <= caches.Keys
        invariant forall n :: n in kept <==> n in caches && (Known(n) || n in names)
        invariant forall n :: n in kept ==> kept[n] == caches[n]
        decreases names
      {
        var n :| n in names;
        if !Known(n) {
          kept := map m | m in kept && m != n :: kept[m];
        }
        names := names - {n};
      }
      caches := kept;
    }

    method CacheFirstFetch(url: string, network: Option<Response>) returns (response: Response)
      modifies this
      ensures Served(response, caches) == CacheFirstSpec(old(caches), url, network)
    {
      caches := Open(caches, StaticCache);
      var cached := Lookup(caches, StaticCache, url);
      if cached.Some? {
        return cached.value;
      }
      if network.None? {
        return Offline();
      }
      response := network.value;
      if Ok(response) {
        caches := CachePut(caches, StaticCache, url, response);
      }
    }

    method NetworkFirstFetch(req: Request, network: Option<Response>) returns (response: Response)
      modifies this
      ensures Served(response, caches) == NetworkFirstSpec(old(caches), origin + "/", req, network)
    {
      if network.Some? {
        response := network.value;
        if Ok(response) {
          caches := Open(caches, DynamicCache);
          caches := CachePut(caches, DynamicCache, req.url, response);
        }
        return;
      }
      caches := Open(caches, DynamicCache);
      var cached := Lookup(caches, DynamicCache, req.url);
      if cached.Some? {
        return cached.value;
      }
      if req.navigate {
        var offline := Lookup(caches, DynamicCache, origin + "/");
        if offline.Some? {
          return offline.value;
        }
      }
      return Offline();
    }

    method StaleWhileRevalidateFetch(url: string, network: Option<Response>) returns (response: Response)
      modifies this
      ensures Served(response, caches) == StaleWhileRevalidateSpec(old(caches), url, network)
    {
      caches := Open(caches, DynamicCache);
      var cached := Lookup(caches, DynamicCache, url);
      if network.Some? && Ok(network.value) {
        caches := CachePut(caches, DynamicCache, url, network.value);
      }
      if cached.Some? {
        return cached.value;
      }
      if network.Some? {
        return network.value;
      }
      return Offline();
    }

    method HandleRequest(req: Request, name: string, network: Option<Response>) returns (response: Response)
      modifies this
      ensures Served(response, caches) == HandleSpec(old(caches), origin + "/", req, name, network)
    {
      if name == "cacheFirst" {
        response := CacheFirstFetch(req.url, network);
      } else if name == "networkFirst" {
        response := NetworkFirstFetch(req, network);
      } else if name == "staleWhileRevalidate" {
        response := StaleWhileRevalidateFetch(req.url, network);
      } else {
        response := NetworkFirstFetch(req, network);
      }
    }

    /** The fetch listener: `None` when the request is left to the browser. */
    method OnFetch(req: Request, network: Option<Response>) returns (answer: Option<Response>)
      modifies this
      ensures !Intercepts(req) ==> answer.None? && caches == old(caches)
      ensures Intercepts(req) ==> (answer.Some? &&
        Served(answer.value, caches) == HandleSpec(old(caches), origin + "/", req, StrategyName(StrategyFor(req.url)), network))
    {
      if req.verb != "GET" {
        return None;
      }
      if !StartsWith(Protocol(req.url), "http") {
        return None;
      }
      var sensitive := FindMatch(SensitivePatterns, req.url);
      if sensitive {
        return None;
      }
      var strategy := GetCacheStrategy(req.url);
      var response := HandleRequest(req, StrategyName(strategy), network);
      return Some(response);
    }
  }
}
