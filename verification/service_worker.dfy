/**
 * The service worker `sw.js`: install and activate lifecycle, the fetch router and its three
 * caching strategies, background sync of the outbox, and the message commands.
 *
 * URLs are written relative to the worker's origin. The URL parser is not modelled, so a
 * request carries its `pathname` beside its full `url`; the cache key is the `url`.
 */
module ServiceWorker {
  import opened Maybe
  import opened Http
  import opened Text
  import opened Store
  import Seqs

  const CacheName := "quest-academy-v1"
  const StaticCache := "quest-academy-static-v1"
  const DynamicCache := "quest-academy-dynamic-v1"

  /** The pages and files cached at install time. */
  const StaticAssets := ["/", "/teacher", "/manifest.json", "/icon-192.png", "/icon-512.png", "/student-avatar.png"]

  /** The body of the synthetic response for an API request that cannot reach the network. */
  const OfflineApiBody := "{\"error\":\"Offline\",\"message\":\"This feature requires internet connection\",\"offline\":true}"

  /** The body of the hard-coded placeholder page. */
  const OfflinePageBody := "Offline - Please check your connection"

  /** The request fields the router reads. */
  datatype Request = Request(httpMethod: string, url: string, pathname: string, destination: string, mode: string)

  /** How a fetch event is answered. `Passthrough` means the worker does not call `respondWith`. */
  datatype Strategy = Passthrough | NetworkFirst | CacheFirst | StaleWhileRevalidate

  /** What the page receives: a response, a promise that resolved to `null`, a rejection, or the browser's own fetch. */
  datatype Reply = Served(response: Response) | NullResponse | Rejected | Default

  /** A strategy's result: the reply, the cache storage afterwards, and whether the network was asked. */
  datatype Handled = Handled(reply: Reply, caches: CacheStorage, fetched: bool)

  /** One cache of the Cache Storage: its name and its entries keyed by URL. */
  datatype NamedCache = NamedCache(name: string, entries: map<string, Response>)

  /** The worker's Cache Storage, in order of creation, which is the order `caches.match` searches. */
  type CacheStorage = seq<NamedCache>

  // ---------------------------------------------------------------------------------------
  // Routing
  // ---------------------------------------------------------------------------------------

  /** Data API requests: the pathname starts with "/api/". */
  predicate IsApi(req: Request) {
    StartsWith(req.pathname, "/api/")
  }

  /** Static assets: images, scripts and styles, and anything under "/_next/static/". */
  predicate IsStaticAsset(req: Request) {
    || req.destination == "image"
    || req.destination == "script"
    || req.destination == "style"
    || Includes(req.pathname, "/_next/static/")
  }

  /**
   * The fetch listener's dispatch, tried in order: non-GET requests pass through, API
   * requests go network-first, assets cache-first, navigations stale-while-revalidate, and
   * everything else network-first.
   */
  function Route(req: Request): (s: Strategy)
    ensures s == Passthrough <==> req.httpMethod != "GET"
    ensures s == NetworkFirst <==> req.httpMethod == "GET" && (IsApi(req) || (!IsStaticAsset(req) && req.mode != "navigate"))
    ensures s == CacheFirst <==> req.httpMethod == "GET" && !IsApi(req) && IsStaticAsset(req)
    ensures s == StaleWhileRevalidate <==> req.httpMethod == "GET" && !IsApi(req) && !IsStaticAsset(req) && req.mode == "navigate"
  {
    if req.httpMethod != "GET" then Passthrough
    else if IsApi(req) then NetworkFirst
    else if IsStaticAsset(req) then CacheFirst
    else if req.mode == "navigate" then StaleWhileRevalidate
    else NetworkFirst
  }

  // ---------------------------------------------------------------------------------------
  // Cache Storage
  // ---------------------------------------------------------------------------------------

  /** The position of the cache called `name`, if it exists. */
  function Find(cs: CacheStorage, name: string): (r: Option<nat>)
    ensures r.Some? ==> r.value < |cs| && cs[r.value].name == name
    ensures r.Some? ==> forall j :: 0 <= j < r.value ==> cs[j].name != name
    ensures r.None? ==> forall j :: 0 <= j < |cs| ==> cs[j].name != name
  {
    if |cs| == 0 then None
    else if cs[0].name == name then Some(0)
    else
      var rest := Find(cs[1..], name);
      if rest.Some? then Some(rest.value + 1) else None
  }

  /** The position of the first cache, in creation order, that holds `url`. */
  function FirstHolding(cs: CacheStorage, url: string): (r: Option<nat>)
    ensures r.Some? ==> r.value < |cs| && url in cs[r.value].entries
    ensures r.Some? ==> forall j :: 0 <= j < r.value ==> url !in cs[j].entries
    ensures r.None? ==> forall j :: 0 <= j < |cs| ==> url !in cs[j].entries
  {
    if |cs| == 0 then None
    else if url in cs[0].entries then Some(0)
    else
      var rest := FirstHolding(cs[1..], url);
      if rest.Some? then Some(rest.value + 1) else None
  }

  /** `caches.match(url)`: the entry of the oldest cache that holds `url`. */
  function Match(cs: CacheStorage, url: string): (r: Option<Response>)
    ensures r.None? <==> forall j :: 0 <= j < |cs| ==> url !in cs[j].entries
    ensures r.Some? ==> exists j :: 0 <= j < |cs| && url in cs[j].entries && r.value == cs[j].entries[url] &&
                                    forall k :: 0 <= k < j ==> url !in cs[k].entries
  {
    var i := FirstHolding(cs, url);
    if i.Some? then Some(cs[i.value].entries[url]) else None
  }

  /** `caches.open(name)`: the cache called `name`, created empty at the end if it does not exist. */
  function Open(cs: CacheStorage, name: string): (r: CacheStorage)
    ensures Find(r, name).Some?
    ensures Find(cs, name).Some? ==> r == cs
    ensures Find(cs, name).None? ==> r == cs + [NamedCache(name, map[])]
  {
    if Find(cs, name).Some? then cs
    else
      FindAppended(cs, NamedCache(name, map[]));
      cs + [NamedCache(name, map[])]
  }

  /** A cache appended under a new name is found at the end. */
  lemma {:induction false} FindAppended(cs: CacheStorage, c: NamedCache)
    requires Find(cs, c.name).None?
    ensures Find(cs + [c], c.name) == Some(|cs|)
    decreases |cs|
  {
    if |cs| > 0 {
      assert (cs + [c])[1..] == cs[1..] + [c];
      FindAppended(cs[1..], c);
    }
  }

  /** `caches.open(name).then(c => c.put(url, resp))`: only the cache called `name` changes, at `url` only. */
  function Put(cs: CacheStorage, name: string, url: string, resp: Response): (r: CacheStorage)
    ensures |r| == |Open(cs, name)|
    ensures Find(r, name) == Find(Open(cs, name), name)
    ensures var i := Find(r, name).value;
            r[i].entries == Open(cs, name)[i].entries[url := resp]
    ensures forall j :: 0 <= j < |r| && r[j].name != name ==> r[j] == Open(cs, name)[j]
    ensures forall j :: 0 <= j < |r| ==> r[j].name == Open(cs, name)[j].name
  {
    var live := Open(cs, name);
    var i := Find(live, name).value;
    var r := live[i := live[i].(entries := live[i].entries[url := resp])];
    assert Find(r, name) == Find(live, name) by {
      FindSameNames(r, live, name);
    }
    r
  }

  /** Caches with the same names in the same order are searched alike by name. */
  lemma {:induction false} FindSameNames(a: CacheStorage, b: CacheStorage, name: string)
    requires |a| == |b| && forall j :: 0 <= j < |a| ==> a[j].name == b[j].name
    ensures Find(a, name) == Find(b, name)
    decreases |a|
  {
    if |a| > 0 {
      FindSameNames(a[1..], b[1..], name);
    }
  }

  /**
   * A put is seen by `caches.match` unless an older cache already holds the URL: an entry
   * in the static cache shadows the same URL stored later in the dynamic cache.
   */
  lemma PutThenMatch(cs: CacheStorage, name: string, url: string, resp: Response)
    ensures var i := Find(Open(cs, name), name).value;
            var first := FirstHolding(cs, url);
            Match(Put(cs, name, url, resp), url)
            == if first.Some? && first.value < i then Some(cs[first.value].entries[url]) else Some(resp)
  {
    var live := Open(cs, name);
    var i := Find(live, name).value;
    var r := Put(cs, name, url, resp);
    var first := FirstHolding(cs, url);
    assert forall j :: 0 <= j < |cs| ==> live[j] == cs[j];
    var got := FirstHolding(r, url);
    assert url in r[i].entries;
    if first.Some? && first.value < i {
      assert r[first.value] == cs[first.value];
      assert got == first;
    } else {
      assert forall j :: 0 <= j < i ==> url !in r[j].entries by {
        forall j | 0 <= j < i ensures url !in r[j].entries {
          assert r[j] == live[j];
        }
      }
      assert got == Some(i);
    }
  }

  // ---------------------------------------------------------------------------------------
  // Strategies
  // ---------------------------------------------------------------------------------------

  /** The 503 JSON response network-first synthesises for an API request it cannot serve. */
  function OfflineApiResponse(): (r: Response)
    ensures r.status == 503 && !r.Ok()
  {
    Response(503, OfflineApiBody)
  }

  /**
   * `networkFirstStrategy`: the network's answer is returned whatever its status and stored in
   * the dynamic cache only when `ok`; on a network error the cached copy, else the 503 JSON
   * response when the full URL contains "/api/", else the error is rethrown.
   */
  function NetworkFirstStrategy(req: Request, cs: CacheStorage, net: Fetch): (r: Handled)
    ensures r.fetched
    ensures net.Responded? ==> r.reply == Served(net.response)
    ensures net.Responded? && net.response.Ok() ==> r.caches == Put(cs, DynamicCache, req.url, net.response)
    ensures !(net.Responded? && net.response.Ok()) ==> r.caches == cs
    ensures net.NetworkError? && Match(cs, req.url).Some? ==> r.reply == Served(Match(cs, req.url).value)
    ensures net.NetworkError? && Match(cs, req.url).None? ==>
              r.reply == if Includes(req.url, "/api/") then Served(OfflineApiResponse()) else Rejected
  {
    match net
    case Responded(resp) =>
      Handled(Served(resp), if resp.Ok() then Put(cs, DynamicCache, req.url, resp) else cs, true)
    case NetworkError =>
      var cached := Match(cs, req.url);
      if cached.Some? then Handled(Served(cached.value), cs, true)
      else if Includes(req.url, "/api/") then Handled(Served(OfflineApiResponse()), cs, true)
      else Handled(Rejected, cs, true)
  }

  /**
   * `cacheFirstStrategy`: a cached copy is returned without asking the network; on a miss the
   * network's answer is returned, stored only when `ok`, and a network error is rethrown.
   */
  function CacheFirstStrategy(req: Request, cs: CacheStorage, net: Fetch): (r: Handled)
    ensures Match(cs, req.url).Some? ==> r == Handled(Served(Match(cs, req.url).value), cs, false)
    ensures Match(cs, req.url).None? ==> r.fetched
    ensures Match(cs, req.url).None? && net.Responded? ==> r.reply == Served(net.response)
    ensures Match(cs, req.url).None? && net.NetworkError? ==> r.reply == Rejected && r.caches == cs
    ensures Match(cs, req.url).None? && net.Responded? ==>
              r.caches == if net.response.Ok() then Put(cs, DynamicCache, req.url, net.response) else cs
  {
    var cached := Match(cs, req.url);
    if cached.Some? then Handled(Served(cached.value), cs, false)
    else
      match net
      case Responded(resp) =>
        Handled(Served(resp), if resp.Ok() then Put(cs, DynamicCache, req.url, resp) else cs, true)
      case NetworkError => Handled(Rejected, cs, true)
  }

  /**
   * The background half of stale-while-revalidate: an `ok` answer is stored in the dynamic cache
   * under the request's URL, and nothing else changes; any other outcome changes nothing.
   */
  function Revalidate(req: Request, cs: CacheStorage, net: Fetch): (r: CacheStorage)
    ensures net.Responded? && net.response.Ok() ==> r == Put(cs, DynamicCache, req.url, net.response)
    ensures net.Responded? && net.response.Ok() ==> Match(r, req.url).Some?
    ensures !(net.Responded? && net.response.Ok()) ==> r == cs
  {
    if net.Responded? && net.response.Ok() then
      PutThenMatch(cs, DynamicCache, req.url, net.response);
      Put(cs, DynamicCache, req.url, net.response)
    else cs
  }

  /**
   * `staleWhileRevalidateStrategy` as written: the expression `cached || promise || ...`
   * stops at the promise, which is always truthy, so with no cached copy the reply is the
   * network's answer or `null`, and the root-page and placeholder fallbacks are never used.
   */
  function StaleWhileRevalidateAsWritten(req: Request, cs: CacheStorage, net: Fetch): (r: Handled)
    ensures r.fetched && r.caches == Revalidate(req, cs, net)
    ensures Match(cs, req.url).Some? ==> r.reply == Served(Match(cs, req.url).value)
    ensures Match(cs, req.url).None? && net.Responded? ==> r.reply == Served(net.response)
    ensures Match(cs, req.url).None? && net.NetworkError? ==> r.reply == NullResponse
  {
    var cached := Match(cs, req.url);
    var settled := if net.Responded? then Served(net.response) else NullResponse;
    Handled(if cached.Some? then Served(cached.value) else settled, Revalidate(req, cs, net), true)
  }

  /**
   * `staleWhileRevalidateStrategy` as evidently intended: the cached copy, else the network's
   * answer, else the cached root page, else the 503 placeholder. The background fetch always runs.
   */
  function StaleWhileRevalidateStrategy(req: Request, cs: CacheStorage, net: Fetch): (r: Handled)
    ensures r.fetched && r.caches == Revalidate(req, cs, net)
    ensures Match(cs, req.url).Some? ==> r.reply == Served(Match(cs, req.url).value)
    ensures Match(cs, req.url).None? && net.Responded? ==> r.reply == Served(net.response)
    ensures Match(cs, req.url).None? && net.NetworkError? && Match(cs, "/").Some? ==> r.reply == Served(Match(cs, "/").value)
    ensures Match(cs, req.url).None? && net.NetworkError? && Match(cs, "/").None? ==>
              r.reply == Served(Response(503, OfflinePageBody))
  {
    var cached := Match(cs, req.url);
    var root := Match(cs, "/");
    var reply :=
      if cached.Some? then Served(cached.value)
      else if net.Responded? then Served(net.response)
      else if root.Some? then Served(root.value)
      else Served(Response(503, OfflinePageBody));
    Handled(reply, Revalidate(req, cs, net), true)
  }

  /** Finding: as written, a navigation with nothing cached and no network gets `null` even when the root page is cached. */
  lemma SwrFallbacksUnreachable(req: Request, cs: CacheStorage)
    requires Match(cs, req.url).None? && Match(cs, "/").Some?
    ensures StaleWhileRevalidateAsWritten(req, cs, NetworkError).reply == NullResponse
    ensures StaleWhileRevalidateStrategy(req, cs, NetworkError).reply == Served(Match(cs, "/").value)
  {
  }

  /** As written, stale-while-revalidate never produces a response that neither the cache nor the network gave. */
  lemma SwrAsWrittenOnlyCacheOrNetwork(req: Request, cs: CacheStorage, net: Fetch)
    ensures var reply := StaleWhileRevalidateAsWritten(req, cs, net).reply;
            reply == NullResponse || Some(reply.response) == Match(cs, req.url) || net == Responded(reply.response)
  {
  }

  /** As intended, stale-while-revalidate always answers with a response. */
  lemma SwrAlwaysServes(req: Request, cs: CacheStorage, net: Fetch)
    ensures StaleWhileRevalidateStrategy(req, cs, net).reply.Served?
  {
  }

  /**
   * The fetch listener as written: route the request and run its strategy, navigations going
   * through the as-written stale-while-revalidate. Only a non-GET request is left to the
   * browser; the network is skipped only then and on a cache-first hit; the only cache write is
   * an `ok` answer stored under the request's URL in the dynamic cache; a navigation with no
   * cached copy and no network resolves to `null`; and a rejection happens only on a network
   * error with no cached copy, for an asset or a non-API resource.
   */
  function HandleFetch(req: Request, cs: CacheStorage, net: Fetch): (r: Handled)
    ensures r.reply == Default <==> req.httpMethod != "GET"
    ensures !r.fetched <==> req.httpMethod != "GET" || (Route(req) == CacheFirst && Match(cs, req.url).Some?)
    ensures r.caches == cs || (net.Responded? && net.response.Ok() && r.caches == Put(cs, DynamicCache, req.url, net.response))
    ensures r.reply == NullResponse <==> Route(req) == StaleWhileRevalidate && Match(cs, req.url).None? && net.NetworkError?
    ensures r.reply == Rejected <==>
              && net.NetworkError? && Match(cs, req.url).None?
              && (Route(req) == CacheFirst || (Route(req) == NetworkFirst && !Includes(req.url, "/api/")))
    ensures req.httpMethod == "GET" && Match(cs, req.url).Some? && (Route(req) != NetworkFirst || net.NetworkError?) ==>
              r.reply == Served(Match(cs, req.url).value)
  {
    match Route(req)
    case Passthrough => Handled(Default, cs, false)
    case NetworkFirst => NetworkFirstStrategy(req, cs, net)
    case CacheFirst => CacheFirstStrategy(req, cs, net)
    case StaleWhileRevalidate => StaleWhileRevalidateAsWritten(req, cs, net)
  }

  /** The fetch listener with the evidently intended stale-while-revalidate: it never resolves to `null`. */
  function HandleFetchIntended(req: Request, cs: CacheStorage, net: Fetch): (r: Handled)
    ensures r.reply != NullResponse
    ensures r.reply == Default <==> req.httpMethod != "GET"
    ensures Route(req) == StaleWhileRevalidate ==> r.reply.Served?
  {
    match Route(req)
    case Passthrough => Handled(Default, cs, false)
    case NetworkFirst => NetworkFirstStrategy(req, cs, net)
    case CacheFirst => CacheFirstStrategy(req, cs, net)
    case StaleWhileRevalidate => StaleWhileRevalidateStrategy(req, cs, net)
  }

  /**
   * The corrected listener differs from the one as written exactly on a navigation with no
   * cached copy and no network, and even there it updates the caches in the same way.
   */
  lemma HandleFetchDivergence(req: Request, cs: CacheStorage, net: Fetch)
    ensures HandleFetchIntended(req, cs, net) != HandleFetch(req, cs, net) <==>
              Route(req) == StaleWhileRevalidate && Match(cs, req.url).None? && net.NetworkError?
    ensures HandleFetchIntended(req, cs, net).caches == HandleFetch(req, cs, net).caches
  {
  }

  /** An API request whose URL contains its pathname is never answered with a rejection. */
  lemma ApiRequestsNeverRejected(req: Request, cs: CacheStorage, net: Fetch)
    requires req.httpMethod == "GET" && IsApi(req)
    requires exists i: nat :: OccursAt(req.url, req.pathname, i)
    ensures HandleFetch(req, cs, net).reply != Rejected
  {
    var i: nat :| OccursAt(req.url, req.pathname, i);
    assert OccursAt(req.url, "/api/", i) by {
      assert req.url[i..i + |req.pathname|][..5] == req.url[i..i + 5];
    }
    IncludesOccurrence(req.url, "/api/", i);
  }

  /** Once an asset is fetched with an `ok` answer on a miss, later requests are served that copy without the network. */
  lemma CacheFirstMissThenHit(req: Request, cs: CacheStorage, resp: Response, later: Fetch)
    requires Match(cs, req.url).None? && resp.Ok()
    ensures var after := CacheFirstStrategy(req, cs, Responded(resp)).caches;
            CacheFirstStrategy(req, after, later) == Handled(Served(resp), after, false)
  {
    PutThenMatch(cs, DynamicCache, req.url, resp);
  }

  // ---------------------------------------------------------------------------------------
  // Lifecycle
  // ---------------------------------------------------------------------------------------

  /** The caches that activation keeps. */
  predicate IsCurrent(c: NamedCache) {
    c.name == StaticCache || c.name == DynamicCache
  }

  /** The names of the caches in storage. */
  function Names(cs: CacheStorage): set<string> {
    set c | c in cs :: c.name
  }

  /** The activate listener: every cache other than the static and dynamic ones is deleted, `CacheName` included. */
  function Activate(cs: CacheStorage): (r: CacheStorage)
    ensures forall c :: c in r ==> c in cs && IsCurrent(c)
    ensures forall c :: c in cs && IsCurrent(c) ==> c in r
    ensures Names(r) == Names(cs) * {StaticCache, DynamicCache}
    ensures Seqs.Embeds(r, cs)
  {
    Seqs.FilterEmbeds(cs, IsCurrent);
    Seqs.Filter(cs, IsCurrent)
  }

  /** After activation no cache of the old `CacheName` version is left, and running it again changes nothing. */
  lemma ActivateIsIdempotent(cs: CacheStorage)
    ensures CacheName !in Names(Activate(cs))
    ensures Activate(Activate(cs)) == Activate(cs)
  {
    var r := Activate(cs);
    Seqs.FilterKeepsAll(r, IsCurrent);
  }

  /** Every install-time asset was answered with an `ok` response: `addAll` requires it. */
  predicate AllAssetsOk(net: string -> Fetch) {
    forall a :: a in StaticAssets ==> net(a).Responded? && net(a).response.Ok()
  }

  /**
   * The install listener: opens the static cache and `addAll`s the asset list, which stores
   * every asset or, if any fetch fails or is not `ok`, none of them.
   */
  function Install(cs: CacheStorage, net: string -> Fetch): (r: CacheStorage)
    ensures |r| == |Open(cs, StaticCache)| && Find(r, StaticCache) == Find(Open(cs, StaticCache), StaticCache)
    ensures var i := Find(r, StaticCache).value;
            AllAssetsOk(net) ==> forall a :: a in StaticAssets ==> a in r[i].entries && r[i].entries[a] == net(a).response
    ensures !AllAssetsOk(net) ==> r == Open(cs, StaticCache)
    ensures forall j :: 0 <= j < |r| && r[j].name != StaticCache ==> r[j] == Open(cs, StaticCache)[j]
  {
    var live := Open(cs, StaticCache);
    if AllAssetsOk(net) then
      var i := Find(live, StaticCache).value;
      var added := map a | a in StaticAssets :: net(a).response;
      var r := live[i := live[i].(entries := live[i].entries + added)];
      FindSameNames(r, live, StaticCache);
      r
    else live
  }

  // ---------------------------------------------------------------------------------------
  // Background sync
  // ---------------------------------------------------------------------------------------

  const QuestProgressSyncTag := "quest-progress-sync"
  const StudentDataSyncTag := "student-data-sync"

  /** The entries the worker's upload deletes: those answered with an `ok` response. */
  predicate Uploaded(e: PendingEntry, f: Fetch) {
    f.Responded? && f.response.Ok()
  }

  /** The keys of the snapshot entries that were uploaded. */
  ghost function UploadedKeys(items: seq<PendingEntry>, net: nat -> Fetch): set<nat> {
    set i | 0 <= i < |items| && Uploaded(items[i], net(items[i].id)) :: items[i].id
  }

  /** The outbox after a background sync, and the payloads it POSTed. */
  datatype SyncRun = SyncRun(db: Db, requests: seq<ProgressRecord>)

  /**
   * The per-entry loop of `syncQuestProgress`: every payload is POSTed whatever its type, and
   * an entry is deleted only when the answer is `ok`; a network error is logged and the loop goes on.
   */
  function Upload(items: seq<PendingEntry>, db: Db, net: nat -> Fetch): (r: SyncRun)
    ensures forall e :: e in r.db.pending ==> e in db.pending && e.id !in UploadedKeys(items, net)
    ensures forall e :: e in db.pending && e.id !in UploadedKeys(items, net) ==> e in r.db.pending
    ensures r.db.quests == db.quests && r.db.progress == db.progress && r.db.nextKey == db.nextKey
    ensures Valid(db) ==> Valid(r.db)
    ensures |r.requests| == |items| && forall i :: 0 <= i < |items| ==> r.requests[i] == items[i].payload
    decreases |items|
  {
    if |items| == 0 then SyncRun(db, [])
    else
      var next := if Uploaded(items[0], net(items[0].id)) then DeletePending(db, items[0].id) else db;
      var rest := Upload(items[1..], next, net);
      assert UploadedKeys(items, net)
          == (if Uploaded(items[0], net(items[0].id)) then {items[0].id} else {}) + UploadedKeys(items[1..], net) by {
        forall i | 1 <= i < |items| ensures items[i] == items[1..][i - 1] { }
      }
      SyncRun(rest.db, [items[0].payload] + rest.requests)
  }

  /**
   * `syncQuestProgress` as evidently intended: open the database (a failure is caught and
   * nothing changes), then upload every outbox entry; exactly the entries not answered `ok` remain.
   */
  function SyncQuestProgress(db: Db, dbOk: bool, net: nat -> Fetch): (r: SyncRun)
    ensures !dbOk ==> r == SyncRun(db, [])
    ensures r.db.quests == db.quests && r.db.progress == db.progress && r.db.nextKey == db.nextKey
    ensures Valid(db) ==> Valid(r.db)
    ensures Valid(db) && dbOk ==>
              forall e :: e in r.db.pending <==> e in db.pending && !(net(e.id).Responded? && net(e.id).response.Ok())
    ensures dbOk ==> |r.requests| == |db.pending| && forall i :: 0 <= i < |db.pending| ==> r.requests[i] == db.pending[i].payload
  {
    if !dbOk then SyncRun(db, [])
    else
      var run := Upload(db.pending, db, net);
      assert Valid(db) ==> forall e :: e in db.pending ==> (e.id in UploadedKeys(db.pending, net) <==> Uploaded(e, net(e.id))) by {
        if Valid(db) {
          forall e | e in db.pending ensures e.id in UploadedKeys(db.pending, net) <==> Uploaded(e, net(e.id)) {
            if e.id in UploadedKeys(db.pending, net) {
              var i :| 0 <= i < |db.pending| && Uploaded(db.pending[i], net(db.pending[i].id)) && db.pending[i].id == e.id;
              KeysIdentifyEntries(db, db.pending[i], e);
            } else {
              var i :| 0 <= i < |db.pending| && db.pending[i] == e;
            }
          }
        }
      }
      run
  }

  /**
   * `syncQuestProgress` as written: `await store.getAll()` yields the request object rather
   * than the entries, iterating it throws a TypeError, and the outer `catch` logs it, so
   * nothing is POSTed and nothing is deleted.
   */
  function SyncQuestProgressAsWritten(db: Db, dbOk: bool, net: nat -> Fetch): (r: SyncRun)
    ensures r.db == db && r.requests == []
  {
    SyncRun(db, [])
  }

  /** Finding: as written, a background sync leaves a non-empty outbox in place even when the server accepts every upload. */
  lemma SyncAsWrittenNeverDrains(db: Db, net: nat -> Fetch)
    requires Valid(db) && |db.pending| > 0
    requires forall id :: net(id).Responded? && net(id).response.Ok()
    ensures SyncQuestProgressAsWritten(db, true, net).db.pending == db.pending
    ensures SyncQuestProgress(db, true, net).db.pending == []
  {
    var r := SyncQuestProgress(db, true, net);
    if |r.db.pending| > 0 {
      Seqs.HeadIsMember(r.db.pending);
      assert false;
    }
  }

  /** The sync listener: "quest-progress-sync" uploads the outbox; "student-data-sync" and other tags change nothing. */
  function OnSync(tag: string, db: Db, dbOk: bool, net: nat -> Fetch): (r: SyncRun)
    ensures tag == QuestProgressSyncTag ==> r == SyncQuestProgress(db, dbOk, net)
    ensures tag != QuestProgressSyncTag ==> r == SyncRun(db, [])
  {
    if tag == QuestProgressSyncTag then SyncQuestProgress(db, dbOk, net)
    else SyncRun(db, [])
  }

  // ---------------------------------------------------------------------------------------
  // Messages
  // ---------------------------------------------------------------------------------------

  const CacheQuestDataType := "CACHE_QUEST_DATA"
  const GetOfflineStatusType := "GET_OFFLINE_STATUS"
  const ForceSyncType := "FORCE_SYNC"

  /** A message from a page: its `type` and, for CACHE_QUEST_DATA, the quests. */
  datatype Message = Message(kind: string, quests: seq<Quest>)

  /** What a message did: the database, the reply on the message port, and the sync tag registered. */
  datatype MessageEffect = MessageEffect(db: Db, reply: Option<bool>, registered: Option<string>)

  /** The worker's `cacheQuestData`: opens the database (a failure is caught) and puts each quest in turn. */
  function CacheQuestData(db: Db, dbOk: bool, quests: seq<Quest>): (r: Db)
    ensures r.progress == db.progress && r.pending == db.pending && r.nextKey == db.nextKey
    ensures !dbOk ==> r == db
    ensures dbOk ==> forall i :: 0 <= i < |quests| && LastIndexOf(quests, quests[i].id) == Some(i) ==>
                       quests[i].id in r.quests && r.quests[quests[i].id] == quests[i]
    ensures forall k :: k in db.quests && LastIndexOf(quests, k).None? ==> k in r.quests && r.quests[k] == db.quests[k]
    ensures forall k :: k in r.quests <==> k in db.quests || (dbOk && LastIndexOf(quests, k).Some?)
    ensures Valid(db) ==> Valid(r)
  {
    if dbOk then db.(quests := PutQuests(db.quests, quests)) else db
  }

  /**
   * The message listener: CACHE_QUEST_DATA caches the quests, GET_OFFLINE_STATUS replies
   * `offline = !navigator.onLine`, FORCE_SYNC registers "quest-progress-sync", and any other type is ignored.
   */
  function OnMessage(msg: Message, db: Db, dbOk: bool, navigatorOnline: bool): (r: MessageEffect)
    ensures msg.kind == CacheQuestDataType ==> r == MessageEffect(CacheQuestData(db, dbOk, msg.quests), None, None)
    ensures msg.kind == GetOfflineStatusType ==> r == MessageEffect(db, Some(!navigatorOnline), None)
    ensures msg.kind == ForceSyncType ==> r == MessageEffect(db, None, Some(QuestProgressSyncTag))
    ensures msg.kind !in {CacheQuestDataType, GetOfflineStatusType, ForceSyncType} ==> r == MessageEffect(db, None, None)
  {
    if msg.kind == CacheQuestDataType then MessageEffect(CacheQuestData(db, dbOk, msg.quests), None, None)
    else if msg.kind == GetOfflineStatusType then MessageEffect(db, Some(!navigatorOnline), None)
    else if msg.kind == ForceSyncType then MessageEffect(db, None, Some(QuestProgressSyncTag))
    else MessageEffect(db, None, None)
  }

  /** Caching the same quests twice is the same as caching them once. */
  lemma CacheQuestDataIdempotent(db: Db, dbOk: bool, quests: seq<Quest>)
    ensures CacheQuestData(CacheQuestData(db, dbOk, quests), dbOk, quests) == CacheQuestData(db, dbOk, quests)
  {
    PutQuestsIdempotent(db.quests, quests);
  }
}
