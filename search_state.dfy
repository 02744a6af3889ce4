/**
 * The place-search controller `SearchState`
 * (src/lib/components/search/search.svelte.ts): the query, results and
 * keyboard-focus state machine, the search guard, the Photon request with
 * its single language fallback, and the cache and history kept in
 * `localStorage`.
 */
module Search {
  import opened Wrappers
  import opened JsString
  import opened Osm
  import opened SearchResults
  import opened SearchCache
  import opened SearchHistory
  import opened Storage
  import opened Toasts
  import opened MapControl

  // ---------- the Photon request ----------

  /** The query string `buildAPIUrl` encodes: `q`, `limit`, `lang`, and the map centre as `lat`/`lon` when there is one. */
  datatype Request = Request(q: string, limit: int, lang: Option<string>, bias: Option<LatLng>)

  /** The JSON body: no `features` (or `null`), a `features` value that is not an array, or the features. */
  datatype Payload = NoFeatures | FeaturesNotList | Features(features: seq<Feature>)

  /** What `fetch` yields for one request: a thrown network error, a non-ok status, or an ok response whose body parses or not. */
  datatype Response = NetworkFailure | HttpError(status: int) | Ok(body: Option<Payload>)

  /** `fetch`, as an oracle from requests to responses. */
  type Fetch = Request -> Response

  /** The requests made by one `fetchFromAPI` call and what it hands back (or that it threw). */
  datatype FetchTrace = FetchTrace(requests: seq<Request>, outcome: Option<Payload>)

  /** `buildAPIUrl()` */
  function BuildRequest(q: string, limit: int, defaultLang: string, center: Option<LatLng>): Request {
    Request(q, limit, Some(defaultLang), center)
  }

  /**
   * `tryFallbackRequest`'s URL: the request without `&lang=<default>`;
   * a request without that parameter has no fallback.
   */
  function FallbackRequest(req: Request, defaultLang: string): (r: Option<Request>)
    ensures r.Some? <==> req.lang == Some(defaultLang)
    ensures r.Some? ==> r.value.lang.None? && r.value.q == req.q && r.value.limit == req.limit && r.value.bias == req.bias
  {
    if req.lang == Some(defaultLang) then Some(req.(lang := None)) else None
  }

  /** The body of an ok response, or nothing when the response failed or its body does not parse. */
  function Body(resp: Response): Option<Payload> {
    if resp.Ok? then resp.body else None
  }

  /** `fetchFromAPI()`: the request, then on a non-ok status the fallback once. */
  function FetchFromApi(fetch: Fetch, req: Request, defaultLang: string): (t: FetchTrace)
    ensures 1 <= |t.requests| <= 2 && t.requests[0] == req
    ensures |t.requests| == 2 <==> fetch(req).HttpError? && req.lang == Some(defaultLang)
    ensures |t.requests| == 2 ==> t.requests[1] == FallbackRequest(req, defaultLang).value && t.outcome == Body(fetch(t.requests[1]))
    ensures |t.requests| == 1 ==> t.outcome == Body(fetch(req))
  {
    match fetch(req)
    case NetworkFailure => FetchTrace([req], None)
    case Ok(body) => FetchTrace([req], body)
    case HttpError(_) =>
      match FallbackRequest(req, defaultLang)
      case None => FetchTrace([req], None)
      case Some(fallback) => FetchTrace([req, fallback], Body(fetch(fallback)))
  }

  /** A rejected request in the language of `defaultLang` is retried once without it, and a failing retry is final. */
  lemma FallbackOnce(fetch: Fetch, q: string, limit: int, defaultLang: string, center: Option<LatLng>)
    requires fetch(BuildRequest(q, limit, defaultLang, center)).HttpError?
    requires !fetch(BuildRequest(q, limit, defaultLang, center).(lang := None)).Ok?
    ensures var t := FetchFromApi(fetch, BuildRequest(q, limit, defaultLang, center), defaultLang);
      t.requests == [BuildRequest(q, limit, defaultLang, center), Request(q, limit, None, center)] && t.outcome.None?
  {
  }

  // ---------- keyboard navigation ----------

  /** `navigateDown()`'s new index: the next one, wrapping from the last to the first. */
  function NextIndex(i: int, n: nat): (r: int)
    ensures n == 0 ==> r == i
    ensures n > 0 && -1 <= i ==> 0 <= r < n
    ensures n > 0 && 0 <= i < n - 1 ==> r == i + 1
    ensures n > 0 && i >= n - 1 ==> r == 0
  {
    if n == 0 then i else if i < n - 1 then i + 1 else 0
  }

  /** `navigateUp()`'s new index: the previous one, wrapping from the first (or from none) to the last. */
  function PrevIndex(i: int, n: nat): (r: int)
    ensures n == 0 ==> r == i
    ensures n > 0 && i < n ==> 0 <= r < n
    ensures n > 0 && 0 < i ==> r == i - 1
    ensures n > 0 && i <= 0 ==> r == n - 1
  {
    if n == 0 then i else if i > 0 then i - 1 else n - 1
  }

  /** Up undoes down and down undoes up on a focused entry. */
  lemma NavigateInverse(i: int, n: nat)
    requires 0 <= i < n
    ensures PrevIndex(NextIndex(i, n), n) == i
    ensures NextIndex(PrevIndex(i, n), n) == i
  {
  }

  // ---------- the controller ----------

  type Positive = n: int | n > 0 witness 1

  /**
   * The collaborators and constants the controller reads: `normalizeStr`,
   * whether `localStorage` exists (`typeof localStorage !== 'undefined'`),
   * `CACHE_CONFIG.TTL`, `CACHE_CONFIG.MAX_ENTRIES`,
   * `SEARCH_CONFIG.MIN_QUERY_LENGTH`, `SEARCH_CONFIG.MAX_DISPLAYED_RESULTS`,
   * `API.RESULT_LIMIT` and `API.DEFAULT_LANG`.
   */
  datatype Config = Config(norm: Normalizer, hasStorage: bool, ttl: Positive, maxEntries: Positive,
                           minQueryLength: Positive, maxShown: Positive, resultLimit: Positive, defaultLang: string)

  /** Every field of the controller that its methods change. */
  datatype Snapshot = Snapshot(
    query: string,
    focused: bool,
    loading: bool,
    results: seq<Feature>,
    hasSearched: bool,
    focusedIndex: int,
    history: seq<HistoryItem>,
    lastSearchedQuery: string,
    isResultSelected: bool,
    initialized: bool,
    cacheStore: Stored<seq<CacheItem>>,
    historyStore: Stored<seq<HistoryItem>>,
    notices: seq<Toast>,
    requestLog: seq<Request>)

  /** `!this.query.trim()`, `this.query === this.lastSearchedQuery` and `this.isResultSelected` each stop a search. */
  predicate WouldSearch(s: Snapshot) {
    Trim(s.query) != [] && s.query != s.lastSearchedQuery && !s.isResultSelected
  }

  /** The focused index is none (-1) or an index of the results. */
  predicate FocusValid(s: Snapshot) {
    -1 <= s.focusedIndex < |s.results|
  }

  /** The cache list as `getCache()` reads it: a missing store, a missing key and unparsable JSON all read as empty. */
  function StoredCache(cfg: Config, store: Stored<seq<CacheItem>>): seq<CacheItem> {
    if cfg.hasStorage then store.ReadOr([]) else []
  }

  /** The stored cache holds no query twice and at most `MAX_ENTRIES` entries. */
  ghost predicate CacheOk(cfg: Config, store: Stored<seq<CacheItem>>) {
    var c := StoredCache(cfg, store);
    NoDuplicateQueries(c) && |c| <= cfg.maxEntries
  }

  /** The cache slot after `cleanOldCache()`: rewritten with the fresh entries only when some entry expired. */
  function CleanedStore(cfg: Config, store: Stored<seq<CacheItem>>, now: int): Stored<seq<CacheItem>> {
    var c := StoredCache(cfg, store);
    var kept := Filter(c, IsFresh(now, cfg.ttl));
    if cfg.hasStorage && |kept| != |c| then Parsed(kept) else store
  }

  /** The cache slot after `saveToCache(q, rs)`. */
  function SavedStore(cfg: Config, store: Stored<seq<CacheItem>>, q: string, rs: seq<Feature>, now: int): Stored<seq<CacheItem>> {
    if cfg.hasStorage then Parsed(Write(StoredCache(cfg, store), q, rs, now, cfg.maxEntries)) else store
  }

  /** The history after `loadHistory()`: a stored list replaces it, an unreadable one empties it. */
  function LoadedHistory(cfg: Config, store: Stored<seq<HistoryItem>>, h: seq<HistoryItem>): seq<HistoryItem> {
    if !cfg.hasStorage then h
    else match store
      case Absent => h
      case Corrupt => []
      case Parsed(v) => v
  }

  /** The fields after `ensureInitialized()`: on the first call with storage, mark initialised, purge the cache and load the history. */
  function Initialized(cfg: Config, s: Snapshot, now: int): Snapshot {
    if !s.initialized && cfg.hasStorage then
      s.(initialized := true, cacheStore := CleanedStore(cfg, s.cacheStore, now),
         history := LoadedHistory(cfg, s.historyStore, s.history))
    else s
  }

  /** The fields after `saveToHistory(q, r)`. */
  function WithHistoryEntry(cfg: Config, s: Snapshot, q: string, r: Feature, now: int): Snapshot {
    if cfg.hasStorage then
      var h := AddToHistory(s.history, q, r, now);
      s.(history := h, historyStore := Parsed(h))
    else s
  }

  /** The fields after `selectResult(r)`. */
  function Selected(cfg: Config, s: Snapshot, r: Feature, now: int): Snapshot {
    var name := r.properties.name;
    WithHistoryEntry(cfg, s.(query := name, lastSearchedQuery := name, isResultSelected := true, results := [],
                             hasSearched := false, focused := false, focusedIndex := -1), name, r, now)
  }

  /** The results `setQuery(value)` shows: none for a short query, else the autocomplete over the cache. */
  function TypedResults(cfg: Config, cache: seq<CacheItem>, value: string): seq<Feature> {
    if |value| == 0 || |value| < cfg.minQueryLength then []
    else match SearchCache.SearchInCache(cfg.norm, cache, value, cfg.maxShown)
      case Some(rs) => if |rs| > 0 then rs else []
      case None => []
  }

  /** The fields after `setQuery(value)`. */
  function Typed(cfg: Config, s: Snapshot, value: string, now: int): Snapshot {
    var i := Initialized(cfg, s, now);
    var short := |value| == 0 || |value| < cfg.minQueryLength;
    i.(query := value, isResultSelected := false, focusedIndex := -1,
       results := TypedResults(cfg, StoredCache(cfg, i.cacheStore), value),
       hasSearched := if short then false else i.hasSearched)
  }

  /** The results `processResults(data)` shows, and whether it writes them to the cache. */
  function Processed(cfg: Config, p: Payload): (seq<Feature>, bool) {
    match p
    case NoFeatures => ([], false)
    case FeaturesNotList => ([], true)
    case Features(fs) => (Take(Deduplicated(cfg.norm, fs), cfg.maxShown), true)
  }

  /**
   * `processResults(data)`: no features shows nothing and saves nothing; a
   * non-array shows and saves nothing; a feature list shows at most
   * `MAX_DISPLAYED_RESULTS` de-duplicated features, none of them `Brazil`
   * and no truthy id twice, and saves what it shows.
   */
  lemma ProcessedSpec(cfg: Config, p: Payload)
    ensures var (rs, save) := Processed(cfg, p);
      && (save <==> !p.NoFeatures?)
      && (!p.Features? ==> rs == [])
      && |rs| <= cfg.maxShown
      && (forall f :: f in rs ==> f.properties.country != "Brazil")
      && (forall m, n :: 0 <= m < n < |rs| && Truthy(rs[n].properties.osmId) ==>
            rs[m].properties.osmId != rs[n].properties.osmId)
  {
    if p.Features? {
      var d := Deduplicated(cfg.norm, p.features);
      DeduplicatedHasNoBrazil(cfg.norm, p.features);
      DeduplicatedIdsDistinct(cfg.norm, p.features);
      var rs := Take(d, cfg.maxShown);
      assert forall k :: 0 <= k < |rs| ==> rs[k] == d[k];
    }
  }

  /** The fields after `processResults(data)`. */
  function AfterProcess(cfg: Config, s: Snapshot, p: Payload, now: int): Snapshot {
    var (rs, save) := Processed(cfg, p);
    s.(results := rs, cacheStore := if save then SavedStore(cfg, s.cacheStore, s.query, rs, now) else s.cacheStore)
  }

  /** The fields once the requests of `t` are made and their outcome handled (the `catch` block for a failure). */
  function AfterFetch(cfg: Config, s: Snapshot, t: FetchTrace, now: int): Snapshot {
    var logged := s.(requestLog := s.requestLog + t.requests);
    match t.outcome
    case None => logged.(results := [], notices := s.notices + [Error(SearchFailed)])
    case Some(p) => AfterProcess(cfg, logged, p, now)
  }

  /** The fields after the first three assignments of `search()`. */
  function Started(s: Snapshot): Snapshot {
    s.(loading := true, hasSearched := false, focusedIndex := -1)
  }

  /** The fields after `finishSearch()`. */
  function Finished(s: Snapshot): Snapshot {
    s.(loading := false, hasSearched := true, lastSearchedQuery := s.query)
  }

  /** The request `search()` sends for the query `q`. */
  function SearchRequest(cfg: Config, q: string, center: Option<LatLng>): Request {
    BuildRequest(q, cfg.resultLimit, cfg.defaultLang, center)
  }

  /**
   * The fields after the `try`/`catch`/`finally` of `search()`: the exact
   * cache entry when there is a fresh one, else the outcome of the request.
   */
  function Ran(cfg: Config, s: Snapshot, fetch: Fetch, center: Option<LatLng>, now: int): Snapshot {
    match Lookup(StoredCache(cfg, s.cacheStore), s.query, now, cfg.ttl)
    case Some(rs) => Finished(s.(results := rs))
    case None => Finished(AfterFetch(cfg, s, FetchFromApi(fetch, SearchRequest(cfg, s.query, center), cfg.defaultLang), now))
  }

  /** The fields after `search()`, for the responses `fetch` gives and the map centre `center`. */
  function Searched(cfg: Config, s: Snapshot, fetch: Fetch, center: Option<LatLng>, now: int): Snapshot {
    var i := Initialized(cfg, s, now);
    if !WouldSearch(i) then i else Ran(cfg, Started(i), fetch, center, now)
  }

  // ---------- what the transitions promise ----------

  /** `cleanOldCache` keeps exactly the fresh entries, in order, and writes the slot only when some entry expired. */
  lemma CleanedStoreSpec(cfg: Config, store: Stored<seq<CacheItem>>, now: int)
    ensures var c := StoredCache(cfg, store);
      && StoredCache(cfg, CleanedStore(cfg, store, now)) == Filter(c, IsFresh(now, cfg.ttl))
      && (CleanedStore(cfg, store, now) != store <==> exists e :: e in c && now - e.timestamp >= cfg.ttl)
      && (CacheOk(cfg, store) ==> CacheOk(cfg, CleanedStore(cfg, store, now)))
  {
    var c := StoredCache(cfg, store);
    var p := IsFresh(now, cfg.ttl);
    FreshEntries(c, now, cfg.ttl);
    if |Filter(c, p)| == |c| {
      FilterKeepsAll(c, p);
    }
    if NoDuplicateQueries(c) {
      FilterNoDuplicates(c, p);
    }
  }

  /** `saveToCache(q, rs)` keeps the cache well formed, and a lookup of `q` (in any case) before the TTL returns `rs`. */
  lemma SavedStoreSpec(cfg: Config, store: Stored<seq<CacheItem>>, q: string, rs: seq<Feature>, now: int, q': string, later: int)
    ensures CacheOk(cfg, store) ==> CacheOk(cfg, SavedStore(cfg, store, q, rs, now))
    ensures cfg.hasStorage && SameQuery(q, q') && later - now < cfg.ttl ==>
      Lookup(StoredCache(cfg, SavedStore(cfg, store, q, rs, now)), q', later, cfg.ttl) == Some(rs)
    ensures !cfg.hasStorage ==> SavedStore(cfg, store, q, rs, now) == store
  {
    var c := StoredCache(cfg, store);
    if cfg.hasStorage {
      WriteShape(c, q, rs, now, cfg.maxEntries);
      if NoDuplicateQueries(c) {
        WritePreservesNoDuplicates(c, q, rs, now, cfg.maxEntries);
      }
      if SameQuery(q, q') && later - now < cfg.ttl {
        WriteThenLookup(c, q, rs, now, cfg.maxEntries, q', later, cfg.ttl);
      }
    }
  }

  /**
   * `ensureInitialized()` changes only the initialisation flag, the cache
   * slot and the history, and only on its first call with storage;
   * running it again changes nothing.
   */
  lemma InitializedSpec(cfg: Config, s: Snapshot, now: int, later: int)
    ensures var i := Initialized(cfg, s, now);
      && i == s.(initialized := i.initialized, cacheStore := i.cacheStore, history := i.history)
      && (s.initialized || !cfg.hasStorage ==> i == s)
      && (cfg.hasStorage ==> i.initialized)
      && (!s.initialized && cfg.hasStorage ==>
            StoredCache(cfg, i.cacheStore) == Filter(StoredCache(cfg, s.cacheStore), IsFresh(now, cfg.ttl)))
      && (CacheOk(cfg, s.cacheStore) ==> CacheOk(cfg, i.cacheStore))
      && Initialized(cfg, i, later) == i
  {
    CleanedStoreSpec(cfg, s.cacheStore, now);
  }

  /**
   * `setQuery(value)` replaces the query, clears the selection flag and
   * the focus, makes no request and shows no notice; a query shorter than
   * `MIN_QUERY_LENGTH` empties the results and `hasSearched`, any other
   * shows at most `MAX_DISPLAYED_RESULTS` cached results whose names
   * contain it.
   */
  lemma TypedSpec(cfg: Config, s: Snapshot, value: string, now: int)
    ensures var t := Typed(cfg, s, value, now); var nq := cfg.norm(value);
      && t.query == value && !t.isResultSelected && t.focusedIndex == -1 && FocusValid(t)
      && t.lastSearchedQuery == s.lastSearchedQuery && t.requestLog == s.requestLog && t.notices == s.notices
      && (|value| < cfg.minQueryLength ==> t.results == [] && !t.hasSearched)
      && |t.results| <= cfg.maxShown
      && (forall f :: f in t.results ==>
            NameMatches(cfg.norm, nq, f) && exists c :: c in StoredCache(cfg, t.cacheStore) && f in c.results)
      && (CacheOk(cfg, s.cacheStore) ==> CacheOk(cfg, t.cacheStore))
  {
    InitializedSpec(cfg, s, now, now);
    var i := Initialized(cfg, s, now);
    var r := SearchCache.SearchInCache(cfg.norm, StoredCache(cfg, i.cacheStore), value, cfg.maxShown);
    if |value| >= cfg.minQueryLength && r.Some? {
      SearchInCacheSome(cfg.norm, StoredCache(cfg, i.cacheStore), value, cfg.maxShown);
    }
  }

  /**
   * `selectResult(r)` makes the result's name both the query and the last
   * searched query, sets the selection flag, empties the results, records
   * the selection first in the history, and so an immediate `search()`
   * sends nothing and changes nothing.
   */
  lemma SelectedSpec(cfg: Config, s: Snapshot, r: Feature, now: int, fetch: Fetch, center: Option<LatLng>, later: int)
    ensures var sel := Selected(cfg, s, r, now); var name := r.properties.name;
      && sel.query == name && sel.lastSearchedQuery == name && sel.isResultSelected
      && sel.results == [] && !sel.hasSearched && !sel.focused && sel.focusedIndex == -1 && FocusValid(sel)
      && sel.requestLog == s.requestLog && sel.notices == s.notices && sel.cacheStore == s.cacheStore
      && (cfg.hasStorage ==> sel.history == AddToHistory(s.history, name, r, now) && sel.historyStore == Parsed(sel.history))
      && (!cfg.hasStorage ==> sel.history == s.history && sel.historyStore == s.historyStore)
      && !WouldSearch(sel)
      && Searched(cfg, sel, fetch, center, later) == Initialized(cfg, sel, later)
  {
    InitializedSpec(cfg, Selected(cfg, s, r, now), later, later);
  }

  /**
   * The guard: when the trimmed query is empty, equals the last searched
   * query, or a result was just selected, `search()` only initialises;
   * otherwise it ends with loading off, `hasSearched` set, the query
   * recorded as the last one searched and the focus reset, so running it
   * again at once is a no-op.
   */
  lemma SearchGuard(cfg: Config, s: Snapshot, fetch: Fetch, center: Option<LatLng>, now: int)
    ensures !WouldSearch(s) ==> Searched(cfg, s, fetch, center, now) == Initialized(cfg, s, now)
    ensures WouldSearch(s) ==> var d := Searched(cfg, s, fetch, center, now);
      && !d.loading && d.hasSearched && d.lastSearchedQuery == s.query && d.query == s.query && d.focusedIndex == -1
  {
    InitializedSpec(cfg, s, now, now);
  }

  /** Searching again right after a search, whatever the responses, the centre or the time, changes nothing. */
  lemma SearchRepeatIsNoOp(cfg: Config, s: Snapshot, fetch: Fetch, center: Option<LatLng>, now: int,
                           fetch': Fetch, center': Option<LatLng>, later: int)
    ensures var d := Searched(cfg, s, fetch, center, now);
      Searched(cfg, d, fetch', center', later) == d
  {
    var i := Initialized(cfg, s, now);
    InitializedSpec(cfg, s, now, later);
    var d := Searched(cfg, s, fetch, center, now);
    InitializedSpec(cfg, d, later, later);
    if WouldSearch(i) {
      assert d.lastSearchedQuery == d.query;
    } else {
      assert d == i;
    }
  }

  /** A fresh exact cache entry answers a search: its results are shown and no request is sent. */
  lemma SearchedCacheHit(cfg: Config, s: Snapshot, fetch: Fetch, center: Option<LatLng>, now: int)
    requires WouldSearch(s)
    requires Lookup(StoredCache(cfg, Initialized(cfg, s, now).cacheStore), s.query, now, cfg.ttl).Some?
    ensures var d := Searched(cfg, s, fetch, center, now);
      && d.results == Lookup(StoredCache(cfg, Initialized(cfg, s, now).cacheStore), s.query, now, cfg.ttl).value
      && d.requestLog == s.requestLog && d.notices == s.notices
      && d.cacheStore == Initialized(cfg, s, now).cacheStore
  {
    InitializedSpec(cfg, s, now, now);
  }

  /**
   * On a cache miss the request (and its fallback) are sent; a request
   * that fails for good empties the results and shows exactly one
   * "search failed" notice, and leaves the cache alone.
   */
  lemma SearchedFailure(cfg: Config, s: Snapshot, fetch: Fetch, center: Option<LatLng>, now: int)
    requires WouldSearch(s)
    requires Lookup(StoredCache(cfg, Initialized(cfg, s, now).cacheStore), s.query, now, cfg.ttl).None?
    requires FetchFromApi(fetch, SearchRequest(cfg, s.query, center), cfg.defaultLang).outcome.None?
    ensures var d := Searched(cfg, s, fetch, center, now);
      && d.results == []
      && d.notices == s.notices + [Error(SearchFailed)]
      && d.requestLog == s.requestLog + FetchFromApi(fetch, SearchRequest(cfg, s.query, center), cfg.defaultLang).requests
      && d.cacheStore == Initialized(cfg, s, now).cacheStore
      && d.lastSearchedQuery == s.query && d.hasSearched
  {
    InitializedSpec(cfg, s, now, now);
  }

  /**
   * On a cache miss, an answer with features shows them deduplicated and
   * cut to `MAX_DISPLAYED_RESULTS`, and caches them under the query, so a
   * later search for the same query (in any case) before the TTL finds them.
   */
  lemma SearchedSuccess(cfg: Config, s: Snapshot, fetch: Fetch, center: Option<LatLng>, now: int, fs: seq<Feature>,
                        q': string, later: int)
    requires WouldSearch(s)
    requires Lookup(StoredCache(cfg, Initialized(cfg, s, now).cacheStore), s.query, now, cfg.ttl).None?
    requires FetchFromApi(fetch, SearchRequest(cfg, s.query, center), cfg.defaultLang).outcome == Some(Features(fs))
    ensures var d := Searched(cfg, s, fetch, center, now);
      && d.results == Take(Deduplicated(cfg.norm, fs), cfg.maxShown)
      && d.notices == s.notices
      && d.requestLog == s.requestLog + FetchFromApi(fetch, SearchRequest(cfg, s.query, center), cfg.defaultLang).requests
      && (cfg.hasStorage && SameQuery(s.query, q') && later - now < cfg.ttl ==>
            Lookup(StoredCache(cfg, d.cacheStore), q', later, cfg.ttl) == Some(d.results))
  {
    InitializedSpec(cfg, s, now, now);
    var i := Initialized(cfg, s, now);
    SavedStoreSpec(cfg, i.cacheStore, s.query, Take(Deduplicated(cfg.norm, fs), cfg.maxShown), now, q', later);
  }

  /** `search()` keeps the focus valid and the stored cache well formed. */
  lemma SearchedKeepsInvariants(cfg: Config, s: Snapshot, fetch: Fetch, center: Option<LatLng>, now: int)
    ensures FocusValid(s) ==> FocusValid(Searched(cfg, s, fetch, center, now))
    ensures CacheOk(cfg, s.cacheStore) ==> CacheOk(cfg, Searched(cfg, s, fetch, center, now).cacheStore)
  {
    InitializedSpec(cfg, s, now, now);
    var i := Initialized(cfg, s, now);
    if WouldSearch(i) && Lookup(StoredCache(cfg, i.cacheStore), i.query, now, cfg.ttl).None? {
      var t := FetchFromApi(fetch, SearchRequest(cfg, i.query, center), cfg.defaultLang);
      if t.outcome.Some? {
        var (rs, _) := Processed(cfg, t.outcome.value);
        SavedStoreSpec(cfg, i.cacheStore, i.query, rs, now, i.query, now);
      }
    }
  }

  class SearchState {
    var query: string
    var focused: bool
    var loading: bool
    var results: seq<Feature>
    var hasSearched: bool
    var focusedIndex: int
    var history: seq<HistoryItem>
    var lastSearchedQuery: string
    var isResultSelected: bool
    var initialized: bool
    /** The `localStorage` slots of the cache and of the history. */
    var cacheStore: Stored<seq<CacheItem>>
    var historyStore: Stored<seq<HistoryItem>>
    /** The error notices shown through `toast`. */
    var notices: seq<Toast>
    /** Every request handed to `fetch`, in order. */
    var requestLog: seq<Request>

    const mapState: MapState
    const config: Config

    function State(): Snapshot
      reads this
    {
      Snapshot(query, focused, loading, results, hasSearched, focusedIndex, history, lastSearchedQuery,
               isResultSelected, initialized, cacheStore, historyStore, notices, requestLog)
    }

    constructor(mapState: MapState, config: Config,
                cacheStore: Stored<seq<CacheItem>>, historyStore: Stored<seq<HistoryItem>>)
      ensures State() == Snapshot("", false, false, [], false, -1, [], "", false, false, cacheStore, historyStore, [], [])
      ensures this.mapState == mapState && this.config == config
    {
      query := "";
      focused := false;
      loading := false;
      results := [];
      hasSearched := false;
      focusedIndex := -1;
      history := [];
      lastSearchedQuery := "";
      isResultSelected := false;
      initialized := false;
      this.cacheStore := cacheStore;
      this.historyStore := historyStore;
      notices := [];
      requestLog := [];
      this.mapState := mapState;
      this.config := config;
    }

    // ----- storage -----

    /** `getCache()` */
    function Cache(): (c: seq<CacheItem>)
      reads this
      ensures c == StoredCache(config, cacheStore)
    {
      if config.hasStorage then cacheStore.ReadOr([]) else []
    }

    method CleanOldCache(now: int)
      modifies this
      ensures State() == old(State()).(cacheStore := CleanedStore(config, old(cacheStore), now))
    {
      if !config.hasStorage {
        return;
      }
      var cache := Cache();
      var valid := Filter(cache, IsFresh(now, config.ttl));
      if |valid| != |cache| {
        cacheStore := Parsed(valid);
      }
    }

    method LoadHistory()
      modifies this
      ensures State() == old(State()).(history := LoadedHistory(config, old(historyStore), old(history)))
    {
      if !config.hasStorage {
        return;
      }
      match historyStore
      case Absent =>
      case Corrupt =>
        history := [];
      case Parsed(v) =>
        history := v;
    }

    method EnsureInitialized(now: int)
      modifies this
      ensures State() == Initialized(config, old(State()), now)
    {
      if !initialized && config.hasStorage {
        initialized := true;
        CleanOldCache(now);
        LoadHistory();
      }
    }

    method SaveToCache(q: string, rs: seq<Feature>, now: int)
      modifies this
      ensures State() == old(State()).(cacheStore := SavedStore(config, old(cacheStore), q, rs, now))
    {
      if !config.hasStorage {
        return;
      }
      var cache := Cache();
      cacheStore := Parsed(Write(cache, q, rs, now, config.maxEntries));
    }

    method SaveToHistory(q: string, r: Feature, now: int)
      modifies this
      ensures State() == WithHistoryEntry(config, old(State()), q, r, now)
    {
      if !config.hasStorage {
        return;
      }
      var h := AddToHistory(history, q, r, now);
      history := h;
      historyStore := Parsed(h);
    }

    method ClearHistory()
      modifies this
      ensures config.hasStorage ==> State() == old(State()).(history := [], historyStore := Absent)
      ensures !config.hasStorage ==> State() == old(State())
    {
      if !config.hasStorage {
        return;
      }
      history := [];
      historyStore := Absent;
    }

    // ----- the query/results state machine -----

    method Clear()
      modifies this
      ensures State() == old(State()).(query := "", results := [], hasSearched := false, isResultSelected := false,
                                       lastSearchedQuery := "", focusedIndex := -1)
    {
      query := "";
      results := [];
      hasSearched := false;
      isResultSelected := false;
      lastSearchedQuery := "";
      focusedIndex := -1;
    }

    /** `searchInCache(partialQuery)`, with the loops of `collectMatchesFromCache` and `deduplicateMatches`. */
    method SearchInCache(partial: string) returns (r: Option<seq<Feature>>)
      ensures r == SearchCache.SearchInCache(config.norm, Cache(), partial, config.maxShown)
    {
      var cache := Cache();
      var nq := config.norm(partial);
      var all := CollectMatchesFromCache(config.norm, nq, cache);
      if |all| == 0 {
        return None;
      }
      var unique := DeduplicateMatches(all);
      var sorted := SortByRelevance(config.norm, nq, unique);
      return Some(Take(sorted, config.maxShown));
    }

    /** `setQuery(value)` */
    method SetQuery(value: string, now: int)
      modifies this
      ensures State() == Typed(config, old(State()), value, now)
    {
      EnsureInitialized(now);
      ghost var i := State();
      query := value;
      isResultSelected := false;
      focusedIndex := -1;
      if |value| == 0 || |value| < config.minQueryLength {
        // the source tests the empty query and the short query separately, to the same effect
        results := [];
        hasSearched := false;
        return;
      }
      var local := SearchInCache(value);
      var shown := if local.Some? && |local.value| > 0 then local.value else [];
      assert shown == TypedResults(config, StoredCache(config, i.cacheStore), value);
      results := shown;
    }

    method NavigateDown()
      modifies this
      ensures State() == old(State()).(focusedIndex := NextIndex(old(focusedIndex), |results|))
    {
      if |results| == 0 {
        return;
      }
      if focusedIndex < |results| - 1 {
        focusedIndex := focusedIndex + 1;
      } else {
        focusedIndex := 0;
      }
    }

    method NavigateUp()
      modifies this
      ensures State() == old(State()).(focusedIndex := PrevIndex(old(focusedIndex), |results|))
    {
      if |results| == 0 {
        return;
      }
      if focusedIndex > 0 {
        focusedIndex := focusedIndex - 1;
      } else {
        focusedIndex := |results| - 1;
      }
    }

    method CloseResults()
      modifies this
      ensures State() == old(State()).(focused := false, focusedIndex := -1, results := [])
    {
      focused := false;
      focusedIndex := -1;
      results := [];
    }

    /** `shouldPerformSearch()` */
    predicate ShouldPerformSearch()
      reads this
    {
      WouldSearch(State())
    }

    /** `selectResult(result)`: the fields change as `Selected` says and the map shows the result. */
    method SelectResult(r: Feature, now: int)
      modifies this, mapState
      ensures State() == Selected(config, old(State()), r, now)
      ensures mapState.Fields() == SelectedMap(old(mapState.Fields()), r, mapState.searchZoom, mapState.fitPadding, mapState.fitMaxZoom)
    {
      ghost var before := State();
      ghost var shown := mapState.Fields();
      var name := r.properties.name;
      query := name;
      lastSearchedQuery := name;
      isResultSelected := true;
      results := [];
      hasSearched := false;
      focused := false;
      focusedIndex := -1;
      assert State() == before.(query := name, lastSearchedQuery := name, isResultSelected := true, results := [],
                                hasSearched := false, focused := false, focusedIndex := -1);
      SaveToHistory(name, r, now);
      assert State() == Selected(config, before, r, now) && mapState.Fields() == shown;
      mapState.SelectLocation(r);
    }

    /** `selectFocused()`: selects the focused result when the focus is on one. */
    method SelectFocused(now: int)
      modifies this, mapState
      ensures 0 <= old(focusedIndex) < old(|results|) ==>
        State() == Selected(config, old(State()), old(results[focusedIndex]), now)
        && mapState.Fields() == SelectedMap(old(mapState.Fields()), old(results[focusedIndex]), mapState.searchZoom, mapState.fitPadding, mapState.fitMaxZoom)
      ensures !(0 <= old(focusedIndex) < old(|results|)) ==> State() == old(State()) && unchanged(mapState)
    {
      if 0 <= focusedIndex < |results| {
        SelectResult(results[focusedIndex], now);
      }
    }

    method FinishSearch()
      modifies this
      ensures State() == Finished(old(State()))
    {
      loading := false;
      hasSearched := true;
      lastSearchedQuery := query;
    }

    /** `processResults(data)` */
    method ProcessResults(p: Payload, now: int)
      modifies this
      ensures State() == AfterProcess(config, old(State()), p, now)
    {
      match p
      case NoFeatures =>
        results := [];
      case FeaturesNotList =>
        results := [];
        SaveToCache(query, [], now);
      case Features(fs) =>
        var unique := FilterDuplicates(config.norm, fs);
        var finalResults := Take(unique, config.maxShown);
        results := finalResults;
        SaveToCache(query, finalResults, now);
    }

    /**
     * The `try` block of `search()` after a cache miss, with its `catch`:
     * the request and its fallback are sent, and the answer processed, or
     * on failure the results emptied and one notice shown.
     */
    method FetchAndProcess(fetch: Fetch, now: int)
      modifies this
      ensures State() == AfterFetch(config, old(State()),
        FetchFromApi(fetch, SearchRequest(config, old(query), mapState.GetCenter()), config.defaultLang), now)
    {
      var req := BuildRequest(query, config.resultLimit, config.defaultLang, mapState.GetCenter());
      var t := FetchFromApi(fetch, req, config.defaultLang);
      requestLog := requestLog + t.requests;
      match t.outcome {
        case None =>
          results := [];
          notices := notices + [Error(SearchFailed)];
        case Some(p) =>
          ProcessResults(p, now);
      }
    }

    /** The body of `search()` once the guard let it through and the loading flags are set. */
    method RunSearch(fetch: Fetch, now: int)
      modifies this
      ensures State() == Ran(config, old(State()), fetch, mapState.GetCenter(), now)
    {
      var cached := Lookup(Cache(), query, now, config.ttl);
      if cached.Some? {
        results := cached.value;
        // `finishSearch()` runs twice here (before `return` and in `finally`), to the same effect.
        FinishSearch();
      } else {
        FetchAndProcess(fetch, now);
        FinishSearch();
      }
    }

    /** `search()`, with `fetch` answering its requests and the map centre read as `mapState.getCenter()`. */
    method Search(fetch: Fetch, now: int)
      modifies this
      ensures State() == Searched(config, old(State()), fetch, mapState.GetCenter(), now)
    {
      EnsureInitialized(now);
      ghost var i := State();
      if !ShouldPerformSearch() {
        return;
      }
      loading := true;
      hasSearched := false;
      focusedIndex := -1;
      assert State() == Started(i);
      RunSearch(fetch, now);
    }
  }
}
