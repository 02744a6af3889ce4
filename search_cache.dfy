/**
 * The time-boxed query cache of the place search
 * (src/lib/components/search/search.svelte.ts): the list stored under
 * `CACHE_CONFIG.KEY`, exact lookup, write-through with FIFO eviction, the
 * expiry purge and the autocomplete over every cached result.
 */
module SearchCache {
  import opened Wrappers
  import opened JsString
  import opened Osm
  import opened SearchResults

  /** `CacheItem`: one cached query, its results and the time it was stored. */
  datatype CacheItem = CacheItem(query: string, results: seq<Feature>, timestamp: int)

  /** `a.toLowerCase() === b.toLowerCase()` */
  predicate SameQuery(a: string, b: string) {
    Lower(a) == Lower(b)
  }

  /** The cache never holds two entries for the same query, ignoring case. */
  ghost predicate NoDuplicateQueries(cache: seq<CacheItem>) {
    forall i, j :: 0 <= i < j < |cache| ==> !SameQuery(cache[i].query, cache[j].query)
  }

  /** `cache.find(c => c.query.toLowerCase() === query.toLowerCase())`, as an index. */
  function FindQuery(cache: seq<CacheItem>, q: string): (r: Option<nat>)
    ensures r.None? <==> forall i :: 0 <= i < |cache| ==> !SameQuery(cache[i].query, q)
    ensures r.Some? ==> (r.value < |cache| && SameQuery(cache[r.value].query, q)
      && forall j :: 0 <= j < r.value ==> !SameQuery(cache[j].query, q))
  {
    if cache == [] then None
    else if SameQuery(cache[0].query, q) then Some(0)
    else match FindQuery(cache[1..], q)
      case None => None
      case Some(k) => Some(k + 1)
  }

  /** `getFromCache`: the results of the matching entry while it is younger than `ttl`. */
  function Lookup(cache: seq<CacheItem>, q: string, now: int, ttl: int): Option<seq<Feature>> {
    match FindQuery(cache, q)
    case None => None
    case Some(k) => if now - cache[k].timestamp < ttl then Some(cache[k].results) else None
  }

  /** `c => c.query.toLowerCase() !== query.toLowerCase()` */
  function OtherQuery(q: string): CacheItem -> bool {
    (c: CacheItem) => !SameQuery(c.query, q)
  }

  /** The list `saveToCache` writes back. */
  function Write(cache: seq<CacheItem>, q: string, results: seq<Feature>, now: int, maxEntries: nat): seq<CacheItem> {
    var kept := Filter(cache, OtherQuery(q)) + [CacheItem(q, results, now)];
    if |kept| > maxEntries then kept[1..] else kept
  }

  /**
   * Writing appends the new entry last, keeps the other entries of other
   * queries in order and, over the bound, drops only the front one; so the
   * bound is kept and the query is held exactly once.
   */
  lemma {:induction false} WriteShape(cache: seq<CacheItem>, q: string, results: seq<Feature>, now: int, maxEntries: nat)
    requires maxEntries >= 1
    ensures var w := Write(cache, q, results, now, maxEntries); var others := Filter(cache, OtherQuery(q));
      && |w| >= 1 && w[|w| - 1] == CacheItem(q, results, now)
      && (w[..|w| - 1] == others || w[..|w| - 1] == others[1..])
      && (w[..|w| - 1] == others <==> |others| < maxEntries)
      && IsSubsequence(w[..|w| - 1], cache)
      && (forall i :: 0 <= i < |w| - 1 ==> !SameQuery(w[i].query, q))
      && (|cache| <= maxEntries ==> |w| <= maxEntries)
  {
    var others := Filter(cache, OtherQuery(q));
    var w := Write(cache, q, results, now, maxEntries);
    FilterIsSubsequence(cache, OtherQuery(q));
    if |others| + 1 > maxEntries {
      assert w == others[1..] + [CacheItem(q, results, now)];
      assert w[..|w| - 1] == others[1..];
      SubsequenceTail(others, cache);
    } else {
      assert w[..|w| - 1] == others;
    }
    forall i | 0 <= i < |w| - 1 ensures !SameQuery(w[i].query, q) {
      assert w[i] in others;
    }
  }

  /** Writing keeps the cache free of duplicate queries. */
  lemma WritePreservesNoDuplicates(cache: seq<CacheItem>, q: string, results: seq<Feature>, now: int, maxEntries: nat)
    requires maxEntries >= 1 && NoDuplicateQueries(cache)
    ensures NoDuplicateQueries(Write(cache, q, results, now, maxEntries))
  {
    var w := Write(cache, q, results, now, maxEntries);
    var others := Filter(cache, OtherQuery(q));
    WriteShape(cache, q, results, now, maxEntries);
    FilterNoDuplicates(cache, OtherQuery(q));
    forall i, j | 0 <= i < j < |w| ensures !SameQuery(w[i].query, w[j].query) {
      if j == |w| - 1 {
        assert !SameQuery(w[i].query, q);
      } else if w[..|w| - 1] == others {
        assert w[i] == others[i] && w[j] == others[j];
      } else {
        assert w[i] == others[i + 1] && w[j] == others[j + 1];
      }
    }
  }

  lemma {:induction false} FilterNoDuplicates(cache: seq<CacheItem>, p: CacheItem -> bool)
    requires NoDuplicateQueries(cache)
    ensures NoDuplicateQueries(Filter(cache, p))
    decreases |cache|
  {
    if cache != [] {
      FilterNoDuplicates(cache[1..], p);
      var rest := Filter(cache[1..], p);
      if p(cache[0]) {
        var f := Filter(cache, p);
        assert f == [cache[0]] + rest;
        forall j | 0 < j < |f| ensures !SameQuery(f[0].query, f[j].query) {
          assert f[j] in cache[1..];
        }
      }
    }
  }

  /** A write followed by a lookup of the same query (ignoring case) before the TTL gives back exactly what was written. */
  lemma WriteThenLookup(cache: seq<CacheItem>, q: string, results: seq<Feature>, now: int, maxEntries: nat,
                        q': string, later: int, ttl: int)
    requires maxEntries >= 1 && SameQuery(q, q') && later - now < ttl
    ensures Lookup(Write(cache, q, results, now, maxEntries), q', later, ttl) == Some(results)
  {
    var w := Write(cache, q, results, now, maxEntries);
    WriteShape(cache, q, results, now, maxEntries);
    assert SameQuery(w[|w| - 1].query, q');
    assert forall i :: 0 <= i < |w| - 1 ==> !SameQuery(w[i].query, q');
  }

  /** The entry found for a query is invisible once it is `ttl` old. */
  lemma ExpiredIsAbsent(cache: seq<CacheItem>, q: string, now: int, ttl: int)
    requires FindQuery(cache, q).Some?
    requires now - cache[FindQuery(cache, q).value].timestamp >= ttl
    ensures Lookup(cache, q, now, ttl) == None
  {
  }

  /** `c => Date.now() - c.timestamp < CACHE_CONFIG.TTL` */
  function IsFresh(now: int, ttl: int): CacheItem -> bool {
    (c: CacheItem) => now - c.timestamp < ttl
  }

  /** `cleanOldCache` keeps exactly the entries younger than `ttl`, in order. */
  lemma FreshEntries(cache: seq<CacheItem>, now: int, ttl: int)
    ensures var f := Filter(cache, IsFresh(now, ttl));
      && IsSubsequence(f, cache)
      && (forall c :: c in f <==> c in cache && now - c.timestamp < ttl)
      && (|f| == |cache| <==> forall c :: c in cache ==> now - c.timestamp < ttl)
  {
    FilterIsSubsequence(cache, IsFresh(now, ttl));
    FilterAllKept(cache, IsFresh(now, ttl));
  }

  // ---------- searchInCache ----------

  /** `normalizeStr(name).includes(normalizedQuery)` */
  predicate NameMatches(norm: Normalizer, nq: string, f: Feature) {
    Contains(norm(f.properties.name), nq)
  }

  /** The results of one entry whose normalised name contains the query. */
  function MatchesIn(norm: Normalizer, nq: string, item: CacheItem): seq<Feature> {
    Filter(item.results, (f: Feature) => NameMatches(norm, nq, f))
  }

  /** What `collectMatchesFromCache` gathers: the matches of every entry, in cache order. */
  function Collected(norm: Normalizer, nq: string, cache: seq<CacheItem>): (r: seq<Feature>)
    ensures forall f :: f in r <==> NameMatches(norm, nq, f) && exists c :: c in cache && f in c.results
  {
    if cache == [] then []
    else
      var last := cache[|cache| - 1];
      var r := Collected(norm, nq, cache[..|cache| - 1]) + MatchesIn(norm, nq, last);
      assert forall c :: c in cache <==> c in cache[..|cache| - 1] || c == last;
      r
  }

  /** `collectMatchesFromCache`, whose `forEach` appends each entry's matches. */
  method CollectMatchesFromCache(norm: Normalizer, nq: string, cache: seq<CacheItem>) returns (all: seq<Feature>)
    ensures all == Collected(norm, nq, cache)
  {
    all := [];
    var i := 0;
    while i < |cache|
      invariant 0 <= i <= |cache|
      invariant all == Collected(norm, nq, cache[..i])
    {
      var filtered := Filter(cache[i].results, (f: Feature) => NameMatches(norm, nq, f));
      assert cache[..i + 1][..i] == cache[..i];
      all := all + filtered;
      i := i + 1;
    }
    assert cache[..i] == cache;
  }

  /** Some element of `s` carries the id `id` (absent ids all count as one id). */
  predicate HasId(s: seq<Feature>, id: Option<int>) {
    exists k :: 0 <= k < |s| && s[k].properties.osmId == id
  }

  /** Pairwise-distinct `osm_id`s. */
  ghost predicate DistinctIds(s: seq<Feature>) {
    forall i, j :: 0 <= i < j < |s| ==> s[i].properties.osmId != s[j].properties.osmId
  }

  /** No match before index `i` has the `osm_id` of match `i`. */
  predicate FirstOfId(ms: seq<Feature>, i: nat)
    requires i < |ms|
  {
    forall j :: 0 <= j < i ==> ms[j].properties.osmId != ms[i].properties.osmId
  }

  /** The first match for each `osm_id` among the first `k` matches, in order. */
  function FirstByIdUpTo(ms: seq<Feature>, k: nat): (r: seq<Feature>)
    requires k <= |ms|
    ensures |r| <= k
  {
    if k == 0 then []
    else if FirstOfId(ms, k - 1) then FirstByIdUpTo(ms, k - 1) + [ms[k - 1]]
    else FirstByIdUpTo(ms, k - 1)
  }

  /** Deduplication only keeps matches. */
  lemma {:induction false} FirstByIdSources(ms: seq<Feature>, k: nat)
    requires k <= |ms|
    ensures forall x :: x in FirstByIdUpTo(ms, k) ==> x in ms[..k]
  {
    if k > 0 {
      FirstByIdSources(ms, k - 1);
      assert ms[..k] == ms[..k - 1] + [ms[k - 1]];
    }
  }

  /** Deduplication keeps no `osm_id` twice. */
  lemma {:induction false} FirstByIdDistinct(ms: seq<Feature>, k: nat)
    requires k <= |ms|
    ensures DistinctIds(FirstByIdUpTo(ms, k))
  {
    if k > 0 {
      FirstByIdDistinct(ms, k - 1);
      var d := FirstByIdUpTo(ms, k - 1);
      if FirstOfId(ms, k - 1) {
        FirstByIdSources(ms, k - 1);
        forall m | 0 <= m < |d| ensures d[m].properties.osmId != ms[k - 1].properties.osmId {
          assert d[m] in ms[..k - 1];
        }
      }
    }
  }

  /** Deduplication keeps the first match of every `osm_id`. */
  lemma {:induction false} FirstByIdComplete(ms: seq<Feature>, k: nat)
    requires k <= |ms|
    ensures forall i :: 0 <= i < k && FirstOfId(ms, i) ==> ms[i] in FirstByIdUpTo(ms, k)
  {
    if k > 0 {
      FirstByIdComplete(ms, k - 1);
      var d := FirstByIdUpTo(ms, k - 1);
      var r := FirstByIdUpTo(ms, k);
      forall i | 0 <= i < k && FirstOfId(ms, i) ensures ms[i] in r {
        if i < k - 1 {
          assert ms[i] in d;
        } else {
          assert r == d + [ms[i]];
        }
      }
    }
  }

  /** What `deduplicateMatches` returns: the first match for each `osm_id`. */
  function FirstById(ms: seq<Feature>): seq<Feature> {
    FirstByIdUpTo(ms, |ms|)
  }

  /** The `osm_id`s of the first `k` matches. */
  ghost function IdsBefore(ms: seq<Feature>, k: nat): set<Option<int>>
    requires k <= |ms|
  {
    if k == 0 then {} else IdsBefore(ms, k - 1) + {ms[k - 1].properties.osmId}
  }

  /** Match `i` is the first of its id exactly when its id is not among the earlier ones; and how one more match extends the result. */
  lemma {:induction false} FirstByIdStep(ms: seq<Feature>, i: nat)
    requires i < |ms|
    ensures ms[i].properties.osmId !in IdsBefore(ms, i) <==> FirstOfId(ms, i)
    ensures FirstByIdUpTo(ms, i + 1) == if FirstOfId(ms, i) then FirstByIdUpTo(ms, i) + [ms[i]] else FirstByIdUpTo(ms, i)
  {
    IdsBeforeSpec(ms, i);
  }

  lemma {:induction false} IdsBeforeSpec(ms: seq<Feature>, k: nat)
    requires k <= |ms|
    ensures forall id :: id in IdsBefore(ms, k) <==> exists j :: 0 <= j < k && ms[j].properties.osmId == id
  {
    if k > 0 {
      IdsBeforeSpec(ms, k - 1);
    }
  }

  /** `deduplicateMatches`: a `Map` from `osm_id` to the first match, read back in insertion order. */
  method DeduplicateMatches(matches: seq<Feature>) returns (unique: seq<Feature>)
    ensures unique == FirstById(matches)
  {
    var byId: map<Option<int>, Feature> := map[];
    unique := [];
    var i := 0;
    while i < |matches|
      invariant 0 <= i <= |matches|
      invariant unique == FirstByIdUpTo(matches, i)
      invariant byId.Keys == IdsBefore(matches, i)
    {
      var id := matches[i].properties.osmId;
      FirstByIdStep(matches, i);
      if id !in byId {
        byId := byId[id := matches[i]];
        unique := unique + [matches[i]];
      }
      i := i + 1;
    }
  }

  /** Every id among the matches survives deduplication. */
  lemma {:induction false} FirstByIdKeepsEveryId(ms: seq<Feature>, i: nat)
    requires i < |ms|
    ensures HasId(FirstById(ms), ms[i].properties.osmId)
    decreases i
  {
    if FirstOfId(ms, i) {
      var r := FirstById(ms);
      FirstByIdComplete(ms, |ms|);
      assert ms[i] in r;
      var m :| 0 <= m < |r| && r[m] == ms[i];
    } else {
      var j :| 0 <= j < i && ms[j].properties.osmId == ms[i].properties.osmId;
      FirstByIdKeepsEveryId(ms, j);
    }
  }

  /** `normalizeStr(name).startsWith(normalizedQuery)` */
  predicate IsPrefixMatch(norm: Normalizer, nq: string, f: Feature) {
    StartsWith(norm(f.properties.name), nq)
  }

  /** `sortByRelevance`: a stable sort whose comparator puts prefix matches first, i.e. a stable partition. */
  function SortByRelevance(norm: Normalizer, nq: string, rs: seq<Feature>): seq<Feature> {
    Filter(rs, (f: Feature) => IsPrefixMatch(norm, nq, f)) + Filter(rs, (f: Feature) => !IsPrefixMatch(norm, nq, f))
  }

  /** `searchInCache(partialQuery)` over the cache list, returning at most `maxShown` items. */
  function SearchInCache(norm: Normalizer, cache: seq<CacheItem>, partial: string, maxShown: nat): Option<seq<Feature>> {
    var nq := norm(partial);
    var all := Collected(norm, nq, cache);
    if |all| == 0 then None
    else Some(Take(SortByRelevance(norm, nq, FirstById(all)), maxShown))
  }

  /** The autocomplete finds nothing exactly when no cached result matches the query. */
  lemma SearchInCacheNone(norm: Normalizer, cache: seq<CacheItem>, partial: string, maxShown: nat)
    ensures SearchInCache(norm, cache, partial, maxShown).None? <==>
      forall c, f :: c in cache && f in c.results ==> !NameMatches(norm, norm(partial), f)
  {
    var all := Collected(norm, norm(partial), cache);
    if |all| > 0 {
      assert all[0] in all;
    }
  }

  /** A stable partition puts every prefix match before every other element. */
  lemma PartitionOrder(norm: Normalizer, nq: string, d: seq<Feature>)
    ensures var s := SortByRelevance(norm, nq, d);
      forall i, j :: 0 <= i < j < |s| && IsPrefixMatch(norm, nq, s[j]) ==> IsPrefixMatch(norm, nq, s[i])
  {
    var p := Filter(d, (f: Feature) => IsPrefixMatch(norm, nq, f));
    var n := Filter(d, (f: Feature) => !IsPrefixMatch(norm, nq, f));
    var s := SortByRelevance(norm, nq, d);
    forall k | |p| <= k < |s| ensures !IsPrefixMatch(norm, nq, s[k]) {
      FilterIndex(d, (f: Feature) => !IsPrefixMatch(norm, nq, f), k - |p|);
    }
    forall k | 0 <= k < |p| ensures IsPrefixMatch(norm, nq, s[k]) {
      FilterIndex(d, (f: Feature) => IsPrefixMatch(norm, nq, f), k);
    }
  }

  /** `Filter` by a test and by its negation, one after the other, is a permutation. */
  lemma SplitIsPermutation<T(!new)>(d: seq<T>, p: T -> bool, q: T -> bool)
    requires forall x :: q(x) == !p(x)
    ensures multiset(Filter(d, p) + Filter(d, q)) == multiset(d)
  {
    FilterCount(d, p);
    FilterCount(d, q);
    assert forall x :: multiset(Filter(d, p) + Filter(d, q))[x] == multiset(d)[x];
  }

  /**
   * The partition is a stable sort: it is a permutation of `d`, the prefix
   * matches come first, and each of the two groups keeps the order it has
   * in `d`.
   */
  lemma PartitionIsStable(norm: Normalizer, nq: string, d: seq<Feature>)
    ensures var s := SortByRelevance(norm, nq, d); var k := |Filter(d, (f: Feature) => IsPrefixMatch(norm, nq, f))|;
      && multiset(s) == multiset(d)
      && k <= |s|
      && (forall i :: 0 <= i < k ==> IsPrefixMatch(norm, nq, s[i]))
      && (forall i :: k <= i < |s| ==> !IsPrefixMatch(norm, nq, s[i]))
      && IsSubsequence(s[..k], d) && IsSubsequence(s[k..], d)
  {
    var starts := (f: Feature) => IsPrefixMatch(norm, nq, f);
    var rest := (f: Feature) => !IsPrefixMatch(norm, nq, f);
    var p := Filter(d, starts);
    var n := Filter(d, rest);
    var s := SortByRelevance(norm, nq, d);
    SplitIsPermutation(d, starts, rest);
    assert s[..|p|] == p && s[|p|..] == n;
    FilterIsSubsequence(d, starts);
    FilterIsSubsequence(d, rest);
    PartitionGroups(norm, nq, d);
  }

  lemma PartitionGroups(norm: Normalizer, nq: string, d: seq<Feature>)
    ensures var s := SortByRelevance(norm, nq, d); var k := |Filter(d, (f: Feature) => IsPrefixMatch(norm, nq, f))|;
      && k <= |s|
      && (forall i :: 0 <= i < k ==> IsPrefixMatch(norm, nq, s[i]))
      && (forall i :: k <= i < |s| ==> !IsPrefixMatch(norm, nq, s[i]))
  {
    var starts := (f: Feature) => IsPrefixMatch(norm, nq, f);
    var rest := (f: Feature) => !IsPrefixMatch(norm, nq, f);
    var p := Filter(d, starts);
    var s := SortByRelevance(norm, nq, d);
    forall i | 0 <= i < |p| ensures IsPrefixMatch(norm, nq, s[i]) {
      FilterIndex(d, starts, i);
    }
    forall i | |p| <= i < |s| ensures !IsPrefixMatch(norm, nq, s[i]) {
      FilterIndex(d, rest, i - |p|);
    }
  }

  /** Deduplication keeps only matches that are the first of their `osm_id`. */
  lemma {:induction false} FirstByIdOnlyFirsts(ms: seq<Feature>, k: nat)
    requires k <= |ms|
    ensures forall x :: x in FirstByIdUpTo(ms, k) ==> exists i :: 0 <= i < k && ms[i] == x && FirstOfId(ms, i)
  {
    if k > 0 {
      FirstByIdOnlyFirsts(ms, k - 1);
    }
  }

  /** The partition of an id-distinct list is id-distinct again. */
  lemma PartitionDistinct(norm: Normalizer, nq: string, d: seq<Feature>)
    requires DistinctIds(d)
    ensures DistinctIds(SortByRelevance(norm, nq, d))
  {
    var starts := (f: Feature) => IsPrefixMatch(norm, nq, f);
    var rest := (f: Feature) => !IsPrefixMatch(norm, nq, f);
    var p := Filter(d, starts);
    var n := Filter(d, rest);
    var s := SortByRelevance(norm, nq, d);
    FilterDistinctIds(d, starts);
    FilterDistinctIds(d, rest);
    forall i, j | 0 <= i < j < |s| ensures s[i].properties.osmId != s[j].properties.osmId {
      if j < |p| {
        assert s[i] == p[i] && s[j] == p[j];
      } else if i >= |p| {
        assert s[i] == n[i - |p|] && s[j] == n[j - |p|];
      } else {
        assert s[i] == p[i] && s[j] == n[j - |p|];
        assert s[i] in d && s[j] in d && s[i] != s[j];
        ElementsDistinctIds(d, s[i], s[j]);
      }
    }
  }

  /**
   * Otherwise it returns between one and `maxShown` cached results, each
   * matching, with pairwise-distinct ids, prefix matches first.
   */
  lemma SearchInCacheSome(norm: Normalizer, cache: seq<CacheItem>, partial: string, maxShown: nat)
    requires maxShown >= 1
    requires SearchInCache(norm, cache, partial, maxShown).Some?
    ensures var r := SearchInCache(norm, cache, partial, maxShown).value; var nq := norm(partial);
      && 1 <= |r| <= maxShown
      && (forall f :: f in r ==> NameMatches(norm, nq, f) && exists c :: c in cache && f in c.results)
      && DistinctIds(r)
      && (forall i, j :: 0 <= i < j < |r| && IsPrefixMatch(norm, nq, r[j]) ==> IsPrefixMatch(norm, nq, r[i]))
      && r == Take(SortByRelevance(norm, nq, FirstById(Collected(norm, nq, cache))), maxShown)
      && (forall f :: f in r ==>
            exists i :: 0 <= i < |Collected(norm, nq, cache)| && Collected(norm, nq, cache)[i] == f && FirstOfId(Collected(norm, nq, cache), i))
  {
    var nq := norm(partial);
    var all := Collected(norm, nq, cache);
    var d := FirstById(all);
    FirstByIdSources(all, |all|);
    FirstByIdDistinct(all, |all|);
    assert all[..|all|] == all;
    var s := SortByRelevance(norm, nq, d);
    var r := Take(s, maxShown);
    assert r == s[..|r|];
    assert |d| >= 1 by {
      FirstByIdKeepsEveryId(all, 0);
    }
    assert d[0] in s;
    forall f | f in r ensures NameMatches(norm, nq, f) && exists c :: c in cache && f in c.results {
      assert f in s;
      assert f in d;
    }
    PartitionDistinct(norm, nq, d);
    PartitionOrder(norm, nq, d);
    FirstByIdOnlyFirsts(all, |all|);
    forall f | f in r ensures exists i :: 0 <= i < |all| && all[i] == f && FirstOfId(all, i) {
      assert f in s;
      assert f in d;
    }
  }

  lemma {:induction false} FilterDistinctIds(s: seq<Feature>, p: Feature -> bool)
    requires DistinctIds(s)
    ensures DistinctIds(Filter(s, p))
    decreases |s|
  {
    if s != [] {
      FilterDistinctIds(s[1..], p);
      var rest := Filter(s[1..], p);
      if p(s[0]) {
        var f := Filter(s, p);
        assert f == [s[0]] + rest;
        forall j | 0 < j < |f| ensures f[0].properties.osmId != f[j].properties.osmId {
          assert f[j] in s[1..];
        }
      }
    }
  }

  lemma ElementsDistinctIds(s: seq<Feature>, x: Feature, y: Feature)
    requires DistinctIds(s) && x in s && y in s && x != y
    ensures x.properties.osmId != y.properties.osmId
  {
    var i :| 0 <= i < |s| && s[i] == x;
    var j :| 0 <= j < |s| && s[j] == y;
    assert i != j;
  }
}
