/**
 * The result-list operations of the place search
 * (src/lib/components/search/search.svelte.ts): deduplication of one fetched
 * batch (`filterDuplicates` / `generateUniqueKey`) and the helpers of the
 * cache autocomplete (`collectMatchesFromCache`, `deduplicateMatches`,
 * `sortByRelevance`). `normalizeStr` is not part of this model: every
 * operation takes it as the parameter `norm`.
 */
module SearchResults {
  import opened Wrappers
  import opened JsString
  import opened Osm

  type Normalizer = string -> string

  /** `if (feature.properties.osm_id)`: present and not 0. */
  predicate Truthy(id: Option<int>) {
    id.Some? && id.value != 0
  }

  /** `generateUniqueKey` */
  function UniqueKey(norm: Normalizer, f: Feature): string {
    var p := f.properties;
    if p.osmKey == "highway" then "street|" + norm(p.name) + "|" + norm(p.city)
    else "poi|" + norm(p.name) + "|" + norm(p.city) + "|" + norm(p.street)
  }

  /** Roads share a key whatever their streets are. */
  lemma HighwayKeyIgnoresStreet(norm: Normalizer, a: Feature, b: Feature)
    requires a.properties.osmKey == "highway" && b.properties.osmKey == "highway"
    requires norm(a.properties.name) == norm(b.properties.name)
    requires norm(a.properties.city) == norm(b.properties.city)
    ensures UniqueKey(norm, a) == UniqueKey(norm, b)
  {
  }

  /** Other places with the same name and city are told apart by their street. */
  lemma PoiKeyIncludesStreet(norm: Normalizer, a: Feature, b: Feature)
    requires a.properties.osmKey != "highway" && b.properties.osmKey != "highway"
    requires norm(a.properties.name) == norm(b.properties.name)
    requires norm(a.properties.city) == norm(b.properties.city)
    ensures UniqueKey(norm, a) == UniqueKey(norm, b) <==> norm(a.properties.street) == norm(b.properties.street)
  {
    var pre := "poi|" + norm(a.properties.name) + "|" + norm(a.properties.city) + "|";
    assert UniqueKey(norm, a) == pre + norm(a.properties.street);
    assert UniqueKey(norm, b) == pre + norm(b.properties.street);
    if UniqueKey(norm, a) == UniqueKey(norm, b) {
      assert norm(a.properties.street) == UniqueKey(norm, a)[|pre|..];
    }
  }

  /** `country === 'Brazil'` is rewritten to `'Brasil'`. */
  function FixCountry(f: Feature): (r: Feature)
    ensures r.properties.country != "Brazil"
    ensures f.properties.country == "Brazil" ==> r.properties.country == "Brasil"
    ensures f.properties.country != "Brazil" ==> r == f
    ensures r.geometry == f.geometry && r.properties.(country := f.properties.country) == f.properties
  {
    if f.properties.country == "Brazil" then f.(properties := f.properties.(country := "Brasil")) else f
  }

  // ---------- filterDuplicates ----------

  /** The truthy ids among the first `k` features: `seenIds` once the callback has run on them. */
  function IdsSeen(fs: seq<Feature>, k: nat): set<int>
    requires k <= |fs|
  {
    if k == 0 then {}
    else IdsSeen(fs, k - 1) + (if Truthy(fs[k - 1].properties.osmId) then {fs[k - 1].properties.osmId.value} else {})
  }

  /** Feature `i` carries a truthy id that is already in `seenIds`. */
  predicate IdSeenBefore(fs: seq<Feature>, i: nat)
    requires i < |fs|
  {
    Truthy(fs[i].properties.osmId) && fs[i].properties.osmId.value in IdsSeen(fs, i)
  }

  /** Feature `j` got past the id test and, having a name, registered its key. */
  predicate RegistersKey(norm: Normalizer, fs: seq<Feature>, j: nat)
    requires j < |fs|
  {
    !IdSeenBefore(fs, j) && norm(fs[j].properties.name) != ""
  }

  /** The keys registered by the first `k` features: `seenKeys` once the callback has run on them. */
  function KeysSeen(norm: Normalizer, fs: seq<Feature>, k: nat): set<string>
    requires k <= |fs|
  {
    if k == 0 then {}
    else KeysSeen(norm, fs, k - 1) + (if RegistersKey(norm, fs, k - 1) then {UniqueKey(norm, fs[k - 1])} else {})
  }

  /** The key of feature `i` is already in `seenKeys`. */
  predicate KeySeenBefore(norm: Normalizer, fs: seq<Feature>, i: nat)
    requires i < |fs|
  {
    UniqueKey(norm, fs[i]) in KeysSeen(norm, fs, i)
  }

  /** The callback of `filterDuplicates` returns true for feature `i`. */
  predicate Kept(norm: Normalizer, fs: seq<Feature>, i: nat)
    requires i < |fs|
  {
    !IdSeenBefore(fs, i) && (norm(fs[i].properties.name) == "" || !KeySeenBefore(norm, fs, i))
  }

  /** `seenIds` holds exactly the truthy ids of the earlier features. */
  lemma {:induction false} IdsSeenSpec(fs: seq<Feature>, k: nat)
    requires k <= |fs|
    ensures forall id :: id in IdsSeen(fs, k) <==> exists j :: 0 <= j < k && fs[j].properties.osmId == Some(id) && id != 0
  {
    if k > 0 {
      IdsSeenSpec(fs, k - 1);
    }
  }

  /** `seenKeys` holds exactly the keys of the earlier features that registered one. */
  lemma {:induction false} KeysSeenSpec(norm: Normalizer, fs: seq<Feature>, k: nat)
    requires k <= |fs|
    ensures forall key :: key in KeysSeen(norm, fs, k) <==>
      exists j :: 0 <= j < k && RegistersKey(norm, fs, j) && UniqueKey(norm, fs[j]) == key
  {
    if k > 0 {
      KeysSeenSpec(norm, fs, k - 1);
    }
  }

  /** The id test rejects feature `i` exactly when an earlier feature has the same truthy id. */
  lemma IdSeenBeforeMeaning(fs: seq<Feature>, i: nat)
    requires i < |fs|
    ensures IdSeenBefore(fs, i) <==>
      Truthy(fs[i].properties.osmId) && exists j :: 0 <= j < i && fs[j].properties.osmId == fs[i].properties.osmId
  {
    IdsSeenSpec(fs, i);
  }

  /** The key test rejects feature `i` exactly when an earlier feature registered the same key. */
  lemma KeySeenBeforeMeaning(norm: Normalizer, fs: seq<Feature>, i: nat)
    requires i < |fs|
    ensures KeySeenBefore(norm, fs, i) <==>
      exists j :: 0 <= j < i && RegistersKey(norm, fs, j) && UniqueKey(norm, fs[j]) == UniqueKey(norm, fs[i])
  {
    KeysSeenSpec(norm, fs, i);
  }

  /** The indices below `k` that are kept, in increasing order. */
  function KeptIndices(norm: Normalizer, fs: seq<Feature>, k: nat): (r: seq<nat>)
    requires k <= |fs|
    ensures forall m :: 0 <= m < |r| ==> r[m] < k
  {
    if k == 0 then [] else KeptIndices(norm, fs, k - 1) + (if Kept(norm, fs, k - 1) then [k - 1] else [])
  }

  /** The kept indices below `k` are exactly the `Kept` ones, increasing. */
  lemma {:induction false} KeptIndicesSpec(norm: Normalizer, fs: seq<Feature>, k: nat)
    requires k <= |fs|
    ensures var r := KeptIndices(norm, fs, k);
      && (forall m :: 0 <= m < |r| ==> Kept(norm, fs, r[m]))
      && (forall m, n :: 0 <= m < n < |r| ==> r[m] < r[n])
      && (forall i :: 0 <= i < k ==> (i in r <==> Kept(norm, fs, i)))
  {
    if k > 0 {
      KeptIndicesSpec(norm, fs, k - 1);
    }
  }

  /** The features at `idx`, with the country rewrite applied. */
  function Pick(fs: seq<Feature>, idx: seq<nat>): (r: seq<Feature>)
    requires forall m :: 0 <= m < |idx| ==> idx[m] < |fs|
    ensures |r| == |idx|
    ensures forall m :: 0 <= m < |idx| ==> r[m] == FixCountry(fs[idx[m]])
  {
    seq(|idx|, m requires 0 <= m < |idx| => FixCountry(fs[idx[m]]))
  }

  /** What `filterDuplicates` returns for the batch `fs`. */
  function Deduplicated(norm: Normalizer, fs: seq<Feature>): seq<Feature> {
    Pick(fs, KeptIndices(norm, fs, |fs|))
  }

  /** The callback on feature `i` adds its id when truthy and new, and its key when it registers a new one. */
  lemma SeenStep(norm: Normalizer, fs: seq<Feature>, i: nat)
    requires i < |fs|
    ensures var id := fs[i].properties.osmId;
      IdsSeen(fs, i + 1) == if Truthy(id) && id.value !in IdsSeen(fs, i) then IdsSeen(fs, i) + {id.value} else IdsSeen(fs, i)
    ensures var key := UniqueKey(norm, fs[i]);
      KeysSeen(norm, fs, i + 1) == if RegistersKey(norm, fs, i) && key !in KeysSeen(norm, fs, i) then KeysSeen(norm, fs, i) + {key} else KeysSeen(norm, fs, i)
  {
    var id := fs[i].properties.osmId;
    var key := UniqueKey(norm, fs[i]);
    if Truthy(id) && id.value in IdsSeen(fs, i) {
      assert IdsSeen(fs, i) + {id.value} == IdsSeen(fs, i);
    }
    if RegistersKey(norm, fs, i) && key in KeysSeen(norm, fs, i) {
      assert KeysSeen(norm, fs, i) + {key} == KeysSeen(norm, fs, i);
    }
  }

  lemma PickAppend(fs: seq<Feature>, idx: seq<nat>, i: nat)
    requires i < |fs| && forall m :: 0 <= m < |idx| ==> idx[m] < |fs|
    ensures Pick(fs, idx + [i]) == Pick(fs, idx) + [FixCountry(fs[i])]
  {
  }

  /** `filterDuplicates`, with its two sets of seen ids and seen keys. */
  method FilterDuplicates(norm: Normalizer, features: seq<Feature>) returns (r: seq<Feature>)
    ensures r == Deduplicated(norm, features)
  {
    var seenIds: set<int> := {};
    var seenKeys: set<string> := {};
    r := [];
    var i := 0;
    while i < |features|
      invariant 0 <= i <= |features|
      invariant seenIds == IdsSeen(features, i)
      invariant seenKeys == KeysSeen(norm, features, i)
      invariant r == Pick(features, KeptIndices(norm, features, i))
    {
      SeenStep(norm, features, i);
      var f := features[i];
      var keep := true;
      if Truthy(f.properties.osmId) {
        if f.properties.osmId.value in seenIds {
          keep := false;
        } else {
          seenIds := seenIds + {f.properties.osmId.value};
        }
      }
      if keep {
        var key := UniqueKey(norm, f);
        if norm(f.properties.name) != "" {
          if key in seenKeys {
            keep := false;
          } else {
            seenKeys := seenKeys + {key};
          }
        }
      }
      assert keep == Kept(norm, features, i);
      if keep {
        PickAppend(features, KeptIndices(norm, features, i), i);
        r := r + [FixCountry(f)];
      }
      i := i + 1;
    }
  }

  /** The output is the kept features, in input order, each with the country rewrite. */
  lemma {:induction false} DeduplicatedIsOrderedSelection(norm: Normalizer, fs: seq<Feature>)
    ensures var r := Deduplicated(norm, fs); var idx := KeptIndices(norm, fs, |fs|);
      && |r| == |idx| <= |fs|
      && (forall m :: 0 <= m < |r| ==> idx[m] < |fs| && r[m] == FixCountry(fs[idx[m]]))
      && (forall m, n :: 0 <= m < n < |r| ==> idx[m] < idx[n])
      && (forall i :: 0 <= i < |fs| ==> (i in idx <==> Kept(norm, fs, i)))
  {
    var idx := KeptIndices(norm, fs, |fs|);
    KeptIndicesSpec(norm, fs, |fs|);
    IncreasingIndicesBound(idx, |fs|);
  }

  lemma {:induction false} IncreasingIndicesBound(idx: seq<nat>, k: nat)
    requires forall m :: 0 <= m < |idx| ==> idx[m] < k
    requires forall m, n :: 0 <= m < n < |idx| ==> idx[m] < idx[n]
    ensures |idx| <= k
    decreases k
  {
    if |idx| > 0 {
      var last := idx[|idx| - 1];
      IncreasingIndicesBound(idx[..|idx| - 1], last);
    }
  }

  /** No two kept features share a truthy `osm_id`. */
  lemma DeduplicatedIdsDistinct(norm: Normalizer, fs: seq<Feature>)
    ensures var r := Deduplicated(norm, fs);
      forall m, n :: 0 <= m < n < |r| && Truthy(r[n].properties.osmId) ==>
        r[m].properties.osmId != r[n].properties.osmId
  {
    var r := Deduplicated(norm, fs);
    var idx := KeptIndices(norm, fs, |fs|);
    DeduplicatedIsOrderedSelection(norm, fs);
    forall m, n | 0 <= m < n < |r| && Truthy(r[n].properties.osmId)
      ensures r[m].properties.osmId != r[n].properties.osmId
    {
      assert Kept(norm, fs, idx[n]);
      assert idx[m] < idx[n];
      IdSeenBeforeMeaning(fs, idx[n]);
    }
  }

  /** A feature with an empty normalised name is kept exactly when its id did not come earlier. */
  lemma NamelessKept(norm: Normalizer, fs: seq<Feature>, i: nat)
    requires i < |fs| && norm(fs[i].properties.name) == ""
    ensures i in KeptIndices(norm, fs, |fs|) <==>
      !(Truthy(fs[i].properties.osmId) && exists j :: 0 <= j < i && fs[j].properties.osmId == fs[i].properties.osmId)
  {
    KeptIndicesSpec(norm, fs, |fs|);
    IdSeenBeforeMeaning(fs, i);
  }

  /** No kept feature is left with `country == 'Brazil'`. */
  lemma DeduplicatedHasNoBrazil(norm: Normalizer, fs: seq<Feature>)
    ensures forall f :: f in Deduplicated(norm, fs) ==> f.properties.country != "Brazil"
  {
  }

  /** Two roads with the same name and city: the second is dropped. */
  lemma SecondRoadDropped(norm: Normalizer, a: Feature, b: Feature)
    requires a.properties.osmKey == "highway" && b.properties.osmKey == "highway"
    requires norm(a.properties.name) != ""
    requires norm(a.properties.name) == norm(b.properties.name)
    requires norm(a.properties.city) == norm(b.properties.city)
    ensures Deduplicated(norm, [a, b]) == [FixCountry(a)]
  {
    var fs := [a, b];
    HighwayKeyIgnoresStreet(norm, a, b);
    assert Kept(norm, fs, 0);
    assert RegistersKey(norm, fs, 0);
    assert !Kept(norm, fs, 1);
    assert KeptIndices(norm, fs, 2) == [0];
  }

  /** Two places sharing no truthy id, same name and city, different streets: both stay. */
  lemma PoisOnDifferentStreetsKept(norm: Normalizer, a: Feature, b: Feature)
    requires a.properties.osmKey != "highway" && b.properties.osmKey != "highway"
    requires !(Truthy(a.properties.osmId) && a.properties.osmId == b.properties.osmId)
    requires norm(a.properties.name) == norm(b.properties.name)
    requires norm(a.properties.city) == norm(b.properties.city)
    requires norm(a.properties.street) != norm(b.properties.street)
    ensures Deduplicated(norm, [a, b]) == [FixCountry(a), FixCountry(b)]
  {
    var fs := [a, b];
    PoiKeyIncludesStreet(norm, a, b);
    assert Kept(norm, fs, 0);
    assert IdsSeen(fs, 1) == if Truthy(a.properties.osmId) then {a.properties.osmId.value} else {};
    assert KeysSeen(norm, fs, 1) <= {UniqueKey(norm, a)};
    assert Kept(norm, fs, 1);
    assert KeptIndices(norm, fs, 2) == [0, 1];
  }

  /** Two features with the same truthy id: only the first stays. */
  lemma SameIdKeepsFirst(norm: Normalizer, a: Feature, b: Feature)
    requires Truthy(a.properties.osmId) && a.properties.osmId == b.properties.osmId
    ensures Deduplicated(norm, [a, b]) == [FixCountry(a)]
  {
    var fs := [a, b];
    assert Kept(norm, fs, 0);
    assert IdSeenBefore(fs, 1);
    assert KeptIndices(norm, fs, 2) == [0];
  }
}
