/**
 * The offline data store (src/lib/stores/localData.svelte.ts): pins,
 * reviews and favourite pin ids kept in memory and mirrored, after every
 * change, into the `localist_offline_data` storage slot. `uuidv4()` and
 * `new Date().toISOString()` are parameters of the adding methods.
 */
module LocalData {
  import opened Wrappers
  import opened JsString
  import opened Storage

  /** What `addPin` receives: a pin without `id`, `created_at` and `isLocal`. */
  datatype PinInput = PinInput(name: string, description: string, latitude: real, longitude: real,
                               address: string, categoryId: string, photos: seq<string>)

  datatype LocalPin = LocalPin(id: string, name: string, description: string, latitude: real, longitude: real,
                               address: string, categoryId: string, photos: seq<string>, createdAt: string,
                               isLocal: bool)

  /** What `addReview` receives: a review without `id`, `created_at`, `isLocal` and `photos`. */
  datatype ReviewInput = ReviewInput(pinId: string, rating: real, comment: string)

  datatype LocalReview = LocalReview(id: string, pinId: string, rating: real, comment: string,
                                     photos: seq<string>, createdAt: string, isLocal: bool)

  datatype LocalData = LocalData(pins: seq<LocalPin>, reviews: seq<LocalReview>, favorites: seq<string>,
                                 lastSync: Option<string>)

  /** The data the store starts from, and what `clear` restores. */
  const NoData := LocalData([], [], [], None)

  /** `{ ...pin, id, created_at, isLocal: true }` */
  function NewPin(p: PinInput, id: string, createdAt: string): (r: LocalPin)
    ensures r.isLocal && r.id == id && r.createdAt == createdAt
    ensures r.name == p.name && r.description == p.description && r.latitude == p.latitude
    ensures r.longitude == p.longitude && r.address == p.address && r.categoryId == p.categoryId
    ensures r.photos == p.photos
  {
    LocalPin(id, p.name, p.description, p.latitude, p.longitude, p.address, p.categoryId, p.photos, createdAt, true)
  }

  /** `{ ...review, id, photos: [], created_at, isLocal: true }` */
  function NewReview(v: ReviewInput, id: string, createdAt: string): (r: LocalReview)
    ensures r.isLocal && r.photos == [] && r.id == id && r.createdAt == createdAt
    ensures r.pinId == v.pinId && r.rating == v.rating && r.comment == v.comment
  {
    LocalReview(id, v.pinId, v.rating, v.comment, [], createdAt, true)
  }

  /** `s.indexOf(x)`: the first position of `x`, or -1. */
  function IndexOf(s: seq<string>, x: string): (r: int)
    ensures r == -1 <==> x !in s
    ensures r != -1 ==> 0 <= r < |s| && s[r] == x && x !in s[..r]
  {
    if s == [] then -1
    else if s[0] == x then 0
    else
      var i := IndexOf(s[1..], x);
      assert i != -1 ==> s[..i + 1] == [s[0]] + s[1..][..i];
      if i == -1 then -1 else i + 1
  }

  /** The favourites after `toggleFavorite(id)`: the first occurrence removed, or `id` appended. */
  function Toggled(favorites: seq<string>, id: string): seq<string> {
    var index := IndexOf(favorites, id);
    if index > -1 then favorites[..index] + favorites[index + 1..] else favorites + [id]
  }

  predicate NoDuplicates(s: seq<string>) {
    forall i, j :: 0 <= i < j < |s| ==> s[i] != s[j]
  }

  /**
   * Toggling removes the first occurrence of a present id, keeping the
   * others in order, and appends an absent one at the end.
   */
  lemma ToggledSpec(favorites: seq<string>, id: string)
    ensures id in favorites ==>
      exists k :: (0 <= k < |favorites| && favorites[k] == id && id !in favorites[..k]
        && Toggled(favorites, id) == favorites[..k] + favorites[k + 1..])
    ensures id !in favorites ==> Toggled(favorites, id) == favorites + [id]
  {
    if id in favorites {
      var k := IndexOf(favorites, id);
      assert Toggled(favorites, id) == favorites[..k] + favorites[k + 1..];
    }
  }

  /** On a list without duplicates a toggle flips membership of `id` and nothing else, and keeps the list free of duplicates. */
  lemma ToggledMembership(favorites: seq<string>, id: string)
    requires NoDuplicates(favorites)
    ensures NoDuplicates(Toggled(favorites, id))
    ensures id in Toggled(favorites, id) <==> id !in favorites
    ensures forall x :: x != id ==> (x in Toggled(favorites, id) <==> x in favorites)
  {
    if id in favorites {
      RemovedMembership(favorites, IndexOf(favorites, id));
    } else {
      var t := favorites + [id];
      assert forall i :: 0 <= i < |favorites| ==> t[i] == favorites[i];
    }
  }

  /** Removing position `k` from a list without duplicates removes its element and keeps the others. */
  lemma RemovedMembership(s: seq<string>, k: nat)
    requires NoDuplicates(s) && k < |s|
    ensures var t := s[..k] + s[k + 1..];
      && NoDuplicates(t) && s[k] !in t
      && forall x :: x != s[k] ==> (x in t <==> x in s)
  {
    var t := s[..k] + s[k + 1..];
    assert forall i :: 0 <= i < |t| ==> t[i] == s[if i < k then i else i + 1];
    forall x | x in s && x != s[k]
      ensures x in t
    {
      var i :| 0 <= i < |s| && s[i] == x;
      assert t[if i < k then i else i - 1] == x;
    }
  }

  /** Toggling an absent id twice restores the list exactly; on a list without duplicates, twice restores membership. */
  lemma ToggleTwice(favorites: seq<string>, id: string)
    ensures id !in favorites ==> Toggled(Toggled(favorites, id), id) == favorites
    ensures NoDuplicates(favorites) ==> forall x :: x in Toggled(Toggled(favorites, id), id) <==> x in favorites
  {
    if id !in favorites {
      var t := favorites + [id];
      assert IndexOf(t, id) == |favorites|;
      assert t[..|favorites|] == favorites;
    }
    if NoDuplicates(favorites) {
      ToggledMembership(favorites, id);
      ToggledMembership(Toggled(favorites, id), id);
    }
  }

  /** `items.filter(p => p.id !== id)` for pins. */
  function WithoutPin(pins: seq<LocalPin>, id: string): (r: seq<LocalPin>)
    ensures forall p :: p in r <==> p in pins && p.id != id
    ensures IsSubsequence(r, pins)
    ensures forall p :: multiset(r)[p] == if p.id != id then multiset(pins)[p] else 0
  {
    FilterIsSubsequence(pins, (p: LocalPin) => p.id != id);
    FilterCount(pins, (p: LocalPin) => p.id != id);
    Filter(pins, (p: LocalPin) => p.id != id)
  }

  /** `items.filter(r => r.id !== id)` for reviews. */
  function WithoutReview(reviews: seq<LocalReview>, id: string): (r: seq<LocalReview>)
    ensures forall v :: v in r <==> v in reviews && v.id != id
    ensures IsSubsequence(r, reviews)
    ensures forall v :: multiset(r)[v] == if v.id != id then multiset(reviews)[v] else 0
  {
    FilterIsSubsequence(reviews, (v: LocalReview) => v.id != id);
    FilterCount(reviews, (v: LocalReview) => v.id != id);
    Filter(reviews, (v: LocalReview) => v.id != id)
  }

  /** `LocalDataStore`: the data in memory and the storage slot it is saved to. */
  class LocalDataStore {
    var data: LocalData
    /** The `localist_offline_data` slot. */
    var slot: Stored<LocalData>
    /** `typeof window !== 'undefined'`: storage exists only in a browser. */
    const browser: bool

    /** After every change the slot holds exactly the data in memory (where there is storage to hold it). */
    predicate Persisted()
      reads this
    {
      browser ==> slot == Parsed(data)
    }

    /** `getTotalCount()`: the number of pins, reviews and favourites. */
    function TotalCount(): (r: nat)
      reads this
    {
      |data.pins| + |data.reviews| + |data.favorites|
    }

    /** `hasLocalData()`: some list is non-empty, that is, the total count is positive. */
    function HasLocalData(): (r: bool)
      reads this
      ensures r <==> TotalCount() > 0
      ensures !r <==> data.pins == [] && data.reviews == [] && data.favorites == []
    {
      |data.pins| > 0 || |data.reviews| > 0 || |data.favorites| > 0
    }

    /** `isFavorite(id)` */
    function IsFavorite(id: string): (r: bool)
      reads this
      ensures r <==> IndexOf(data.favorites, id) != -1
    {
      id in data.favorites
    }

    /** The constructor loads the slot in a browser; a missing or unparsable document leaves the data empty. */
    constructor (browser: bool, slot: Stored<LocalData>)
      ensures this.browser == browser && this.slot == slot
      ensures data == if browser then slot.ReadOr(NoData) else NoData
    {
      this.browser := browser;
      this.slot := slot;
      data := NoData;
      if browser {
        data := slot.ReadOr(NoData);
      }
    }

    /** `save()` */
    method Save()
      modifies this
      ensures data == old(data) && Persisted()
      ensures !browser ==> slot == old(slot)
    {
      if browser {
        slot := Parsed(data);
      }
    }

    /** `addPin` appends exactly one new local pin and returns it. */
    method AddPin(p: PinInput, id: string, createdAt: string) returns (r: LocalPin)
      modifies this
      ensures r == NewPin(p, id, createdAt)
      ensures data == old(data).(pins := old(data).pins + [r])
      ensures Persisted()
      ensures !browser ==> slot == old(slot)
    {
      r := NewPin(p, id, createdAt);
      data := data.(pins := data.pins + [r]);
      Save();
    }

    /** `addReview` appends exactly one new local review, without photos, and returns it. */
    method AddReview(v: ReviewInput, id: string, createdAt: string) returns (r: LocalReview)
      modifies this
      ensures r == NewReview(v, id, createdAt)
      ensures data == old(data).(reviews := old(data).reviews + [r])
      ensures Persisted()
      ensures !browser ==> slot == old(slot)
    {
      r := NewReview(v, id, createdAt);
      data := data.(reviews := data.reviews + [r]);
      Save();
    }

    /** `toggleFavorite(id)` returns whether `id` is a favourite now, which is whether it was absent before. */
    method ToggleFavorite(id: string) returns (added: bool)
      modifies this
      ensures added <==> id !in old(data.favorites)
      ensures data == old(data).(favorites := Toggled(old(data.favorites), id))
      ensures NoDuplicates(old(data.favorites)) ==> IsFavorite(id) == added
      ensures Persisted()
      ensures !browser ==> slot == old(slot)
    {
      var index := IndexOf(data.favorites, id);
      if index > -1 {
        data := data.(favorites := data.favorites[..index] + data.favorites[index + 1..]);
      } else {
        data := data.(favorites := data.favorites + [id]);
      }
      Save();
      added := index == -1;
      if NoDuplicates(old(data.favorites)) {
        ToggledMembership(old(data.favorites), id);
      }
    }

    /** `clear()` empties all three lists and resets `lastSync`. */
    method Clear()
      modifies this
      ensures data == NoData && !HasLocalData()
      ensures Persisted()
      ensures !browser ==> slot == old(slot)
    {
      data := LocalData([], [], [], None);
      Save();
    }

    /** `removePin(id)` drops every pin with that id and keeps the rest in order. */
    method RemovePin(id: string)
      modifies this
      ensures data == old(data).(pins := WithoutPin(old(data.pins), id))
      ensures Persisted()
      ensures !browser ==> slot == old(slot)
    {
      data := data.(pins := Filter(data.pins, (p: LocalPin) => p.id != id));
      Save();
    }

    /** `removeReview(id)` drops every review with that id and keeps the rest in order. */
    method RemoveReview(id: string)
      modifies this
      ensures data == old(data).(reviews := WithoutReview(old(data.reviews), id))
      ensures Persisted()
      ensures !browser ==> slot == old(slot)
    {
      data := data.(reviews := Filter(data.reviews, (v: LocalReview) => v.id != id));
      Save();
    }
  }
}
