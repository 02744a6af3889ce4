/**
 * The map controller (src/lib/components/map/map.svelte.ts), driven
 * against a fake view that records the calls made on it and the layers
 * it currently shows.
 */
module MapControl {
  import opened Wrappers
  import opened Osm
  import opened Toasts

  /** A Leaflet coordinate, in Leaflet's order `[lat, lng]`. */
  datatype LatLng = LatLng(lat: real, lng: real)

  /** A marker created by `selectLocation`; `id` tells two markers at the same place apart. */
  datatype Marker = Marker(id: nat, position: LatLng, cssClass: string)

  datatype MapCall =
    | SetView(center: LatLng, zoom: int)
    | FlyTo(target: LatLng, zoom: int)
    | FitBounds(southWest: LatLng, northEast: LatLng, padding: int, maxZoom: int)
    | AddLayer(added: Marker)
    | RemoveLayer(removed: Marker)

  /** The fake Leaflet view: its centre, every call made on it, and the markers on it. */
  datatype FakeMap = FakeMap(center: LatLng, calls: seq<MapCall>, layers: seq<Marker>)

  /** What `navigator.geolocation` delivers to `locateUser`'s callbacks, or that it is missing. */
  datatype Geolocation = NoGeolocation | Located(latitude: real, longitude: real) | PositionError(code: int)

  /** The message for a geolocation error code. */
  function LocateErrorMessage(code: int): (m: Message)
    ensures m == LocationDenied <==> code == 1
    ensures m == LocationTimeout <==> code == 3
    ensures m == LocationUnavailable <==> code != 1 && code != 3
  {
    if code == 1 then LocationDenied
    else if code == 2 then LocationUnavailable
    else if code == 3 then LocationTimeout
    else LocationUnavailable
  }

  /** The notice `locateUser` ends with. */
  function LocateNotice(g: Geolocation): (t: Toast)
    ensures t.Success? <==> g.Located?
    ensures t.Success? ==> t.message == LocationFound
    ensures g.NoGeolocation? ==> t == Error(LocationUnavailable)
    ensures g.PositionError? ==> t == Error(LocateErrorMessage(g.code))
  {
    match g
    case NoGeolocation => Error(LocationUnavailable)
    case Located(_, _) => Success(LocationFound)
    case PositionError(code) => Error(LocateErrorMessage(code))
  }

  /** The CSS class of a search marker. */
  function MarkerClass(p: Properties): (c: string)
    ensures c == "area-marker" <==> GetPlaceType(p) == Area
    ensures c == "pin-marker" <==> GetPlaceType(p) == Point
  {
    if GetPlaceType(p) == Area then "area-marker" else "pin-marker"
  }

  /** The marker for a feature, at the GeoJSON `[lng, lat]` turned into Leaflet's `[lat, lng]`. */
  function MarkerFor(f: Feature, id: nat): (m: Marker)
    ensures m.position.lat == f.geometry.lat && m.position.lng == f.geometry.lng
    ensures m.cssClass == MarkerClass(f.properties) && m.id == id
  {
    Marker(id, LatLng(f.geometry.lat, f.geometry.lng), MarkerClass(f.properties))
  }

  /** The viewport change for a feature: fit its extent if it has one, else fly to its point. */
  function ViewportCall(f: Feature, searchZoom: int, padding: int, maxZoom: int): (c: MapCall)
    ensures c.FitBounds? <==> f.properties.extent.Some?
    ensures c.FlyTo? <==> f.properties.extent.None?
    ensures c.FitBounds? ==>
      var e := f.properties.extent.value;
      c.southWest == LatLng(e.minLat, e.minLng) && c.northEast == LatLng(e.maxLat, e.maxLng)
      && c.padding == padding && c.maxZoom == maxZoom
    ensures c.FlyTo? ==> c.target == LatLng(f.geometry.lat, f.geometry.lng) && c.zoom == searchZoom
  {
    match f.properties.extent
    case Some(e) => FitBounds(LatLng(e.minLat, e.minLng), LatLng(e.maxLat, e.maxLng), padding, maxZoom)
    case None => FlyTo(LatLng(f.geometry.lat, f.geometry.lng), searchZoom)
  }

  /** `view.removeLayer(m)`: every copy of `m` leaves the view. */
  function RemoveMarker(layers: seq<Marker>, m: Marker): (r: seq<Marker>)
    ensures forall x :: x in r <==> x in layers && x != m
    ensures |r| <= |layers|
  {
    if layers == [] then []
    else if layers[0] == m then RemoveMarker(layers[1..], m)
    else [layers[0]] + RemoveMarker(layers[1..], m)
  }

  /** The markers after `selectLocation` replaces `current` by `m`. */
  function PlaceMarker(layers: seq<Marker>, current: Option<Marker>, m: Marker): seq<Marker> {
    (if current.Some? then RemoveMarker(layers, current.value) else layers) + [m]
  }

  /** The view shows no search marker other than the current one. */
  predicate OnlyCurrent(layers: seq<Marker>, current: Option<Marker>) {
    match current
    case None => layers == []
    case Some(m) => forall k :: 0 <= k < |layers| ==> layers[k] == m
  }

  /** Replacing the marker leaves exactly one search marker, the new one. */
  lemma {:induction false} PlaceMarkerLeavesOne(layers: seq<Marker>, current: Option<Marker>, m: Marker)
    requires OnlyCurrent(layers, current)
    ensures PlaceMarker(layers, current, m) == [m]
    ensures OnlyCurrent(PlaceMarker(layers, current, m), Some(m))
  {
    if current.Some? {
      RemoveAllCopies(layers, current.value);
    }
  }

  lemma {:induction false} RemoveAllCopies(layers: seq<Marker>, m: Marker)
    requires forall k :: 0 <= k < |layers| ==> layers[k] == m
    ensures RemoveMarker(layers, m) == []
    decreases |layers|
  {
    if layers != [] {
      RemoveAllCopies(layers[1..], m);
    }
  }

  /** Every field of `mapState` that its methods change. */
  datatype MapFields = MapFields(view: Option<FakeMap>, hasLeaflet: bool, currentLayer: Option<Marker>,
                                 nextMarkerId: nat, notices: seq<Toast>)

  /** The view shows the current search marker and nothing else, and that marker's id is taken. */
  predicate MapValid(m: MapFields) {
    (m.view.Some? ==> OnlyCurrent(m.view.value.layers, m.currentLayer))
    && (m.currentLayer.Some? ==> m.currentLayer.value.id < m.nextMarkerId)
  }

  /**
   * The fields after `selectLocation(f)`: with a view and Leaflet, the
   * previous search marker is removed, a new one is added at the feature
   * and the viewport moves to it; otherwise nothing changes.
   */
  function SelectedMap(m: MapFields, f: Feature, searchZoom: int, fitPadding: int, fitMaxZoom: int): MapFields {
    if m.view.None? || !m.hasLeaflet then m
    else
      var v := m.view.value;
      var marker := MarkerFor(f, m.nextMarkerId);
      var removal := if m.currentLayer.Some? then [RemoveLayer(m.currentLayer.value)] else [];
      m.(view := Some(v.(calls := v.calls + removal + [AddLayer(marker), ViewportCall(f, searchZoom, fitPadding, fitMaxZoom)],
                         layers := PlaceMarker(v.layers, m.currentLayer, marker))),
         currentLayer := Some(marker), nextMarkerId := m.nextMarkerId + 1)
  }

  /**
   * Selecting a location keeps the old calls, removes the previous marker
   * (when there is one) before adding the new one, moves the viewport
   * last, and leaves the new marker as the only one on the view.
   */
  lemma SelectedMapSpec(m: MapFields, f: Feature, searchZoom: int, fitPadding: int, fitMaxZoom: int)
    ensures var r := SelectedMap(m, f, searchZoom, fitPadding, fitMaxZoom);
      && r.hasLeaflet == m.hasLeaflet && r.notices == m.notices
      && (m.view.None? || !m.hasLeaflet ==> r == m)
      && (MapValid(m) ==> MapValid(r))
      && (m.view.Some? && m.hasLeaflet ==>
            var before := m.view.value.calls; var marker := MarkerFor(f, m.nextMarkerId);
            && r.currentLayer == Some(marker) && r.nextMarkerId == m.nextMarkerId + 1
            && r.view.Some? && r.view.value.center == m.view.value.center
            && var calls := r.view.value.calls;
            && |calls| == |before| + (if m.currentLayer.Some? then 3 else 2)
            && calls[..|before|] == before
            && (m.currentLayer.Some? ==> calls[|before|] == RemoveLayer(m.currentLayer.value))
            && calls[|calls| - 2] == AddLayer(marker)
            && calls[|calls| - 1] == ViewportCall(f, searchZoom, fitPadding, fitMaxZoom)
            && (MapValid(m) ==> r.view.value.layers == [marker]))
  {
    if m.view.Some? && m.hasLeaflet && MapValid(m) {
      PlaceMarkerLeavesOne(m.view.value.layers, m.currentLayer, MarkerFor(f, m.nextMarkerId));
    }
  }

  /** The store behind `mapState`. */
  class MapState {
    var view: Option<FakeMap>
    /** Whether the Leaflet library (`L`) has been handed over. */
    var hasLeaflet: bool
    var currentLayer: Option<Marker>
    /** The id the next marker gets. */
    var nextMarkerId: nat
    var notices: seq<Toast>
    /** `MAP_CONFIG.SEARCH_ZOOM`, `FIT_BOUNDS_PADDING` and `FIT_BOUNDS_MAX_ZOOM`. */
    const searchZoom: int
    const fitPadding: int
    const fitMaxZoom: int

    function Fields(): MapFields
      reads this
    {
      MapFields(view, hasLeaflet, currentLayer, nextMarkerId, notices)
    }

    predicate Valid()
      reads this
    {
      MapValid(Fields())
    }

    constructor(searchZoom: int, fitPadding: int, fitMaxZoom: int)
      ensures view == None && !hasLeaflet && currentLayer == None && nextMarkerId == 0 && notices == []
      ensures this.searchZoom == searchZoom && this.fitPadding == fitPadding && this.fitMaxZoom == fitMaxZoom
      ensures Valid()
    {
      view := None;
      hasLeaflet := false;
      currentLayer := None;
      nextMarkerId := 0;
      notices := [];
      this.searchZoom := searchZoom;
      this.fitPadding := fitPadding;
      this.fitMaxZoom := fitMaxZoom;
    }

    method SetMap(m: Option<FakeMap>, leaflet: bool)
      modifies this
      ensures view == m && hasLeaflet == leaflet
      ensures currentLayer == old(currentLayer) && nextMarkerId == old(nextMarkerId) && notices == old(notices)
    {
      view := m;
      hasLeaflet := leaflet;
    }

    /** `getCenter()`: the map's centre, or null when there is no map. */
    function GetCenter(): (c: Option<LatLng>)
      reads this
      ensures c.None? <==> view.None?
      ensures view.Some? ==> c == Some(view.value.center)
    {
      if view.Some? then Some(view.value.center) else None
    }

    method SetCenter(coords: LatLng)
      modifies this
      ensures old(view).None? ==> view == None
      ensures old(view).Some? ==> view == Some(old(view).value.(calls := old(view).value.calls + [SetView(coords, searchZoom)]))
      ensures hasLeaflet == old(hasLeaflet) && currentLayer == old(currentLayer)
      ensures nextMarkerId == old(nextMarkerId) && notices == old(notices)
      ensures old(Valid()) ==> Valid()
    {
      if view.Some? {
        var m := view.value;
        view := Some(m.(calls := m.calls + [SetView(coords, searchZoom)]));
      }
    }

    /**
     * `locateUser()` with the geolocation outcome as input: with no view
     * nothing happens; otherwise a position flies the view there at the
     * search zoom, and one notice says how it went.
     */
    method LocateUser(g: Geolocation)
      modifies this
      ensures old(view).None? ==> notices == old(notices) && view == old(view)
      ensures old(view).Some? ==> notices == old(notices) + [LocateNotice(g)]
      ensures old(view).Some? && g.Located? ==>
        view == Some(old(view).value.(calls := old(view).value.calls + [FlyTo(LatLng(g.latitude, g.longitude), searchZoom)]))
      ensures !g.Located? ==> view == old(view)
      ensures hasLeaflet == old(hasLeaflet) && currentLayer == old(currentLayer) && nextMarkerId == old(nextMarkerId)
      ensures old(Valid()) ==> Valid()
    {
      if view.None? {
        return;
      }
      match g
      case NoGeolocation =>
        notices := notices + [Error(LocationUnavailable)];
      case Located(lat, lng) =>
        var m := view.value;
        view := Some(m.(calls := m.calls + [FlyTo(LatLng(lat, lng), searchZoom)]));
        notices := notices + [Success(LocationFound)];
      case PositionError(code) =>
        notices := notices + [Error(LocateErrorMessage(code))];
    }

    /** `selectLocation(feature)` */
    method SelectLocation(f: Feature)
      modifies this
      ensures Fields() == SelectedMap(old(Fields()), f, searchZoom, fitPadding, fitMaxZoom)
    {
      if view.None? || !hasLeaflet {
        return;
      }
      var v := view.value;
      var removal: seq<MapCall> := [];
      var layers := v.layers;
      if currentLayer.Some? {
        removal := [RemoveLayer(currentLayer.value)];
        layers := RemoveMarker(layers, currentLayer.value);
      }
      var marker := MarkerFor(f, nextMarkerId);
      var calls := v.calls + removal + [AddLayer(marker), ViewportCall(f, searchZoom, fitPadding, fitMaxZoom)];
      layers := layers + [marker];
      currentLayer := Some(marker);
      nextMarkerId := nextMarkerId + 1;
      view := Some(v.(calls := calls, layers := layers));
    }
  }
}
