/**
 * The candidate pin shown where the user long-pressed
 * (src/lib/stores/ghostPin.svelte.ts), with the nearby pins, of any type
 * `P`, found around it.
 */
module GhostPin {

  datatype Ghost<P> = Ghost(showGhost: bool, latitude: real, longitude: real, nearbyPins: seq<P>)

  /** The state the store starts in and `clear` returns to. */
  function Hidden<P>(): Ghost<P> {
    Ghost(false, 0.0, 0.0, [])
  }

  /** `setGhostPin(lat, lng, nearby)`; the default `nearby = []` is passed explicitly. */
  function Placed<P>(lat: real, lng: real, nearby: seq<P>): (g: Ghost<P>)
    ensures g.showGhost && g != Hidden()
  {
    Ghost(true, lat, lng, nearby)
  }

  /** A placed candidate is shown with exactly the given place and neighbours, whatever was there before. */
  lemma PlacedSpec<P>(lat: real, lng: real, nearby: seq<P>, lat': real, lng': real, nearby': seq<P>)
    ensures Placed(lat, lng, nearby).latitude == lat && Placed(lat, lng, nearby).longitude == lng
    ensures Placed(lat, lng, nearby).nearbyPins == nearby
    ensures Placed(lat, lng, nearby) == Placed(lat', lng', nearby') <==> lat == lat' && lng == lng' && nearby == nearby'
  {
  }

  /** `GhostPinState` */
  class GhostPinState<P> {
    var showGhost: bool
    var latitude: real
    var longitude: real
    var nearbyPins: seq<P>

    function State(): Ghost<P>
      reads this
    {
      Ghost(showGhost, latitude, longitude, nearbyPins)
    }

    constructor ()
      ensures State() == Hidden()
    {
      showGhost := false;
      latitude := 0.0;
      longitude := 0.0;
      nearbyPins := [];
    }

    /** A second call replaces the first candidate entirely. */
    method SetGhostPin(lat: real, lng: real, nearby: seq<P>)
      modifies this
      ensures State() == Placed(lat, lng, nearby)
    {
      latitude := lat;
      longitude := lng;
      nearbyPins := nearby;
      showGhost := true;
    }

    /** `clear()`: hidden at the origin with no neighbours, from any state, so clearing twice clears once. */
    method Clear()
      modifies this
      ensures State() == Hidden()
    {
      showGhost := false;
      latitude := 0.0;
      longitude := 0.0;
      nearbyPins := [];
    }
  }
}
