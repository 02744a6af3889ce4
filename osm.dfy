/**
 * Geocoder features (Photon / OpenStreetMap) and the two classifiers of
 * src/lib/utils/osm.ts: the place type (point or area) and the display label.
 */
module Osm {
  import opened Wrappers
  import opened JsString

  /** `properties.extent`, in the provider's order `[minLng, minLat, maxLng, maxLat]`. */
  datatype Extent = Extent(minLng: real, minLat: real, maxLng: real, maxLat: real)

  /** `feature.properties`; an absent text property is the empty string. */
  datatype Properties = Properties(
    osmId: Option<int>,
    osmKey: string,
    osmValue: string,
    name: string,
    street: string,
    city: string,
    country: string,
    extent: Option<Extent>)

  /** `feature.geometry.coordinates`, in GeoJSON order `[lng, lat]`. */
  datatype Geometry = Geometry(lng: real, lat: real)

  datatype Feature = Feature(geometry: Geometry, properties: Properties)

  datatype PlaceType = Area | Point

  /** The `osm_value`s that denote an area. */
  const AreaValues: seq<string> := ["city", "town", "village", "suburb", "neighbourhood",
    "park", "administrative", "residential", "industrial", "commercial"]

  /** `getPlaceType` */
  function GetPlaceType(p: Properties): PlaceType {
    if p.osmValue in AreaValues || p.osmKey == "landuse" || p.osmKey == "boundary" then Area else Point
  }

  lemma PlaceTypeIsArea(p: Properties)
    ensures GetPlaceType(p) == Area <==>
      p.osmValue in {"city", "town", "village", "suburb", "neighbourhood", "park",
                     "administrative", "residential", "industrial", "commercial"}
      || p.osmKey in {"landuse", "boundary"}
  {
  }

  /** A character matched by the regular expression class `\w`. */
  predicate IsWordChar(c: char) {
    ('a' <= c <= 'z') || ('A' <= c <= 'Z') || ('0' <= c <= '9') || c == '_'
  }

  /** `s.replace(/_/g, ' ')` */
  function UnderscoresToSpaces(s: string): (r: string)
    ensures |r| == |s|
    ensures forall i :: 0 <= i < |s| ==> r[i] == if s[i] == '_' then ' ' else s[i]
  {
    if s == [] then [] else [if s[0] == '_' then ' ' else s[0]] + UnderscoresToSpaces(s[1..])
  }

  /** Whether the character before index `i` is a word character. */
  predicate WordBefore(s: string, afterWord: bool, i: nat)
    requires i < |s|
  {
    if i == 0 then afterWord else IsWordChar(s[i - 1])
  }

  /**
   * `s.replace(/\b\w/g, c => c.toUpperCase())` on text that follows a
   * character that is (`afterWord`) or is not a word character.
   */
  function CapitalizeWords(s: string, afterWord: bool): (r: string)
    ensures |r| == |s|
    ensures forall i :: 0 <= i < |s| ==>
      r[i] == if IsWordChar(s[i]) && !WordBefore(s, afterWord, i) then UpperChar(s[i]) else s[i]
  {
    if s == [] then []
    else
      var rest := CapitalizeWords(s[1..], IsWordChar(s[0]));
      ShiftWordBefore(s, afterWord);
      [if IsWordChar(s[0]) && !afterWord then UpperChar(s[0]) else s[0]] + rest
  }

  lemma ShiftWordBefore(s: string, afterWord: bool)
    requires s != []
    ensures forall i :: 1 <= i < |s| ==>
      s[1..][i - 1] == s[i] && WordBefore(s[1..], IsWordChar(s[0]), i - 1) == WordBefore(s, afterWord, i)
  {
  }

  /**
   * A character of `osm_value` that starts a word once underscores are spaces:
   * a word character with no letter or digit before it.
   */
  predicate StartsWord(s: string, i: nat)
    requires i < |s|
  {
    IsWordChar(s[i]) && (i == 0 || !IsWordChar(s[i - 1]) || s[i - 1] == '_')
  }

  /** `getPlaceLabel`: the dictionary entry for `key:value`, else the formatted value. */
  function GetPlaceLabel(places: map<string, string>, p: Properties): string {
    var key := p.osmKey + ":" + p.osmValue;
    if key in places && places[key] != "" then places[key]
    else CapitalizeWords(UnderscoresToSpaces(p.osmValue), false)
  }

  lemma PlaceLabelFromDictionary(places: map<string, string>, p: Properties)
    requires p.osmKey + ":" + p.osmValue in places
    requires places[p.osmKey + ":" + p.osmValue] != ""
    ensures GetPlaceLabel(places, p) == places[p.osmKey + ":" + p.osmValue]
  {
  }

  /**
   * Without a non-empty dictionary entry the label has the value's length,
   * shows a space for every underscore, upper-cases the first character of
   * each word and copies every other character.
   */
  lemma FallbackLabel(places: map<string, string>, p: Properties)
    requires !(p.osmKey + ":" + p.osmValue in places && places[p.osmKey + ":" + p.osmValue] != "")
    ensures var r := GetPlaceLabel(places, p); var v := p.osmValue;
      && |r| == |v|
      && (forall i :: 0 <= i < |v| && v[i] == '_' ==> r[i] == ' ')
      && (forall i :: 0 <= i < |v| && v[i] != '_' ==>
            r[i] == if StartsWord(v, i) then UpperChar(v[i]) else v[i])
  {
    var v := p.osmValue;
    var u := UnderscoresToSpaces(v);
    var r := GetPlaceLabel(places, p);
    forall i | 0 <= i < |v| && v[i] != '_'
      ensures r[i] == if StartsWord(v, i) then UpperChar(v[i]) else v[i]
    {
      assert u[i] == v[i];
      if i > 0 {
        assert IsWordChar(u[i - 1]) == (IsWordChar(v[i - 1]) && v[i - 1] != '_');
      }
    }
  }
}
