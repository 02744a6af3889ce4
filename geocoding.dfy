/**
 * `formatAddress` (src/lib/utils/geocoding.ts): the one-line address shown
 * for a reverse-geocoded point. An absent field and an empty one are both
 * falsy in the source and are both the empty string here.
 */
module Geocoding {
  import opened Wrappers
  import opened JsString

  /** The fields of `ReverseGeocodeResult` that `formatAddress` reads. */
  datatype Address = Address(street: string, housenumber: string, name: string, district: string,
                             city: string, state: string, country: string)

  const Separator := " - "
  const Unidentified := "Localização não identificada"

  /** The country needs no mention when it is Brazil, in either spelling. */
  predicate HomeCountry(country: string) {
    country == "Brasil" || country == "Brazil"
  }

  /** The first part: street and number, the street alone, or else the name. */
  function FirstPart(a: Address): (r: string)
    ensures a.street != "" ==> r == (if a.housenumber != "" then a.street + ", " + a.housenumber else a.street)
    ensures a.street == "" ==> r == a.name
    ensures r == "" <==> a.street == "" && a.name == ""
  {
    if a.street != "" then
      if a.housenumber != "" then a.street + ", " + a.housenumber else a.street
    else a.name
  }

  /** Every field that can become a part, in the order of the address. */
  function Candidates(a: Address): seq<string> {
    [FirstPart(a), a.district, a.city, a.state, if HomeCountry(a.country) then "" else a.country]
  }

  function Present(s: string): seq<string> {
    if s != "" then [s] else []
  }

  /** The non-empty strings of `c`, in order. */
  function KeepNonEmpty(c: seq<string>): seq<string> {
    if c == [] then [] else Present(c[0]) + KeepNonEmpty(c[1..])
  }

  /** What is kept is exactly the non-empty strings of `c`. */
  lemma {:induction false} KeepNonEmptySpec(c: seq<string>)
    ensures forall p :: p in KeepNonEmpty(c) <==> p in c && p != ""
  {
    if c != [] {
      KeepNonEmptySpec(c[1..]);
      assert c == [c[0]] + c[1..];
    }
  }

  /** The parts: the candidates that are not empty, in order. */
  function AddressParts(a: Address): (r: seq<string>)
    ensures forall p :: p in r <==> p in Candidates(a) && p != ""
  {
    KeepNonEmptySpec(Candidates(a));
    KeepNonEmpty(Candidates(a))
  }

  /** The parts, one optional field at a time. */
  lemma AddressPartsByField(a: Address)
    ensures AddressParts(a) == Present(FirstPart(a)) + Present(a.district) + Present(a.city) + Present(a.state)
      + Present(if HomeCountry(a.country) then "" else a.country)
  {
    var x0, x1, x2, x3, x4 := FirstPart(a), a.district, a.city, a.state, if HomeCountry(a.country) then "" else a.country;
    assert Candidates(a) == [x0] + [x1] + [x2] + [x3] + [x4];
    KeepOne(x0);
    KeepOne(x1);
    KeepOne(x2);
    KeepOne(x3);
    KeepOne(x4);
    KeepConcat([x0], [x1]);
    KeepConcat([x0] + [x1], [x2]);
    KeepConcat([x0] + [x1] + [x2], [x3]);
    KeepConcat([x0] + [x1] + [x2] + [x3], [x4]);
  }

  lemma KeepOne(x: string)
    ensures KeepNonEmpty([x]) == Present(x)
  {
    assert [x][1..] == [];
  }

  /** Keeping distributes over concatenation. */
  lemma {:induction false} KeepConcat(c: seq<string>, d: seq<string>)
    ensures KeepNonEmpty(c + d) == KeepNonEmpty(c) + KeepNonEmpty(d)
  {
    if c == [] {
      assert c + d == d;
    } else {
      calc {
        KeepNonEmpty(c + d);
      == { assert (c + d)[0] == c[0] && (c + d)[1..] == c[1..] + d; }
        Present(c[0]) + KeepNonEmpty(c[1..] + d);
      == { KeepConcat(c[1..], d); }
        Present(c[0]) + (KeepNonEmpty(c[1..]) + KeepNonEmpty(d));
      ==
        KeepNonEmpty(c) + KeepNonEmpty(d);
      }
    }
  }

  /** No part survives exactly when every field but the house number is empty, or only the home country is given. */
  lemma NoPartsSpec(a: Address)
    ensures AddressParts(a) == [] <==>
      a.street == "" && a.name == "" && a.district == "" && a.city == "" && a.state == ""
      && (a.country == "" || HomeCountry(a.country))
  {
    AddressPartsByField(a);
  }

  /** The home country is never mentioned: dropping it changes nothing. */
  lemma HomeCountryOmitted(a: Address)
    requires HomeCountry(a.country)
    ensures AddressParts(a) == AddressParts(a.(country := ""))
  {
    AddressPartsByField(a);
    AddressPartsByField(a.(country := ""));
  }

  /** `if (field) parts.push(field)` */
  function PushIfGiven(parts: seq<string>, field: string): (r: seq<string>)
    ensures r == parts + Present(field)
  {
    if field != "" then parts + [field] else parts
  }

  /** `formatAddress(result)`: the parts pushed one field at a time, then joined. */
  method FormatAddress(result: Option<Address>) returns (s: string)
    ensures result.None? ==> s == ""
    ensures result.Some? && AddressParts(result.value) == [] ==> s == Unidentified
    ensures result.Some? && AddressParts(result.value) != [] ==> s == Join(AddressParts(result.value), Separator)
  {
    if result.None? {
      return "";
    }
    var a := result.value;
    var parts: seq<string> := [];
    if a.street != "" {
      if a.housenumber != "" {
        parts := parts + [a.street + ", " + a.housenumber];
      } else {
        parts := parts + [a.street];
      }
    } else if a.name != "" {
      parts := parts + [a.name];
    }
    assert parts == Present(FirstPart(a));
    parts := PushIfGiven(parts, a.district);
    parts := PushIfGiven(parts, a.city);
    parts := PushIfGiven(parts, a.state);
    ghost var before := parts;
    if a.country != "" && a.country != "Brasil" && a.country != "Brazil" {
      parts := parts + [a.country];
    }
    assert parts == before + Present(if HomeCountry(a.country) then "" else a.country);
    AddressPartsByField(a);
    s := if |parts| > 0 then Join(parts, Separator) else Unidentified;
  }
}
