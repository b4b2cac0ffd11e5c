/** The maps client's conversion of a geocoding answer: a prefix of it, each result with its prefecture. */
module MapsClient {
  import opened Entities

  datatype Component = Component(longName: string, types: seq<string>)
  datatype GeoResult = GeoResult(formattedAddress: string, lat: real, lng: real, components: seq<Component>)

  const PREFECTURE_TYPE := "administrative_area_level_1"

  ghost predicate IsPrefecture(c: Component) { PREFECTURE_TYPE in c.types }

  /** The name of the last component that is a prefecture. */
  ghost function Prefecture(components: seq<Component>): string {
    if components == [] then ""
    else
      var last := components[|components| - 1];
      if IsPrefecture(last) then last.longName else Prefecture(components[..|components| - 1])
  }

  ghost function ToPlace(g: GeoResult): Place {
    Place(g.formattedAddress, g.lat, g.lng, Prefecture(g.components), "")
  }

  function Count(total: nat, limit: int): (n: nat)
    ensures n <= total && (n == total || n == limit || n == 0)
    ensures 0 <= limit ==> n <= limit
    ensures n < total ==> limit <= n
  {
    if limit <= 0 then 0 else if total <= limit then total else limit
  }

  /** In order, the first limit results. */
  ghost function Places(raw: seq<GeoResult>, limit: int): (places: seq<Place>)
    ensures |places| == Count(|raw|, limit)
    ensures forall k :: 0 <= k < |places| ==> places[k] == ToPlace(raw[k])
  {
    seq(Count(|raw|, limit), k requires 0 <= k < |raw| => ToPlace(raw[k]))
  }

  lemma {:induction false} PrefectureIsLastMatch(components: seq<Component>, k: nat)
    requires k < |components| && "administrative_area_level_1" in components[k].types
    requires forall j :: k < j < |components| ==> "administrative_area_level_1" !in components[j].types
    ensures Prefecture(components) == components[k].longName
    decreases |components|
  {
    if k < |components| - 1 { PrefectureIsLastMatch(components[..|components| - 1], k); }
  }

  lemma {:induction false} NoPrefecture(components: seq<Component>)
    requires forall j :: 0 <= j < |components| ==> "administrative_area_level_1" !in components[j].types
    ensures Prefecture(components) == ""
    decreases |components|
  {
    if components != [] { NoPrefecture(components[..|components| - 1]); }
  }

  /** The prefecture is the name of the last component of its type, and empty without one. */
  ghost predicate NamesPrefecture(components: seq<Component>, prefecture: string) {
    if forall c :: c in components ==> "administrative_area_level_1" !in c.types then prefecture == ""
    else exists k: nat :: LastOfType(components, k) && prefecture == components[k].longName
  }

  ghost predicate LastOfType(components: seq<Component>, k: nat) {
    && k < |components| && "administrative_area_level_1" in components[k].types
    && forall j :: k < j < |components| ==> "administrative_area_level_1" !in components[j].types
  }

  lemma {:induction false} LastExists(components: seq<Component>, i: nat) returns (k: nat)
    requires i < |components| && "administrative_area_level_1" in components[i].types
    ensures LastOfType(components, k)
    decreases |components| - i
  {
    k := i;
    if j :| i < j < |components| && "administrative_area_level_1" in components[j].types { k := LastExists(components, j); }
  }

  lemma PrefectureNames(components: seq<Component>)
    ensures NamesPrefecture(components, Prefecture(components))
  {
    if forall c :: c in components ==> "administrative_area_level_1" !in c.types {
      NoPrefecture(components);
    } else {
      var i :| 0 <= i < |components| && "administrative_area_level_1" in components[i].types;
      var k := LastExists(components, i);
      PrefectureIsLastMatch(components, k);
    }
  }

  method FindPrefecture(components: seq<Component>) returns (prefecture: string)
    ensures prefecture == Prefecture(components)
    ensures NamesPrefecture(components, prefecture)
  {
    prefecture := "";
    for i := 0 to |components|
      invariant prefecture == Prefecture(components[..i])
    {
      var before := prefecture;
      for j := 0 to |components[i].types|
        invariant prefecture ==
                    if PREFECTURE_TYPE in components[i].types[..j] then components[i].longName else before
      {
        if components[i].types[j] == PREFECTURE_TYPE {
          prefecture := components[i].longName;
        }
      }
      assert components[..i + 1][..i] == components[..i];
      assert components[i].types[..|components[i].types|] == components[i].types;
    }
    assert components[..|components|] == components;
    PrefectureNames(components);
  }

  /** Field by field, what a result of the geocoding service becomes. */
  lemma PlacesInFull(raw: seq<GeoResult>, limit: int)
    ensures var places := Places(raw, limit);
            && |places| == (if limit <= 0 then 0 else if |raw| <= limit then |raw| else limit)
            && forall k :: 0 <= k < |places| ==>
                 && places[k].name == raw[k].formattedAddress
                 && places[k].latitude == raw[k].lat
                 && places[k].longitude == raw[k].lng
                 && NamesPrefecture(raw[k].components, places[k].prefecture)
                 && places[k].region == ""
  {
    forall k | 0 <= k < |Places(raw, limit)| ensures NamesPrefecture(raw[k].components, Places(raw, limit)[k].prefecture) {
      PrefectureNames(raw[k].components);
    }
  }

  method SearchLocations(raw: seq<GeoResult>, limit: int) returns (results: seq<Place>)
    ensures results == Places(raw, limit)
    ensures |results| == if limit <= 0 then 0 else if |raw| <= limit then |raw| else limit
    ensures forall k :: 0 <= k < |results| ==>
              && results[k].name == raw[k].formattedAddress
              && results[k].latitude == raw[k].lat
              && results[k].longitude == raw[k].lng
              && NamesPrefecture(raw[k].components, results[k].prefecture)
              && results[k].region == ""
  {
    results := [];
    var i := 0;
    while i < |raw|
      invariant 0 <= i <= |raw| && |results| == i == Count(i, limit)
      invariant forall k :: 0 <= k < i ==> results[k] == ToPlace(raw[k])
    {
      if i >= limit { break; }
      var prefecture := FindPrefecture(raw[i].components);
      results := results + [Place(raw[i].formattedAddress, raw[i].lat, raw[i].lng, prefecture, "")];
      i := i + 1;
    }
    PlacesInFull(raw, limit);
  }
}
