/** The world view (src/views/World.tsx): the proximity search over the
    world media list, the stored search and its result list, the country and
    city pickers, and the handlers that combine a new origin or a new radius
    with the previous search. */
module World {
  import opened Common
  import opened Proximity
  import opened TextOrder

  /** The default search radius, and the default result limit of
      `sortCitiesByProximity`. */
  const DEFAULT_SEARCH_RADIUS: int := 1000
  const SEARCH_LIMIT: int := 500

  /** One world media record. Its place and names never change; its
      `distance` is overwritten by every proximity search. */
  class WorldMedia {
    const name: string
    const country: string
    const city: string
    const location: Coordinates
    var distance: Option<real>

    constructor (name: string, country: string, city: string, location: Coordinates)
      ensures this.name == name && this.country == country && this.city == city
      ensures this.location == location && distance == None
    {
      this.name := name;
      this.country := country;
      this.city := city;
      this.location := location;
      distance := None;
    }
  }

  /** The distance of a record from `origin`: the haversine distance of its
      coordinates. */
  function DistanceFrom(central: CentralAngle, origin: Coordinates): WorldMedia -> real {
    (m: WorldMedia) => Haversine(central, origin, m.location)
  }

  /** `sortCitiesByProximity(cities, currentCoords, maxDistance, limit)`.
      The `forEach` writes every record's distance; once it is done each
      `distance` field holds exactly `DistanceFrom(central, currentCoords)` of
      its record, so the filter, the comparator and the slice are those of
      `Nearby` on that key. */
  method SortCitiesByProximity(cities: seq<WorldMedia>, central: CentralAngle, currentCoords: Coordinates,
                               maxDistance: real, limit: int)
    returns (nearest: seq<WorldMedia>)
    modifies cities
    ensures forall c :: c in cities ==> c.distance == Some(Haversine(central, currentCoords, c.location))
    ensures nearest == Nearby(cities, DistanceFrom(central, currentCoords), maxDistance, limit)
  {
    for i := 0 to |cities|
      invariant forall j :: 0 <= j < i ==> cities[j].distance == Some(Haversine(central, currentCoords, cities[j].location))
    {
      cities[i].distance := Some(Haversine(central, currentCoords, cities[i].location));
    }
    nearest := Nearby(cities, DistanceFrom(central, currentCoords), maxDistance, limit);
  }

  /** The stored search: `search.current`. */
  datatype Search = Search(location: Coordinates, radius: int)

  /** The value of a city option, `${latitude}#${longitude}`, as the pair it
      encodes; `parseFloat` reads back the very numbers the template wrote. */
  datatype CityKey = CityKey(latitude: real, longitude: real)

  function KeyOf(m: WorldMedia): CityKey {
    CityKey(m.location.latitude, m.location.longitude)
  }

  /** An entry of the city picker. */
  datatype CityEntry = CityEntry(city: string, location: Coordinates)

  /** A radius argument is truthy when it is present and not 0 (NaN is
      modelled as absent). */
  predicate TruthyRadius(radius: Option<real>) {
    radius.Some? && radius.value != 0.0
  }

  /** A string is truthy when it is present and not empty. */
  predicate TruthyText(s: Option<string>) {
    s.Some? && s.value != ""
  }

  /** `search.current?.radius || DEFAULT_SEARCH_RADIUS`: the radius a new
      origin inherits, and the value the radius field shows. */
  function RadiusOrDefault(search: Option<Search>): (r: int)
    ensures r != 0
    ensures search.Some? && search.value.radius != 0 ==> r == search.value.radius
    ensures search.None? || search.value.radius == 0 ==> r == DEFAULT_SEARCH_RADIUS
  {
    if search.Some? && search.value.radius != 0 then search.value.radius else DEFAULT_SEARCH_RADIUS
  }

  /** A radius typed as a fraction below 1 is stored as 0, so the list keeps
      only records at distance 0 or less, while the radius field falls back
      to showing 1000. */
  lemma FractionalRadiusShowsDefault(location: Coordinates, typed: real)
    requires 0.0 < typed < 1.0
    ensures typed.Floor == 0
    ensures RadiusOrDefault(Some(Search(location, typed.Floor))) == DEFAULT_SEARCH_RADIUS
  {
  }

  /** The list `findClosestCountry` and `findClosestCity` look at: the
      current result list, or when it is empty a fresh search of the default
      radius around the location. */
  function LookupList(media: seq<WorldMedia>, central: CentralAngle, current: seq<WorldMedia>, location: Coordinates): (r: seq<WorldMedia>)
    ensures |current| > 0 ==> r == current
    ensures |current| == 0 ==> |r| <= SEARCH_LIMIT && SortedBy(r, DistanceFrom(central, location))
  {
    if |current| == 0 then Nearby(media, DistanceFrom(central, location), DEFAULT_SEARCH_RADIUS as real, SEARCH_LIMIT)
    else current
  }

  /** What `findClosestCountry(location)` returns. With a non-empty result
      list it is the country of that list's first record, whatever the
      location; otherwise it is the country of a nearest record within the
      default radius, and null when no record is that close. */
  function ClosestCountry(media: seq<WorldMedia>, central: CentralAngle, current: seq<WorldMedia>, location: Coordinates): (r: Option<string>)
    ensures |current| > 0 ==> r == Some(current[0].country)
    ensures |current| == 0 ==>
              (r.None? <==> forall m :: m in media ==> Haversine(central, location, m.location) > DEFAULT_SEARCH_RADIUS as real)
    ensures |current| == 0 && r.Some? ==>
              exists m :: m in media && m.country == r.value &&
                Haversine(central, location, m.location) <= DEFAULT_SEARCH_RADIUS as real &&
                forall m2 :: m2 in media && Haversine(central, location, m2.location) <= DEFAULT_SEARCH_RADIUS as real ==>
                  Haversine(central, location, m.location) <= Haversine(central, location, m2.location)
  {
    var nearest := LookupList(media, central, current, location);
    if |current| == 0 then
      var key := DistanceFrom(central, location);
      NearbyHeadIsNearest(media, key, DEFAULT_SEARCH_RADIUS as real, SEARCH_LIMIT);
      NearbyWithinAndSorted(media, key, DEFAULT_SEARCH_RADIUS as real, SEARCH_LIMIT);
      if |nearest| > 0 then
        assert nearest[0] in nearest;
        Some(nearest[0].country)
      else None
    else Some(nearest[0].country)
  }

  /** `nearest.filter((m) => m.country == country)`. */
  function OfCountry(s: seq<WorldMedia>, country: string): (r: seq<WorldMedia>)
    ensures forall m :: m in r ==> m in s && m.country == country
    ensures forall m :: m in s && m.country == country ==> m in r
    ensures |r| > 0 ==>
              exists i :: 0 <= i < |s| && s[i] == r[0] && s[i].country == country &&
                forall j :: 0 <= j < i ==> s[j].country != country
  {
    if s == [] then []
    else
      var rest := OfCountry(s[1..], country);
      assert s == [s[0]] + s[1..];
      if s[0].country == country then
        assert s[0] == ([s[0]] + rest)[0];
        [s[0]] + rest
      else
        assert |rest| > 0 ==>
                 exists i :: 0 <= i < |s| && s[i] == rest[0] && s[i].country == country &&
                   forall j :: 0 <= j < i ==> s[j].country != country
        by {
          if |rest| > 0 {
            var i :| 0 <= i < |s[1..]| && s[1..][i] == rest[0] && s[1..][i].country == country &&
                     forall j :: 0 <= j < i ==> s[1..][j].country != country;
            assert forall j :: 0 <= j < i + 1 ==> s[j].country != country by {
              forall j | 0 <= j < i + 1 ensures s[j].country != country {
                if j > 0 {
                  assert s[j] == s[1..][j - 1];
                }
              }
            }
            assert s[i + 1] == rest[0];
          }
        }
        rest
  }

  /** What `findClosestCity(country, location)` returns: the key of the
      first record of the lookup list in that country, or null when the list
      has none. */
  function ClosestCity(media: seq<WorldMedia>, central: CentralAngle, current: seq<WorldMedia>, country: string, location: Coordinates): (r: Option<CityKey>)
    ensures r.None? <==> forall m :: m in LookupList(media, central, current, location) ==> m.country != country
    ensures r.Some? ==>
              var list := LookupList(media, central, current, location);
              exists i :: 0 <= i < |list| && list[i].country == country && r.value == KeyOf(list[i]) &&
                forall j :: 0 <= j < i ==> list[j].country != country
  {
    var nearest := OfCountry(LookupList(media, central, current, location), country);
    if |nearest| > 0 then
      assert nearest[0] in nearest;
      Some(KeyOf(nearest[0]))
    else None
  }

  /** With no current results, the chosen city belongs to a record of that
      country within the default radius, and no record of that country in
      the lookup list is nearer. */
  lemma ClosestCityIsNearestInCountry(media: seq<WorldMedia>, central: CentralAngle, country: string, location: Coordinates)
    ensures var r := ClosestCity(media, central, [], country, location);
            r.Some? ==>
              exists m :: m in media && m.country == country && KeyOf(m) == r.value &&
                Haversine(central, location, m.location) <= DEFAULT_SEARCH_RADIUS as real &&
                forall m2 :: m2 in LookupList(media, central, [], location) && m2.country == country ==>
                  Haversine(central, location, m.location) <= Haversine(central, location, m2.location)
  {
    var list := LookupList(media, central, [], location);
    var key := DistanceFrom(central, location);
    var nearest := OfCountry(list, country);
    if |nearest| > 0 {
      var m := nearest[0];
      assert m in nearest;
      NearbyWithinAndSorted(media, key, DEFAULT_SEARCH_RADIUS as real, SEARCH_LIMIT);
      assert m in list;
      OfCountryHeadIsNearest(list, key, country);
    }
  }

  /** In a list ordered by `key`, the first record of a country is at least
      as near as every record of that country. */
  lemma OfCountryHeadIsNearest(list: seq<WorldMedia>, key: WorldMedia -> real, country: string)
    requires SortedBy(list, key) && |OfCountry(list, country)| > 0
    ensures forall m2 :: m2 in list && m2.country == country ==> key(OfCountry(list, country)[0]) <= key(m2)
  {
    var i :| 0 <= i < |list| && list[i] == OfCountry(list, country)[0] && list[i].country == country &&
             forall j :: 0 <= j < i ==> list[j].country != country;
    FirstOfCountryIsNearest(list, key, country, i);
  }

  /** In a list ordered by `key`, the first record of a country is at least
      as near as every record of that country. */
  lemma FirstOfCountryIsNearest(list: seq<WorldMedia>, key: WorldMedia -> real, country: string, i: int)
    requires SortedBy(list, key)
    requires 0 <= i < |list| && forall j :: 0 <= j < i ==> list[j].country != country
    ensures forall m2 :: m2 in list && m2.country == country ==> key(list[i]) <= key(m2)
  {
    forall m2 | m2 in list && m2.country == country
      ensures key(list[i]) <= key(m2)
    {
      var k :| 0 <= k < |list| && list[k] == m2;
    }
  }

  /** The country of every record, in list order. */
  function CountriesOf(media: seq<WorldMedia>): (r: seq<string>)
    ensures |r| == |media|
    ensures forall i :: 0 <= i < |media| ==> r[i] == media[i].country
  {
    if media == [] then [] else [media[0].country] + CountriesOf(media[1..])
  }

  /** The `countries` memo: `[...new Set(countries)].sort()`. The list is in
      code-point order with no repeats and names exactly the countries that
      occur, which makes it the only such list. */
  function Countries(media: seq<WorldMedia>): (r: seq<string>)
    ensures StrictlySorted(r)
    ensures Elements(r) == set m | m in media :: m.country
  {
    var all := CountriesOf(media);
    var r := SortedDistinct(all);
    assert Elements(all) == set m | m in media :: m.country by {
      forall c | c in Elements(all) ensures c in set m | m in media :: m.country {
        var i :| 0 <= i < |all| && all[i] == c;
        assert media[i] in media;
      }
      forall c | c in set m | m in media :: m.country ensures c in Elements(all) {
        var m :| m in media && m.country == c;
        var i :| 0 <= i < |media| && media[i] == m;
        assert all[i] == c;
      }
    }
    r
  }

  /** The names of the cities of the records in `country`, in list order. */
  function CityNamesIn(media: seq<WorldMedia>, country: string): (r: seq<string>)
    ensures Elements(r) == set m | m in media && m.country == country :: m.city
  {
    if media == [] then []
    else
      var rest := CityNamesIn(media[1..], country);
      assert media == [media[0]] + media[1..];
      if media[0].country == country then
        assert Elements([media[0].city] + rest) == {media[0].city} + Elements(rest);
        [media[0].city] + rest
      else rest
  }

  /** `location` is the place of the last record of `media` in `country`
      named `city`. */
  ghost predicate IsLastLocation(media: seq<WorldMedia>, country: string, city: string, location: Coordinates) {
    exists i :: 0 <= i < |media| && media[i].country == country && media[i].city == city && media[i].location == location &&
      forall j :: i < j < |media| ==> !(media[j].country == country && media[j].city == city)
  }

  /** The `uniqueCitiesMap`: each city name of the country mapped to the
      place of its last record, since a later entry overwrites an earlier
      one. */
  function CityLocations(media: seq<WorldMedia>, country: string): (r: map<string, Coordinates>)
    ensures r.Keys == set m | m in media && m.country == country :: m.city
    ensures forall city :: city in r ==> IsLastLocation(media, country, city, r[city])
  {
    if media == [] then map[]
    else
      var init := media[..|media| - 1];
      var last := media[|media| - 1];
      var rest := CityLocations(init, country);
      assert media == init + [last];
      var r := if last.country == country then rest[last.city := last.location] else rest;
      assert forall city :: city in r ==> IsLastLocation(media, country, city, r[city]) by {
        forall city | city in r ensures IsLastLocation(media, country, city, r[city]) {
          if last.country == country && city == last.city {
            assert media[|media| - 1] == last;
          } else {
            assert IsLastLocation(init, country, city, rest[city]);
            var i :| 0 <= i < |init| && init[i].country == country && init[i].city == city && init[i].location == rest[city] &&
                     forall j :: i < j < |init| ==> !(init[j].country == country && init[j].city == city);
            assert media[i] == init[i];
            assert forall j :: i < j < |media| ==> !(media[j].country == country && media[j].city == city) by {
              forall j | i < j < |media| ensures !(media[j].country == country && media[j].city == city) {
                if j < |init| {
                  assert media[j] == init[j];
                }
              }
            }
          }
        }
      }
      r
  }

  function CityNamesOf(entries: seq<CityEntry>): (r: seq<string>)
    ensures |r| == |entries|
    ensures forall i :: 0 <= i < |r| ==> r[i] == entries[i].city
  {
    if entries == [] then [] else [entries[0].city] + CityNamesOf(entries[1..])
  }

  /** The `cities` memo. No selected country gives no cities. Otherwise there
      is one entry per city name of the country, ordered by name, each at the
      place of the last record with that name. */
  function Cities(media: seq<WorldMedia>, selectedCountry: Option<string>): (r: seq<CityEntry>)
    ensures !TruthyText(selectedCountry) ==> r == []
    ensures StrictlySorted(CityNamesOf(r))
    ensures TruthyText(selectedCountry) ==>
              Elements(CityNamesOf(r)) == set m | m in media && m.country == selectedCountry.value :: m.city
    ensures TruthyText(selectedCountry) ==>
              forall i :: 0 <= i < |r| ==> IsLastLocation(media, selectedCountry.value, r[i].city, r[i].location)
  {
    if !TruthyText(selectedCountry) then []
    else
      var country := selectedCountry.value;
      var locations := CityLocations(media, country);
      var names := SortedDistinct(CityNamesIn(media, country));
      assert forall i :: 0 <= i < |names| ==> names[i] in locations by {
        forall i | 0 <= i < |names| ensures names[i] in locations {
          assert names[i] in Elements(names);
        }
      }
      var r := seq(|names|, i requires 0 <= i < |names| => CityEntry(names[i], locations[names[i]]));
      assert CityNamesOf(r) == names;
      r
  }

  /** The world view's state: the stored search, the result list and the
      two pickers' selections. */
  class WorldView {
    const mediaWorld: seq<WorldMedia>
    const central: CentralAngle
    var search: Option<Search>
    var sorted: seq<WorldMedia>
    var selectedCountry: Option<string>
    var selectedCity: Option<CityKey>

    /** The stored search and the result list come from the same origin and
        radius, and every record's distance is its distance from that
        origin. */
    ghost predicate InStep()
      reads this, mediaWorld
    {
      && ResultsOfSearch()
      && (search.Some? ==> DistancesFrom(search.value.location))
    }

    /** The result list is the one the stored search gives. */
    ghost predicate ResultsOfSearch()
      reads this
    {
      match search
      case None => sorted == []
      case Some(s) => sorted == Nearby(mediaWorld, DistanceFrom(central, s.location), s.radius as real, SEARCH_LIMIT)
    }

    /** Every record's `distance` field holds its distance from `origin`. */
    ghost predicate DistancesFrom(origin: Coordinates)
      reads mediaWorld
    {
      forall m :: m in mediaWorld ==> m.distance == Some(Haversine(central, origin, m.location))
    }

    constructor (mediaWorld: seq<WorldMedia>, central: CentralAngle)
      ensures this.mediaWorld == mediaWorld && this.central == central
      ensures search == None && sorted == [] && selectedCountry == None && selectedCity == None
      ensures InStep()
    {
      this.mediaWorld := mediaWorld;
      this.central := central;
      search := None;
      sorted := [];
      selectedCountry := None;
      selectedCity := None;
    }

    /** `onSearch(location, radius)`: stores the search and the result list
        together. */
    method OnSearch(location: Coordinates, radius: int)
      modifies this, mediaWorld
      ensures search == Some(Search(location, radius))
      ensures sorted == Nearby(mediaWorld, DistanceFrom(central, location), radius as real, SEARCH_LIMIT)
      ensures selectedCountry == old(selectedCountry) && selectedCity == old(selectedCity)
      ensures InStep()
    {
      search := Some(Search(location, radius));
      sorted := SortCitiesByProximity(mediaWorld, central, location, radius as real, SEARCH_LIMIT);
    }

    /** `findClosestCountry(location)`, seeing the result list `current` of
        the render the handler belongs to. The fallback search rewrites every
        distance. */
    method FindClosestCountry(current: seq<WorldMedia>, location: Coordinates) returns (country: Option<string>)
      modifies mediaWorld
      ensures country == ClosestCountry(mediaWorld, central, current, location)
      ensures |current| == 0 ==> DistancesFrom(location)
      ensures |current| > 0 ==> unchanged(mediaWorld)
    {
      var nearest := current;
      if |nearest| == 0 {
        nearest := SortCitiesByProximity(mediaWorld, central, location, DEFAULT_SEARCH_RADIUS as real, SEARCH_LIMIT);
      }
      if |nearest| > 0 {
        country := Some(nearest[0].country);
      } else {
        country := None;
      }
    }

    /** `findClosestCity(country, location)`, with the same view of the
        result list. */
    method FindClosestCity(current: seq<WorldMedia>, country: string, location: Coordinates) returns (city: Option<CityKey>)
      modifies mediaWorld
      ensures city == ClosestCity(mediaWorld, central, current, country, location)
      ensures |current| == 0 ==> DistancesFrom(location)
      ensures |current| > 0 ==> unchanged(mediaWorld)
    {
      var nearest := current;
      if |nearest| == 0 {
        nearest := SortCitiesByProximity(mediaWorld, central, location, DEFAULT_SEARCH_RADIUS as real, SEARCH_LIMIT);
      }
      nearest := OfCountry(nearest, country);
      if |nearest| > 0 {
        city := Some(KeyOf(nearest[0]));
      } else {
        city := None;
      }
    }

    /** The `shouldUpdateCountry` part of `updateSearch`: selects the
        country closest to the new origin and, when there is one, the
        closest city in it. */
    method SelectClosest(current: seq<WorldMedia>, location: Coordinates)
      requires InStep() && search.Some? && search.value.location == location
      modifies this, mediaWorld
      ensures InStep()
      ensures search == old(search) && sorted == old(sorted)
      ensures selectedCountry == ClosestCountry(mediaWorld, central, current, location)
      ensures selectedCity == (if TruthyText(selectedCountry)
                               then ClosestCity(mediaWorld, central, current, selectedCountry.value, location)
                               else None)
    {
      var country := FindClosestCountry(current, location);
      assert DistancesFrom(location);
      var city: Option<CityKey> := None;
      if TruthyText(country) {
        city := FindClosestCity(current, country.value, location);
        assert DistancesFrom(location);
      }
      selectedCountry := country;
      selectedCity := city;
    }

    /** `updateSearch(coordinates, radius, shouldUpdateCountry)`. A truthy
        radius re-runs the stored search with the radius rounded down, and
        throws (reading `location` of null) when there is no stored search. A
        new origin keeps the stored radius, or 1000, and may pick the country
        and city closest to it. Those lookups see `lookup`, the result list of
        the render whose `updateSearch` is being called, not the current one. */
    method UpdateSearch(lookup: seq<WorldMedia>, coordinates: Option<Coordinates>, radius: Option<real>, shouldUpdateCountry: bool)
      returns (thrown: bool)
      requires InStep()
      modifies this, mediaWorld
      ensures InStep()
      ensures thrown <==> TruthyRadius(radius) && old(search).None?
      ensures thrown || (!TruthyRadius(radius) && coordinates.None?) ==>
                search == old(search) && sorted == old(sorted) && unchanged(mediaWorld) &&
                selectedCountry == old(selectedCountry) && selectedCity == old(selectedCity)
      ensures TruthyRadius(radius) && old(search).Some? ==>
                search == Some(Search(old(search).value.location, radius.value.Floor)) &&
                selectedCountry == old(selectedCountry) && selectedCity == old(selectedCity)
      ensures !TruthyRadius(radius) && coordinates.Some? ==>
                search == Some(Search(coordinates.value, RadiusOrDefault(old(search))))
      ensures !TruthyRadius(radius) && coordinates.Some? && shouldUpdateCountry ==>
                selectedCountry == ClosestCountry(mediaWorld, central, lookup, coordinates.value) &&
                selectedCity == (if TruthyText(selectedCountry)
                                 then ClosestCity(mediaWorld, central, lookup, selectedCountry.value, coordinates.value)
                                 else None)
      ensures !TruthyRadius(radius) && coordinates.Some? && !shouldUpdateCountry ==>
                selectedCountry == old(selectedCountry) && selectedCity == old(selectedCity)
    {
      thrown := false;
      if TruthyRadius(radius) {
        if search.None? {
          thrown := true;
        } else {
          OnSearch(search.value.location, radius.value.Floor);
        }
      } else if coordinates.Some? {
        OnSearch(coordinates.value, RadiusOrDefault(search));
        if shouldUpdateCountry {
          SelectClosest(lookup, coordinates.value);
        }
      }
    }

    /** A click on a country or a media point of the world map. The map
        registers its handlers once, when it mounts, so the `updateSearch`
        they call is the one of the render that mounted it, and `mounted` is
        that render's result list. A map mounted on the first render sees
        `[]`, and the country and city come from a fresh default-radius
        search around the click; a map mounted later (after the window grew
        past the phone breakpoint) keeps picking from the list it saw then,
        whatever was clicked. */
    method OnMapClick(mounted: seq<WorldMedia>, coordinates: Coordinates)
      requires InStep()
      modifies this, mediaWorld
      ensures InStep()
      ensures search == Some(Search(coordinates, RadiusOrDefault(old(search))))
      ensures selectedCountry == ClosestCountry(mediaWorld, central, mounted, coordinates)
      ensures selectedCity == (if TruthyText(selectedCountry)
                               then ClosestCity(mediaWorld, central, mounted, selectedCountry.value, coordinates)
                               else None)
      ensures |mounted| > 0 ==> selectedCountry == Some(mounted[0].country)
      ensures mounted == [] ==>
                (selectedCountry.None? <==>
                   forall m :: m in mediaWorld ==> Haversine(central, coordinates, m.location) > DEFAULT_SEARCH_RADIUS as real)
    {
      var thrown := UpdateSearch(mounted, Some(coordinates), None, true);
    }

    /** The end of a radius drag on the world map: `updateSearch(undefined,
        radius)` through the closure the map mounted with; no lookup list
        plays a part on this path. */
    method OnMapRadius(radius: real) returns (thrown: bool)
      requires InStep()
      modifies this, mediaWorld
      ensures InStep()
      ensures thrown <==> radius != 0.0 && old(search).None?
      ensures radius != 0.0 && old(search).Some? ==>
                search == Some(Search(old(search).value.location, radius.Floor))
      ensures radius == 0.0 ==> search == old(search) && sorted == old(sorted) && unchanged(mediaWorld)
      ensures selectedCountry == old(selectedCountry) && selectedCity == old(selectedCity)
    {
      thrown := UpdateSearch([], None, Some(radius), true);
    }

    /** The geolocation effect: a known location starts a search of the
        default radius around it. */
    method OnGeolocation(location: Option<Coordinates>)
      requires InStep()
      modifies this, mediaWorld
      ensures InStep()
      ensures location.Some? ==> search == Some(Search(location.value, DEFAULT_SEARCH_RADIUS))
      ensures location.None? ==> search == old(search) && sorted == old(sorted) && unchanged(mediaWorld)
      ensures selectedCountry == old(selectedCountry) && selectedCity == old(selectedCity)
    {
      if location.Some? {
        OnSearch(location.value, DEFAULT_SEARCH_RADIUS);
      }
    }

    /** The country picker: clears the city and selects the country. */
    method OnCountryChosen(value: Option<string>)
      requires InStep()
      modifies this
      ensures InStep()
      ensures selectedCountry == value && selectedCity == None
      ensures search == old(search) && sorted == old(sorted)
    {
      selectedCity := None;
      selectedCountry := value;
    }

    /** The city picker: a chosen city becomes the new origin, keeping the
        radius and the selections. */
    method OnCityChosen(value: Option<CityKey>)
      requires InStep()
      modifies this, mediaWorld
      ensures InStep()
      ensures value.Some? ==>
                search == Some(Search(Coordinates(value.value.latitude, value.value.longitude), RadiusOrDefault(old(search))))
      ensures value.None? ==> search == old(search) && sorted == old(sorted)
      ensures selectedCountry == old(selectedCountry) && selectedCity == old(selectedCity)
    {
      if value.Some? {
        var thrown := UpdateSearch(sorted, Some(Coordinates(value.value.latitude, value.value.longitude)), None, false);
      }
    }
  }
}
