/** The earlier home view (src/views/Home.tsx): a postal-code search that
    sorts the whole media array in place by distance, keeps a prefix of it,
    and counts the results per county code (fips). */
module Home {
  import opened Common
  import opened Proximity
  import Utility

  /** A media record of the home view: its name, county code and place. */
  datatype HomeMedia = HomeMedia(name: string, fips: int, location: Coordinates)

  /** One entry of `searchTotals`. */
  datatype Total = Total(fips: int, total: int)

  /** The comparator's key: the haversine distance of a record from the
      searched place (the view's own copy of the formula, with the same
      radius of 6371). */
  function DistanceFrom(central: CentralAngle, origin: Coordinates): HomeMedia -> real {
    (m: HomeMedia) => Haversine(central, origin, m.location)
  }

  /** `sortCitiesByProximity(cities, currentCoords, limit)`: `cities.sort`
      reorders the array itself, stably, by distance; the result is the first
      `limit` records of the reordered array. The array is written back
      element by element from its sorted contents. */
  method SortCitiesByProximity(cities: array<HomeMedia>, central: CentralAngle, currentCoords: Coordinates, limit: int)
    returns (nearest: seq<HomeMedia>)
    modifies cities
    ensures cities[..] == StableSort(old(cities[..]), DistanceFrom(central, currentCoords))
    ensures nearest == Slice(cities[..], limit)
  {
    var sorted := StableSort(cities[..], DistanceFrom(central, currentCoords));
    assert |sorted| == cities.Length by {
      assert |multiset(sorted)| == |multiset(cities[..])|;
    }
    for i := 0 to cities.Length
      invariant forall j :: 0 <= j < i ==> cities[j] == sorted[j]
    {
      cities[i] := sorted[i];
    }
    assert cities[..] == sorted;
    nearest := Slice(cities[..], limit);
  }

  /** The prefix kept by the search holds the nearest records: it has
      `min(limit, n)` of them for a non-negative limit, each at least as near
      as every record left out, and the whole array is a reordering of its
      previous contents. */
  lemma NearestPrefix(s: seq<HomeMedia>, key: HomeMedia -> real, limit: int)
    requires 0 <= limit
    ensures |StableSort(s, key)| == |s|
    ensures |Slice(StableSort(s, key), limit)| == if limit <= |s| then limit else |s|
    ensures multiset(StableSort(s, key)) == multiset(s)
    ensures forall i, j :: 0 <= i < |Slice(StableSort(s, key), limit)| <= j < |s| ==>
              key(StableSort(s, key)[i]) <= key(StableSort(s, key)[j])
  {
    var sorted := StableSort(s, key);
    assert |sorted| == |s| by {
      assert |multiset(sorted)| == |multiset(s)|;
    }
  }

  /** `totals.find((value) => value.fips == fips)`: the first entry with
      that county code. */
  function FindFips(totals: seq<Total>, fips: int): (r: Option<Total>)
    ensures r.None? <==> forall k :: 0 <= k < |totals| ==> totals[k].fips != fips
    ensures r.Some? ==>
              exists k :: 0 <= k < |totals| && totals[k] == r.value && totals[k].fips == fips &&
                forall j :: 0 <= j < k ==> totals[j].fips != fips
  {
    if totals == [] then None
    else if totals[0].fips == fips then Some(totals[0])
    else
      var r := FindFips(totals[1..], fips);
      assert r.Some? ==>
               exists k :: 0 <= k < |totals| && totals[k] == r.value && totals[k].fips == fips &&
                 forall j :: 0 <= j < k ==> totals[j].fips != fips
      by {
        if r.Some? {
          var k :| 0 <= k < |totals[1..]| && totals[1..][k] == r.value && totals[1..][k].fips == fips &&
                   forall j :: 0 <= j < k ==> totals[1..][j].fips != fips;
          assert totals[k + 1] == r.value;
          assert forall j :: 0 <= j < k + 1 ==> totals[j].fips != fips by {
            forall j | 0 <= j < k + 1 ensures totals[j].fips != fips {
              if j > 0 {
                assert totals[j] == totals[1..][j - 1];
              }
            }
          }
        }
      }
      assert r.None? ==> forall k :: 0 <= k < |totals| ==> totals[k].fips != fips by {
        if r.None? {
          forall k | 0 <= k < |totals| ensures totals[k].fips != fips {
            if k > 0 {
              assert totals[k] == totals[1..][k - 1];
            }
          }
        }
      }
      r
  }

  /** Record k shares its county code with an earlier record. */
  ghost predicate SeenBefore(cities: seq<HomeMedia>, k: int)
    requires 0 <= k < |cities|
  {
    exists j :: 0 <= j < k && cities[j].fips == cities[k].fips
  }

  /** What the totals loop builds: one entry per record, carrying the
      record's county code, with total 1 for the first record of a code and
      2 for every later one, because the lookup always finds the first entry
      and the new entry is appended rather than updated. */
  ghost predicate TotalsOf(cities: seq<HomeMedia>, totals: seq<Total>) {
    && |totals| == |cities|
    && forall k :: 0 <= k < |cities| ==>
         totals[k] == Total(cities[k].fips, if SeenBefore(cities, k) then 2 else 1)
  }

  /** The `forEach` over the sorted records that fills `totals`. */
  method ComputeTotals(sortedCities: seq<HomeMedia>) returns (totals: seq<Total>)
    ensures TotalsOf(sortedCities, totals)
  {
    totals := [];
    for i := 0 to |sortedCities|
      invariant |totals| == i
      invariant forall k :: 0 <= k < i ==>
                  totals[k] == Total(sortedCities[k].fips, if SeenBefore(sortedCities, k) then 2 else 1)
    {
      var organization := sortedCities[i];
      var found := FindFips(totals, organization.fips);
      if found.Some? {
        var k :| 0 <= k < |totals| && totals[k] == found.value && totals[k].fips == organization.fips &&
                 forall j :: 0 <= j < k ==> totals[j].fips != organization.fips;
        assert !SeenBefore(sortedCities, k);
        assert SeenBefore(sortedCities, i);
        totals := totals + [Total(found.value.fips, found.value.total + 1)];
      } else {
        assert !SeenBefore(sortedCities, i);
        totals := totals + [Total(organization.fips, 1)];
      }
    }
  }

  /** The home view's state. */
  class HomeView {
    const zipcodes: map<string, Coordinates>
    const media: array<HomeMedia>
    const central: CentralAngle
    var sorted: seq<HomeMedia>
    var searchTotals: seq<Total>

    /** The totals always describe the result list shown beside them. */
    ghost predicate Valid()
      reads this
    {
      TotalsOf(sorted, searchTotals)
    }

    constructor (zipcodes: map<string, Coordinates>, media: array<HomeMedia>, central: CentralAngle)
      ensures this.zipcodes == zipcodes && this.media == media && this.central == central
      ensures sorted == [] && searchTotals == []
      ensures Valid()
    {
      this.zipcodes := zipcodes;
      this.media := media;
      this.central := central;
      sorted := [];
      searchTotals := [];
    }

    /** `onSubmit(data)` with the postal code and the parsed count. A known
        code reorders the media array and sets both lists from the same
        prefix. A name the table inherits from Object.prototype is truthy
        too, but it has no coordinates: every distance is NaN, the sort reads
        each comparison as a tie, and the prefix is taken from the array as
        it was. Any other code only warns. */
    method OnSubmit(zipcode: string, count: int)
      requires Valid()
      modifies this, media
      ensures Valid()
      ensures zipcode !in zipcodes && zipcode !in Utility.OBJECT_PROTOTYPE_NAMES ==>
                sorted == old(sorted) && searchTotals == old(searchTotals) && media[..] == old(media[..])
      ensures zipcode in zipcodes ==>
                && media[..] == StableSort(old(media[..]), DistanceFrom(central, zipcodes[zipcode]))
                && sorted == Slice(media[..], count)
      ensures zipcode !in zipcodes && zipcode in Utility.OBJECT_PROTOTYPE_NAMES ==>
                media[..] == old(media[..]) && sorted == Slice(old(media[..]), count)
    {
      if zipcode in zipcodes {
        var location := zipcodes[zipcode];
        var sortedCities := SortCitiesByProximity(media, central, location, count);
        var totals := ComputeTotals(sortedCities);
        searchTotals := totals;
        sorted := sortedCities;
      } else if zipcode in Utility.OBJECT_PROTOTYPE_NAMES {
        StableSortConstantKey(media[..], (m: HomeMedia) => 0.0, 0.0);
        var sortedCities := Slice(media[..], count);
        var totals := ComputeTotals(sortedCities);
        searchTotals := totals;
        sorted := sortedCities;
      }
    }
  }
}
