/** The proximity search: keep the records within a distance, sort them by
    distance with a stable sort, and cut the list at a limit.

    `Array.prototype.sort` with the comparator `a.distance - b.distance` is
    stable; the model's reference for it is a recursive insertion sort whose
    contract says what the engine's sort promises: the result is ordered by
    the key, is a permutation of the input, and records with equal keys keep
    their input order. */
module Proximity {
  import opened Common

  ghost predicate SortedBy<T>(s: seq<T>, key: T -> real) {
    forall i, j :: 0 <= i < j < |s| ==> key(s[i]) <= key(s[j])
  }

  /** The records of `s` whose key equals `v`, in the order of `s`. */
  function TiesOf<T>(s: seq<T>, key: T -> real, v: real): seq<T> {
    if s == [] then []
    else (if key(s[0]) == v then [s[0]] else []) + TiesOf(s[1..], key, v)
  }

  /** `s.filter(x => key(x) <= bound)`. */
  function Within<T>(s: seq<T>, key: T -> real, bound: real): (r: seq<T>)
    ensures forall x :: x in s && key(x) <= bound ==> multiset(r)[x] == multiset(s)[x]
    ensures forall x :: x in r ==> x in s && key(x) <= bound
    ensures forall v :: v <= bound ==> TiesOf(r, key, v) == TiesOf(s, key, v)
    ensures forall v :: v > bound ==> TiesOf(r, key, v) == []
  {
    if s == [] then []
    else
      var rest := Within(s[1..], key, bound);
      assert s == [s[0]] + s[1..];
      if key(s[0]) <= bound then [s[0]] + rest else rest
  }

  /** Inserts `x` before the first element whose key is not below its own. */
  function Insert<T>(x: T, s: seq<T>, key: T -> real): (r: seq<T>)
    ensures multiset(r) == multiset(s) + multiset{x}
  {
    if s == [] then [x]
    else if key(x) <= key(s[0]) then [x] + s
    else
      assert s == [s[0]] + s[1..];
      [s[0]] + Insert(x, s[1..], key)
  }

  /** Insertion keeps a sorted list sorted. */
  lemma {:induction false} InsertSorted<T>(x: T, s: seq<T>, key: T -> real)
    requires SortedBy(s, key)
    ensures SortedBy(Insert(x, s, key), key)
  {
    if s != [] && key(x) > key(s[0]) {
      var rest := Insert(x, s[1..], key);
      InsertSorted(x, s[1..], key);
      forall y | y in rest ensures key(s[0]) <= key(y) {
        assert y in multiset(rest);
        assert y == x || y in multiset(s[1..]);
      }
    }
  }

  /** The inserted element goes in front of every element with the same key. */
  lemma {:induction false} InsertTies<T>(x: T, s: seq<T>, key: T -> real, v: real)
    ensures TiesOf(Insert(x, s, key), key, v) == (if key(x) == v then [x] else []) + TiesOf(s, key, v)
  {
    if s != [] {
      assert s == [s[0]] + s[1..];
      if key(x) <= key(s[0]) {
        assert ([x] + s)[1..] == s;
      } else {
        var rest := Insert(x, s[1..], key);
        assert ([s[0]] + rest)[1..] == rest;
        InsertTies(x, s[1..], key, v);
      }
    } else {
      assert [x][1..] == [];
    }
  }

  /** The stable sort of `s` by `key`. */
  function StableSort<T>(s: seq<T>, key: T -> real): (r: seq<T>)
    ensures SortedBy(r, key)
    ensures multiset(r) == multiset(s)
    ensures forall v :: TiesOf(r, key, v) == TiesOf(s, key, v)
  {
    if s == [] then []
    else
      assert s == [s[0]] + s[1..];
      var rest := StableSort(s[1..], key);
      InsertSorted(s[0], rest, key);
      assert forall v :: TiesOf(Insert(s[0], rest, key), key, v) == TiesOf(s, key, v) by {
        forall v ensures TiesOf(Insert(s[0], rest, key), key, v) == TiesOf(s, key, v) {
          InsertTies(s[0], rest, key, v);
        }
      }
      Insert(s[0], rest, key)
  }

  /** A comparator that calls every pair equal leaves the order as it was:
      a stable sort under a constant key is the identity. */
  lemma {:induction false} StableSortConstantKey<T>(s: seq<T>, key: T -> real, c: real)
    requires forall x :: x in s ==> key(x) == c
    ensures StableSort(s, key) == s
    decreases |s|
  {
    if s != [] {
      assert s == [s[0]] + s[1..];
      StableSortConstantKey(s[1..], key, c);
      if s[1..] != [] {
        assert s[1..][0] in s;
      }
    }
  }

  /** `filter(d <= maxDistance)`, then `sort`, then `slice(0, limit)`. */
  function Nearby<T>(s: seq<T>, key: T -> real, maxDistance: real, limit: int): (r: seq<T>)
    ensures 0 <= limit ==> |r| <= limit
  {
    Slice(StableSort(Within(s, key, maxDistance), key), limit)
  }

  /** A prefix of a list holds a prefix of every class of ties. */
  lemma {:induction false} TiesOfPrefix<T>(s: seq<T>, k: nat, key: T -> real, v: real)
    requires k <= |s|
    ensures TiesOf(s[..k], key, v) <= TiesOf(s, key, v)
  {
    if k > 0 {
      assert s[..k][1..] == s[1..][..k - 1];
      TiesOfPrefix(s[1..], k - 1, key, v);
    }
  }

  /** Every returned record lies within the search distance, and the result
      is ordered by distance. */
  lemma NearbyWithinAndSorted<T>(s: seq<T>, key: T -> real, maxDistance: real, limit: int)
    ensures forall x :: x in Nearby(s, key, maxDistance, limit) ==> x in s && key(x) <= maxDistance
    ensures SortedBy(Nearby(s, key, maxDistance, limit), key)
  {
    var sorted := StableSort(Within(s, key, maxDistance), key);
    var r := Nearby(s, key, maxDistance, limit);
    forall x | x in r ensures x in s && key(x) <= maxDistance {
      var i :| 0 <= i < |r| && r[i] == x;
      assert x == sorted[i];
      assert x in multiset(sorted);
    }
  }

  /** With a non-negative limit the result has min(limit, number in range)
      records, and a record in range is left out only when the list is full
      and every returned record is at least as close. */
  lemma NearbyComplete<T>(s: seq<T>, key: T -> real, maxDistance: real, limit: int, x: T)
    requires 0 <= limit
    requires x in s && key(x) <= maxDistance
    ensures |Nearby(s, key, maxDistance, limit)| == if limit <= |Within(s, key, maxDistance)| then limit else |Within(s, key, maxDistance)|
    ensures x !in Nearby(s, key, maxDistance, limit) ==>
              |Nearby(s, key, maxDistance, limit)| == limit &&
              forall y :: y in Nearby(s, key, maxDistance, limit) ==> key(y) <= key(x)
  {
    var w := Within(s, key, maxDistance);
    var sorted := StableSort(w, key);
    var r := Nearby(s, key, maxDistance, limit);
    assert |sorted| == |w| by {
      assert |multiset(sorted)| == |multiset(w)|;
    }
    assert x in multiset(w);
    assert x in sorted by { assert x in multiset(sorted); }
    var j :| 0 <= j < |sorted| && sorted[j] == x;
    if x !in r {
      assert r == sorted[..|r|];
      assert j >= |r|;
      forall y | y in r ensures key(y) <= key(x) {
        var i :| 0 <= i < |r| && r[i] == y;
        assert sorted[i] == y;
      }
    }
  }

  /** With a positive limit, the first record is the closest record in range,
      and the result is empty only when no record is in range. */
  lemma NearbyHeadIsNearest<T>(s: seq<T>, key: T -> real, maxDistance: real, limit: int)
    requires 0 < limit
    ensures |Nearby(s, key, maxDistance, limit)| == 0 <==> forall x :: x in s ==> key(x) > maxDistance
    ensures |Nearby(s, key, maxDistance, limit)| > 0 ==>
              forall x :: x in s && key(x) <= maxDistance ==> key(Nearby(s, key, maxDistance, limit)[0]) <= key(x)
  {
    var w := Within(s, key, maxDistance);
    var sorted := StableSort(w, key);
    assert |sorted| == |w| by {
      assert |multiset(sorted)| == |multiset(w)|;
    }
    forall x | x in s && key(x) <= maxDistance
      ensures |sorted| > 0 && key(sorted[0]) <= key(x)
    {
      assert x in multiset(w);
      assert x in multiset(sorted);
      var j :| 0 <= j < |sorted| && sorted[j] == x;
    }
    if |w| > 0 {
      assert w[0] in w;
    }
  }

  /** Ties keep their input order: for every distance, the returned records
      at that distance are the first ones at that distance in the input. */
  lemma NearbyKeepsTieOrder<T>(s: seq<T>, key: T -> real, maxDistance: real, limit: int, v: real)
    requires 0 <= limit
    ensures v <= maxDistance ==> TiesOf(Nearby(s, key, maxDistance, limit), key, v) <= TiesOf(s, key, v)
    ensures v > maxDistance ==> TiesOf(Nearby(s, key, maxDistance, limit), key, v) == []
  {
    var sorted := StableSort(Within(s, key, maxDistance), key);
    var k := SliceEnd(|sorted|, limit);
    assert Nearby(s, key, maxDistance, limit) == sorted[..k];
    TiesOfPrefix(sorted, k, key, v);
  }
}
