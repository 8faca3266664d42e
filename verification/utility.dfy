/** The helpers of src/utility.tsx: degree conversion, the media-class icon
    table and the nearest postal code. */
module Utility {
  import opened Common

  /** `(degrees * Math.PI) / 180`. */
  function ToRadians(degrees: real): (r: real)
    ensures r * 180.0 == degrees * PI
  {
    degrees * PI / 180.0
  }

  /** The conversion is linear, maps 0 to 0 and a half turn to pi. */
  lemma ToRadiansLinear(a: real, b: real, c: real)
    ensures ToRadians(a + b) == ToRadians(a) + ToRadians(b)
    ensures ToRadians(c * a) == c * ToRadians(a)
    ensures ToRadians(0.0) == 0.0 && ToRadians(180.0) == PI
  {
  }

  datatype MediaClassIcon = NewsIcon | BroadcastIcon | RadioIcon | TVIcon

  /** What `svgForMediaClass[c][inline ? 'inline' : 'Icon']` yields: the inline
      SVG string or the icon component. */
  datatype IconRef = InlineSvg(icon: MediaClassIcon) | IconComponent(icon: MediaClassIcon)

  /** The outcome of the lookup. An own key of the table gives its entry; a
      name inherited from Object.prototype gives an object without the
      property, so the lookup yields undefined; any other name reads a
      property of undefined and throws a TypeError. */
  datatype IconLookup = Found(ref: IconRef) | Undefined | ThrowsTypeError

  const MEDIA_CLASSES: set<string> := {"newspaper", "broadcast", "radio", "tv"}

  const OBJECT_PROTOTYPE_NAMES: set<string> := {
    "constructor", "hasOwnProperty", "isPrototypeOf", "propertyIsEnumerable",
    "toLocaleString", "toString", "valueOf", "__proto__", "__defineGetter__",
    "__defineSetter__", "__lookupGetter__", "__lookupSetter__"
  }

  function IconOf(mediaClass: string): MediaClassIcon
    requires mediaClass in MEDIA_CLASSES
  {
    if mediaClass == "newspaper" then NewsIcon
    else if mediaClass == "broadcast" then BroadcastIcon
    else if mediaClass == "radio" then RadioIcon
    else TVIcon
  }

  /** `getIconForMediaClass(mediaClass, inline)`. */
  function GetIconForMediaClass(mediaClass: string, inline: bool): (r: IconLookup)
    ensures r.Found? <==> mediaClass in MEDIA_CLASSES
    ensures r.ThrowsTypeError? <==> mediaClass !in MEDIA_CLASSES && mediaClass !in OBJECT_PROTOTYPE_NAMES
    ensures r.Found? ==> (r.ref.InlineSvg? <==> inline)
    ensures r.Found? && mediaClass == "newspaper" ==> r.ref.icon == NewsIcon
    ensures r.Found? && mediaClass == "broadcast" ==> r.ref.icon == BroadcastIcon
    ensures r.Found? && mediaClass == "radio" ==> r.ref.icon == RadioIcon
    ensures r.Found? && mediaClass == "tv" ==> r.ref.icon == TVIcon
  {
    if mediaClass in MEDIA_CLASSES then
      Found(if inline then InlineSvg(IconOf(mediaClass)) else IconComponent(IconOf(mediaClass)))
    else if mediaClass in OBJECT_PROTOTYPE_NAMES then Undefined
    else ThrowsTypeError
  }

  /** `tableIcon(mediaClass)` renders the component form of the icon. */
  lemma TableIconIsComponent(mediaClass: string)
    requires mediaClass in MEDIA_CLASSES
    ensures GetIconForMediaClass(mediaClass, false) == Found(IconComponent(IconOf(mediaClass)))
    ensures GetIconForMediaClass(mediaClass, true) == Found(InlineSvg(IconOf(mediaClass)))
  {
  }

  /** The postal-code table, in the iteration order of `Object.entries`. */
  type ZipTable = seq<(string, Coordinates)>

  function ZipDistance(table: ZipTable, target: Coordinates, central: CentralAngle, k: int): real
    requires 0 <= k < |table|
  {
    Haversine(central, target, table[k].1)
  }

  /** Entry k is a nearest entry of the table and no earlier entry is as near:
      the strict `<` of the scan lets the first minimum win. */
  ghost predicate IsFirstNearest(table: ZipTable, target: Coordinates, central: CentralAngle, k: int) {
    && 0 <= k < |table|
    && (forall j :: 0 <= j < |table| ==> ZipDistance(table, target, central, k) <= ZipDistance(table, target, central, j))
    && (forall j :: 0 <= j < k ==> ZipDistance(table, target, central, j) > ZipDistance(table, target, central, k))
  }

  /** `zip` is what the scan promises: '' for an empty table, otherwise the key
      of the first nearest entry. */
  ghost predicate IsClosestZipcode(table: ZipTable, target: Coordinates, central: CentralAngle, zip: string) {
    if |table| == 0 then zip == ""
    else exists k :: IsFirstNearest(table, target, central, k) && zip == table[k].0
  }

  /** `findClosestZipcode(target)`: a linear scan that keeps the smallest
      distance seen so far, starting from Infinity (here: no distance yet). */
  method FindClosestZipcode(table: ZipTable, target: Coordinates, central: CentralAngle) returns (closest: string)
    ensures IsClosestZipcode(table, target, central, closest)
  {
    closest := "";
    var minDistance: Option<real> := None;
    ghost var best := 0;
    for i := 0 to |table|
      invariant minDistance.None? <==> i == 0
      invariant i == 0 ==> closest == ""
      invariant i > 0 ==> 0 <= best < i && closest == table[best].0
      invariant i > 0 ==> minDistance == Some(ZipDistance(table, target, central, best))
      invariant i > 0 ==> forall j :: 0 <= j < i ==> ZipDistance(table, target, central, best) <= ZipDistance(table, target, central, j)
      invariant i > 0 ==> forall j :: 0 <= j < best ==> ZipDistance(table, target, central, j) > ZipDistance(table, target, central, best)
    {
      var distance := Haversine(central, target, table[i].1);
      if minDistance.None? || distance < minDistance.value {
        minDistance := Some(distance);
        closest := table[i].0;
        best := i;
      }
    }
    assert |table| > 0 ==> IsFirstNearest(table, target, central, best);
  }

  /** Only one key satisfies the contract, so the scan's result is determined
      by the table, the target and the distance. */
  lemma ClosestZipcodeUnique(table: ZipTable, target: Coordinates, central: CentralAngle, z1: string, z2: string)
    requires IsClosestZipcode(table, target, central, z1)
    requires IsClosestZipcode(table, target, central, z2)
    ensures z1 == z2
  {
    if |table| > 0 {
      var k1 :| IsFirstNearest(table, target, central, k1) && z1 == table[k1].0;
      var k2 :| IsFirstNearest(table, target, central, k2) && z2 == table[k2].0;
      assert ZipDistance(table, target, central, k1) == ZipDistance(table, target, central, k2);
    }
  }

  /** A non-empty table always yields one of its own keys, at the smallest
      distance. */
  lemma ClosestZipcodeIsNearestKey(table: ZipTable, target: Coordinates, central: CentralAngle, zip: string)
    requires |table| > 0 && IsClosestZipcode(table, target, central, zip)
    ensures exists k :: 0 <= k < |table| && table[k].0 == zip &&
              forall j :: 0 <= j < |table| ==> Haversine(central, target, table[k].1) <= Haversine(central, target, table[j].1)
  {
    var k :| IsFirstNearest(table, target, central, k) && zip == table[k].0;
    assert forall j :: 0 <= j < |table| ==> Haversine(central, target, table[k].1) <= Haversine(central, target, table[j].1) by {
      forall j | 0 <= j < |table| ensures Haversine(central, target, table[k].1) <= Haversine(central, target, table[j].1) {
        assert ZipDistance(table, target, central, k) <= ZipDistance(table, target, central, j);
      }
    }
  }
}
