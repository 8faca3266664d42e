/** What the four D3 map components share, line for line: the geo-circle
    overlay and its radius drag, the interactable layer with its indicators,
    the search effect, the zoom factors, the `center` transforms, the
    interaction-mode switch and the click-to-search dispatch. The line
    references of the current world map (src/components/maps/WorldMap/
    WorldMap.tsx) stand for the same code in the other three files. */
module MapCore {
  import opened Common
  import Utility

  /* ---------------- The overlay's angle ---------------- */

  /** Earth's radius in miles used by the overlay. */
  const EARTH_RADIUS_MILES: real := 3958.0

  /** `3958 * Math.PI * 2`. */
  const CIRCUMFERENCE_MILES: real := EARTH_RADIUS_MILES * PI * 2.0

  /** `(radius / circumference) * 360`: the circle's angular radius in
      degrees for a radius in miles. */
  function AngleOf(radius: real): (angle: real)
    ensures angle * CIRCUMFERENCE_MILES == radius * 360.0
    ensures radius == 0.0 <==> angle == 0.0
    ensures radius >= 0.0 <==> angle >= 0.0
  {
    radius / CIRCUMFERENCE_MILES * 360.0
  }

  /** The angle grows with the radius. */
  lemma AngleOfMonotone(a: real, b: real)
    requires a <= b
    ensures AngleOf(a) <= AngleOf(b)
  {
    assert AngleOf(b) - AngleOf(a) == (b - a) / CIRCUMFERENCE_MILES * 360.0;
  }

  /** In radians the drawn circle reaches `radius / 3958` of a turn's
      central angle from its centre. */
  lemma OverlayAngleInRadians(radius: real)
    ensures Utility.ToRadians(AngleOf(radius)) == radius / EARTH_RADIUS_MILES
  {
    var a := AngleOf(radius);
    assert a * CIRCUMFERENCE_MILES == radius * 360.0;
    assert Utility.ToRadians(a) * 180.0 == a * PI;
    calc {
      Utility.ToRadians(a) * 180.0 * EARTH_RADIUS_MILES * 2.0;
      a * PI * EARTH_RADIUS_MILES * 2.0;
      a * CIRCUMFERENCE_MILES;
      radius * 360.0;
    }
  }

  /** The overlay and the filter disagree: the filter keeps a record when
      `6371 * angle <= radius` (kilometres), the circle covers it when
      `angle <= radius / 3958` (miles). For a positive radius the band in
      between is not empty, and every record whose central angle falls in it
      lies inside the drawn circle yet is dropped from the results. */
  lemma OverlayWiderThanFilter(central: CentralAngle, origin: Coordinates, place: Coordinates, radius: real)
    requires radius > 0.0
    ensures radius / EARTH_RADIUS_KM < radius / EARTH_RADIUS_MILES
    ensures radius / EARTH_RADIUS_KM < central(origin, place) <= radius / EARTH_RADIUS_MILES ==>
              central(origin, place) <= Utility.ToRadians(AngleOf(radius)) &&
              Haversine(central, origin, place) > radius
  {
    OverlayAngleInRadians(radius);
    var c := central(origin, place);
    if radius / EARTH_RADIUS_KM < c {
      assert EARTH_RADIUS_KM * c > EARTH_RADIUS_KM * (radius / EARTH_RADIUS_KM);
    }
  }

  /* ---------------- The radius drag ---------------- */

  /** One `dragged` step: the radius grows by the change in the pointer's
      distance from the centre, in pixels, and is clamped at 0. */
  function Move(radius: real, previous: real, next: real): (r: real)
    ensures r >= 0.0 && r >= radius + (next - previous)
    ensures radius + (next - previous) >= 0.0 ==> r == radius + (next - previous)
  {
    var grown := radius + (next - previous);
    if grown < 0.0 then 0.0 else grown
  }

  /** The radius after a drag that started at `radius` with the pointer at
      `start` pixels from the centre and moved through `moves`. */
  function DragRadius(radius: real, start: real, moves: seq<real>): (r: real)
    ensures moves != [] ==> r >= 0.0
    ensures moves == [] ==> r == radius
    decreases moves
  {
    if moves == [] then radius
    else DragRadius(Move(radius, start, moves[0]), moves[0], moves[1..])
  }

  /** The baseline after `moves`: the last pointer distance seen. */
  function Baseline(start: real, moves: seq<real>): real {
    if moves == [] then start else moves[|moves| - 1]
  }

  /** Moving once more extends the drag by one `Move` from the current
      baseline. */
  lemma {:induction false} DragRadiusAppend(radius: real, start: real, moves: seq<real>, next: real)
    ensures DragRadius(radius, start, moves + [next]) == Move(DragRadius(radius, start, moves), Baseline(start, moves), next)
    decreases moves
  {
    if moves != [] {
      assert (moves + [next])[1..] == moves[1..] + [next];
      DragRadiusAppend(Move(radius, start, moves[0]), moves[0], moves[1..], next);
    } else {
      assert [next][1..] == [];
    }
  }

  /** No step of the drag reaches the clamp. */
  ghost predicate Unclamped(radius: real, start: real, moves: seq<real>)
    decreases moves
  {
    moves == [] ||
    (radius + (moves[0] - start) >= 0.0 && Unclamped(radius + (moves[0] - start), moves[0], moves[1..]))
  }

  /** Pixels count as miles: when the clamp never acts, the radius changes by
      exactly the change in the pointer's pixel distance from the centre. */
  lemma {:induction false} DragTelescopes(radius: real, start: real, moves: seq<real>)
    requires Unclamped(radius, start, moves)
    ensures DragRadius(radius, start, moves) == radius + (Baseline(start, moves) - start)
    decreases moves
  {
    if moves != [] {
      DragTelescopes(radius + (moves[0] - start), moves[0], moves[1..]);
      assert Baseline(moves[0], moves[1..]) == Baseline(start, moves);
    }
  }

  /** The clamp only ever adds: the radius is at least the unclamped sum. */
  lemma {:induction false} DragAtLeastUnclamped(radius: real, start: real, moves: seq<real>)
    ensures DragRadius(radius, start, moves) >= radius + (Baseline(start, moves) - start)
    decreases moves
  {
    if moves != [] {
      DragAtLeastUnclamped(Move(radius, start, moves[0]), moves[0], moves[1..]);
      assert Baseline(moves[0], moves[1..]) == Baseline(start, moves);
    }
  }

  /** After at least one move the radius is never negative, whatever it
      started from. */
  lemma {:induction false} DragNonNegative(radius: real, start: real, moves: seq<real>)
    requires moves != []
    ensures DragRadius(radius, start, moves) >= 0.0
    decreases moves
  {
    if |moves| > 1 {
      DragNonNegative(Move(radius, start, moves[0]), moves[0], moves[1..]);
    }
  }

  /** Which page callback a finished drag calls: `updateSearch(undefined,
      radius)` in three of the maps, `updateSearchRadius(radius)` in the
      older US map. */
  datatype RadiusCallback = SearchWithRadius | SearchRadiusOnly

  /** The request a finished drag sends for a radius. */
  function RadiusRequest(callback: RadiusCallback, radius: real): (r: SearchRequest)
    ensures r.UpdateSearch? <==> callback == SearchWithRadius
    ensures r.UpdateSearch? ==> r.coordinates.None? && r.radius == Some(radius)
    ensures r.UpdateSearchRadius? ==> r.newRadius == radius
  {
    match callback
    case SearchWithRadius => UpdateSearch(None, Some(radius))
    case SearchRadiusOnly => UpdateSearchRadius(radius)
  }

  /** The closure state of one `addGeoCircle` call: `currentRadius`,
      `currentAngle`, `initialDistanceFromCenter`, the `data-radius`
      attribute of its path, and the callback the drag ends with. Pointer
      distances from the centre (the `Math.sqrt` of the handlers) arrive as
      arguments. */
  class RadiusDrag {
    const callback: RadiusCallback
    var currentRadius: real
    var currentAngle: real
    var initialDistanceFromCenter: real
    var dataRadius: real
    /** The drag so far: where it started and the pointer distances since. */
    ghost var startRadius: real
    ghost var startDistance: real
    ghost var moves: seq<real>

    /** The path's `data-radius` and angle always match the radius, which is
        the drag function of the moves since the last start. */
    ghost predicate Valid()
      reads this
    {
      && dataRadius == currentRadius
      && currentAngle == AngleOf(currentRadius)
      && currentRadius == DragRadius(startRadius, startDistance, moves)
      && initialDistanceFromCenter == Baseline(startDistance, moves)
    }

    /** The state `addGeoCircle(latitude, longitude, distance, color)`
        creates. */
    constructor (distance: real, callback: RadiusCallback)
      ensures Valid() && this.callback == callback
      ensures currentRadius == distance && dataRadius == distance && currentAngle == AngleOf(distance)
      ensures initialDistanceFromCenter == 0.0 && moves == []
    {
      this.callback := callback;
      currentRadius := distance;
      currentAngle := AngleOf(distance);
      initialDistanceFromCenter := 0.0;
      dataRadius := distance;
      startRadius := distance;
      startDistance := 0.0;
      moves := [];
    }

    /** `dragStarted`: the baseline is the pointer's distance, and the radius
        is read back from `data-radius`. */
    method DragStarted(pointerDistance: real)
      requires Valid()
      modifies this
      ensures Valid()
      ensures initialDistanceFromCenter == pointerDistance
      ensures currentRadius == old(dataRadius) && dataRadius == old(dataRadius) && currentAngle == old(currentAngle)
      ensures startRadius == old(dataRadius) && startDistance == pointerDistance && moves == []
    {
      initialDistanceFromCenter := pointerDistance;
      currentRadius := dataRadius;
      startRadius := dataRadius;
      startDistance := pointerDistance;
      moves := [];
    }

    /** `dragged` followed by `updateCircle`: one `Move`, the new angle and
        `data-radius`, then the baseline is re-taken. */
    method Dragged(pointerDistance: real)
      requires Valid()
      modifies this
      ensures Valid()
      ensures currentRadius == Move(old(currentRadius), old(initialDistanceFromCenter), pointerDistance)
      ensures currentRadius >= 0.0
      ensures initialDistanceFromCenter == pointerDistance
      ensures startRadius == old(startRadius) && startDistance == old(startDistance)
      ensures moves == old(moves) + [pointerDistance]
    {
      DragRadiusAppend(startRadius, startDistance, moves, pointerDistance);
      var distanceChange := pointerDistance - initialDistanceFromCenter;
      currentRadius := currentRadius + distanceChange;
      if currentRadius < 0.0 {
        currentRadius := 0.0;
      }
      currentAngle := AngleOf(currentRadius);
      dataRadius := currentRadius;
      initialDistanceFromCenter := pointerDistance;
      moves := moves + [pointerDistance];
    }

    /** `dragEnded`: the request sent to the page carries the radius the
        moves since the last start produced, which is also this circle's
        `data-radius`; after a move it is never negative. A truthy radius
        makes the page store its floor as a new search, and the search
        effect then replaces this circle with one of that radius. */
    method DragEnded() returns (request: SearchRequest)
      requires Valid()
      ensures request == RadiusRequest(callback, DragRadius(startRadius, startDistance, moves))
      ensures request == RadiusRequest(callback, dataRadius)
      ensures moves != [] ==> DragRadius(startRadius, startDistance, moves) >= 0.0
    {
      request := RadiusRequest(callback, currentRadius);
      if moves != [] {
        DragNonNegative(startRadius, startDistance, moves);
      }
    }
  }

  /* ---------------- The interactable layer ---------------- */

  /** `projection([longitude, latitude])`, null outside the projection's
      domain. */
  type Projection = Coordinates -> Option<Point>

  /** `projection.invert([x, y])`. */
  type Inverse = Point -> Option<Coordinates>

  /** The children of the interactable layer: plain circles from
      `addCircle`, pins from `addSVG` and geo circles from `addGeoCircle`. */
  datatype LayerItem =
    | Marker(at: Point, radius: real, color: string)
    | Pin(x: real, y: real, width: real, height: real, href: string)
    | GeoCircle(center: Coordinates, color: string, drag: RadiusDrag)

  /** Pins and geo circles carry the class `indicator`; plain circles do
      not. */
  predicate IsIndicator(item: LayerItem) {
    item.Pin? || item.GeoCircle?
  }

  /** The layer once `selectAll('.indicator').remove()` has run. */
  function WithoutIndicators(items: seq<LayerItem>): (r: seq<LayerItem>)
    ensures |r| <= |items|
  {
    if items == [] then []
    else (if IsIndicator(items[0]) then [] else [items[0]]) + WithoutIndicators(items[1..])
  }

  /** Removal takes out every indicator and keeps every other child, as
      many times as it occurs. */
  lemma {:induction false} WithoutIndicatorsKeepsOthers(items: seq<LayerItem>, x: LayerItem)
    ensures IsIndicator(x) ==> x !in WithoutIndicators(items)
    ensures !IsIndicator(x) ==> multiset(WithoutIndicators(items))[x] == multiset(items)[x]
  {
    if items != [] {
      assert items == [items[0]] + items[1..];
      WithoutIndicatorsKeepsOthers(items[1..], x);
    }
  }

  /** The indicators of the layer, in order. */
  function Indicators(items: seq<LayerItem>): seq<LayerItem> {
    if items == [] then []
    else (if IsIndicator(items[0]) then [items[0]] else []) + Indicators(items[1..])
  }

  lemma {:induction false} IndicatorsAppend(a: seq<LayerItem>, b: seq<LayerItem>)
    ensures Indicators(a + b) == Indicators(a) + Indicators(b)
  {
    if a != [] {
      assert (a + b)[0] == a[0];
      assert (a + b)[1..] == a[1..] + b;
      IndicatorsAppend(a[1..], b);
    } else {
      assert a + b == b;
    }
  }

  lemma {:induction false} WithoutIndicatorsAppend(a: seq<LayerItem>, b: seq<LayerItem>)
    ensures WithoutIndicators(a + b) == WithoutIndicators(a) + WithoutIndicators(b)
  {
    if a != [] {
      assert (a + b)[0] == a[0];
      assert (a + b)[1..] == a[1..] + b;
      WithoutIndicatorsAppend(a[1..], b);
    } else {
      assert a + b == b;
    }
  }

  /** Removing indicators leaves none, and a second removal changes
      nothing. */
  lemma {:induction false} RemoveIndicatorsIdempotent(items: seq<LayerItem>)
    ensures Indicators(WithoutIndicators(items)) == []
    ensures WithoutIndicators(WithoutIndicators(items)) == WithoutIndicators(items)
  {
    if items != [] {
      RemoveIndicatorsIdempotent(items[1..]);
      var head := if IsIndicator(items[0]) then [] else [items[0]];
      IndicatorsAppend(head, WithoutIndicators(items[1..]));
      WithoutIndicatorsAppend(head, WithoutIndicators(items[1..]));
      if !IsIndicator(items[0]) {
        assert [items[0]][1..] == [];
        assert WithoutIndicators(head) == head;
      }
    }
  }

  /** The pin `addSVG` draws for a search: the location-pin icon, 16 by 16,
      centred on the projected point, or nothing off the projection. */
  const PIN_ICON: string := "location-pin-fill"
  const PIN_SIZE: real := 16.0
  const SEARCH_CIRCLE_COLOR: string := "#ff000040"

  function PinFor(projection: Projection, location: Coordinates): (r: seq<LayerItem>)
    ensures |r| <= 1
    ensures projection(location).None? <==> r == []
    ensures r != [] ==> r[0].Pin? && r[0].x + PIN_SIZE / 2.0 == projection(location).value.x &&
                        r[0].y + PIN_SIZE / 2.0 == projection(location).value.y
  {
    match projection(location)
    case None => []
    case Some(p) => [Pin(p.x - PIN_SIZE / 2.0, p.y - PIN_SIZE / 2.0, PIN_SIZE, PIN_SIZE, PIN_ICON)]
  }

  /** The `search` prop of a map component. */
  datatype SearchCircle = SearchCircle(location: Coordinates, radius: real)

  /** The interactable layer of one map and the functions that draw on it. */
  class InteractableLayer {
    const projection: Projection
    const onRadius: RadiusCallback
    var items: seq<LayerItem>

    constructor (projection: Projection, onRadius: RadiusCallback)
      ensures this.projection == projection && this.onRadius == onRadius && items == []
    {
      this.projection := projection;
      this.onRadius := onRadius;
      items := [];
    }

    /** `addCircle(latitude, longitude, radius, color)`: a plain circle at the
        projected point, appended only when the point projects. */
    method AddCircle(latitude: real, longitude: real, radius: real, color: string)
      modifies this
      ensures projection(Coordinates(latitude, longitude)).None? ==> items == old(items)
      ensures projection(Coordinates(latitude, longitude)).Some? ==>
                items == old(items) + [Marker(projection(Coordinates(latitude, longitude)).value, radius, color)]
    {
      var coords := projection(Coordinates(latitude, longitude));
      if coords.Some? {
        items := items + [Marker(coords.value, radius, color)];
      }
    }

    /** `addSVG(latitude, longitude, svgPath, width, height)`: an indicator
        image centred on the projected point, appended only when the point
        projects. */
    method AddSVG(latitude: real, longitude: real, svgPath: string, width: real, height: real)
      modifies this
      ensures projection(Coordinates(latitude, longitude)).None? ==> items == old(items)
      ensures projection(Coordinates(latitude, longitude)).Some? ==>
                var p := projection(Coordinates(latitude, longitude)).value;
                items == old(items) + [Pin(p.x - width / 2.0, p.y - height / 2.0, width, height, svgPath)]
    {
      var coords := projection(Coordinates(latitude, longitude));
      if coords.Some? {
        items := items + [Pin(coords.value.x - width / 2.0, coords.value.y - height / 2.0, width, height, svgPath)];
      }
    }

    /** `addGeoCircle(latitude, longitude, distance, color)`: a draggable
        indicator path with fresh drag state, moved first in the layer by
        `.lower()`. It is added whether or not the centre projects. */
    method AddGeoCircle(latitude: real, longitude: real, distance: real, color: string) returns (drag: RadiusDrag)
      modifies this
      ensures fresh(drag) && drag.Valid() && drag.callback == onRadius
      ensures drag.currentRadius == distance && drag.dataRadius == distance && drag.currentAngle == AngleOf(distance)
      ensures items == [GeoCircle(Coordinates(latitude, longitude), color, drag)] + old(items)
    {
      drag := new RadiusDrag(distance, onRadius);
      items := [GeoCircle(Coordinates(latitude, longitude), color, drag)] + items;
    }

    /** `removeIndicators()`. */
    method RemoveIndicators()
      modifies this
      ensures items == WithoutIndicators(old(items))
    {
      items := WithoutIndicators(items);
    }

    /** The search effect: clear the indicators, then for a search draw its
        pin and its circle. Afterwards the indicators are exactly the new
        circle and, when the location projects, the new pin. */
    method ShowSearch(search: Option<SearchCircle>) returns (drag: Option<RadiusDrag>)
      modifies this
      ensures search.None? ==> drag.None? && items == WithoutIndicators(old(items))
      ensures search.Some? ==>
                && drag.Some? && fresh(drag.value) && drag.value.Valid() && drag.value.callback == onRadius
                && drag.value.currentRadius == search.value.radius
                && items == [GeoCircle(search.value.location, SEARCH_CIRCLE_COLOR, drag.value)]
                              + WithoutIndicators(old(items)) + PinFor(projection, search.value.location)
      ensures Indicators(items) ==
                if search.None? then []
                else [GeoCircle(search.value.location, SEARCH_CIRCLE_COLOR, drag.value)] + PinFor(projection, search.value.location)
      ensures WithoutIndicators(items) == WithoutIndicators(old(items))
    {
      RemoveIndicators();
      RemoveIndicatorsIdempotent(old(items));
      ghost var kept := items;
      if search.Some? {
        var location := search.value.location;
        AddSVG(location.latitude, location.longitude, PIN_ICON, PIN_SIZE, PIN_SIZE);
        assert items == kept + PinFor(projection, location);
        var circle := AddGeoCircle(location.latitude, location.longitude, search.value.radius, SEARCH_CIRCLE_COLOR);
        drag := Some(circle);
        SearchLayer(GeoCircle(location, SEARCH_CIRCLE_COLOR, circle), kept, PinFor(projection, location));
      } else {
        drag := None;
      }
    }
  }

  /** The layer the search effect leaves: the circle first, then the
      children that are not indicators, then the pin. */
  lemma SearchLayer(circle: LayerItem, kept: seq<LayerItem>, pin: seq<LayerItem>)
    requires IsIndicator(circle)
    requires Indicators(kept) == [] && WithoutIndicators(kept) == kept
    requires pin == [] || (|pin| == 1 && pin[0].Pin?)
    ensures Indicators([circle] + kept + pin) == [circle] + pin
    ensures WithoutIndicators([circle] + kept + pin) == kept
  {
    assert [circle] + kept + pin == [circle] + (kept + pin);
    IndicatorsAppend([circle], kept + pin);
    IndicatorsAppend(kept, pin);
    WithoutIndicatorsAppend([circle], kept + pin);
    WithoutIndicatorsAppend(kept, pin);
    IndicatorsOfOne(circle);
    if pin != [] {
      IndicatorsOfOne(pin[0]);
    }
  }

  /** A single child is either all indicator or all kept. */
  lemma IndicatorsOfOne(x: LayerItem)
    ensures Indicators([x]) == if IsIndicator(x) then [x] else []
    ensures WithoutIndicators([x]) == if IsIndicator(x) then [] else [x]
  {
    assert [x][1..] == [];
  }

  /* ---------------- Zoom and centring ---------------- */

  /** A zoom behaviour's `scaleExtent([lo, hi])`. */
  datatype ScaleExtent = ScaleExtent(lo: real, hi: real)

  const ZOOM_IN_FACTOR: real := 2.0
  const ZOOM_OUT_FACTOR: real := 0.5

  /** The scale d3 settles on for a requested scale: the request clamped to
      the extent. */
  function Clamp(k: real, extent: ScaleExtent): (r: real)
    requires extent.lo <= extent.hi
    ensures extent.lo <= r <= extent.hi
    ensures extent.lo <= k <= extent.hi ==> r == k
    ensures k < extent.lo ==> r == extent.lo
    ensures k > extent.hi ==> r == extent.hi
  {
    if k < extent.lo then extent.lo else if k > extent.hi then extent.hi else k
  }

  /** `zoom.scaleBy(factor)` from scale `k`. */
  function ScaleBy(k: real, factor: real, extent: ScaleExtent): (r: real)
    requires extent.lo <= extent.hi
    ensures extent.lo <= r <= extent.hi
  {
    Clamp(k * factor, extent)
  }

  /** `zoomIn()`, `zoomOut()` and `setZoom(level)` (`zoom.scaleTo`). */
  function ZoomIn(k: real, extent: ScaleExtent): (r: real)
    requires extent.lo <= extent.hi
    ensures extent.lo <= r <= extent.hi
    ensures extent.lo <= k * ZOOM_IN_FACTOR <= extent.hi ==> r == 2.0 * k
  {
    ScaleBy(k, ZOOM_IN_FACTOR, extent)
  }

  function ZoomOut(k: real, extent: ScaleExtent): (r: real)
    requires extent.lo <= extent.hi
    ensures extent.lo <= r <= extent.hi
    ensures extent.lo <= k * ZOOM_OUT_FACTOR <= extent.hi ==> 2.0 * r == k
  {
    ScaleBy(k, ZOOM_OUT_FACTOR, extent)
  }

  function SetZoom(level: real, extent: ScaleExtent): (r: real)
    requires extent.lo <= extent.hi
    ensures extent.lo <= r <= extent.hi
    ensures extent.lo <= level <= extent.hi ==> r == level
  {
    Clamp(level, extent)
  }

  /** Zooming out undoes zooming in whenever zooming in did not hit the
      upper bound, and zooming in grows the scale until the bound. */
  lemma ZoomOutUndoesZoomIn(k: real, extent: ScaleExtent)
    requires 0.0 < extent.lo <= extent.hi
    requires extent.lo <= k && k * ZOOM_IN_FACTOR <= extent.hi
    ensures ZoomOut(ZoomIn(k, extent), extent) == k
    ensures ZoomIn(k, extent) > k
  {
  }

  /** Repeated zooming in from a positive scale reaches the upper bound and
      stays there. */
  lemma ZoomInSaturates(k: real, extent: ScaleExtent)
    requires extent.lo <= extent.hi && k * ZOOM_IN_FACTOR >= extent.hi
    ensures ZoomIn(k, extent) == extent.hi
    ensures extent.hi > 0.0 ==> ZoomIn(extent.hi, extent) == extent.hi
  {
  }

  /** The size `center` works with: `ref.current?.clientWidth || width`. */
  function ContainerSize(client: Option<real>, fallback: real): (r: real)
    ensures client.Some? && client.value != 0.0 ==> r == client.value
    ensures client.None? || client.value == 0.0 ==> r == fallback
  {
    if client.Some? && client.value != 0.0 then client.value else fallback
  }

  /** The bounding box of the drawn group. */
  datatype BBox = BBox(x: real, y: real, width: real, height: real)

  /** `d3.zoomIdentity.translate(x, y).scale(k)`: a point p is drawn at
      `p * k + (x, y)`. */
  datatype ZoomTransform = ZoomTransform(k: real, x: real, y: real)

  function Apply(t: ZoomTransform, p: Point): Point {
    Point(p.x * t.k + t.x, p.y * t.k + t.y)
  }

  function BoxCenter(b: BBox): Point {
    Point(b.x + b.width / 2.0, b.y + b.height / 2.0)
  }

  /** `center()` of the current maps: the largest scale at which the box
      fits, translated so that the box's centre lands on the container's. */
  function FitTransform(containerWidth: real, containerHeight: real, bbox: BBox): (t: ZoomTransform)
    requires bbox.width > 0.0 && bbox.height > 0.0
    ensures Apply(t, BoxCenter(bbox)) == Point(containerWidth / 2.0, containerHeight / 2.0)
    ensures bbox.width * t.k <= containerWidth && bbox.height * t.k <= containerHeight
    ensures bbox.width * t.k == containerWidth || bbox.height * t.k == containerHeight
  {
    var k := Min(containerWidth / bbox.width, containerHeight / bbox.height);
    var tx := containerWidth / 2.0 - (bbox.x + bbox.width / 2.0) * k;
    var ty := containerHeight / 2.0 - (bbox.y + bbox.height / 2.0) * k;
    assert bbox.width * (containerWidth / bbox.width) == containerWidth;
    assert bbox.height * (containerHeight / bbox.height) == containerHeight;
    ZoomTransform(k, tx, ty)
  }

  /** The fitted scale is not held to the zoom extent: whenever the box is
      wider than the container by more than 1/lo, the fitted scale lies
      below the extent's lower bound, where `scaleTo` would have clamped it. */
  lemma FitIgnoresScaleExtent(containerWidth: real, containerHeight: real, bbox: BBox, extent: ScaleExtent)
    requires bbox.width > 0.0 && bbox.height > 0.0
    requires 0.0 < extent.lo <= extent.hi
    requires containerWidth < bbox.width * extent.lo
    ensures FitTransform(containerWidth, containerHeight, bbox).k < extent.lo
    ensures FitTransform(containerWidth, containerHeight, bbox).k != Clamp(FitTransform(containerWidth, containerHeight, bbox).k, extent)
  {
    var k := FitTransform(containerWidth, containerHeight, bbox).k;
    assert k <= containerWidth / bbox.width;
    assert containerWidth / bbox.width < extent.lo by {
      assert containerWidth / bbox.width * bbox.width == containerWidth;
    }
  }

  /** `center()` of the older maps: scale 1, translated so that the box's
      centre lands on the container's. */
  function OffsetTransform(containerWidth: real, containerHeight: real, bbox: BBox): (t: ZoomTransform)
    ensures t.k == 1.0
    ensures Apply(t, BoxCenter(bbox)) == Point(containerWidth / 2.0, containerHeight / 2.0)
  {
    var offsetX := containerWidth / 2.0 - (bbox.x + bbox.width / 2.0);
    var offsetY := containerHeight / 2.0 - (bbox.y + bbox.height / 2.0);
    ZoomTransform(1.0, offsetX, offsetY)
  }

  /* ---------------- Interaction mode and clicks ---------------- */

  /** The `interactionMode` ref and the state copy that drives the
      controls. */
  class InteractionMode {
    var current: bool
    var shown: bool

    ghost predicate Valid()
      reads this
    {
      shown == current
    }

    constructor ()
      ensures Valid() && current
    {
      current := true;
      shown := true;
    }

    /** `toggleInteractionMode()`. */
    method Toggle()
      requires Valid()
      modifies this
      ensures Valid()
      ensures current == !old(current)
    {
      var mode := !current;
      current := mode;
      shown := mode;
    }
  }

  /** What a map asks of its page. */
  datatype SearchRequest =
    | UpdateSearch(coordinates: Option<Coordinates>, radius: Option<real>)
    | UpdateSearchRadius(newRadius: real)

  /** What a mousedown handler does besides stopping propagation. */
  datatype MapAction = NoAction | NavigateHome | Request(request: SearchRequest) | ThrowsTypeError | LogPointer(at: Point)

  /** The outcome of a mousedown: whether the event stops before reaching
      the zoom behaviour, and the action taken. */
  datatype MouseDown = MouseDown(stopPropagation: bool, action: MapAction)

  /** The shared click handler: in interaction mode the click stops and asks
      for a search at the inverted pointer (destructuring a null inversion
      throws); otherwise it passes through to pan and zoom. */
  function SearchAtPointer(interactionMode: bool, invert: Inverse, pointer: Point): (r: MouseDown)
    ensures r.stopPropagation <==> interactionMode
    ensures r.action.Request? <==> interactionMode && invert(pointer).Some?
    ensures r.action.Request? ==> r.action.request == UpdateSearch(invert(pointer), None)
    ensures !r.action.Request? ==> r.action == (if interactionMode then ThrowsTypeError else NoAction)
  {
    if interactionMode then
      match invert(pointer)
      case None => MouseDown(true, ThrowsTypeError)
      case Some(c) => MouseDown(true, Request(UpdateSearch(Some(c), None)))
    else MouseDown(false, NoAction)
  }

  /** The quantize colour scale (`d3.scaleQuantize().domain([lo, hi])
      .range(range)`), taken as given. */
  datatype ScaleConfig = ScaleConfig(domainLo: real, domainHi: real, range: seq<string>)
  type Quantize = (ScaleConfig, real) -> string

  /** A scale that, whatever the value, answers with one of its range's
      colours (d3's quantize scale does). */
  ghost predicate PicksFromRange(quantize: Quantize) {
    forall cfg: ScaleConfig, v: real :: |cfg.range| > 0 ==> quantize(cfg, v) in cfg.range
  }

  /** A row of a heatmap file: a region code and its media total. */
  datatype HeatmapEntry = HeatmapEntry(code: string, total: real)

  /** `heatmap.find((e) => e.code == code)`. */
  function FindEntry(heatmap: seq<HeatmapEntry>, code: string): (r: Option<HeatmapEntry>)
    ensures r.None? <==> forall k :: 0 <= k < |heatmap| ==> heatmap[k].code != code
    ensures r.Some? ==>
              exists k :: 0 <= k < |heatmap| && heatmap[k] == r.value && r.value.code == code &&
                forall j :: 0 <= j < k ==> heatmap[j].code != code
  {
    if heatmap == [] then None
    else if heatmap[0].code == code then Some(heatmap[0])
    else
      var r := FindEntry(heatmap[1..], code);
      assert r.Some? ==>
               exists k :: 0 <= k < |heatmap| && heatmap[k] == r.value && r.value.code == code &&
                 forall j :: 0 <= j < k ==> heatmap[j].code != code
      by {
        if r.Some? {
          var k :| 0 <= k < |heatmap[1..]| && heatmap[1..][k] == r.value && r.value.code == code &&
                   forall j :: 0 <= j < k ==> heatmap[1..][j].code != code;
          assert heatmap[k + 1] == r.value;
          assert forall j :: 0 <= j < k + 1 ==> heatmap[j].code != code by {
            forall j | 0 <= j < k + 1 ensures heatmap[j].code != code {
              if j > 0 {
                assert heatmap[j] == heatmap[1..][j - 1];
              }
            }
          }
        }
      }
      assert r.None? ==> forall k :: 0 <= k < |heatmap| ==> heatmap[k].code != code by {
        if r.None? {
          forall k | 0 <= k < |heatmap| ensures heatmap[k].code != code {
            if k > 0 {
              assert heatmap[k] == heatmap[1..][k - 1];
            }
          }
        }
      }
      r
  }

  /** `entry?.total || 0`. */
  function TotalOrZero(entry: Option<HeatmapEntry>): (r: real)
    ensures entry.None? ==> r == 0.0
    ensures entry.Some? ==> r == entry.value.total
  {
    if entry.Some? && entry.value.total != 0.0 then entry.value.total else 0.0
  }
}
