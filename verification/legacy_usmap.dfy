/** The older US map (src/components/USMap/USMap.tsx): its own palette over
    domain [0, 5], clicks that never change the search, a drag that reports
    only the radius, the scale-1 `center` and the zoom extent [1, 8]. It has
    no interaction mode. */
module LegacyUSMap {
  import opened Common
  import opened MapCore
  import USMap
  import LegacyWorldMap

  /** `scaleExtent([1, 8])`. */
  const ZOOM_EXTENT: ScaleExtent := ScaleExtent(1.0, 8.0)

  /** A finished drag calls `updateSearchRadius(radius)`. */
  const ON_RADIUS: RadiusCallback := SearchRadiusOnly

  /** Domain [0, 5] over the same palette as the older world map; the county
      colour is `USMap.CountyFill` under this scale. */
  const SCALE: ScaleConfig := ScaleConfig(0.0, 5.0, LegacyWorldMap.PALETTE)

  /** A mousedown on a county only logs the pointer and lets the event
      through to pan and zoom. */
  function CountyMouseDown(pointer: Point): (r: MouseDown)
    ensures !r.stopPropagation && !r.action.Request?
  {
    MouseDown(false, LogPointer(pointer))
  }

  /** A mousedown on a media dot only stops the event. */
  function MediaMouseDown(): (r: MouseDown)
    ensures r.stopPropagation && !r.action.Request?
  {
    MouseDown(true, NoAction)
  }

  /** No click on this map asks for a search: the search moves only through
      the radius drag, whose request keeps the location. */
  lemma ClicksNeverSearch(pointer: Point, radius: real)
    ensures !CountyMouseDown(pointer).action.Request? && !MediaMouseDown().action.Request?
    ensures !CountyMouseDown(pointer).stopPropagation && MediaMouseDown().stopPropagation
    ensures RadiusRequest(ON_RADIUS, radius) == UpdateSearchRadius(radius)
  {
  }

  /** The extent starts at the initial scale 1: from any scale the map can
      reach, zooming out never goes below it, lands on it from any scale up
      to 2, and zooming in then out returns to any scale up to 4. */
  lemma CannotZoomOutPastStart(k: real)
    requires ZOOM_EXTENT.lo <= k <= ZOOM_EXTENT.hi
    ensures ZoomOut(k, ZOOM_EXTENT) >= 1.0
    ensures k <= 2.0 ==> ZoomOut(k, ZOOM_EXTENT) == 1.0
    ensures k <= 4.0 ==> ZoomOut(ZoomIn(k, ZOOM_EXTENT), ZOOM_EXTENT) == k
  {
  }
}
