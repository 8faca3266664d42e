/** The older world map (src/components/WorldMap/WorldMap.tsx): its own
    palette and fill rule, the scale-1 `center`, and the same country click
    as the current map (`WorldMap.CountryMouseDown`). */
module LegacyWorldMap {
  import opened MapCore
  import WorldMap

  /** The palette written into the component. */
  const PALETTE: seq<string> := ["#e3d9ff", "#bea9f8", "#9879ee", "#6e48e2", "#3700d4"]

  /** `scaleExtent([0.7, 8])`. */
  const ZOOM_EXTENT: ScaleExtent := ScaleExtent(0.7, 8.0)

  /** A finished drag calls `updateSearch(undefined, radius)`. */
  const ON_RADIUS: RadiusCallback := SearchWithRadius

  /** Domain [0, 40] over the whole palette. */
  const SCALE: ScaleConfig := ScaleConfig(0.0, 40.0, PALETTE)

  /** The `fill` of a country (and the colour mouseout restores): grey for
      the USA, otherwise the scale's colour for `total || 0`. */
  function CountryFill(quantize: Quantize, heatmap: seq<HeatmapEntry>, name: string, id: string): (fill: string)
    ensures name == WorldMap.USA_NAME ==> fill == WorldMap.USA_FILL
    ensures name != WorldMap.USA_NAME ==> fill == quantize(SCALE, TotalOrZero(FindEntry(heatmap, id)))
  {
    if name == WorldMap.USA_NAME then WorldMap.USA_FILL
    else
      var country := FindEntry(heatmap, id);
      quantize(SCALE, if country.Some? && country.value.total != 0.0 then country.value.total else 0.0)
  }

  /** Unlike the current map, which keeps a separate colour for countries
      without media, this one sends them through the scale like a total of
      0, so a country without media is always painted from the palette. */
  lemma CountryWithoutMediaUsesScale(quantize: Quantize, heatmap: seq<HeatmapEntry>, name: string, id: string)
    requires name != WorldMap.USA_NAME
    requires FindEntry(heatmap, id).None?
    ensures CountryFill(quantize, heatmap, name, id) == quantize(SCALE, 0.0)
    ensures PicksFromRange(quantize) ==> CountryFill(quantize, heatmap, name, id) in PALETTE
  {
    assert |SCALE.range| > 0;
  }
}
