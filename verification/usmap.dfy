/** The current US map (src/components/maps/USMap/USMap.tsx): its county
    fill rule; the rest of the component is the shared code of `MapCore`. */
module USMap {
  import opened MapCore

  /** `scaleExtent([0.7, 8])`. */
  const ZOOM_EXTENT: ScaleExtent := ScaleExtent(0.7, 8.0)

  /** A finished drag calls `updateSearch(undefined, radius)`. */
  const ON_RADIUS: RadiusCallback := SearchWithRadius

  /** The colour scale: domain [0, 5] over the whole configured palette. */
  function Scale(colors: seq<string>): (cfg: ScaleConfig)
    ensures cfg.domainLo == 0.0 && cfg.domainHi == 5.0 && cfg.range == colors
  {
    ScaleConfig(0.0, 5.0, colors)
  }

  /** `colorScale(county?.total || 0)`: the colour of a county by its media
      total under a given scale. The mouseout handler computes the same
      expression, so leaving a county restores this colour. */
  function CountyFill(cfg: ScaleConfig, quantize: Quantize, heatmap: seq<HeatmapEntry>, fips: string): (r: string)
    ensures PicksFromRange(quantize) && |cfg.range| > 0 ==> r in cfg.range
    ensures FindEntry(heatmap, fips).None? ==> r == quantize(cfg, 0.0)
  {
    quantize(cfg, TotalOrZero(FindEntry(heatmap, fips)))
  }

  /** A county the heatmap does not list looks exactly like one whose total
      is 0, and with a non-empty palette both are painted from it. */
  lemma MissingCountyLooksEmpty(colors: seq<string>, quantize: Quantize, heatmap: seq<HeatmapEntry>, fips: string, empty: string)
    requires forall k :: 0 <= k < |heatmap| ==> heatmap[k].code != fips
    requires FindEntry(heatmap, empty).Some? && FindEntry(heatmap, empty).value.total == 0.0
    ensures CountyFill(Scale(colors), quantize, heatmap, fips) == CountyFill(Scale(colors), quantize, heatmap, empty)
    ensures |colors| > 0 && PicksFromRange(quantize) ==> CountyFill(Scale(colors), quantize, heatmap, fips) in colors
  {
    assert FindEntry(heatmap, fips).None?;
  }
}
