/** The current world map (src/components/maps/WorldMap/WorldMap.tsx): its
    country fill rule and country click; the rest of the component is the
    shared code of `MapCore`. */
module WorldMap {
  import opened Common
  import opened MapCore

  const USA_NAME: string := "United States of America"
  const USA_FILL: string := "grey"

  /** `scaleExtent([0.7, 8])`. */
  const ZOOM_EXTENT: ScaleExtent := ScaleExtent(0.7, 8.0)

  /** A finished drag calls `updateSearch(undefined, radius)`. */
  const ON_RADIUS: RadiusCallback := SearchWithRadius

  /** The colour scale: domain [0, 40] over the configured palette without
      its first colour, which is kept for countries without media. */
  function Scale(colors: seq<string>): (cfg: ScaleConfig)
    requires |colors| > 0
    ensures cfg.domainLo == 0.0 && cfg.domainHi == 40.0
    ensures [colors[0]] + cfg.range == colors
  {
    ScaleConfig(0.0, 40.0, colors[1..])
  }

  /** The `fill` of a country: grey for the USA (whose media the US map
      shows), the palette's first colour when the heatmap has no entry for the
      country or a total of 0, and otherwise the scale's colour for its
      total. */
  function CountryFill(colors: seq<string>, quantize: Quantize, heatmap: seq<HeatmapEntry>, name: string, id: string): (fill: string)
    requires |colors| > 0
    ensures name == USA_NAME ==> fill == USA_FILL
    ensures name != USA_NAME && TotalOrZero(FindEntry(heatmap, id)) == 0.0 ==> fill == colors[0]
    ensures name != USA_NAME && TotalOrZero(FindEntry(heatmap, id)) != 0.0 ==>
              fill == quantize(Scale(colors), FindEntry(heatmap, id).value.total)
  {
    if name == USA_NAME then USA_FILL
    else
      var country := FindEntry(heatmap, id);
      if country.None? then colors[0]
      else if country.value.total == 0.0 then colors[0]
      else quantize(Scale(colors), country.value.total)
  }

  /** The colour the `mouseout` handler writes back, as that handler
      computes it (a nested conditional rather than early returns). */
  function MouseoutFill(colors: seq<string>, quantize: Quantize, heatmap: seq<HeatmapEntry>, name: string, id: string): (r: string)
    requires |colors| > 0
    ensures name != USA_NAME && |colors| > 1 && PicksFromRange(quantize) ==> r in colors
    ensures name != USA_NAME && FindEntry(heatmap, id).None? ==> r == colors[0]
  {
    if name == USA_NAME then USA_FILL
    else
      var country := FindEntry(heatmap, id);
      if country.Some? then (if country.value.total == 0.0 then colors[0] else quantize(Scale(colors), country.value.total))
      else colors[0]
  }

  /** Leaving a country restores exactly the colour it was drawn with. */
  lemma MouseoutRestoresFill(colors: seq<string>, quantize: Quantize, heatmap: seq<HeatmapEntry>, name: string, id: string)
    requires |colors| > 0
    ensures MouseoutFill(colors, quantize, heatmap, name, id) == CountryFill(colors, quantize, heatmap, name, id)
  {
  }

  /** Every country other than the USA is painted from the palette. */
  lemma FillFromPalette(colors: seq<string>, quantize: Quantize, heatmap: seq<HeatmapEntry>, name: string, id: string)
    requires |colors| > 1 && PicksFromRange(quantize)
    ensures name != USA_NAME ==> CountryFill(colors, quantize, heatmap, name, id) in colors
  {
    var cfg := Scale(colors);
    assert |cfg.range| > 0;
    var fill := CountryFill(colors, quantize, heatmap, name, id);
    if name != USA_NAME && fill != colors[0] {
      var total := FindEntry(heatmap, id).value.total;
      assert fill == quantize(cfg, total);
      assert fill in cfg.range;
      assert fill in colors;
    }
  }

  /** A mousedown on a country: the USA always stops the event and opens the
      home (US) view; any other country behaves like a click on the map. */
  function CountryMouseDown(name: string, interactionMode: bool, invert: Inverse, pointer: Point): (r: MouseDown)
    ensures r.action == NavigateHome <==> name == USA_NAME
    ensures r.stopPropagation <==> name == USA_NAME || interactionMode
    ensures name != USA_NAME ==> r == SearchAtPointer(interactionMode, invert, pointer)
  {
    if name == USA_NAME then MouseDown(true, NavigateHome)
    else SearchAtPointer(interactionMode, invert, pointer)
  }
}
