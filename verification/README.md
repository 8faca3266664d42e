# Local Memory — a Dafny model of its search and map logic

Local Memory shows where local news organisations are: a world view and an
older home (US) view list media sorted by distance from a searched place,
and D3 maps draw a heatmap of media per region, a draggable search circle
and a location pin. This project models the logic behind those screens:

- **Proximity search** (`Proximity`, `World`, `Home`). Every record gets a
  distance. Records within the radius are kept, stably sorted by distance
  and cut to a limit. The world view keeps its stored search and its result
  list in step. It combines a new origin or a new radius with the previous
  search, and picks the closest country and city.
- **Postal codes and geolocation** (`Utility`, `Geolocation`). The nearest
  postal code is found by a first-minimum scan. The geolocation cell moves
  through three branches.
- **Maps** (`MapCore` plus one module per map file). Shared parts:
  - the radius-drag state machine and the circle's angle in degrees;
  - the indicator layer and the search effect;
  - zoom factors and extents, and the two `center` transforms;
  - the interaction-mode switch and the click-to-search dispatch;
  - the heatmap lookup.

  Each map file adds its own fill rule, clicks, extent and drag callback.
- **Header and build configuration** (`Header`, `ViteConfig`):
  - the debounced sidebar toggle;
  - the build-command dispatch;
  - the global-SCSS `transform` hook.

Distances go through `Common.Haversine`, which is Earth's radius in
kilometres times a central angle. The central angle is a function
parameter, so the trigonometry stays outside the model. The model keeps two
mismatches that are in the code:

- The filter compares kilometres against a radius the page labels as
  miles. The drawn circle converts the radius with a 3958-mile Earth radius.
  `MapCore.OverlayWiderThanFilter` states the band of records that lie
  inside the circle but are dropped from the list.
- The drag adds pixel distances straight to the mile radius
  (`MapCore.DragTelescopes`).

Parts the code leaves to libraries or the browser become parameters:

- the D3 projection and its inverse, as functions returning `Option`;
- the quantize colour scale, as a function of its configuration and a value;
- the pointer's pixel distance from the circle's centre;
- the clock (`now`);
- the parsed module path.

The colour palette of the application configuration is a parameter
`colors`.

## Model

| member | source | states |
|---|---|---|
| Common.Haversine | src/utility.tsx:7-20 | The distance is Earth's radius (6371 km) times the central angle, so it is never negative when the angle is not. |
| Common.SliceEnd | src/views/World.tsx:29 | The end index of `slice(0, end)`: at most the length; a non-negative end is cut to the length; a negative end counts from the back and stops at 0. |
| Common.Slice | src/views/World.tsx:29 | `slice(0, limit)` has `SliceEnd` elements and they are the list's first ones, in order. |
| Proximity.Within | src/views/World.tsx:25 | The filter keeps every record within the bound exactly as often as it occurs, and nothing else. For each distance within the bound the records at that distance stay in their original order. Beyond the bound there are none. |
| Proximity.Insert | src/views/World.tsx:27 | One insertion step of the sort adds exactly one copy of the element. |
| Proximity.InsertSorted | src/views/World.tsx:27 | Inserting into a list ordered by distance keeps it ordered. |
| Proximity.InsertTies | src/views/World.tsx:27 | An inserted element goes before the elements of equal distance. This is what keeps the sort stable when it runs from the back. |
| Proximity.StableSort | src/views/World.tsx:27 | The comparator sort `a.distance - b.distance`. The result is ordered by distance and is a permutation of the input. Records with equal distance keep their input order. |
| Proximity.TiesOfPrefix | src/views/World.tsx:29 | Cutting a list keeps a prefix of the records at each distance. |
| Proximity.Nearby | src/views/World.tsx:20-30 | The filter, the stable distance sort and the slice. A non-negative limit bounds the length. The partner lemmas below state what the records are and their order. |
| Proximity.NearbyWithinAndSorted | src/views/World.tsx:20-30 | Every record that `sortCitiesByProximity` returns comes from the input and is within the maximum distance. The result is ordered by distance. |
| Proximity.NearbyComplete | src/views/World.tsx:20-30 | The result has min(limit, number in range) records. An in-range record is left out only when the list is full of records at least as near. |
| Proximity.NearbyHeadIsNearest | src/views/World.tsx:20-30 | For a positive limit the result is empty exactly when no record is in range. Otherwise its first record is at least as near as every in-range record. |
| Proximity.StableSortConstantKey | src/views/Home.tsx:42-46 | A comparator that calls every pair equal leaves the array in its order. |
| Proximity.NearbyKeepsTieOrder | src/views/World.tsx:27-29 | For every distance, the returned records at that distance are a prefix of the input's records at that distance, in input order. Beyond the maximum there are none. |
| Utility.ToRadians | src/utility.tsx:22-24 | The result times 180 equals the degrees times pi. |
| Utility.ToRadiansLinear | src/utility.tsx:22-24 | The conversion is additive and homogeneous. It maps 0 to 0 and 180 to pi. |
| Utility.GetIconForMediaClass | src/utility.tsx:28-49 | The four media classes give their icon, inline or as a component according to the flag. A name the table inherits from Object.prototype gives undefined. Any other name throws a TypeError. |
| Utility.TableIconIsComponent | src/utility.tsx:66-69 | The table uses the component form of a class's icon. The inline form is the same icon. |
| Utility.FindClosestZipcode | src/utility.tsx:51-64 | The scan returns '' for an empty table. Otherwise it returns the key of an entry at least as near as every entry, with every earlier entry strictly farther (the first minimum wins). |
| Utility.ClosestZipcodeUnique | src/utility.tsx:51-64 | Only one key meets that contract. |
| Utility.ClosestZipcodeIsNearestKey | src/utility.tsx:55-60 | For a non-empty table the result is one of the table's keys, at the smallest distance. |
| Geolocation.GeolocationProvider.constructor | src/contexts/GeolocationContext.tsx:19 | The cell starts as loading, with no location and no postal code. |
| Geolocation.GeolocationProvider.SetGeolocation | src/contexts/GeolocationContext.tsx:21-42 | The call always ends loading. An error message or a null location gives no location and no code. Coordinates give that location and the closest postal code. A code is never present without a location. |
| TextOrder.StrLtIrreflexive | src/views/World.tsx:76 | The default sort order puts no string before itself. |
| TextOrder.StrLtTransitive | src/views/World.tsx:76 | The default sort order is transitive. |
| TextOrder.StrLtTotal | src/views/World.tsx:76 | Of two different strings, one sorts before the other. |
| TextOrder.InsertUnique | src/views/World.tsx:76 | Adding a name to a strictly sorted list keeps it strictly sorted. The list then holds exactly its old names plus the new one. |
| TextOrder.SortedDistinct | src/views/World.tsx:76 | `[...new Set(s)].sort()`: a strictly sorted list of exactly the names in `s`. |
| TextOrder.TailElements | src/views/World.tsx:76 | The tail of a strictly sorted list holds every name but its head. |
| TextOrder.StrictlySortedUnique | src/views/World.tsx:76 | Two strictly sorted lists with the same names are equal, so the dedupe-and-sort result is determined by the set of names. |
| World.WorldMedia.constructor | src/views/World.tsx:20-23 | A record starts without a distance. |
| World.SortCitiesByProximity | src/views/World.tsx:20-30 | Every record, kept or not, has its distance field overwritten with its distance from the origin. The result is the filter, stable sort and slice of `Nearby`. |
| World.RadiusOrDefault | src/views/World.tsx:63 | `search.current?.radius \|\| 1000` is never 0. It is the stored radius when that is set and non-zero, else 1000. |
| World.FractionalRadiusShowsDefault | src/views/World.tsx:61 | A typed radius strictly between 0 and 1 is stored as 0, while the radius field shows 1000 (line 177). |
| World.LookupList | src/views/World.tsx:79-82 | A non-empty current list is used as is. An empty one is replaced by a radius-1000 search around the location, which is ordered by distance and holds at most 500 records. Lines 92-95 repeat the same fallback. |
| World.ClosestCountry | src/views/World.tsx:78-88 | With a non-empty result list the answer is the country of its first record, whatever the location. Otherwise it is null exactly when no record is within 1000. When not null it is the country of a nearest in-range record. |
| World.OfCountry | src/views/World.tsx:96 | The filter keeps exactly the records of that country. Its first record is the first record of the country in the list. |
| World.ClosestCity | src/views/World.tsx:90-103 | The result is null exactly when the lookup list has no record of the country. Otherwise it is the `lat#long` key of that country's first record in the list. |
| World.ClosestCityIsNearestInCountry | src/views/World.tsx:90-103 | With no current results, the chosen city belongs to a record of the country within 1000. No record of that country in the lookup list is nearer. |
| World.FirstOfCountryIsNearest | src/views/World.tsx:96-99 | In a list sorted by distance, the first record of a country is the nearest of that country. |
| World.CountriesOf | src/views/World.tsx:76 | `mediaWorld.map(d => d.country)`: one country per record, in order. |
| World.Countries | src/views/World.tsx:76 | The countries picker is strictly sorted and names exactly the countries that occur. |
| World.CityNamesIn | src/views/World.tsx:111-122 | The city names of the records of a country, and no others. |
| World.CityLocations | src/views/World.tsx:111-122 | The `Map` of cities has exactly the country's city names as keys. Each name maps to the place of the last record with that name, since later entries overwrite earlier ones. |
| World.CityNamesOf | src/views/World.tsx:125 | The names of the city entries, one per entry, in order. |
| World.Cities | src/views/World.tsx:105-126 | No selected country gives no cities. Otherwise the city names are strictly sorted in code-point order, which stands in for `localeCompare`. They are exactly the country's cities, each at the place of its last record. |
| World.WorldView.constructor | src/views/World.tsx:37-44 | The view starts with no search, no results and no selections, which are in step. |
| World.WorldView.OnSearch | src/views/World.tsx:52-57 | The stored search and the result list are set from the same location and radius, so they stay in step. |
| World.WorldView.FindClosestCountry | src/views/World.tsx:78-88 | The method computes `ClosestCountry`. The fallback search rewrites every distance, and with current results nothing changes. |
| World.WorldView.FindClosestCity | src/views/World.tsx:90-103 | The method computes `ClosestCity`, with the same effect on distances. |
| World.WorldView.SelectClosest | src/views/World.tsx:64-72 | The closest country is selected. If it is truthy, its closest city is selected too; otherwise the city is cleared. The search stays in step. |
| World.WorldView.UpdateSearch | src/views/World.tsx:59-74 | A truthy radius keeps the location and stores `floor(radius)`. It throws when there is no search. Otherwise new coordinates take the old radius or 1000. With `shouldUpdateCountry`, the country and city are chosen from `lookup`, the result list of the render that created this `updateSearch`. Nothing else changes, and the search stays in step. |
| World.WorldView.OnMapClick | src/components/maps/WorldMap/WorldMap.tsx:142-153 | A map click moves the search to the clicked point. The handler holds the `updateSearch` of the render that mounted the map, and `mounted` is that render's result list. If the map mounted on the first render, the list is empty, and the country is null exactly when no record is within 1000 of the click. If the map mounted later with a non-empty list, the country is always that list's first record's, whatever was clicked. |
| World.WorldView.OnMapRadius | src/components/maps/WorldMap/WorldMap.tsx:308-311 | A finished drag re-runs the stored search with `floor(radius)`. It throws when there is no search, and a radius of 0 changes nothing. The selections are kept. |
| World.WorldView.OnGeolocation | src/views/World.tsx:46-50 | A known location starts a search of radius 1000 around it. A missing one changes nothing. |
| World.WorldView.OnCountryChosen | src/views/World.tsx:155-158 | Choosing a country clears the city and keeps the search. |
| World.WorldView.OnCityChosen | src/views/World.tsx:166-171 | A chosen city becomes the new origin with the old radius or 1000. The selections are kept. |
| Home.SortCitiesByProximity | src/views/Home.tsx:41-49 | The array is reordered in place into the stable distance order of its old contents. The result is its first `limit` records. |
| Home.NearestPrefix | src/views/Home.tsx:41-49 | The sorted array is a permutation of the old one. The kept prefix has min(limit, n) records, each at least as near as every record left out. |
| Home.FindFips | src/views/Home.tsx:70 | The lookup is null exactly when no entry has the code. Otherwise it is the first entry with the code. |
| Home.ComputeTotals | src/views/Home.tsx:68-76 | There is one entry per record. The first record of a county code gives total 1 and each later one gives 2, because the lookup always finds the first entry. |
| Home.HomeView.constructor | src/views/Home.tsx:54-55 | Both lists start empty. |
| Home.HomeView.OnSubmit | src/views/Home.tsx:63-82 | A known postal code stable-sorts the media array and sets the results to its first `count` records. A name inherited from Object.prototype, such as `constructor`, also runs the search: its distances are NaN, every comparison counts as a tie, the array keeps its order, and the results are its first `count` records. Any other code changes nothing. The totals always describe the results. |
| Header.SpacedApart | src/components/page/Header/Header.tsx:18-24 | Accepted toggles i < j are more than 500·(j − i) ms apart. |
| Header.Header.constructor | src/components/page/Header/Header.tsx:15-16 | The sidebar starts closed with `lastToggleTime` 0. |
| Header.Header.SetSidebar | src/components/page/Header/Header.tsx:18-24 | A call strictly more than 500 ms after the last accepted one sets the state and the time. Any other call changes nothing. Accepted calls stay spaced. |
| Header.Header.OutsideClick | src/components/page/Header/Header.tsx:26-30 | An outside click changes nothing while the sidebar is closed. An open sidebar closes, and the call is recorded as accepted, when the debounce allows. Otherwise it stays open and the time and history are unchanged. |
| Header.Header.NavLinkClick | src/components/page/Header/Header.tsx:42 | A link closes the sidebar and records the call as accepted when the debounce allows. Otherwise nothing changes. |
| Header.Header.MenuButtonClick | src/components/page/Header/Header.tsx:65 | The menu button flips the sidebar and records the call as accepted when the debounce allows. Otherwise nothing changes. |
| ViteConfig.DevConfig | vite.config.ts:48-52 | No base, and all four base plugins. |
| ViteConfig.ProdConfig | vite.config.ts:54-59 | The same plugins as development, with the base `/tools/local-memory`, and therefore a different configuration. |
| ViteConfig.DefineConfig | vite.config.ts:9-18 | `build` gives the production base `/tools/local-memory`. Every other command gives none, and any command but `serve` and `build` warns. All use the four base plugins. |
| ViteConfig.IncludesAt | vite.config.ts:28 | `includes` holds exactly when the substring occurs at some position. |
| ViteConfig.Transform | vite.config.ts:21-42 | A result exists exactly for non-partial `.scss` files whose parsed root does not contain `node_modules`. Its code is the `@use` line, a newline, then the unchanged content. Its map is null. |
| ViteConfig.NodeModulesExclusionIsDead | vite.config.ts:26-28 | A root that `path.parse` can return (empty, `/`, a separator or a drive) never contains `node_modules`. So the rewrite depends on `base` alone, and stylesheets under `node_modules/` are rewritten too. |
| ViteConfig.PartialsUntouched | vite.config.ts:30 | A partial is never rewritten. |
| MapCore.AngleOf | src/components/maps/WorldMap/WorldMap.tsx:256-257 | angle · (3958·2π) = radius · 360. The angle is 0 exactly for radius 0, and non-negative exactly for a non-negative radius. |
| MapCore.AngleOfMonotone | src/components/maps/WorldMap/WorldMap.tsx:256-257 | A larger radius draws a larger angle. |
| MapCore.OverlayAngleInRadians | src/components/maps/WorldMap/WorldMap.tsx:256-257 | In radians the circle's angle is radius / 3958. |
| MapCore.OverlayWiderThanFilter | src/components/maps/WorldMap/WorldMap.tsx:256-257 | For a positive radius, a record with central angle between radius/6371 and radius/3958 lies inside the drawn circle but is farther than the radius by the filter's measure. |
| MapCore.Move | src/components/maps/WorldMap/WorldMap.tsx:293-297 | One drag step adds the change in pixel distance and clamps at 0. The result is never negative and equals the sum when that is not negative. |
| MapCore.DragRadius | src/components/maps/WorldMap/WorldMap.tsx:284-306 | The radius after a sequence of pointer moves is never negative once there has been a move, and with no move it is the starting radius. The lemmas below relate it to the pointer distances. |
| MapCore.DragRadiusAppend | src/components/maps/WorldMap/WorldMap.tsx:284-306 | One more pointer move is one more `Move`, taken from the last baseline. |
| MapCore.DragTelescopes | src/components/maps/WorldMap/WorldMap.tsx:284-306 | Without clamping, the radius changes by the last pointer distance minus the first. |
| MapCore.DragAtLeastUnclamped | src/components/maps/WorldMap/WorldMap.tsx:284-306 | The clamp only ever increases the radius. |
| MapCore.DragNonNegative | src/components/maps/WorldMap/WorldMap.tsx:296-297 | After at least one move the radius is never negative. |
| MapCore.RadiusRequest | src/components/maps/WorldMap/WorldMap.tsx:308-311 | The current maps call `updateSearch(undefined, r)`. The older US map calls `updateSearchRadius(r)` (src/components/USMap/USMap.tsx:296-299). |
| MapCore.RadiusDrag.constructor | src/components/maps/WorldMap/WorldMap.tsx:255-270 | A new circle has radius and `data-radius` equal to the distance, the matching angle, and baseline 0. |
| MapCore.RadiusDrag.DragStarted | src/components/maps/WorldMap/WorldMap.tsx:272-282 | A drag start takes the pointer's distance as baseline and resumes from `data-radius`. |
| MapCore.RadiusDrag.Dragged | src/components/maps/WorldMap/WorldMap.tsx:284-306 | A move applies `Move`, rewrites the angle and `data-radius`, and re-takes the baseline. The radius stays the drag function of the moves. |
| MapCore.RadiusDrag.DragEnded | src/components/maps/WorldMap/WorldMap.tsx:308-311 | The request carries the radius the moves produced, which is the `data-radius` of this circle. After a move it is not negative. A non-zero radius makes the page store its floor as the new search (`World.WorldView.OnMapRadius`), and the search effect replaces this circle with a fresh one of that radius (`MapCore.InteractableLayer.ShowSearch`). So the next drag starts from the floor on a new circle. |
| MapCore.WithoutIndicators | src/components/maps/WorldMap/WorldMap.tsx:331-333 | Removal never adds children. Which children it keeps is stated by the lemmas below. |
| MapCore.WithoutIndicatorsKeepsOthers | src/components/maps/WorldMap/WorldMap.tsx:331-333 | Removal drops every indicator and keeps every other child as often as it occurs. |
| MapCore.IndicatorsAppend | src/components/maps/WorldMap/WorldMap.tsx:331-333 | The indicators of a concatenation are the indicators of each part. |
| MapCore.WithoutIndicatorsAppend | src/components/maps/WorldMap/WorldMap.tsx:331-333 | Removal distributes over concatenation. |
| MapCore.RemoveIndicatorsIdempotent | src/components/maps/WorldMap/WorldMap.tsx:331-333 | After removal no indicator is left, and a second removal changes nothing. |
| MapCore.PinFor | src/components/maps/WorldMap/WorldMap.tsx:240-253 | A search pin exists exactly when the place projects. It is centred on the projected point. |
| MapCore.InteractableLayer.constructor | src/components/maps/WorldMap/WorldMap.tsx:58 | The layer starts empty. |
| MapCore.InteractableLayer.AddCircle | src/components/maps/WorldMap/WorldMap.tsx:232-237 | A plain circle is appended only when the point projects. |
| MapCore.InteractableLayer.AddSVG | src/components/maps/WorldMap/WorldMap.tsx:240-253 | An indicator image centred on the projected point is appended only when the point projects. |
| MapCore.InteractableLayer.AddGeoCircle | src/components/maps/WorldMap/WorldMap.tsx:319-328 | A draggable circle with fresh drag state goes first in the layer, whether or not its centre projects. |
| MapCore.InteractableLayer.RemoveIndicators | src/components/maps/WorldMap/WorldMap.tsx:331-333 | The layer loses exactly its indicators. |
| MapCore.InteractableLayer.ShowSearch | src/components/maps/WorldMap/WorldMap.tsx:384-390 | After the search effect the indicators are exactly the new circle and, if the place projects, the new pin. With no search there are none. The other children are untouched. |
| MapCore.SearchLayer | src/components/maps/WorldMap/WorldMap.tsx:384-390 | Circle first, cleared children, then the pin: the indicators are the circle and the pin, and the rest is the cleared children. |
| MapCore.Clamp | src/components/maps/WorldMap/WorldMap.tsx:342 | A scale is kept within the extent. Scales inside it are unchanged, and those outside go to the nearer bound. |
| MapCore.ScaleBy | src/components/maps/WorldMap/WorldMap.tsx:362-368 | A scaled zoom stays within the extent. |
| MapCore.ZoomIn | src/components/maps/WorldMap/WorldMap.tsx:362-364 | Zooming in doubles the scale when that stays in the extent, and never leaves the extent. |
| MapCore.ZoomOut | src/components/maps/WorldMap/WorldMap.tsx:366-368 | Zooming out halves the scale when that stays in the extent, and never leaves the extent. |
| MapCore.SetZoom | src/components/maps/WorldMap/WorldMap.tsx:347-349 | `scaleTo(level)` gives the level when it is in the extent, and never leaves the extent. |
| MapCore.ZoomOutUndoesZoomIn | src/components/maps/WorldMap/WorldMap.tsx:362-368 | From a positive in-range scale whose double is in range, zooming in grows the scale and zooming out returns to it. |
| MapCore.ZoomInSaturates | src/components/maps/WorldMap/WorldMap.tsx:362-368 | Once doubling would pass the top, zooming in lands on it and stays there. |
| MapCore.ContainerSize | src/components/maps/WorldMap/WorldMap.tsx:352-353 | `clientWidth \|\| width`: the client size unless it is absent or 0. |
| MapCore.FitTransform | src/components/maps/WorldMap/WorldMap.tsx:351-360 | The box centre lands on the container centre and the scaled box fits the container. It fills the container along at least one axis. The US map has the same code (src/components/maps/USMap/USMap.tsx:354-363). |
| MapCore.FitIgnoresScaleExtent | src/components/maps/WorldMap/WorldMap.tsx:351-360 | Whenever the box is wider than the container by more than 1/lo, the fitted scale falls below the extent's lower bound, where `scaleTo` would have clamped it. |
| MapCore.OffsetTransform | src/components/WorldMap/WorldMap.tsx:356-369 | The older maps keep scale 1 and move the box centre onto the container centre (also src/components/USMap/USMap.tsx:339-357). |
| MapCore.InteractionMode.constructor | src/components/maps/WorldMap/WorldMap.tsx:413-414 | Interaction mode starts on, and the shown state matches it. |
| MapCore.InteractionMode.Toggle | src/components/maps/WorldMap/WorldMap.tsx:416-420 | Each toggle flips the mode, and the shown state follows. |
| MapCore.SearchAtPointer | src/components/maps/WorldMap/WorldMap.tsx:215-225 | A click stops exactly in interaction mode. It asks for `updateSearch(coords, undefined)` exactly when the pointer inverts, and throws when it does not. Outside interaction mode it does nothing. |
| MapCore.FindEntry | src/components/maps/WorldMap/WorldMap.tsx:89 | `heatmap.find` is null exactly when no entry has the code. Otherwise it is the first entry with the code. |
| MapCore.TotalOrZero | src/components/maps/USMap/USMap.tsx:82-83 | `entry?.total \|\| 0` is 0 for a missing entry, else the entry's total. |
| WorldMap.Scale | src/components/maps/WorldMap/WorldMap.tsx:68-71 | The world scale has domain [0, 40] over the palette without its first colour. |
| WorldMap.CountryFill | src/components/maps/WorldMap/WorldMap.tsx:85-95 | The USA is grey. A country with no entry or total 0 gets the first palette colour. Any other country gets the scale's colour for its total. |
| WorldMap.MouseoutFill | src/components/maps/WorldMap/WorldMap.tsx:132-141 | Outside the USA, the restored fill comes from the palette, and a country missing from the heatmap gets `colors[0]`. |
| WorldMap.MouseoutRestoresFill | src/components/maps/WorldMap/WorldMap.tsx:132-141 | Mouseout writes back exactly the initial fill. |
| WorldMap.FillFromPalette | src/components/maps/WorldMap/WorldMap.tsx:85-95 | Every country other than the USA is painted from the palette. |
| WorldMap.CountryMouseDown | src/components/maps/WorldMap/WorldMap.tsx:142-154 | Clicking the USA always stops and navigates home. Any other country behaves like a map click. |
| USMap.Scale | src/components/maps/USMap/USMap.tsx:65-68 | The US scale has domain [0, 5] over the whole palette. |
| USMap.CountyFill | src/components/maps/USMap/USMap.tsx:81-84 | The county colour always comes from the scale's range. A county missing from the heatmap is coloured as a total of 0. The mouseout handler (lines 129-135) computes the same colour. |
| USMap.MissingCountyLooksEmpty | src/components/maps/USMap/USMap.tsx:81-84 | A county missing from the heatmap gets the same colour as one with total 0, and it comes from the palette. The mouseout handler (lines 129-135) computes the same colour. |
| LegacyWorldMap.CountryFill | src/components/WorldMap/WorldMap.tsx:90-100 | The USA is grey. Every other country gets the scale's colour for `total \|\| 0` over the five-colour palette. |
| LegacyWorldMap.CountryWithoutMediaUsesScale | src/components/WorldMap/WorldMap.tsx:90-100 | A country without an entry gets the colour of total 0, from the palette. |
| LegacyUSMap.CountyMouseDown | src/components/USMap/USMap.tsx:138-140 | A county click lets the event through and never asks for a search. |
| LegacyUSMap.MediaMouseDown | src/components/USMap/USMap.tsx:210-213 | A media click stops the event and never asks for a search. |
| LegacyUSMap.ClicksNeverSearch | src/components/USMap/USMap.tsx:138-140 | A county click only logs and lets the event through. A media click only stops it (lines 210-213). A drag end asks for `updateSearchRadius`. |
| LegacyUSMap.CannotZoomOutPastStart | src/components/USMap/USMap.tsx:324-333 | With extent [1, 8], zooming out from any reachable scale never goes below the initial scale 1. It lands on 1 from any scale up to 2, and zooming in then out returns to any scale up to 4. |

## Left out

- Trigonometry and square roots: the haversine central angle and the pointer's pixel distance are inputs. `Math.PI` is the decimal literal of the double, and real arithmetic stands for floating point. NaN and infinities are not modelled, except that a NaN radius argument counts as absent.
- D3 internals are not part of this model:
  - the projections, `geoCircle`/`geoPath` and `d3.color().darker`;
  - the quantize scale, taken as a parameter;
  - zoom gestures, transitions, durations and the zoom translation under `scaleBy`.
- DOM and React plumbing are not part of this model:
  - SVG construction, tooltips, hover darkening, `window.open` on mouseup and `navigate` (modelled as the `NavigateHome` action);
  - effect scheduling, fullscreen sizing and `setTimeout`;
  - the `MapLegend`/`MapControls` UI.
- React's asynchronous state: setters act at once. The one place where this matters is `updateSearch`, whose lookups see the result list of the render they were created in. `World.WorldView.UpdateSearch` takes that list as its `lookup` parameter. The city picker passes the current list. The world map's handlers pass the list of the render that mounted the map (`World.WorldView.OnMapClick`). That list is empty when the map mounts on the first render. It may be non-empty when the map mounts later, after the window grows past the phone breakpoint.
- World.ClosestCity: `findClosestCity(country)` without a location falls back to the geolocation. The view always passes a location, so the fallback is not modelled.
- World.CityKey: the `lat#long` option string and its `parseFloat` round trip are modelled as the pair of numbers, assuming JavaScript's number-to-string conversion reads back exactly.
- World.Cities: the city picker is ordered with `localeCompare`, and the model orders it by code point. The two differ for lowercase and accented names: "Århus" comes after "Zagreb" in the model, while locale collation puts it among the A's.
- TextOrder.StrLt: this is Unicode code-point order, because a Dafny `char` is a scalar value. The default `sort()` compares UTF-16 code units. The two orders differ only between characters above U+FFFF and those in U+E000–U+FFFF. `localeCompare` in the city list is approximated by the same order.
- Home.HomeView.OnSubmit: `Number(data.count)` is taken as an integer; a fractional or NaN count is not modelled.
- MapCore.FindEntry: county codes are compared as normalised strings. The source's loose `==` would also match the number 1001 with the string "01001".
- MapCore.FitTransform: requires a box of positive width and height; a zero-size box divides by zero in the code.
- MapCore.RadiusDrag: a centre outside the projection makes the drag handlers throw (a non-null assertion on null); the model assumes the circle's centre projects.
- The application configuration (`config.colors`) is a parameter `colors` of at least one colour.
- ViteConfig.ParsedRoot: Windows UNC roots (`\\\\server\\share\\`) are not among the roots covered, although one could contain `node_modules` in its server or share name.
- `path.parse(id)` and `path.resolve(__dirname, './src/styles')` are inputs of `ViteConfig.Transform`; the plugins of the libraries are opaque tags.
- The device geolocation request and the `console.warn` messages are outside the model; the report arrives as the argument of `SetGeolocation`.
