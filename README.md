# Airspace viewer core, modelled in Dafny

This project models the three pieces of logic in the cesium-shape-viewer demo:

- **the query service** (`server.js`): it filters the in-memory airspace records by a viewport box, builds that box from the query string, answers `GET /api/airspaces` with `count` and `totalAvailable`, and looks up `GET /api/airspaces/:id`;
- **the synthetic record generator** (`generateAirspaceDataset` in `generateAirspaceData.js`): it runs a counted loop that builds 10,000 records from random draws;
- **the record-to-entity adapter** (`renderAirspaceShapes` in `src/App.tsx`): it clears the viewer's `airspace_*` entities, adds one ellipse or cylinder per record, and runs only when a fetch brings a non-empty list.

Modules, one per file:

| file | module | models |
|---|---|---|
| wrappers.dfy | `Wrappers` | `Option`, for an absent JSON field or a failed search |
| jsmath.dfy | `JsMath` | `Math.min` and `Math.max` on reals |
| sequences.dfy | `Sequences` | `Array.prototype.filter` and `Array.prototype.find`, with full characterisations |
| airspace.dfy | `Airspace` | the `AirspaceShape` record, its dimension keys, and decimal printing of the record index |
| server.js → server.dfy | `Server` | the viewport filter, the bounds-from-query rule, both responses |
| generateAirspaceData.js → generator.dfy | `Generator` | the generation loop and the per-record specification |
| src/App.tsx → render.dfy | `Render` | the entity collection (a class updated in place), the axis mapping, the render guard |
| pipeline.dfy | `Pipeline` | properties of the generated file as served and drawn |

The server code is pure: filter, find and record building become functions and lemmas. The generator is imperative. `GenerateAirspaceDataset` is a `while` loop, and each iteration is a method (`GenerateAirspace`, with `PlaceCenter` and `BuildDimensions`). Each of these is proved equal to a specification function (`GeneratedDataset`, `GeneratedAirspace`). The properties of the generated records are lemmas about those functions.

The viewer's entity list is the `values` field of the class `Render.EntityCollection`. `ClearAirspaceEntities` removes entities from it in place, one position at a time. `AddAirspaceEntities` appends to it. Both are proved against the function `Rendered`, and the lemmas state what a render leaves in the list.

Each `Math.random()` call of one generator iteration is a field of a `Generator.Draws` value. The field is any real in [0, 1). `parseFloat` is a function parameter of `Server.ParseBounds`. All numbers are mathematical reals.

### Where the code and its comment disagree

The comment at `server.js:42` and the branch at `server.js:46-49` treat a box with west > east as crossing the meridian. For example, `{north: 10, south: -10, east: -170, west: 170}` would then hold longitudes 179 and -179 but not 0. The code does the opposite. It first sorts west and east with `Math.min`/`Math.max` (`server.js:35-36`), so the wrap-around branch is never taken. That box then selects the longitudes from -170 to 170.

The model follows the code. `Server.WrapBranchUnreachable` proves the branch is dead. `Server.MeridianBoxAsWritten` proves that this box keeps longitude 0 and drops 179 and -179. The wrap-around reading is not modelled.

## Model

| member | source | states |
|---|---|---|
| `JsMath.Min` | server.js:33-35 | The result is at most both arguments and is one of them. |
| `JsMath.Max` | server.js:34-36 | The result is at least both arguments and is one of them. |
| `Sequences.Filter` | server.js:38-52 | The result is no longer than the input. Every element of the result comes from the input and satisfies the predicate. Every input element that satisfies the predicate is in the result. |
| `Sequences.KeptIndicesExact` | server.js:38-52 | The kept positions are in range and strictly increasing. A position is kept exactly when its element satisfies the predicate. |
| `Sequences.FilterAtKeptIndices` | server.js:38-52 | The k-th filtered element is the input element at the k-th kept position. |
| `Sequences.FilterSelectsKeptIndices` | server.js:38-52 | `filter` returns the order-preserving subsequence at exactly the positions whose element satisfies the predicate. |
| `Sequences.FindIndex` | server.js:89 | A reported position holds a match and no earlier position does. No position is reported only when nothing matches. |
| `Sequences.Find` | server.js:89 | `find` gives `undefined` exactly when no element matches. Otherwise it gives a matching element with no match before it. |
| `Sequences.FilterInPlaceStep` | src/App.tsx:71-75 | One step of removing in place keeps the list equal to "filtered prefix ++ unvisited rest". |
| `Sequences.FilterPrefixStep` | src/App.tsx:71-75 | Filtering one more element appends it exactly when it satisfies the predicate. |
| `Sequences.FilterAppend` | src/App.tsx:71-75 | Filtering a concatenation is the concatenation of the filtered parts. |
| `Sequences.FilterAllKept` | src/App.tsx:71-75 | A list whose every element passes the predicate is unchanged by filtering. |
| `Sequences.FilterNoneKept` | src/App.tsx:71-75 | A list none of whose elements passes the predicate filters to empty. |
| `Sequences.FilterIdempotent` | src/App.tsx:71-75 | Clearing twice is clearing once. |
| `Airspace.NatToString` | generateAirspaceData.js:95 | The decimal text of the index is non-empty and made only of digits. |
| `Airspace.ParseNatToString` | generateAirspaceData.js:95 | Reading the decimal text back gives the number: the round trip. |
| `Airspace.NatToStringInjective` | generateAirspaceData.js:95 | Different indices print differently. |
| `Server.NormalizeBounds` | server.js:33-36 | The box is ordered (min ≤ max for latitude and for longitude). Each pair is the pair of the given bounds. |
| `Server.WrapBranchUnreachable` | server.js:44-49 | After normalisation min ≤ max longitude always holds, so the meridian branch never runs. The longitude test is the plain range test. |
| `Server.InBoxIffWithin` | server.js:38-51 | A center passes the code's test exactly when its latitude lies between south and north and its longitude between west and east, in either order, edges included. |
| `Server.FilterAirspacesByBounds` | server.js:29-56 | The result is no longer than the dataset and holds only dataset records. |
| `Server.NoBoundsReturnsAll` | server.js:29-32 | Without bounds the whole dataset is returned unchanged, in the same order. |
| `Server.FilterSelectsWithin` | server.js:38-55 | With bounds, the result is the subsequence of the records, in their order, at exactly the positions whose center is within the bounds. |
| `Server.FilterSymmetric` | server.js:33-36 | Swapping north with south, or east with west, gives the same result. |
| `Server.EdgesInclusive` | server.js:45-51 | A record within the bounds whose latitude is on the north or south edge, or whose longitude is on the east or west edge, is returned. |
| `Server.NewYorkViewport` | src/App.tsx:59-64 | (40, -75) is in the client's fallback viewport north 45, south 35, east -70, west -80, once the server filters by it. It is not in the same box with west -74. |
| `Server.MeridianBoxAsWritten` | server.js:42-49 | West 170 with east -170 keeps longitude 0 and drops 179 and -179. |
| `Server.ParseBounds` | server.js:61-69 | Bounds exist exactly when all four parameters are present and non-empty. Each field is parsed from the parameter of the same name. |
| `Server.GetAirspaces` | server.js:59-84 | The response is a success. `data` is the viewport filter applied to the dataset with the parsed bounds, so `Server.FilterSelectsWithin` fixes it exactly. With no bounds it is the whole dataset. `count` is the length of `data`, and `totalAvailable` is the dataset size whatever the bounds. `bounds` echoes the parsed bounds. |
| `Server.MissingParameterReturnsAll` | server.js:61-79 | A missing or empty parameter yields the whole dataset, with `count == totalAvailable`. |
| `Server.GetAirspaceById` | server.js:87-106 | `success` is true exactly when the record is found. Not found (404, "Airspace not found") exactly when no record has the id. Otherwise 200 with the first record having that id. |
| `Server.LookupKnownId` | server.js:89-97 | With unique ids, looking up a record's id returns that very record. |
| `Generator.PickIndex` | generateAirspaceData.js:35-43 | For a draw in [0, 1), `floor(r * n)` is a valid index into an n-entry list. |
| `Generator.Clamp` | generateAirspaceData.js:53-54 | The result lies in [lo, hi]. An in-range value is unchanged, and an out-of-range value goes to the nearer limit. |
| `Generator.PlaceCenter` | generateAirspaceData.js:39-54 | The placement and clamping steps give the clamped raw position. |
| `Generator.BuildDimensions` | generateAirspaceData.js:59-92 | The `switch` yields the dimensions specified for the shape type. |
| `Generator.GenerateAirspace` | generateAirspaceData.js:35-109 | One iteration builds exactly the specified record for its index and draws. |
| `Generator.GenerateAirspaceDataset` | generateAirspaceData.js:4-115 | The loop yields the specified dataset: exactly 10,000 records, the k-th with id `airspace_k` (k from 1). |
| `Generator.ShapeDimensionsMatchKind` | generateAirspaceData.js:59-92 | Each shape type's dimensions carry exactly its own keys. Every dimension lies in its documented range. |
| `Generator.NearCityPlacement` | generateAirspaceData.js:41-45 | Near-city placement stays within 5 degrees of the chosen city before clamping. |
| `Generator.GlobalPlacement` | generateAirspaceData.js:46-50 | Global placement lies in [-90, 90) by [-180, 180) before clamping. |
| `Generator.GeneratedAirspaceWellFormed` | generateAirspaceData.js:35-109 | Every generated record has: id `airspace_i`; name `type_i` for one of the five types; a listed shape and colour; latitude in [-85, 85] and longitude in [-180, 180]; altitude in [500, 8500); opacity in [0.2, 0.8); `outline` true and outline colour `#FFFFFF`; exactly the keys of its shape type, each value in range. |
| `Generator.AirspaceIdInjective` | generateAirspaceData.js:95 | Different indices give different ids. |
| `Generator.GeneratedIdsUnique` | generateAirspaceData.js:34-111 | The dataset has 10,000 records with ids `airspace_1`..`airspace_10000` in order. No two ids are equal. |
| `Render.SortedAxes` | src/App.tsx:106-107 | Major ≥ minor, and the pair is the two inputs in some order. |
| `Render.EllipseAxes` | src/App.tsx:104-147 | For every non-circular shape the major axis is at least the minor axis. |
| `Render.EntityFor` | src/App.tsx:79-90 | The entity is named by the record's id and placed at its center. |
| `Render.EntitiesFor` | src/App.tsx:78-90 | One entity per record, in order, each named by that record's id and placed at its center. |
| `Render.CircleGeometry` | src/App.tsx:93-101 | A circle becomes a cylinder of length 1000 whose top and bottom radius both equal the record's radius. |
| `Render.OvalGeometry` | src/App.tsx:104-118 | An oval becomes an ellipse with major ≥ minor. The pair is the record's two axes (missing or zero read as 0), and axes already in order pass through unchanged. |
| `Render.RectangleGeometry` | src/App.tsx:120-136 | A rectangle becomes an ellipse with major ≥ minor, whose doubled axes are width and height. A missing or zero width is 30000 and height 20000. |
| `Render.TrackGeometry` | src/App.tsx:138-154 | A track becomes an ellipse with major ≥ minor, whose doubled axes are length and width. A missing or zero length is 50000 and width 15000. |
| `Render.DefaultRectangle` | src/App.tsx:122-125 | With no usable width or height, a rectangle is a 15000 × 10000 ellipse. |
| `Render.DefaultTrack` | src/App.tsx:140-143 | With no usable length or width, a track is a 25000 × 7500 ellipse. |
| `Render.EntityCollection.Add` | src/App.tsx:157 | The entity is appended. |
| `Render.EntityCollection.RemoveAt` | src/App.tsx:73 | The entity at the position is removed and the rest keep their order. |
| `Render.EntityCollection.ClearAirspaceEntities` | src/App.tsx:70-75 | The list becomes the original list without its `airspace_*` entities, order kept. |
| `Render.EntityCollection.AddAirspaceEntities` | src/App.tsx:77-158 | One entity per record is appended, in record order. |
| `Render.EntityCollection.RenderAirspaceShapes` | src/App.tsx:67-159 | The new list is the old non-`airspace_*` entities followed by one entity per record. |
| `Render.RenderedContents` | src/App.tsx:67-159 | After a render: the non-prefixed old entities come first, as an order-preserving selection of exactly those entities. No prefixed old entity survives. Then the record entities follow, each named by its record's id. |
| `Render.PrefixedEntitiesCleared` | src/App.tsx:71-90 | Every entity drawn for records whose ids start with `airspace_` is removed by the next clear. |
| `Render.RenderAgainReplaces` | src/App.tsx:71-90 | Rendering after a render of records with `airspace_` ids equals rendering once: every earlier airspace entity is replaced. |
| `Render.OnAirspacesChanged` | src/App.tsx:240-244 | With a viewer and a non-empty list the viewer is re-rendered. An empty list leaves the entities untouched. |
| `Pipeline.LookupGeneratedId` | server.js:89-97 | In a generated dataset, `airspace_i` finds record i for 1 ≤ i ≤ 10000. Any other index gives 404. |
| `Pipeline.ViewportRedrawReplaces` | src/App.tsx:71-75 | Redrawing a generated dataset for a new viewport replaces all records drawn for the previous one. |

## Left out

- Express wiring, CORS, `app.listen`, the health endpoint and `process.uptime()` (`server.js:10-14`, `108-123`) are HTTP and process plumbing.
- The `setTimeout` response delays (`server.js:74-83`, `99-105`) are not modelled: responses are returned at once. The `timestamp` fields are left out, because they read the clock.
- Loading the dataset file (`fs.readFileSync`, `JSON.parse`, `process.exit` at `server.js:17-26`) and writing it (`generateAirspaceData.js:118-120`) are file I/O. The dataset is a given value. The serialise-then-reload round trip is therefore not modelled.
- `parseFloat` is a parameter. What NaN does to the comparisons is not modelled, and neither is a repeated query parameter, which Express turns into an array.
- `Math.random()` is replaced by one `Draws` value per iteration. The order in which draws are taken from the single random stream is not modelled, and neither is the unused draw of the branch not taken.
- The `description` strings (`generateAirspaceData.js:60-90`, `src/App.tsx:89`) use template literals, `Math.round` and number formatting. Records and entities carry no description.
- Floating point: all numbers are mathematical reals, so rounding in `r * n`, in the affine ranges and in `/ 2` is not modelled.
- Cesium calls are foreign library code. A material keeps the CSS colour string and alpha instead of `Color.fromCssColorString(...).withAlpha(...)`. The position is the record's center instead of `Cartesian3.fromDegrees`. The ellipse rotation stays in degrees instead of `CesiumMath.toRadians`. The viewer, camera, terrain, imagery and `getCurrentMapBounds` (`src/App.tsx:45-65`) are left out.
- Removing entities inside `entities.values.forEach` (`src/App.tsx:71-75`) may skip elements, depending on Cesium's collection internals. The model removes every `airspace_*` entity, which is the intended effect.
- Entity names are strings, and an unnamed entity has the empty name. Both are falsy and never start with `airspace_`, so they are kept as in the source.
- React state, the debounce timer, `fetchAirspaces`, JSX and the control panel (`src/App.tsx:18-43`, `161-237`, `246-317`) are UI and async concerns.
- `src/services/airspaceService.ts` is a `fetch` client. It is not part of this model, apart from its `AirspaceShape` field list.
- `vite.config.ts` is build configuration and is not part of this model.
- `Server.FilterAirspacesByBounds`: its own contract only bounds the result. The exact selection, order and no-bounds behaviour are stated by `Server.FilterSelectsWithin` and `Server.NoBoundsReturnsAll`.
