# Map/AR page router and view state, in Dafny

This project models the logic of the single-page front end in
`src/main.js`. The page shows a Leaflet map of location markers. It opens
a `<model-viewer>` AR view for a selected location and switches between
the two through the URL hash. Two parts are modelled:

- **The hash router** (module `Routing`). It covers the classification of
  `location.hash` into the map, `AR(id)` or not-found route, the regular
  expression `^#\/ar\/(\d+)$`, and the `locations.find` lookup with strict
  equality. It also covers the hash that `goToAR` writes (`#/ar/${id}`).
- **The view-state hand-off** (modules `MapView` and `Page`). Class
  `Page.App` holds the module-level state `leafletMap`, `locations`,
  `mapCenter` and `mapZoom`. It also holds the browser state the page
  reads and writes: the hash, whether `router` is installed as the
  `hashchange` listener, and the rendered content of `#app`. Counters of
  created and removed map instances express "exactly one live map". Each
  handler (`init`, `router`, `renderMapView`, `renderARView`,
  `addLocationMarkers`, `goToAR`, the popup button, `locateUser` with its
  outcome) is one method.

The Leaflet map is a value `MapWidget`: its camera, markers, circles and
the locate button of its custom control. Coordinates and radii are `Num`,
an opaque label for a JavaScript number. Its integer tag only tells values
apart, because the page only stores, compares and passes them on. The two
literal points of the page use tags equal to their values in millionths,
so `[41.149819, -8.628316]` is `LatLng(Num(41149819), Num(-8628316))`.
A record id is a JSON string or an integral JSON number (`Values.Id`).
Only a string id can be strictly equal to the digits the router captures.

The fetch outcome, the geolocation outcome and the user's pan/zoom are
inputs. They are the `load` argument of `Init`, the `outcome` argument of
`LocateUser` and `MoveMap`.

Behaviour of the code worth noting:
- Rendering the AR or not-found view does not remove the map instance;
  `leafletMap` stays set until the next map view removes it.
- The saved zoom is restored through `||`, so a saved zoom of 0 reopens at 13.
- An AR hash whose id is not found falls back to not-found only after the
  lookup, not in the router.

## Model

| member | source | states |
|---|---|---|
| `Routing.DigitRunIsDigitString` | src/main.js:152 | matching `\d+$` character by character accepts exactly the nonempty strings of ASCII digits |
| `Routing.MatchLiteral` | src/main.js:152 | the literal `#/ar/` matches iff it is a prefix of the hash, and what remains is exactly the rest of the hash |
| `Routing.MatchAr` | src/main.js:152 | the hash matches `^#\/ar\/(\d+)$` iff it starts with `#/ar/` and the rest is a nonempty ASCII digit string; the capture is exactly that rest |
| `Routing.RouteOf` | src/main.js:150-160 | the map route only for `""` or `"#"`; an AR route only for `#/ar/` followed by its id, which is a digit string |
| `Routing.RouteOfMapIff` | src/main.js:151-155 | a hash routes to the map iff it is empty or exactly `#` |
| `Routing.RouteOfArIff` | src/main.js:152-157 | a hash routes to `AR(id)` iff it is `#/ar/` followed by `id`, with `id` one or more ASCII digits and nothing else; the captured id is exactly that digit string |
| `Routing.RouteOfNotFoundIff` | src/main.js:150-160 | every other hash routes to not found, so every hash gets exactly one route |
| `Routing.NotFoundExamples` | src/main.js:152-159 | `#/ar/`, `#/ar/12x`, `#/ar/-1`, `#/foo` and `#/` route to not found |
| `Routing.ArHash` | src/main.js:80 | the hash `goToAR` writes is `#/ar/` followed by exactly the id text, and is never the map hash |
| `Routing.IdText` | src/main.js:80 | `${id}` keeps a string id as it is, writes a non-negative number id as a digit string and a negative one with a leading `-` |
| `Routing.ArHashRoundTrip` | src/main.js:80 | routing the hash `goToAR` writes for id text `t` gives `AR(t)` when `t` is a digit string and not found otherwise; it never gives the map |
| `Routing.DigitChar` | src/main.js:80 | each decimal digit of a number's text is an ASCII digit |
| `Routing.NatTextIsDigitString` | src/main.js:80 | a non-negative integral id is written into the hash as a nonempty digit string |
| `Routing.FindIndex` | src/main.js:84 | `locations.find` picks the first record whose id is strictly equal to the requested string; none when no record's id is |
| `Routing.ArViewFor` | src/main.js:83-85 | the AR view is that of the first loaded record whose id is exactly the requested string; it is not found iff no record has that id |
| `Routing.Resolve` | src/main.js:154-159 | the map view exactly for the map route; an AR view only for an AR route, showing a loaded record with that id; not found for the not-found route |
| `Routing.DigitIdOpensItsRecord` | src/main.js:75-85 | with unique ids, following the hash of a record whose id is a digit string opens the AR view of that record |
| `Routing.NumberIdNeverOpens` | src/main.js:80-84 | a record whose id is a JSON number is never opened through its own hash; a negative one routes to not found |
| `MapView.LocationMarkers` | src/main.js:53-55 | one marker per record, in record order, at the record's coordinates and carrying its id |
| `MapView.StartCamera` | src/main.js:121-122 | the start zoom is never 0; a saved center is always used, a saved zoom whenever it is truthy |
| `MapView.SaveCamera` | src/main.js:76-79 | with a live map the saved center and zoom become the live map's; without one they stay as they were |
| `MapView.StartCameraUsesSaved` | src/main.js:121-122 | the new map starts at the saved center when there is one, otherwise `[41.149819, -8.628316]`; at the saved zoom unless it is missing or 0, otherwise 13 |
| `MapView.ArVisitRestoresCamera` | src/main.js:121-123 | after `goToAR` saves a live map's camera, the next map starts at that camera, with zoom 0 replaced by 13 |
| `Page.App.constructor` | src/main.js:6-9 | at start there is no map, no records, no saved center or zoom, and no listener |
| `Page.App.RenderNotFound` | src/main.js:141-148 | shows not found and changes nothing else |
| `Page.App.RenderArView` | src/main.js:83-102 | shows the AR view of the looked-up record or not found, and leaves the map instance in place |
| `Page.App.AddLocationMarkers` | src/main.js:53-73 | the live map's markers are extended by one marker per record, in order |
| `Page.App.RenderMapView` | src/main.js:104-139 | removes any previous map, creates exactly one new one at the saved or default camera with the record markers and an enabled "Center on Me" button; the map-instance invariant holds |
| `Page.App.Router` | src/main.js:150-161 | renders the view the current hash routes to; only the map route creates or removes a map |
| `Page.App.Init` | src/main.js:163-172 | a failed load shows not found with no listener installed; a successful load stores the records, routes once and then installs the listener |
| `Page.App.SetHash` | src/main.js:167 | assigning a different hash runs the router when it is installed; otherwise nothing is rendered |
| `Page.App.GoToAr` | src/main.js:75-81 | saves the live map's center and zoom only when a map exists, sets the hash to `#/ar/<id>`, and never creates or removes a map |
| `Page.App.EnterAr` | src/main.js:65-70 | the popup's "Enter AR" button saves the camera, sets the hash for that marker's record id and, when the hash changed and the listener is installed, shows the AR or not-found view it routes to |
| `Page.App.MoveMap` | src/main.js:77-78 | the user's pan or zoom sets the live camera that `goToAR` later reads |
| `Page.App.LocateUser` | src/main.js:18-50 | on success: view at the position with zoom at most 14, a marker and accuracy circle, button enabled as "Center on Me"; on error: view `[51.505, -0.09]` at zoom 13, button disabled as "Location unavailable" |
| `Page.App.ArVisitKeepsCamera` | src/main.js:121-123 | entering AR from a marker and navigating back to `#` reopens exactly one new map at the camera the user left, zoom 0 excepted |

## Left out

- `fetchModelData` (the `fetch` of `models.json` and JSON parsing) is network I/O. Its outcome is the `load` argument of `Init`: a list of records, or a failed fetch.
- `Page.App.Init`: a response that parses to something other than a list of records is not modelled, and the model does not follow the source for it. In the source that value is stored. On a not-found hash, `router` then succeeds and the listener is installed. On the map hash, a new map is created before `addLocationMarkers` fails, and the failure is caught and shows not found.
- HTML templates (`innerHTML`, popup content, the back link and button) are DOM rendering. A view is recorded as which view is shown and, for AR, which record. Names and ids are not escaped in the source, and this is not modelled.
- `src/leaflet-custom-icons.js` is icon configuration and a truncated near-copy of `src/main.js`. It is not part of this model.
- Leaflet internals are not modelled: the tile layer, opening popups, `getBoundsZoom` (the `fitZoom` input of `LocateUser`) and `DomEvent`. The `<model-viewer>` AR rendering and the geolocation hardware are not modelled either.
- `console.warn`/`console.error` logging is left out.
- Coordinates and radii are opaque labels, not numbers: the doubles the page receives (a panned center, a geolocation position and accuracy) are only told apart, never computed with, and the model does not say which tag a given double gets. Zooms are integers, so fractional zooms are not modelled. No floating-point arithmetic is done on any of them in the source.
- `Routing.IdText` covers string ids and integral numeric ids, and writes every integer with all its decimal digits. JavaScript agrees only up to 2^53: above that it prints the shortest digits that round-trip, padded with zeros (`${2**60}` is `1152921504606847000`), and from 1e21 it uses exponent notation. Non-integral and other JSON id types are not modelled.
- `Page.App.LocateUser`: one locate request is resolved per call. The source registers fresh `once` handlers on every click, and stale handlers from an earlier click could fire on a later event. That interleaving is not modelled.
- `Page.App.SetHash`: `hashchange` fires whenever the assigned string differs from the current one. The browser's treatment of `""` and `"#"` as the same empty fragment is not modelled.
- `Page.App.SetHash` and `Page.App.GoToAr` store the assigned text as it is. The browser percent-encodes some characters of what is assigned to `location.hash`, so the stored hash and the "changed" test can differ from the browser's for such ids. Routing is unaffected, since `#/ar/` and digits are never encoded.
- Event dispatch and `async`/`await` scheduling: each handler runs to completion as one method call.
