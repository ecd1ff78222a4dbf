# coordinatesApp: the navigation loop and polygon capture, in Dafny

This project models the logic of coordinatesApp, a map application. The user sees their live position, picks a
destination from a place search and gets a route with an ETA that refreshes as they move. They can also draw
polygons on the map, and those are saved on a backend. The model covers:

- **Polygon capture** (`Capture`). This is the `PolygonDrawing` layer. A click appends a `[lat, lng]` vertex to
  the draft. A double-click commits the draft once it has at least three vertices. It is modelled as the class
  `PolygonDrawing`, and as a pure step function `Step` with its run over a sequence of events (`Run`).
- **The polygon collection** (`Polygons`, `Frontend.App`). The initial load replaces the collection. Each
  confirmed save appends one `{ coordinates }` record.
- **The route refresh** (`Navigation`, `Frontend.App`). Every location-watch fix overwrites `position` and
  `lastKnownPosition`. Each timer tick takes a fix. It would refetch the route only when `lastKnownPosition`
  is set and the fix is more than 50 meters from it, but as written that branch throws (see "## Findings").
- **The route response** (`Navigation`). The routing answer's `[lon, lat]` path becomes a `[lat, lng]` route.
  Its duration in seconds becomes an ETA in whole minutes, rounded up.
- **Destination selection and the search guard** (`Frontend.App`).
- **The backend** (`Backend`):
  - validation and saving for `POST /api/polygons`, over a stored collection;
  - `GET /api/polygons`;
  - the `lon,lat` query that `/api/getRoute` builds for the routing service.

The React state of `App` is a class. Each setter is a field assignment, and each handler is a method that
modifies only the fields it sets. Every method is specified by a function of the old state and its inputs, and
the properties are lemmas about those functions.

Inputs that come from outside the program are parameters:
- a location fix;
- the outcome of an HTTP call: success with its data, or failure;
- the distance between two points (`Geo.Distance`, a function value);
- the routing service's answer to a query.

Some consequences of the code that the model keeps:
- A null `lastKnownPosition` never triggers a refetch, so a tick before the first watch fix fetches nothing.
- `lastKnownPosition` is overwritten by every watch fix, not only after a refresh.
- There is no at-most-one-in-flight guard, and a late route response is applied whenever it arrives. That is
  why `Tick` and `SelectLocation` return a `RouteRequest`, and `ApplyRouteResponse` is a separate handler.
- A polygon is added to the collection only after its save succeeds. No draft is shown optimistically, so
  nothing is rolled back on failure.

## Model

| member | source | states |
|---|---|---|
| `Capture.PolygonDrawing.constructor` | frontend/src/App.jsx:15 | the draft starts empty |
| `Capture.PolygonDrawing.Click` | frontend/src/App.jsx:18-21 | the clicked point is appended at the end of the draft and earlier vertices are kept |
| `Capture.PolygonDrawing.DoubleClick` | frontend/src/App.jsx:22-27 | with at least 3 vertices it commits exactly the draft and resets it to empty; with fewer it commits nothing and keeps the draft |
| `Capture.Step` | frontend/src/App.jsx:18-27 | one event loses no vertex: the commit, if any, followed by the new draft is the old draft followed by the clicked point, if any; a commit has at least 3 vertices and empties the draft |
| `Capture.StepCommitsIffEnoughVertices` | frontend/src/App.jsx:18-27 | an event commits if and only if it is a double-click on a draft of at least 3 vertices; the commit is the draft itself and the draft becomes empty; a click only appends |
| `Capture.RunKeepsEveryClick` | frontend/src/App.jsx:14-28 | over any events, the committed polygons followed by the current draft are the initial draft followed by every clicked point, in click order |
| `Capture.RunCommitsOnlyPolygons` | frontend/src/App.jsx:22-26 | every polygon committed over any events has at least 3 vertices |
| `Capture.TwoVerticesNeverCommit` | frontend/src/App.jsx:23 | two clicks and a double-click commit nothing and leave the two vertices in the draft |
| `Capture.ThreeVerticesCommitInOrder` | frontend/src/App.jsx:18-26 | three clicks and a double-click commit exactly those three points in click order and empty the draft |
| `Geo.Swap` | frontend/src/App.jsx:123 | the two coordinates of a point are exchanged: the callback `(coord) => [coord[1], coord[0]]`, also the reordering of both points at backend/index.js:63-66 |
| `Geo.SwapAll` | frontend/src/App.jsx:122-124 | the converted path has the same length and, position by position, the two coordinates of each point exchanged |
| `Geo.SwapAllTwice` | frontend/src/App.jsx:122-124 | converting a path twice gives it back |
| `Navigation.MovedFar` | frontend/src/App.jsx:170-173 | the tick's gate: a last known position is set and the fix is more than 50 m from it |
| `Navigation.TickStep` | frontend/src/App.jsx:166-176 | the intended tick always completes; a request goes from the new fix to the destination and makes the fix the last known position; without a request the last known position is kept |
| `Navigation.TickStepAsWritten` | frontend/src/App.jsx:166-176 | the tick as written never changes the last known position, and when it completes it has requested nothing |
| `Navigation.TickRefetchesIffMovedFar` | frontend/src/App.jsx:166-176 | the intended tick requests a route exactly when the last known position is set and the fix is more than 50 m from it; the request goes from the fix to the destination and the fix becomes the last known position; otherwise the last known position is kept |
| `Navigation.TickBoundaries` | frontend/src/App.jsx:170-173 | a null last known position and a move of exactly 50 m never request a route or change the last known position |
| `Navigation.TickRequestsAreSpacedOut` | frontend/src/App.jsx:166-176 | over any run of intended ticks with no watch fix between them, every request goes to the destination and starts more than 50 m from the previous request's start (the first, from the last known position at the start) |
| `Navigation.TickAsWrittenNeverRefetches` | frontend/src/App.jsx:170-176 | as written, a tick never requests a route and never changes the last known position; it throws exactly when the intended tick would refetch |
| `Navigation.TickAsWrittenCounterexample` | frontend/src/App.jsx:174 | a fix 55 m from the last known one makes the intended tick request a route, while the tick as written throws `ReferenceError` |
| `Navigation.EtaMinutes` | frontend/src/App.jsx:128-130 | the ETA is the least whole number of minutes covering the duration: `d <= 60*m` and `60*(m-1) < d`, so a nonzero duration never gives 0 |
| `Navigation.EtaOf125Seconds` | frontend/src/App.jsx:129 | 125 seconds gives an ETA of 3 minutes |
| `Navigation.AfterResponse` | frontend/src/App.jsx:122-133 | the route is replaced wholesale or not at all: afterwards route and ETA are unchanged, or the answer has a first feature with a path and the route is the full conversion of that path |
| `Navigation.ResponseReplacesRoute` | frontend/src/App.jsx:122-130 | an answer with a path and a duration replaces the route by the path in `[lat, lng]` order, point for point and of the same length, and sets the ETA to the duration rounded up to minutes |
| `Navigation.BadResponseKeepsView` | frontend/src/App.jsx:113-133 | a failed request, an answer without features, or a first feature without a path leaves route and ETA unchanged |
| `Polygons.Load` | frontend/src/App.jsx:85-89 | a successful load replaces the collection by the server's list; a failed one leaves it unchanged |
| `Polygons.Settle` | frontend/src/App.jsx:78 | the intended update keeps the current collection as a prefix and adds at most one record |
| `Polygons.SettleAsWritten` | frontend/src/App.jsx:78 | as written, a successful save yields the captured snapshot plus exactly one record, whatever the collection is now; a failed save changes nothing |
| `Polygons.SettleAppendsOne` | frontend/src/App.jsx:71-81 | a successful save appends exactly one record, holding the posted polygon, after all prior entries; a failed save changes nothing |
| `Polygons.SettleAllKeepsEverySave` | frontend/src/App.jsx:69-82 | however saves settle, the intended update yields the prior collection followed by one record per successful save, in settling order |
| `Polygons.SettleAllAsWrittenKeepsOnlyLast` | frontend/src/App.jsx:78 | as written, saves started from the same collection that all succeed leave only the snapshot and the last one |
| `Polygons.LostUpdateCounterexample` | frontend/src/App.jsx:78 | two quick commits that both save leave only the second as written, and both with the intended update |
| `Frontend.App.constructor` | frontend/src/App.jsx:36-43 | every state starts null or empty |
| `Frontend.App.WatchFix` | frontend/src/App.jsx:49-59 | a watch fix sets both `position` and `lastKnownPosition` to the fix |
| `Frontend.App.LoadPolygons` | frontend/src/App.jsx:86-89 | the collection becomes `Load` of the old collection and the response |
| `Frontend.App.PolygonComplete` | frontend/src/App.jsx:69-77 | the polygon is posted unchanged, and the collection its closure captured is remembered |
| `Frontend.App.DrawingDoubleClick` | frontend/src/App.jsx:22-26 | a save is started exactly when the draft has at least 3 vertices, with exactly the draft; the draft is then empty, otherwise unchanged |
| `Frontend.App.SaveSettled` | frontend/src/App.jsx:71-81 | the collection becomes `Settle` of the current collection: one record appended on success, unchanged on failure |
| `Frontend.App.SaveSettledAsWritten` | frontend/src/App.jsx:78 | on success the collection becomes the captured snapshot plus the record |
| `Frontend.App.Tick` | frontend/src/App.jsx:163-181 | `position` becomes the fix; the request and the new `lastKnownPosition` are those of the intended tick; nothing else changes |
| `Frontend.App.TickAsWritten` | frontend/src/App.jsx:165-176 | `position` becomes the fix; it throws exactly when the gate passes, and `lastKnownPosition` never changes |
| `Frontend.App.ApplyRouteResponse` | frontend/src/App.jsx:112-134 | route and ETA become `AfterResponse` of the old ones and the answer |
| `Frontend.App.SelectLocation` | frontend/src/App.jsx:151-157 | the destination becomes `[lat, lon]` and the results are cleared; a route from `position` to `[lat, lon]` is requested exactly when `position` is set |
| `Frontend.App.SetSearchQuery` | frontend/src/App.jsx:205 | the query becomes the typed text |
| `Frontend.App.SearchLocation` | frontend/src/App.jsx:137-148 | a search is sent exactly when the query is non-empty; the results are replaced only by a successful search |
| `Backend.PolygonStore.constructor` | backend/index.js:22-26 | the collection starts empty and valid |
| `Backend.PolygonStore.Post` | backend/index.js:29-45 | a missing list or fewer than 3 points gives 400 with the error message and changes nothing; a failed save gives 500 and changes nothing; otherwise exactly one document with the request's coordinates and a new identity is appended and returned with 201; 201 is returned exactly when the polygon is valid and saved |
| `Backend.PolygonStore.Get` | backend/index.js:48-56 | a successful query returns the whole collection with 200, a failed one 500; nothing changes |
| `Backend.IdsDistinct` | backend/index.js:38-39 | stored polygons have distinct identities |
| `Backend.AcceptsPolygon` | backend/index.js:32 | the POST guard: the coordinates are present and have at least 3 points |
| `Backend.EndCoordinates` | backend/index.js:63 | `endCoordinates[0]` is `end[1]` and `endCoordinates[1]` is `end[0]` |
| `Backend.BuildQuery` | backend/index.js:63-66 | the query keeps the API key, and both its points swap back to the `start` and `end` received |
| `Backend.QueryIsLonLat` | backend/index.js:63-66 | the query sends the start as `start[1],start[0]` and the end as `end[1],end[0]`, so both are in lon,lat order and swap back to the points sent |
| `Backend.GetRoute` | backend/index.js:59-75 | with both points present, the query is built from them and the routing service's data is forwarded exactly when the service answers; otherwise the error is "Failed to fetch route" with status 500; a missing point fails without a query |

## Findings

| source | as written | input that shows it | evidently intended | confidence | as-written member | corrected member |
|---|---|---|---|---|---|---|
| frontend/src/App.jsx:174 | the tick calls `fetchRoute`, which is not defined, so the refetch branch throws `ReferenceError` before `setLastKnownPosition(newPos)`; a tick never refreshes the route | `lastKnownPosition` `[0, 0]`, a destination set, a tick fix `[0, 0.0005]` about 55 m away | call `getRoute(newPos, destination)` and remember `newPos` | not executed; high | `Navigation.TickAsWrittenCounterexample` | `Navigation.TickRefetchesIffMovedFar` |
| frontend/src/App.jsx:78 | `setPolygons([...polygons, …])` reads the collection captured when the save started, so anything added meanwhile is lost | two polygons committed before either POST returns, both saved: the collection ends with only the second | `setPolygons(prev => [...prev, …])` | not executed; medium | `Polygons.LostUpdateCounterexample` | `Polygons.SettleAllKeepsEverySave` |

The same lost update happens when the initial load settles while a save is in flight: the save then writes back the
collection from before the load. `Frontend.App.Tick` and `Frontend.App.SaveSettled` are the corrected handlers.
`Frontend.App.TickAsWritten` and `Frontend.App.SaveSettledAsWritten` keep the code as written.

## Left out

- Rendering is not modelled: the map, tiles, markers, polylines, polygons, the ETA box and the search list (frontend/src/App.jsx:187-295).
- The geolocation platform is not modelled: `watchPosition`, `clearWatch` and `getCurrentPosition`, with their error callbacks, which only log. A fix is an input of `WatchFix` and `Tick`.
- The 10-second `setInterval` and its clean-up are not modelled: timers are platform callbacks. One tick is one call of `Tick`. The timer exists only while a destination is set, which is `Tick`'s precondition.
- When ticks can happen at all is not modelled. The effect that owns the interval tears it down and re-creates it whenever `destination` or `lastKnownPosition` changes (frontend/src/App.jsx:185). Every watch fix sets a fresh `lastKnownPosition` array (frontend/src/App.jsx:55-58), so every watch fix restarts the 10-second wait. While the device keeps reporting fixes more often than every 10 seconds, no tick fires.
- The HTTP calls are not modelled: axios to the backend, the routing service and the place search, and `Polygon.save` and `Polygon.find` on the document store. Their outcomes are inputs.
- `Geo.Distance`: the haversine computation in `getDistance` is floating-point trigonometry. Distances are a function parameter, so the symmetry and zero-distance properties of haversine are not stated.
- `Navigation.EtaMinutes`: durations are whole seconds. The routing service returns fractional seconds, which are not modelled.
- Coordinates are reals. `parseFloat` on the route endpoint is the identity on them, and the Nominatim hits' string `lat`/`lon` are taken as numbers.
- The route endpoint's URL is the structured `Backend.Query`. Number-to-text formatting and the unescaped search-query interpolation are not modelled.
- The model's coordinates are always lists of pairs. The backend accepts any list of at least three elements. A list of triples such as `[[1,2,3],[4,5,6],[7,8,9]]` also matches the schema type `[[Number]]` (backend/index.js:23), so it is stored unchanged and answered with 201. A body whose elements fail the schema cast gets a 500, which `saveOk = false` covers.
- The Mongo connection, schema, Express set-up and `listen` (backend/index.js:1-26, 77-78) are not modelled. Document fields other than the identity and the coordinates are left out too.
- A browser double-click also delivers two clicks to the layer first. The model takes events as the layer receives them, one by one.
- React's batching and re-rendering are not modelled. Each handler sees the state of the last completed update, except the captured snapshot modelled in `PendingSave`.
