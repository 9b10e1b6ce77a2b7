# Map_app waypoint session, modelled in Dafny

The application lets a user draw a line string or a polygon on a map. When the
drawing ends, it turns the drawn vertices into a list of waypoints. Each
waypoint carries its coordinates and the length of the leg that ends at it
(0 for the first). The list is shown in a modal table whose rows are labelled
`WP00`, `WP01`, … and whose first distance cell reads `--`.

Two components do this, with the same logic written twice:

- `src/App.js` uses a great-circle (haversine) distance and shows the table itself.
- `src/Map.js` uses a flat 111000-metres-per-degree distance and splits the
  `drawend` work over two listeners.

The model:

- `Waypoints` (waypoints.dfy): the waypoint builder. It is generic in the
  coordinate type and in the distance function, so its properties hold for
  either formula.
- `Geometry` (geometry.dfy): coordinates, the two geometry types, and which
  vertex list the waypoints follow (see Findings).
- `FlatDistance` (flat_distance.dfy): the map component's flat distance over
  the reals. `Math.sqrt` is characterised by what it returns: the
  non-negative root of its argument.
- `WaypointTable` (waypoint_table.dfy): the `WP` row label, the `--` cell and
  the table rows.
- `Interactions` (interactions.dfy): draw interactions and the map's set of
  active interactions. Removing an interaction that is not there does nothing.
- `AppComponent` (app_component.dfy) and `MapComponent` (map_component.dfy):
  one class per component. Each class holds `drawInteraction`, `waypoints`,
  `modalOpen` and the map. Each handler is a method whose `modifies` clause
  names exactly the state it sets. The invariant `Valid()` says that at most
  one draw interaction is on the map and that it is the recorded one. In the
  map component it also says that the distance is the flat approximation.

Neither component keeps a drawing status (idle, drawing, completed) or has a
reset operation. A `drawend` is handled the same way whether or not a
`drawstart` came before it. The model follows the code in this.

The distance function is a parameter. Each component class holds it as a
constant field, supplied when the component is created. The builder takes it
as an argument. The map component requires it to be the flat distance of
`FlatDistance`; the App component accepts any function.

## Model

| member | source | states |
|---|---|---|
| Waypoints.Build | src/App.js:101-104 | the list has the input's coordinates, in order and one per input point (so empty input gives an empty list); the first distance is 0 and every later one is the distance from the previous point |
| Waypoints.BuildUnique | src/Map.js:61-65 | any list with the input's coordinates whose first distance is 0 and whose later distances are the per-leg distances equals the built list, so Build's contract characterises it |
| Waypoints.BuildAt | src/App.js:103 | entry i has coordinates coords[i]; its distance is 0 when i is 0 and Dist(coords[i-1], coords[i]) otherwise |
| Waypoints.BuildAppend | src/App.js:101-104 | one more input point appends one waypoint, carrying the new leg's distance, and leaves the earlier waypoints unchanged |
| Waypoints.BuildPrefix | src/Map.js:61-65 | the list built from a prefix of the points is the same prefix of the full list |
| Waypoints.BuildNonNegative | src/App.js:103 | with a distance function that is never negative, no waypoint distance is negative |
| Waypoints.BuildShort | src/App.js:101-104 | zero points give no waypoints; one point p gives exactly [{p, 0}] |
| Geometry.PolygonWaypointsAsWritten | src/App.js:100-104 | as written on a polygon: one waypoint per ring of getCoordinates() |
| Geometry.PolygonAsWrittenSingleRow | src/App.js:100-104 | as written, a drawn polygon (one ring of 4 or more points) yields the single waypoint {ring, 0}, fewer rows than the ring has points |
| Geometry.RouteWaypoints | src/Map.js:61-65 | the session's waypoint list follows the route's vertices (a line string's points, a polygon's outer ring) and is chained by the distance function |
| Geometry.RouteWaypointsAgree | src/App.js:100-104 | for a line string the list equals the one built from getCoordinates(); for a one-ring polygon it has one waypoint per ring vertex, each carrying its leg's distance |
| FlatDistance.SquaredDelta | src/Map.js:46 | the sum of squared coordinate deltas is never negative |
| FlatDistance.SqrtUnique | src/Map.js:46 | the non-negative square root of a number is unique |
| FlatDistance.FlatDistanceUnique | src/Map.js:42-47 | the flat distance is determined by its two points |
| FlatDistance.FlatDistanceSymmetric | src/Map.js:42-47 | d is the flat distance from a to b exactly when it is the flat distance from b to a |
| FlatDistance.FlatDistanceNonNegative | src/Map.js:42-47 | the flat distance is never negative |
| FlatDistance.FlatDistanceSamePoint | src/Map.js:42-47 | from a point to itself the flat distance is 0, and 0 is the only value it takes there |
| FlatDistance.FlatDistanceKnownValues | src/Map.js:46 | one degree of latitude gives 111000 m; a (3, 4) degree offset gives 555000 m |
| FlatDistance.FlatWaypointsNonNegative | src/Map.js:60-65 | built with the flat distance, every waypoint distance is at least 0, and each leg's distance is the same measured in the other direction |
| WaypointTable.Digit | src/App.js:149 | a value below 10 becomes a decimal digit character |
| WaypointTable.DigitValue | src/App.js:149 | a digit character reads back to the value whose digit it is |
| WaypointTable.Decimal | src/App.js:149 | String(n) consists of decimal digits only; it has one digit exactly when n < 10; it starts with '0' only for n = 0 |
| WaypointTable.DecimalRoundTrip | src/App.js:149 | reading the digits of String(n) gives back n |
| WaypointTable.PadStart | src/App.js:149 | padStart makes the result at least the width long; the original string is its suffix; everything before it is the fill character |
| WaypointTable.RowLabel | src/App.js:149 | the label starts with "WP"; below 10 it is "WP0" followed by the digit; from 10 on it is "WP" followed by the decimal index |
| WaypointTable.RowLabelRoundTrip | src/App.js:149 | the digits after "WP" read back to the row index |
| WaypointTable.RowLabelInjective | src/App.js:149 | two rows with the same label have the same index |
| WaypointTable.Table | src/App.js:146-156 | one row per waypoint, showing that waypoint's coordinates |
| WaypointTable.TableOfBuild | src/App.js:146-156 | row i of a built list's table has label WP<i> and coordinates coords[i]; its distance cell is "--" exactly when i is 0, and otherwise shows the distance from coords[i-1] to coords[i] |
| WaypointTable.TableLabelsDistinct | src/App.js:147-149 | no two rows of a table share a label |
| Interactions.Draw.constructor | src/App.js:90-93 | a new draw interaction has the requested geometry type |
| Interactions.MapWidget.constructor | src/App.js:66-80 | a new map has no draw interactions |
| Interactions.MapWidget.AddInteraction | src/App.js:110 | the interaction joins the map's active set |
| Interactions.MapWidget.RemoveInteraction | src/App.js:86-88 | the interaction leaves the active set (set difference, so an absent one changes nothing) |
| AppComponent.App.constructor | src/App.js:39-43 | initial state: no draw interaction, no waypoints, modal closed, empty map |
| AppComponent.App.AddDrawInteraction | src/App.js:85-112 | the previous draw interaction is off the map; a fresh draw of the given type is the only one on the map and is recorded; waypoints and modal unchanged |
| AppComponent.App.DrawStart | src/App.js:95-97 | waypoints become empty; the modal, the recorded interaction and the map are unchanged |
| AppComponent.App.DrawEnd | src/App.js:99-108 | for a geometry of the draw's type: waypoints become the list built from it (for a polygon, the corrected per-vertex list of Geometry.RouteWaypoints; as written the handler builds one waypoint per ring); the modal is open; that draw is removed from the map; the recorded interaction is unchanged |
| AppComponent.App.CloseModal | src/App.js:131 | the modal is closed; waypoints unchanged |
| AppComponent.App.GenerateData | src/App.js:167-170 | the modal is closed; the data handed out is the current waypoint list, which is unchanged |
| MapComponent.MapView.constructor | src/Map.js:15-19 | given the flat distance of src/Map.js:42-47, initial state: no draw interaction, no waypoints, modal closed, empty map |
| MapComponent.MapView.FlatLegs | src/Map.js:42-65 | waypoints built with the component's flat distance are never negative, and each leg's distance is the same measured backwards |
| MapComponent.MapView.AddDrawInteraction | src/Map.js:48-76 | the previously recorded draw is off the map before a fresh draw of the given type is installed and recorded; at most one draw is on the map |
| MapComponent.MapView.DrawStart | src/Map.js:57-59 | waypoints become empty and nothing else changes |
| MapComponent.MapView.DrawEndShowWaypoints | src/Map.js:60-68 | waypoints become the built list (for a polygon, the corrected per-vertex list of Geometry.RouteWaypoints; as written the handler builds one waypoint per ring), none of them with a negative distance; the modal opens; the map is untouched |
| MapComponent.MapView.DrawEndStopDrawing | src/Map.js:70-72 | that draw is removed from the map; nothing else changes |
| MapComponent.MapView.DrawEnd | src/Map.js:60-72 | for a geometry of the draw's type, both listeners in registration order: built waypoints (for a polygon, the corrected per-vertex list of Geometry.RouteWaypoints; as written the handler builds one waypoint per ring), none negative; modal open; draw off the map |
| MapComponent.MapView.CloseModal | src/Map.js:82 | the modal is closed; waypoints unchanged |

`WaypointTable.DistanceCell` and `WaypointTable.CellText` (src/App.js:153)
give the distance cell: `--` on row 0, otherwise the distance.
`TableOfBuild` states their properties. The client method
`AppComponent.RedrawDiscardsPreviousRoute` runs one scenario: a three-point
route, then a redraw with one point. After the redraw only the last point
remains, with distance 0.

## Findings

| source | as written | input that shows it | evidently intended | confidence | as-written member | corrected member |
|---|---|---|---|---|---|---|
| src/App.js:100-104, src/Map.js:61-65 | the `drawend` handler maps over `getCoordinates()`. For a Polygon that value is a list of rings, so the map yields one waypoint per ring, with the whole ring as its coordinates and distance 0 | any drawn polygon, e.g. the ring [a, b, c, a]: the table shows a single row WP00 listing every vertex, and no leg lengths | one waypoint per vertex of the outer ring, each carrying its leg's length (the line-string behaviour) | not executed; rests on OpenLayers' `Polygon.getCoordinates()` returning rings | Geometry.PolygonAsWrittenSingleRow | Geometry.RouteWaypointsAgree |

The session classes use the corrected `Geometry.RouteWaypoints`. For line
strings it equals the list the code builds.

## Left out

- AppComponent.App.DrawEnd, MapComponent.MapView.DrawEndShowWaypoints, MapComponent.MapView.DrawEnd: for a polygon they set the corrected per-vertex list, not the single `{ring, 0}` waypoint the handlers build as written (see Findings). For line strings the two agree.
- AppComponent.App.DrawEnd, MapComponent.MapView.DrawEnd: require the finished geometry to have the draw's type, which the drawing tool guarantees.

- The haversine `calculateDistance` and `toRadians` (src/App.js:45-63) are left out. They use sine, cosine, arctangent, square root and π, which have no faithful model over Dafny's reals. The App component takes its distance function as a parameter.
- FlatDistance: computed over exact reals, not IEEE doubles. `Math.sqrt` is characterised by its result, not computed. Rounding is not modelled.
- A coordinate unit mismatch is not modelled. The drawn coordinates come in the map view's projection, which is Web Mercator metres by default. Both distance formulas read them as longitude/latitude degrees. The model treats coordinates as opaque pairs.
- `toFixed(2)` (src/App.js:153) and `coordinates.join(", ")` (src/App.js:151) are left out. They turn numbers into strings; the distance cell is kept as a value.
- The OpenLayers objects are not modelled: tile layer, OSM source, vector source and layer, view, `fromLonLat` (src/App.js:65-83, src/Map.js:21-41). The map's default navigation interactions are left out too: `MapWidget.interactions` tracks draw interactions only, the only ones the session adds or removes.
- The map is created in each component's constructor. In the source it is created by an effect after the first render, and `map` is null until then; a click before that would throw. The effect's cleanup (`setTarget(null)`) is also not modelled.
- React state setters are modelled as immediate field updates. Their batching and the re-render they cause are not modelled.
- `console.log` of the generated data (src/App.js:169) is I/O. `GenerateData` returns the data instead.
- The table checkboxes (src/App.js:149) are uncontrolled UI state and are not modelled.
- src/CoordinateModal.js is not part of this model. It presents the same list, with the same label format.
- Drawing surface events are method calls in the order the user produces them. The model does not check that a `drawend` comes from the interaction currently on the map, because the handler does not depend on it.
