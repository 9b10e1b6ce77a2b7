/** The geometries a drawing gesture produces, and which coordinate list the
    waypoint table is built from. */
module Geometry {
  import opened Waypoints

  /** A coordinate pair as the drawn geometry holds it, destructured by the
      distance functions as `[lon, lat]`. */
  datatype Coord = Coord(lon: real, lat: real)

  /** The `type` a draw interaction is created with. */
  datatype GeometryType = LineString | Polygon

  /** The finished feature's geometry. `getCoordinates()` returns a list of
      coordinates for a line string and a list of rings (each a list of
      coordinates, closed by repeating the first one) for a polygon. */
  datatype Geometry =
    | LineGeometry(points: seq<Coord>)
    | PolygonGeometry(rings: seq<seq<Coord>>)

  function TypeOf(g: Geometry): GeometryType
  {
    match g
    case LineGeometry(_) => LineString
    case PolygonGeometry(_) => Polygon
  }

  /** The drawend handlers as written, on a polygon: they map over
      `getCoordinates()`, so every element is a whole ring. `ringDist` is
      what the distance function computes on two rings. */
  function PolygonWaypointsAsWritten(rings: seq<seq<Coord>>, ringDist: (seq<Coord>, seq<Coord>) -> real)
    : (ws: seq<Waypoint<seq<Coord>>>)
    ensures |ws| == |rings|
  {
    Build(rings, ringDist)
  }

  /** A drawn polygon has one ring; as written, its table gets a single row
      holding the whole ring with distance 0, however many vertices the
      ring has. */
  lemma PolygonAsWrittenSingleRow(ring: seq<Coord>, ringDist: (seq<Coord>, seq<Coord>) -> real)
    requires |ring| >= 4
    ensures PolygonWaypointsAsWritten([ring], ringDist) == [Waypoint(ring, 0.0)]
    ensures |PolygonWaypointsAsWritten([ring], ringDist)| < |ring|
  {
  }

  /** The vertex list the waypoints are meant to follow: the points of a line
      string, the outer ring of a polygon (closing vertex included, so the
      closing leg's length is shown). */
  function Route(g: Geometry): (route: seq<Coord>)
    ensures g.LineGeometry? ==> route == g.points
    ensures g.PolygonGeometry? && g.rings != [] ==> route == g.rings[0]
    ensures g.PolygonGeometry? && g.rings == [] ==> route == []
  {
    match g
    case LineGeometry(points) => points
    case PolygonGeometry(rings) => if rings == [] then [] else rings[0]
  }

  /** The waypoint list a finished geometry yields: one waypoint per vertex. */
  function RouteWaypoints(g: Geometry, dist: (Coord, Coord) -> real): (ws: seq<Waypoint<Coord>>)
    ensures Coordinates(ws) == Route(g)
    ensures Chained(ws, dist)
  {
    Build(Route(g), dist)
  }

  /** For a line string the corrected list is exactly what the handlers build
      from `getCoordinates()`; for a drawn polygon it has one waypoint per
      ring vertex, each leg labelled with its length. */
  lemma RouteWaypointsAgree(g: Geometry, dist: (Coord, Coord) -> real)
    ensures g.LineGeometry? ==> RouteWaypoints(g, dist) == Build(g.points, dist)
    ensures g.PolygonGeometry? && |g.rings| == 1 ==>
              |RouteWaypoints(g, dist)| == |g.rings[0]|
              && forall i :: 0 < i < |g.rings[0]| ==>
                   RouteWaypoints(g, dist)[i].distance == dist(g.rings[0][i - 1], g.rings[0][i])
  {
  }
}
